/**
 * League standings (src/components/src/components/Standings.tsx): the round
 * table, the per-period point totals, the view-mode switch with its silent
 * fallback, the ranking sort, the titles and the used-players tracker.
 * Points are exact reals.
 */
module Standings {
  import Text

  const RegularSeasonWeeks: nat := 17
  const PlayoffWeeks: seq<int> := [18, 19, 20]
  /** The week the page is fixed at. */
  const CurrentWeek: int := 3

  /** The playoff badge and rules text show when the current week is past the regular season. */
  predicate IsPlayoffs(currentWeek: int)
  {
    currentWeek > RegularSeasonWeeks
  }

  /** Among the weeks 1..20 the page offers, the playoffs are exactly weeks 18, 19 and 20. */
  lemma PlayoffsAreThePlayoffWeeks(week: int)
    requires 1 <= week <= 20
    ensures IsPlayoffs(week) <==> week in PlayoffWeeks
  {
  }

  /** The `rounds` table: four regular-season rounds and three one-week playoff rounds. */
  datatype Round = Round1 | Round2 | Round3 | Round4 | Playoff1 | Playoff2 | Playoff3
  {
    function Weeks(): seq<int>
    {
      match this
      case Round1 => [1, 2, 3, 4, 5]
      case Round2 => [6, 7, 8, 9]
      case Round3 => [10, 11, 12, 13]
      case Round4 => [14, 15, 16, 17]
      case Playoff1 => [18]
      case Playoff2 => [19]
      case Playoff3 => [20]
    }
  }

  /** Weeks 1..n in order. */
  function WeekRange(n: nat): (r: seq<int>)
    ensures |r| == n && forall i :: 0 <= i < n ==> r[i] == i + 1
  {
    seq(n, i => i + 1)
  }

  /** The four regular-season rounds, laid end to end, are weeks 1..17 in order. */
  lemma RoundsPartitionRegularSeason()
    ensures Round1.Weeks() + Round2.Weeks() + Round3.Weeks() + Round4.Weeks() == WeekRange(RegularSeasonWeeks)
  {
  }

  /** No two distinct rounds share a week, and the playoff rounds are weeks 18, 19, 20. */
  lemma RoundsDisjoint(a: Round, b: Round, w: int)
    requires a != b
    ensures !(w in a.Weeks() && w in b.Weeks())
    ensures Playoff1.Weeks() + Playoff2.Weeks() + Playoff3.Weeks() == PlayoffWeeks
  {
  }

  /** `weeklyPoints[index] || 0`: the value at an index, or 0 past either end. */
  function WeekValue(weeklyPoints: seq<real>, index: int): real
  {
    if 0 <= index < |weeklyPoints| then weeklyPoints[index] else 0.0
  }

  /** `calculateRoundPoints`: a left fold over the round's weeks of value × multiplier. */
  function RoundPoints(weeklyPoints: seq<real>, roundWeeks: seq<int>, multiplier: real): real
    decreases |roundWeeks|
  {
    if roundWeeks == [] then 0.0
    else RoundPoints(weeklyPoints, roundWeeks[..|roundWeeks| - 1], multiplier)
         + WeekValue(weeklyPoints, roundWeeks[|roundWeeks| - 1] - 1) * multiplier
  }

  /** `reduce((sum, p) => sum + p, 0)`. */
  function Sum(s: seq<real>): real
  {
    if s == [] then 0.0 else Sum(s[..|s| - 1]) + s[|s| - 1]
  }

  /** `reduce((sum, p) => sum + p * 1.5, 0)`, the playoff half of `calculateSeasonTotal`. */
  function PlayoffSum(s: seq<real>): real
  {
    if s == [] then 0.0 else PlayoffSum(s[..|s| - 1]) + s[|s| - 1] * 1.5
  }

  /** `slice(0, n)`: at most the first n entries. */
  function Prefix(s: seq<real>, n: nat): (r: seq<real>)
    ensures |r| <= n && |r| <= |s|
  {
    if n <= |s| then s[..n] else s
  }

  /** `slice(n)`: the entries after the first n. */
  function Suffix(s: seq<real>, n: nat): seq<real>
  {
    if n <= |s| then s[n..] else []
  }

  /** The 'season' total: the first 17 entries at 1×. */
  function RegularSeasonTotal(weeklyPoints: seq<real>): real
  {
    Sum(Prefix(weeklyPoints, RegularSeasonWeeks))
  }

  /** `calculateSeasonTotal`: the first 17 entries at 1×, every later entry at 1.5×. */
  function SeasonTotal(weeklyPoints: seq<real>): real
  {
    RegularSeasonTotal(weeklyPoints) + PlayoffSum(Suffix(weeklyPoints, RegularSeasonWeeks))
  }

  function PlayoffsTotal(weeklyPoints: seq<real>): real
  {
    RoundPoints(weeklyPoints, Playoff1.Weeks(), 1.5)
    + RoundPoints(weeklyPoints, Playoff2.Weeks(), 1.5)
    + RoundPoints(weeklyPoints, Playoff3.Weeks(), 1.5)
  }

  /** The view modes the switch recognises. */
  predicate IsKnownMode(standingsType: string)
  {
    standingsType in {"overall", "season", "week", "round1", "round2", "round3", "round4",
                      "playoff1", "playoff2", "playoff3", "playoffsTotal"}
  }

  /** The switch in `getTeamStandings`: a team's points for a view mode. */
  function ViewPoints(weeklyPoints: seq<real>, standingsType: string, selectedWeek: int): real
  {
    match standingsType
    case "overall" => SeasonTotal(weeklyPoints)
    case "season" => RegularSeasonTotal(weeklyPoints)
    case "week" => WeekValue(weeklyPoints, selectedWeek - 1)
    case "round1" => RoundPoints(weeklyPoints, Round1.Weeks(), 1.0)
    case "round2" => RoundPoints(weeklyPoints, Round2.Weeks(), 1.0)
    case "round3" => RoundPoints(weeklyPoints, Round3.Weeks(), 1.0)
    case "round4" => RoundPoints(weeklyPoints, Round4.Weeks(), 1.0)
    case "playoff1" => RoundPoints(weeklyPoints, Playoff1.Weeks(), 1.5)
    case "playoff2" => RoundPoints(weeklyPoints, Playoff2.Weeks(), 1.5)
    case "playoff3" => RoundPoints(weeklyPoints, Playoff3.Weeks(), 1.5)
    case "playoffsTotal" => PlayoffsTotal(weeklyPoints)
    case _ => SeasonTotal(weeklyPoints)
  }

  // ---------------------------------------------------------------------------
  // Round and season arithmetic

  /** The multiplier factors out of a round total. */
  lemma {:induction false} RoundPointsScaled(weeklyPoints: seq<real>, roundWeeks: seq<int>, multiplier: real)
    ensures RoundPoints(weeklyPoints, roundWeeks, multiplier) == multiplier * RoundPoints(weeklyPoints, roundWeeks, 1.0)
    decreases |roundWeeks|
  {
    if roundWeeks != [] {
      RoundPointsScaled(weeklyPoints, roundWeeks[..|roundWeeks| - 1], multiplier);
    }
  }

  /** A round total over consecutive week lists is the sum of the two totals. */
  lemma {:induction false} RoundPointsConcat(weeklyPoints: seq<real>, a: seq<int>, b: seq<int>, multiplier: real)
    ensures RoundPoints(weeklyPoints, a + b, multiplier)
         == RoundPoints(weeklyPoints, a, multiplier) + RoundPoints(weeklyPoints, b, multiplier)
    decreases |b|
  {
    if b == [] {
      assert a + b == a;
    } else {
      var b' := b[..|b| - 1];
      assert (a + b)[..|a + b| - 1] == a + b';
      RoundPointsConcat(weeklyPoints, a, b', multiplier);
    }
  }

  /** Summing weeks 1..n at 1× is summing the first n entries (missing weeks count 0). */
  lemma {:induction false} RoundPointsOfWeekRange(weeklyPoints: seq<real>, n: nat)
    ensures RoundPoints(weeklyPoints, WeekRange(n), 1.0) == Sum(Prefix(weeklyPoints, n))
  {
    if n > 0 {
      assert WeekRange(n)[..n - 1] == WeekRange(n - 1);
      RoundPointsOfWeekRange(weeklyPoints, n - 1);
      assert RoundPoints(weeklyPoints, WeekRange(n), 1.0)
          == RoundPoints(weeklyPoints, WeekRange(n - 1), 1.0) + WeekValue(weeklyPoints, n - 1);
      if n <= |weeklyPoints| {
        var p := Prefix(weeklyPoints, n);
        assert p[..n - 1] == Prefix(weeklyPoints, n - 1);
        assert Sum(p) == Sum(p[..n - 1]) + weeklyPoints[n - 1];
      } else {
        assert Prefix(weeklyPoints, n) == Prefix(weeklyPoints, n - 1);
      }
    }
  }

  /** A playoff sum is 1.5 times the plain sum. */
  lemma {:induction false} PlayoffSumScaled(s: seq<real>)
    ensures PlayoffSum(s) == 1.5 * Sum(s)
  {
    if s != [] {
      PlayoffSumScaled(s[..|s| - 1]);
    }
  }

  /** A one-week round at 1.5× is 1.5 times that week's value, or 0 when the week is missing. */
  lemma PlayoffRoundIsOneWeek(weeklyPoints: seq<real>, r: Round)
    requires r in {Playoff1, Playoff2, Playoff3}
    ensures RoundPoints(weeklyPoints, r.Weeks(), 1.5) == 1.5 * WeekValue(weeklyPoints, r.Weeks()[0] - 1)
  {
    assert r.Weeks()[..0] == [];
  }

  /** The sum of at most three entries, spelled out. */
  lemma SumUpToThree(s: seq<real>)
    requires |s| <= 3
    ensures Sum(s) == WeekValue(s, 0) + WeekValue(s, 1) + WeekValue(s, 2)
  {
  }

  // ---------------------------------------------------------------------------
  // What each view mode computes

  /** The 'season' view equals round1 + round2 + round3 + round4. */
  lemma SeasonIsSumOfRounds(weeklyPoints: seq<real>, selectedWeek: int)
    ensures ViewPoints(weeklyPoints, "season", selectedWeek)
         == ViewPoints(weeklyPoints, "round1", selectedWeek) + ViewPoints(weeklyPoints, "round2", selectedWeek)
          + ViewPoints(weeklyPoints, "round3", selectedWeek) + ViewPoints(weeklyPoints, "round4", selectedWeek)
  {
    var r1, r2, r3, r4 := Round1.Weeks(), Round2.Weeks(), Round3.Weeks(), Round4.Weeks();
    RoundsPartitionRegularSeason();
    RoundPointsOfWeekRange(weeklyPoints, RegularSeasonWeeks);
    RoundPointsConcat(weeklyPoints, r1 + r2 + r3, r4, 1.0);
    RoundPointsConcat(weeklyPoints, r1 + r2, r3, 1.0);
    RoundPointsConcat(weeklyPoints, r1, r2, 1.0);
  }

  /** 'overall' is the first 17 entries plus 1.5 × every entry after the 17th. */
  lemma OverallSplitsAtWeek17(weeklyPoints: seq<real>, selectedWeek: int)
    ensures ViewPoints(weeklyPoints, "overall", selectedWeek)
         == Sum(Prefix(weeklyPoints, 17)) + 1.5 * Sum(Suffix(weeklyPoints, 17))
  {
    PlayoffSumScaled(Suffix(weeklyPoints, 17));
  }

  /** Each playoff view is 1.5 × its single week, and 'playoffsTotal' is their sum. */
  lemma PlayoffViews(weeklyPoints: seq<real>, selectedWeek: int)
    ensures ViewPoints(weeklyPoints, "playoff1", selectedWeek) == 1.5 * WeekValue(weeklyPoints, 17)
    ensures ViewPoints(weeklyPoints, "playoff2", selectedWeek) == 1.5 * WeekValue(weeklyPoints, 18)
    ensures ViewPoints(weeklyPoints, "playoff3", selectedWeek) == 1.5 * WeekValue(weeklyPoints, 19)
    ensures ViewPoints(weeklyPoints, "playoffsTotal", selectedWeek)
         == ViewPoints(weeklyPoints, "playoff1", selectedWeek) + ViewPoints(weeklyPoints, "playoff2", selectedWeek)
          + ViewPoints(weeklyPoints, "playoff3", selectedWeek)
  {
    PlayoffRoundIsOneWeek(weeklyPoints, Playoff1);
    PlayoffRoundIsOneWeek(weeklyPoints, Playoff2);
    PlayoffRoundIsOneWeek(weeklyPoints, Playoff3);
  }

  /** With at most 20 weeks of data, 'overall' is 'season' plus 'playoffsTotal'. */
  lemma OverallIsSeasonPlusPlayoffs(weeklyPoints: seq<real>, selectedWeek: int)
    requires |weeklyPoints| <= 20
    ensures ViewPoints(weeklyPoints, "overall", selectedWeek)
         == ViewPoints(weeklyPoints, "season", selectedWeek) + ViewPoints(weeklyPoints, "playoffsTotal", selectedWeek)
  {
    var tail := Suffix(weeklyPoints, 17);
    OverallSplitsAtWeek17(weeklyPoints, selectedWeek);
    PlayoffViews(weeklyPoints, selectedWeek);
    SumUpToThree(tail);
    assert WeekValue(tail, 0) == WeekValue(weeklyPoints, 17);
    assert WeekValue(tail, 1) == WeekValue(weeklyPoints, 18);
    assert WeekValue(tail, 2) == WeekValue(weeklyPoints, 19);
  }

  /**
   * The 'week' view reads the raw entry with no playoff multiplier, so for a
   * playoff week it is two thirds of that week's playoff view.
   */
  lemma WeekViewIsUnscaled(weeklyPoints: seq<real>, selectedWeek: int)
    ensures ViewPoints(weeklyPoints, "week", selectedWeek) == WeekValue(weeklyPoints, selectedWeek - 1)
    ensures selectedWeek == 18 ==>
      1.5 * ViewPoints(weeklyPoints, "week", selectedWeek) == ViewPoints(weeklyPoints, "playoff1", selectedWeek)
    ensures selectedWeek == 19 ==>
      1.5 * ViewPoints(weeklyPoints, "week", selectedWeek) == ViewPoints(weeklyPoints, "playoff2", selectedWeek)
    ensures selectedWeek == 20 ==>
      1.5 * ViewPoints(weeklyPoints, "week", selectedWeek) == ViewPoints(weeklyPoints, "playoff3", selectedWeek)
  {
    PlayoffViews(weeklyPoints, selectedWeek);
  }

  /** Weeks before the first or past the end of the data count 0, whatever the multiplier. */
  lemma {:induction false} MissingWeeksCountZero(weeklyPoints: seq<real>, roundWeeks: seq<int>, multiplier: real)
    requires forall k :: 0 <= k < |roundWeeks| ==> roundWeeks[k] < 1 || roundWeeks[k] > |weeklyPoints|
    ensures RoundPoints(weeklyPoints, roundWeeks, multiplier) == 0.0
    decreases |roundWeeks|
  {
    if roundWeeks != [] {
      MissingWeeksCountZero(weeklyPoints, roundWeeks[..|roundWeeks| - 1], multiplier);
    }
  }

  /** An unrecognised view mode silently yields the overall total. */
  lemma UnknownModeFallsBackToOverall(weeklyPoints: seq<real>, standingsType: string, selectedWeek: int)
    requires !IsKnownMode(standingsType)
    ensures ViewPoints(weeklyPoints, standingsType, selectedWeek) == ViewPoints(weeklyPoints, "overall", selectedWeek)
  {
  }

  // ---------------------------------------------------------------------------
  // Teams and the ranking

  datatype UsedPlayer = UsedPlayer(id: string, name: string, position: string, weekUsed: int, points: real)

  datatype Team = Team(id: string, name: string, owner: string, weeklyPoints: seq<real>, usedPlayers: seq<UsedPlayer>)

  /** `{ ...team, points }`: the team copied unchanged, with its points for the view. */
  datatype Standing = Standing(team: Team, points: real)

  /** The `map` step of `getTeamStandings`. */
  function Score(teams: seq<Team>, standingsType: string, selectedWeek: int): (r: seq<Standing>)
    ensures |r| == |teams|
    ensures forall i :: 0 <= i < |r| ==>
      r[i].team == teams[i] && r[i].points == ViewPoints(teams[i].weeklyPoints, standingsType, selectedWeek)
  {
    seq(|teams|, i requires 0 <= i < |teams| =>
      Standing(teams[i], ViewPoints(teams[i].weeklyPoints, standingsType, selectedWeek)))
  }

  predicate NonIncreasing(s: seq<Standing>)
  {
    forall i, j :: 0 <= i < j < |s| ==> s[i].points >= s[j].points
  }

  /** The standings with exactly the given points value, in order. */
  function WithPoints(s: seq<Standing>, v: real): seq<Standing>
  {
    if s == [] then []
    else (if s[0].points == v then [s[0]] else []) + WithPoints(s[1..], v)
  }

  /**
   * Places `x` into a non-increasing list ahead of every entry with the same
   * or fewer points: `x` came earlier in the input, so ties keep input order.
   */
  function Insert(x: Standing, s: seq<Standing>): (r: seq<Standing>)
    ensures |r| == |s| + 1
    ensures multiset(r) == multiset(s) + multiset{x}
    ensures NonIncreasing(s) ==> NonIncreasing(r)
  {
    if s == [] || s[0].points <= x.points then
      InsertAtFront(x, s);
      [x] + s
    else
      var rest := Insert(x, s[1..]);
      assert s == [s[0]] + s[1..];
      InsertBehindHead(x, s, rest);
      [s[0]] + rest
  }

  lemma InsertAtFront(x: Standing, s: seq<Standing>)
    requires s == [] || s[0].points <= x.points
    ensures NonIncreasing(s) ==> NonIncreasing([x] + s)
  {
    if NonIncreasing(s) {
      forall i, j | 0 <= i < j < |[x] + s| ensures ([x] + s)[i].points >= ([x] + s)[j].points {
        if i > 0 {
          assert ([x] + s)[i] == s[i - 1];
        }
      }
    }
  }

  lemma InsertBehindHead(x: Standing, s: seq<Standing>, rest: seq<Standing>)
    requires s != [] && s[0].points > x.points
    requires multiset(rest) == multiset(s[1..]) + multiset{x}
    requires NonIncreasing(s[1..]) ==> NonIncreasing(rest)
    ensures NonIncreasing(s) ==> NonIncreasing([s[0]] + rest)
  {
    if NonIncreasing(s) {
      assert NonIncreasing(s[1..]) by {
        forall i, j | 0 <= i < j < |s[1..]| ensures s[1..][i].points >= s[1..][j].points {
          assert s[1..][i] == s[i + 1] && s[1..][j] == s[j + 1];
        }
      }
      var r := [s[0]] + rest;
      forall i, j | 0 <= i < j < |r| ensures r[i].points >= r[j].points {
        if i == 0 {
          var e := rest[j - 1];
          assert e in multiset(rest);
          if e != x {
            assert e in multiset(s[1..]);
            var k :| 0 <= k < |s[1..]| && s[1..][k] == e;
            assert s[k + 1] == e;
          }
        }
      }
    }
  }

  /** `sort((a, b) => b.points - a.points)`: a stable sort, highest points first. */
  function SortByPointsDescending(s: seq<Standing>): (r: seq<Standing>)
    ensures |r| == |s|
    ensures multiset(r) == multiset(s)
    ensures NonIncreasing(r)
  {
    if s == [] then []
    else
      assert s == [s[0]] + s[1..];
      Insert(s[0], SortByPointsDescending(s[1..]))
  }

  /** `getTeamStandings`: every team scored for the view, highest first. */
  function TeamStandings(teams: seq<Team>, standingsType: string, selectedWeek: int): (r: seq<Standing>)
    ensures |r| == |teams|
    ensures multiset(r) == multiset(Score(teams, standingsType, selectedWeek))
    ensures NonIncreasing(r)
    ensures forall k :: 0 <= k < |r| ==>
      r[k].team in teams && r[k].points == ViewPoints(r[k].team.weeklyPoints, standingsType, selectedWeek)
  {
    var scored := Score(teams, standingsType, selectedWeek);
    var r := SortByPointsDescending(scored);
    assert forall k :: 0 <= k < |r| ==> r[k] in multiset(scored);
    r
  }

  lemma {:induction false} InsertKeepsTiesInOrder(x: Standing, s: seq<Standing>, v: real)
    requires NonIncreasing(s)
    ensures WithPoints(Insert(x, s), v) == (if x.points == v then [x] else []) + WithPoints(s, v)
  {
    if s == [] || s[0].points <= x.points {
      assert ([x] + s)[1..] == s;
    } else {
      var rest := Insert(x, s[1..]);
      var head := if s[0].points == v then [s[0]] else [];
      var mine := if x.points == v then [x] else [];
      assert NonIncreasing(s[1..]) by {
        forall i, j | 0 <= i < j < |s[1..]| ensures s[1..][i].points >= s[1..][j].points {
          assert s[1..][i] == s[i + 1] && s[1..][j] == s[j + 1];
        }
      }
      InsertKeepsTiesInOrder(x, s[1..], v);
      assert Insert(x, s) == [s[0]] + rest;
      assert ([s[0]] + rest)[0] == s[0] && ([s[0]] + rest)[1..] == rest;
      assert WithPoints(Insert(x, s), v) == head + (mine + WithPoints(s[1..], v));
      // s[0] has more points than x, so at most one of them has the value v
      assert head == [] || mine == [];
      assert WithPoints(s, v) == head + WithPoints(s[1..], v);
    }
  }

  lemma {:induction false} SortIsStable(s: seq<Standing>, v: real)
    ensures WithPoints(SortByPointsDescending(s), v) == WithPoints(s, v)
  {
    if s != [] {
      SortIsStable(s[1..], v);
      InsertKeepsTiesInOrder(s[0], SortByPointsDescending(s[1..]), v);
    }
  }

  /** Teams with equal points keep their input order in the standings. */
  lemma StandingsKeepTiesInInputOrder(teams: seq<Team>, standingsType: string, selectedWeek: int, v: real)
    ensures WithPoints(TeamStandings(teams, standingsType, selectedWeek), v)
         == WithPoints(Score(teams, standingsType, selectedWeek), v)
  {
    SortIsStable(Score(teams, standingsType, selectedWeek), v);
  }

  // ---------------------------------------------------------------------------
  // Titles and the used-players tracker

  function StandingsTitle(viewMode: string, selectedWeek: int): string
  {
    match viewMode
    case "overall" => "Overall Standings"
    case "season" => "Regular Season Standings"
    case "week" => "Week " + Text.Decimal(selectedWeek) + " Standings"
    case "round1" => "Round 1 Standings (Weeks 1-5)"
    case "round2" => "Round 2 Standings (Weeks 6-9)"
    case "round3" => "Round 3 Standings (Weeks 10-13)"
    case "round4" => "Round 4 Standings (Weeks 14-17)"
    case "playoff1" => "Playoff 1 Standings (Week 18)"
    case "playoff2" => "Playoff 2 Standings (Week 19)"
    case "playoff3" => "Playoff 3 Standings (Week 20)"
    case "playoffsTotal" => "Total Playoffs Standings"
    case "usedPlayers" => "Used Players Tracker"
    case _ => "Standings"
  }

  /** Unknown modes are titled plainly 'Standings'; every known mode has a title of its own. */
  lemma UnknownModeTitle(viewMode: string, selectedWeek: int)
    ensures StandingsTitle(viewMode, selectedWeek) == "Standings"
        <==> !IsKnownMode(viewMode) && viewMode != "usedPlayers"
  {
  }

  function UsedCount(team: Team): nat
  {
    |team.usedPlayers|
  }

  /** The tracker's bar width in percent: `min(count / 20 * 100, 100)`. */
  function UsedBarWidth(count: nat): (r: real)
    ensures 0.0 <= r <= 100.0
    ensures r == 100.0 <==> count >= 20
    ensures count < 20 ==> r == (count as real) * 5.0
  {
    var w := (count as real) / 20.0 * 100.0;
    if w < 100.0 then w else 100.0
  }

  /** More used players never shrink the bar. */
  lemma UsedBarWidthMonotone(team: Team, other: Team)
    requires UsedCount(team) <= UsedCount(other)
    ensures UsedBarWidth(UsedCount(team)) <= UsedBarWidth(UsedCount(other))
  {
  }

  /** The page's own week is in the regular season, so the playoff badge is off. */
  lemma CurrentWeekIsRegularSeason()
    ensures !IsPlayoffs(CurrentWeek)
  {
  }

  /** The position badge colours of the tracker; any other key gets gray. */
  function TrackerPositionColor(position: string): (r: string)
    ensures r == "bg-gray-900/30 text-gray-300 border-gray-500/30" <==> position !in {"QB", "RB", "WR", "TE"}
  {
    if position == "QB" then "bg-red-900/30 text-red-300 border-red-500/30"
    else if position == "RB" then "bg-green-900/30 text-green-300 border-green-500/30"
    else if position == "WR" then "bg-blue-900/30 text-blue-300 border-blue-500/30"
    else if position == "TE" then "bg-yellow-900/30 text-yellow-300 border-yellow-500/30"
    else "bg-gray-900/30 text-gray-300 border-gray-500/30"
  }
}
