/**
 * The league's player and lineup vocabulary (src/types/fantasy.ts) and the
 * lineup helpers of src/lib/utils.ts: position colours, flex eligibility,
 * the empty five-slot lineup and the mock roster.
 */
module Fantasy {
  import opened Wrappers

  /** A player's position; FLEX is a position value too in the type. */
  datatype Position = QB | RB | WR | TE | FLEX
  {
    /** The string literal the TypeScript union uses for this position. */
    function Name(): string
    {
      match this
      case QB => "QB"
      case RB => "RB"
      case WR => "WR"
      case TE => "TE"
      case FLEX => "FLEX"
    }
  }

  /** The five fixed lineup slots. */
  datatype LineupPosition = QBSlot | RB1 | RB2 | FLEX1 | FLEX2

  datatype Player = Player(
    id: string,
    name: string,
    position: Position,
    team: string,
    projectedPoints: real,
    actualPoints: Option<real>,
    isInjured: bool,
    byeWeek: int)

  /** A slot; the two optional fields are present only on the flex slots. */
  datatype LineupSlot = LineupSlot(
    position: LineupPosition,
    player: Option<Player>,
    isFlexEligible: Option<bool>,
    eligiblePositions: Option<seq<Position>>)

  const GrayColor: string := "bg-gray-100 text-gray-800 border-gray-200"

  /** The Tailwind classes for a position badge; any other key gets the gray default. */
  function PositionColor(position: string): (r: string)
    ensures r == GrayColor <==> position !in {"QB", "RB", "WR", "TE", "FLEX"}
  {
    if position == "QB" then "bg-red-100 text-red-800 border-red-200"
    else if position == "RB" then "bg-green-100 text-green-800 border-green-200"
    else if position == "WR" then "bg-blue-100 text-blue-800 border-blue-200"
    else if position == "TE" then "bg-yellow-100 text-yellow-800 border-yellow-200"
    else if position == "FLEX" then "bg-purple-100 text-purple-800 border-purple-200"
    else GrayColor
  }

  /** Each position gets its own colour: the lookup is injective on positions. */
  lemma PositionColorsDistinct(p: Position, q: Position)
    ensures PositionColor(p.Name()) != GrayColor
    ensures PositionColor(p.Name()) == PositionColor(q.Name()) <==> p == q
  {
  }

  /** Only wide receivers and tight ends may play a flex slot. */
  predicate IsFlexEligible(position: Position)
  {
    position == WR || position == TE
  }

  const FlexPositions: seq<Position> := [WR, TE]

  /** The lineup a team starts from: QB, RB1, RB2, FLEX1, FLEX2, all empty. */
  function CreateEmptyLineup(): (r: seq<LineupSlot>)
    ensures |r| == 5
    ensures r[0].position == QBSlot && r[1].position == RB1 && r[2].position == RB2
    ensures r[3].position == FLEX1 && r[4].position == FLEX2
    ensures forall i :: 0 <= i < |r| ==> r[i].player == None
    ensures forall i :: 0 <= i < |r| ==>
      (r[i].position in {FLEX1, FLEX2} <==> r[i].isFlexEligible == Some(true))
    ensures forall i :: 0 <= i < |r| ==>
      (r[i].position in {FLEX1, FLEX2} <==> r[i].eligiblePositions.Some?)
    ensures forall i :: 0 <= i < |r| ==> r[i].isFlexEligible.Some? == r[i].eligiblePositions.Some?
    ensures r[3].eligiblePositions == Some([WR, TE]) && r[4].eligiblePositions == Some([WR, TE])
  {
    [ LineupSlot(QBSlot, None, None, None),
      LineupSlot(RB1, None, None, None),
      LineupSlot(RB2, None, None, None),
      LineupSlot(FLEX1, None, Some(true), Some(FlexPositions)),
      LineupSlot(FLEX2, None, Some(true), Some(FlexPositions)) ]
  }

  /** Every slot identifier occurs once in a fresh lineup. */
  lemma EmptyLineupSlotsDistinct(i: nat, j: nat)
    requires i < j < 5
    ensures CreateEmptyLineup()[i].position != CreateEmptyLineup()[j].position
  {
  }

  /**
   * The position list a flex slot displays agrees with the authoritative
   * predicate: a position is listed exactly when IsFlexEligible accepts it.
   */
  lemma FlexSlotsListExactlyFlexEligible(i: nat, p: Position)
    requires i < 5
    requires CreateEmptyLineup()[i].eligiblePositions.Some?
    ensures p in CreateEmptyLineup()[i].eligiblePositions.value <==> IsFlexEligible(p)
  {
  }

  /** The mock roster used by the lineup screen. */
  function GenerateMockPlayers(): (r: seq<Player>)
    ensures |r| == 5
    ensures forall i, j :: 0 <= i < j < |r| ==> r[i].id != r[j].id
  {
    [ Player("1", "Josh Allen", QB, "BUF", 24.5, None, false, 12),
      Player("2", "Christian McCaffrey", RB, "SF", 20.8, None, false, 9),
      Player("3", "Cooper Kupp", WR, "LAR", 18.9, None, false, 6),
      Player("4", "Travis Kelce", TE, "KC", 16.2, None, false, 10),
      Player("5", "Nick Chubb", RB, "CLE", 16.8, None, true, 5) ]
  }
}
