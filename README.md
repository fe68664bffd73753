# Fantasy league front end: scoring, lineup and panel rules in Dafny

This project models the logic inside a fantasy-football league web front end.
It covers four parts:

- the **standings**: the round table, per-period point totals, the view-mode switch, the descending ranking, titles and the used-players tracker;
- the **lineup template**: the five fixed slots, flex eligibility, position colours and the mock roster;
- the **player-card screen**: the position filter with its `ALL` wildcard, the single-selection toggle and the detail lookup;
- the **league chat**: the send rule, the send-button condition and the relative-age label of a message.

Modules, one per source file:

- `Text`: decimal rendering of integers, as template literals print them.
- `Fantasy`: `src/types/fantasy.ts` and `src/lib/utils.ts`.
- `Standings`: `src/components/src/components/Standings.tsx`.
- `PlayerCard`: `src/components/PlayerCard.tsx`.
- `LeagueChat`: `src/components/LeagueChat.tsx`.
- `Wrappers`: an `Option` type for TypeScript's `null`/optional values.

Points are exact `real`s. The source only adds and multiplies by 1.5, so reals are enough.

The standings view mode stays a string, because the source switches on strings. An unrecognised mode silently gives the overall total. The model follows the code, and `UnknownModeFallsBackToOverall` states the fallback.

The ranking is `Array.prototype.sort` with comparator `b.points - a.points`. That sort is stable (ECMAScript 2019 and later). The model uses a stable insertion sort and proves three things: the result is sorted, it is a permutation of the scored teams, and teams with equal points keep their input order.

Both screens keep React state that their handlers replace. Each is modelled as a class whose methods reassign its fields, and every method's `ensures` gives the whole new state. The two real transitions go through the pure functions `Send` and `Toggled`, and the lemmas are proved about those.

The lineup slot `QB` is spelled `QBSlot` in `Fantasy.LineupPosition`, so that it does not clash with the position `QB`.

## Model

| member | source | states |
|---|---|---|
| Text.Decimal | src/components/src/components/Standings.tsx:141 | `${n}` for an integer: a '-' before the digits of a negative number, otherwise the digits of NatDecimal |
| Text.NatDecimal | src/components/LeagueChat.tsx:79 | the rendering of a count is a non-empty string of decimal digits with no leading zero |
| Text.NatDecimalRoundTrip | src/components/LeagueChat.tsx:79-81 | reading the rendered digits back gives the number |
| Fantasy.IsFlexEligible | src/lib/utils.ts:20-22 | true exactly for WR and TE; FlexSlotsListExactlyFlexEligible shows the flex slots list exactly these positions |
| Fantasy.PositionColor | src/lib/utils.ts:9-18 | the colour is the gray default exactly for strings other than QB, RB, WR, TE, FLEX |
| Fantasy.PositionColorsDistinct | src/lib/utils.ts:9-18 | every position gets a non-gray colour, and two positions share a colour only if they are the same position |
| Fantasy.CreateEmptyLineup | src/lib/utils.ts:24-32 | five slots in order QB, RB1, RB2, FLEX1, FLEX2; every slot empty; only the flex slots carry `isFlexEligible = true` and a position list |
| Fantasy.EmptyLineupSlotsDistinct | src/lib/utils.ts:25-31 | no slot identifier occurs twice in a fresh lineup |
| Fantasy.FlexSlotsListExactlyFlexEligible | src/lib/utils.ts:20-30 | for each flex slot, a position is listed exactly when `isFlexEligible` accepts it (WR and TE, not QB, RB or FLEX) |
| Fantasy.GenerateMockPlayers | src/lib/utils.ts:38-46 | five players with pairwise distinct ids |
| Standings.IsPlayoffs | src/components/src/components/Standings.tsx:47 | `currentWeek > 17`; PlayoffsAreThePlayoffWeeks and CurrentWeekIsRegularSeason state what it means for the page |
| Standings.Round.Weeks | src/components/src/components/Standings.tsx:49-57 | the `rounds` table; RoundsPartitionRegularSeason and RoundsDisjoint state that it partitions weeks 1..17 and puts the playoffs at 18, 19, 20 |
| Standings.RoundPoints | src/components/src/components/Standings.tsx:59-64 | `calculateRoundPoints` as a left fold; RoundPointsScaled, RoundPointsConcat, MissingWeeksCountZero and RoundPointsOfWeekRange state its properties |
| Standings.RegularSeasonTotal | src/components/src/components/Standings.tsx:96 | the first 17 entries at 1×; SeasonIsSumOfRounds ties it to the four rounds |
| Standings.SeasonTotal | src/components/src/components/Standings.tsx:66-70 | `calculateSeasonTotal`; OverallSplitsAtWeek17 and OverallIsSeasonPlusPlayoffs state its value |
| Standings.PlayoffsTotal | src/components/src/components/Standings.tsx:122-125 | the three playoff rounds at 1.5×; PlayoffViews and OverallIsSeasonPlusPlayoffs state its value |
| Standings.ViewPoints | src/components/src/components/Standings.tsx:91-129 | the view-mode switch; SeasonIsSumOfRounds, PlayoffViews, WeekViewIsUnscaled and UnknownModeFallsBackToOverall state each branch |
| Standings.StandingsTitle | src/components/src/components/Standings.tsx:137-153 | the title per view mode; UnknownModeTitle states the default |
| Standings.PlayoffsAreThePlayoffWeeks | src/components/src/components/Standings.tsx:45-47 | for weeks 1..20, `isPlayoffs` holds exactly for weeks 18, 19 and 20 |
| Standings.CurrentWeekIsRegularSeason | src/components/src/components/Standings.tsx:44-47 | at the page's fixed week 3 the playoff badge is off |
| Standings.RoundsPartitionRegularSeason | src/components/src/components/Standings.tsx:49-53 | rounds 1 to 4 laid end to end are exactly weeks 1..17 in order |
| Standings.RoundsDisjoint | src/components/src/components/Standings.tsx:49-57 | no two rounds share a week, and the playoff rounds are weeks 18, 19, 20 |
| Standings.RoundPointsScaled | src/components/src/components/Standings.tsx:59-64 | a round total with multiplier m is m times the 1× total |
| Standings.RoundPointsConcat | src/components/src/components/Standings.tsx:59-64 | the total over two week lists laid end to end is the sum of their totals |
| Standings.MissingWeeksCountZero | src/components/src/components/Standings.tsx:61-62 | weeks beyond the data (or before week 1) contribute 0 |
| Standings.RoundPointsOfWeekRange | src/components/src/components/Standings.tsx:59-67 | summing weeks 1..n at 1× equals summing the first n entries |
| Standings.PlayoffSumScaled | src/components/src/components/Standings.tsx:68 | the playoff part of the season total is 1.5 × the plain sum of the later entries |
| Standings.PlayoffRoundIsOneWeek | src/components/src/components/Standings.tsx:54-64 | a playoff round at 1.5× is 1.5 × its single week's value, 0 if absent |
| Standings.SeasonIsSumOfRounds | src/components/src/components/Standings.tsx:95-111 | the 'season' view equals round1 + round2 + round3 + round4 |
| Standings.OverallSplitsAtWeek17 | src/components/src/components/Standings.tsx:66-70 | 'overall' is the first 17 entries plus 1.5 × everything after the 17th |
| Standings.PlayoffViews | src/components/src/components/Standings.tsx:113-125 | each playoff view is 1.5 × its week's value, and 'playoffsTotal' is the sum of the three |
| Standings.OverallIsSeasonPlusPlayoffs | src/components/src/components/Standings.tsx:92-125 | with at most 20 weeks of data, 'overall' equals 'season' plus 'playoffsTotal' |
| Standings.WeekViewIsUnscaled | src/components/src/components/Standings.tsx:98-99 | the 'week' view is the raw entry at selectedWeek-1 (0 past the end), with no 1.5× even in weeks 18 to 20 |
| Standings.UnknownModeFallsBackToOverall | src/components/src/components/Standings.tsx:127-128 | an unrecognised view mode yields the overall total |
| Standings.Score | src/components/src/components/Standings.tsx:88-131 | one standing per team, in input order |
| Standings.Insert | src/components/src/components/Standings.tsx:132 | inserting keeps every element and adds one, and keeps a non-increasing list non-increasing |
| Standings.SortByPointsDescending | src/components/src/components/Standings.tsx:132 | the sorted list is a permutation of the input, ordered non-increasing by points |
| Standings.InsertKeepsTiesInOrder | src/components/src/components/Standings.tsx:132 | inserting an earlier element puts it ahead of the entries with the same points |
| Standings.SortIsStable | src/components/src/components/Standings.tsx:132 | for every points value, the entries with that value keep their input order |
| Standings.TeamStandings | src/components/src/components/Standings.tsx:87-133 | the standings are a permutation of the scored teams, sorted non-increasing, each an input team unchanged with its points for the view |
| Standings.StandingsKeepTiesInInputOrder | src/components/src/components/Standings.tsx:87-133 | teams with equal points appear in input order |
| Standings.UnknownModeTitle | src/components/src/components/Standings.tsx:137-153 | the title is plain 'Standings' exactly for modes that are neither recognised nor 'usedPlayers' |
| Standings.UsedBarWidth | src/components/src/components/Standings.tsx:373 | the bar width is between 0 and 100, is 100 exactly from 20 used players on, and below that is 5% per player |
| Standings.UsedBarWidthMonotone | src/components/src/components/Standings.tsx:368-373 | a team with more used players never has a shorter bar |
| Standings.TrackerPositionColor | src/components/src/components/Standings.tsx:72-80 | the tracker badge is gray exactly for strings other than QB, RB, WR, TE |
| PlayerCard.FilterPlayers | src/components/PlayerCard.tsx:137-139 | `filteredPlayers`; FilterAllIsIdentity, FilterKeepsExactlyMatching, FilterIdempotent and OfPositionConcat state its behaviour |
| PlayerCard.Toggled | src/components/PlayerCard.tsx:182-184 | the click handler's new selection; ToggleTwice states when two clicks restore the old one |
| PlayerCard.PositionColor | src/components/PlayerCard.tsx:27-35 | the card badge is gray exactly for strings other than QB, RB, WR, TE |
| PlayerCard.OfPosition | src/components/PlayerCard.tsx:139 | filtering never lengthens the list |
| PlayerCard.OfPositionMembers | src/components/PlayerCard.tsx:139 | a player is kept exactly when it is in the list and plays the filtered position |
| PlayerCard.OfPositionConcat | src/components/PlayerCard.tsx:139 | filtering commutes with concatenation, so original order is kept |
| PlayerCard.OfPositionSingle | src/components/PlayerCard.tsx:139 | a single player is kept exactly when its position equals the filter value |
| PlayerCard.FilterAllIsIdentity | src/components/PlayerCard.tsx:137-138 | the 'ALL' filter returns the list unchanged |
| PlayerCard.FilterKeepsExactlyMatching | src/components/PlayerCard.tsx:139 | any other filter value keeps exactly the players whose position equals it |
| PlayerCard.OfPositionIdempotent | src/components/PlayerCard.tsx:139 | filtering a filtered list by the same position changes nothing |
| PlayerCard.FilterIdempotent | src/components/PlayerCard.tsx:137-139 | the filtered list is never longer than the input, and filtering is idempotent |
| PlayerCard.FindById | src/components/PlayerCard.tsx:199-205 | the lookup finds nothing exactly when no listed player has the id, and otherwise finds the first one that does |
| PlayerCard.ToggleTwice | src/components/PlayerCard.tsx:182-184 | two clicks on a card restore the prior selection exactly when nothing or that card was selected; after another card they leave nothing selected |
| PlayerCard.FilteredOutSelectionHasNoDetail | src/components/PlayerCard.tsx:137-139 | with a position filter on, a selected player of another position has no detail, because the lookup searches only the filtered list |
| PlayerCard.PlayerCardDemo.constructor | src/components/PlayerCard.tsx:134-135 | the screen starts with nothing selected and the 'ALL' filter |
| PlayerCard.PlayerCardDemo.SelectedDetail | src/components/PlayerCard.tsx:190-205 | nothing while the panel is hidden (no selection, or the falsy empty id); otherwise the first filtered player with the selected id, found exactly when one exists |
| PlayerCard.PlayerCardDemo.SelectFilter | src/components/PlayerCard.tsx:162 | a filter button sets the filter and keeps the selection |
| PlayerCard.PlayerCardDemo.ClickCard | src/components/PlayerCard.tsx:182-184 | a click selects the card, or clears the selection if it was the selected card |
| PlayerCard.PlayerCardDemo.ClearSelection | src/components/PlayerCard.tsx:209 | 'Clear Selection' leaves no card selected |
| LeagueChat.Trim | src/components/LeagueChat.tsx:56-61 | `String.prototype.trim`; TrimBounds, TrimSpec, TrimEmptyIffBlank and TrimIdempotent state what it returns |
| LeagueChat.Send | src/components/LeagueChat.tsx:54-67 | `handleSendMessage` on values; SendRejectsBlank, SendAppendsOne and SendCount state both outcomes |
| LeagueChat.SendDisabled | src/components/LeagueChat.tsx:150 | the send button's `disabled`; SendRejectsBlank shows it holds exactly when a send is rejected |
| LeagueChat.AgeBucket | src/components/LeagueChat.tsx:74-84 | the branch `formatDate` takes; MinutesBucket, HoursBucket and DateBucket state each bucket |
| LeagueChat.FormatDate | src/components/LeagueChat.tsx:73-85 | the rendered label: "Nm ago", "Nh ago" or the locale date; DateBucket states the last case |
| LeagueChat.LeadingWhitespace | src/components/LeagueChat.tsx:56 | the leading cut of `trim` is the maximal all-whitespace prefix |
| LeagueChat.TrailingWhitespace | src/components/LeagueChat.tsx:56 | the trailing cut of `trim` is the maximal all-whitespace suffix |
| LeagueChat.TrimBounds | src/components/LeagueChat.tsx:61 | the trimmed text is the slice between the two maximal whitespace margins |
| LeagueChat.TrimSpec | src/components/LeagueChat.tsx:61 | the trimmed text is a stretch of the input with blank margins and no whitespace at either end |
| LeagueChat.TrimEmptyIffBlank | src/components/LeagueChat.tsx:56 | the trimmed text is empty exactly when the input is all whitespace |
| LeagueChat.TrimIdempotent | src/components/LeagueChat.tsx:61 | trimming twice is trimming once |
| LeagueChat.SendRejectsBlank | src/components/LeagueChat.tsx:56 | a send changes nothing exactly when the input is blank, and the send button is disabled exactly then |
| LeagueChat.SendAppendsOne | src/components/LeagueChat.tsx:58-66 | otherwise one message by the current user, holding the trimmed text, is appended after the unchanged earlier messages, and the input is cleared |
| LeagueChat.SendCount | src/components/LeagueChat.tsx:95 | the message count rises by 1 on a send and by 0 on a rejection |
| LeagueChat.Chat.constructor | src/components/LeagueChat.tsx:41-43 | the panel starts with the given messages, an empty input and the signed-in user |
| LeagueChat.Chat.SetNewMessage | src/components/LeagueChat.tsx:143 | typing replaces the input and keeps the messages |
| LeagueChat.Chat.HandleSendMessage | src/components/LeagueChat.tsx:54-67 | the new messages and input are exactly those of the send rule applied to the old ones |
| LeagueChat.MinutesBucket | src/components/LeagueChat.tsx:73-79 | an age under an hour is shown in whole minutes, rounded down, 0 to 59 for a message not in the future |
| LeagueChat.HoursBucket | src/components/LeagueChat.tsx:80-81 | an age of one hour up to a day is shown in whole hours, 1 to 23 |
| LeagueChat.DateBucket | src/components/LeagueChat.tsx:82-84 | an age of a day or more shows the locale date |

## Left out

- `cn` (src/lib/utils.ts:5-7) wraps the clsx and tailwind-merge libraries, which are not part of this model.
- `formatPoints` and every `toFixed(1)` are not modelled: they render IEEE doubles, and points here are exact reals.
- Floating point: the source adds doubles, so its sums can differ from the exact real sums in the last bits.
- Standings.UsedBarWidth: states the exact width `5 × count` below 20 players; in doubles `(11 / 20) * 100` is 55.00000000000001, so the source's width can differ in the last bits.
- LeagueChat.MinutesBucket: states `floor(age / 60000)` exactly. In doubles `diffInHours * 60` agrees with that for every age from 0 to 59 minutes. It can differ for a timestamp in the future at an exact minute boundary: an age of -31 minutes is shown as "-32m ago" by the source.
- The clock and locale calls are inputs. `Date.now()` becomes the `now` and `id` parameters of `HandleSendMessage`. `toLocaleDateString` becomes the `localeDate` parameter of `FormatDate`. `formatTime` (`toLocaleTimeString`) is not modelled.
- Auto-scroll, the `maxLength` attribute and the "n/500 characters" counter are DOM behaviour and are not modelled.
- The mock data arrays (teams, chat messages, the player-card roster) are not modelled. `GenerateMockPlayers` is kept because of its id property.
- The player-usage rules (one use per regular-season player, pool reset, 1.5× for unused players) appear only as display text. The code never enforces them, so they are not invariants here.
- No slot-assignment predicate and no invalid-period error: the code has neither.
- `PlayerCard` reuses `Fantasy.Player`. The component's own local `Player` interface allows only QB, RB, WR and TE, while `Fantasy.Player` also allows FLEX. The filter and lookup behave the same on both.
- Missing-value coercion: `weeklyPoints[i] || 0` also maps `NaN` to 0. Reals have no `NaN`, so only the out-of-range case is modelled.
- Fantasy.PositionColor: a key naming an inherited `Object.prototype` member (`"constructor"`, `"toString"`, …) returns that member in the source, not gray; no caller passes such a key, and the model gives gray.
- Standings.TrackerPositionColor: the same inherited-key case as Fantasy.PositionColor; the model gives gray.
- PlayerCard.PositionColor: the same inherited-key case as Fantasy.PositionColor; the model gives gray.
- `isSystem` on a chat message is a `bool`, false where the source leaves the field out.
- src/components/LiveScores.tsx, src/app/page.tsx, src/components/RosterLineup.tsx and src/components/RosterLineup.ts are not part of this model: they hold a clock, random records, tab switching and a placeholder, with no rule beyond the standings sort.
