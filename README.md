# Hockey league standings and results

A model of the standings and results core of a browser dashboard for a
virtual hockey league. There are three parts:

- **Standings table** (`StandingsTable`, `standings_table.dfy`). A team
  earns two points per win and one per overtime or shootout loss. Its goal
  difference is goals for minus goals against. The comparator orders teams
  by points, then goal difference, then goals for, all descending. The table
  renders a stably sorted copy of the team list. Each row's 1-based position
  sets its zone: positions 7 and 8 are the danger zone, position 6 is the
  transition (playoff) zone, and every other position is the default.
- **Result dialog** (`AdminPanel`, `admin_panel.dfy`). The form holds two
  score fields and the overtime and shootout switches. Closing the dialog
  clears the form. Turning one switch on turns the other off. Submitting runs
  a guard chain: nothing happens without a selected match; a score that is
  not a number or is negative is rejected; equal scores are rejected;
  otherwise the save callback is called and the form is reset.
- **League page** (`Index`, `index.dfy`). This holds the team and match
  lists, seeded with eight teams and six fixtures. The save handler finds the
  match by id. If there is none, nothing changes. Otherwise every match with
  that id is marked finished with the scores and flags, and each participant
  gets one game played, its goals for and against, and exactly one of a win,
  an overtime loss or a loss.

`Match` and `TeamRef` come from the schedule component (`MatchSchedule`,
`match_schedule.dfy`). `Option` is in `wrappers.dfy`.

Pure code is modelled as functions. The page's state is the class
`Index.League`. Its `SaveResult` method builds the new team list one copy at
a time, as the handler does, and is proved equal to the function
`Index.Save`. The dialog's state is the class `AdminPanel.ResultForm`. The
save callback, the close callback and the alerts are not called: `Submit`
returns the call it would make, or the reason it would not, and whether it
asks for the dialog to close.

`Array.prototype.sort` must be stable (section 23.1.3.30 of ECMA-262, 2023
edition), but the algorithm is up to the engine. The model sorts with a
stable insertion sort, `SortStandings`. `OnlyStableOrder` proves that every
ordered, stable rearrangement of the input is exactly that result, so any
conforming engine yields the same table.

Three behaviours of the code are worth stating outright:

- The save handler refuses neither equal scores, invalid scores nor an
  already finished match; only the dialog refuses the first two
  (`UnguardedDrawHasNoWinner`, `SaveTwiceCountsTwice`).
- Only positions 7 and 8 are styled as the danger zone; positions from 9 on
  get the default style (`ZonesPastEight`).
- In the worked scenario, B (18:16) loses 2:4 and ends at 20:20
  (`WorkedResults`).

## Model

| member | source | states |
|---|---|---|
| `StandingsTable.CalculatePoints` | src/components/StandingsTable.tsx:20-22 | definition, no contract of its own: two points per win plus one per overtime loss |
| `StandingsTable.CalculateGoalDiff` | src/components/StandingsTable.tsx:24-26 | definition, no contract of its own: goals for minus goals against |
| `StandingsTable.Compare` | src/components/StandingsTable.tsx:39-51 | definition, no contract of its own: the sort comparator: the difference in points if they differ, else in goal difference if it differs, else in goals for, each as the second team's value minus the first's |
| `StandingsTable.Insert` | src/components/StandingsTable.tsx:39 | inserting one team into a list gives a list one longer (its placement is stated by the sort lemmas below) |
| `StandingsTable.SortStandings` | src/components/StandingsTable.tsx:39 | the sorted copy has the input's length (permutation, order and stability are stated by the lemmas below) |
| `StandingsTable.CompareZeroIffKeysEqual` | src/components/StandingsTable.tsx:43-50 | the comparator returns 0 exactly when points, goal difference and goals for are all equal |
| `StandingsTable.CompareAntisymmetric` | src/components/StandingsTable.tsx:43-50 | swapping the arguments negates the comparator's result |
| `StandingsTable.CompareLexicographic` | src/components/StandingsTable.tsx:39-51 | a ranks no lower than b iff it has more points, or equal points and a better goal difference, or both equal and at least as many goals for |
| `StandingsTable.CompareTotal` | src/components/StandingsTable.tsx:43-50 | of any two teams, one ranks no lower than the other |
| `StandingsTable.CompareTransitive` | src/components/StandingsTable.tsx:43-50 | ranking no lower is transitive, so the comparator is a total preorder |
| `StandingsTable.SortPermutes` | src/components/StandingsTable.tsx:39 | the sorted copy has the input's length and is a permutation of it (a multiset equality) |
| `StandingsTable.SortOrdered` | src/components/StandingsTable.tsx:39-51 | every team in the sorted list ranks no lower than every team after it |
| `StandingsTable.SortStable` | src/components/StandingsTable.tsx:39 | for every key, the teams tied with it appear in the sorted list in their input order |
| `StandingsTable.AdjacentRanking` | src/components/StandingsTable.tsx:39-51 | of two adjacent rows, the upper has more points, or equal points and a better goal difference, or both equal and at least as many goals for |
| `StandingsTable.OnlyStableOrder` | src/components/StandingsTable.tsx:39 | any rearrangement that is ordered and keeps every tie group in input order equals the sorted list, so a stable sort has one possible result |
| `StandingsTable.RowZone` | src/components/StandingsTable.tsx:28-36 | definition, no contract of its own: positions 7 and 8 are the danger zone, position 6 the transition zone, any other the default |
| `StandingsTable.Standings` | src/components/StandingsTable.tsx:77-80 | definition, no contract of its own: the rows of the sorted copy, each with its 1-based position, the team, its points, goal difference and zone |
| `StandingsTable.StandingsRows` | src/components/StandingsTable.tsx:77-80 | one row per team with position index+1, the team's points and goal difference, and the zone of its position; the teams are a permutation of the input and points never rise down the table |
| `StandingsTable.EightTeamZones` | src/components/StandingsTable.tsx:28-36 | in an eight-team table, rows 1-5 are default, row 6 is the transition zone, rows 7-8 are the danger zone |
| `StandingsTable.ZonesPastEight` | src/components/StandingsTable.tsx:28-36 | any position other than 6, 7 or 8 gets the default style |
| `StandingsTable.WorkedExample` | src/components/StandingsTable.tsx:20-51 | A (5 W, 1 OTL, 20:15) and B (4 W, 3 OTL, 18:16) both have 11 points; A has +5 and B +2, and A sorts first from either input order |
| `AdminPanel.DigitPrefix` | src/components/AdminPanel.tsx:40-41 | the length of the longest leading run of decimal digits: every character before it is a digit and the one at it, if any, is not |
| `AdminPanel.ParseScore` | src/components/AdminPanel.tsx:40-41 | definition, no contract of its own: `parseInt` of a field: an optional sign, then the leading digit run read as a decimal number; no digits is not a number |
| `AdminPanel.Decide` | src/components/AdminPanel.tsx:37-53 | definition, no contract of its own: the guard chain: no selected match does nothing; a score that is not a number or negative is rejected; equal scores are rejected; otherwise the save call with the match's id, both scores and both switches |
| `AdminPanel.ParseDecimal` | src/components/AdminPanel.tsx:40-41 | a field holding the decimal digits of n parses to n, and with a leading minus to -n |
| `AdminPanel.ParseNotANumber` | src/components/AdminPanel.tsx:40-43 | an empty field, or one starting with neither a sign nor a digit, is not a number |
| `AdminPanel.DecideWithoutMatch` | src/components/AdminPanel.tsx:38 | with no selected match, submitting does nothing |
| `AdminPanel.DecideInvalid` | src/components/AdminPanel.tsx:43-46 | the invalid-score alert is raised exactly when a parsed score is not a number or is negative |
| `AdminPanel.DecideEqual` | src/components/AdminPanel.tsx:48-51 | the equal-score alert is raised exactly when both scores parse to the same non-negative value |
| `AdminPanel.SavedCallIsWellFormed` | src/components/AdminPanel.tsx:53 | a save call carries the selected match's id, the parsed scores (both non-negative and different) and the two switch values |
| `AdminPanel.DecideTypedScores` | src/components/AdminPanel.tsx:37-55 | two different non-negative numbers typed into the fields are saved as they are |
| `AdminPanel.ResultForm.constructor` | src/components/AdminPanel.tsx:22-25 | the form starts with empty fields and both switches off |
| `AdminPanel.ResultForm.HandleOpen` | src/components/AdminPanel.tsx:27-34 | closing clears both fields and both switches and requests the dialog's close; opening changes nothing |
| `AdminPanel.ResultForm.EditHomeScore` | src/components/AdminPanel.tsx:94 | the home field takes the typed text; nothing else changes |
| `AdminPanel.ResultForm.EditAwayScore` | src/components/AdminPanel.tsx:107 | the away field takes the typed text; nothing else changes |
| `AdminPanel.ResultForm.OnOvertimeChange` | src/components/AdminPanel.tsx:125-128 | overtime takes the switch value; turning it on clears shootout; turning it off leaves shootout as it was; afterwards the two are not both on |
| `AdminPanel.ResultForm.OnShootoutChange` | src/components/AdminPanel.tsx:143-146 | shootout takes the switch value; turning it on clears overtime; turning it off leaves overtime as it was; afterwards the two are not both on |
| `AdminPanel.ResultForm.Submit` | src/components/AdminPanel.tsx:27-55 | the outcome is the guard chain's decision on the form as it was; the dialog's close is requested exactly when the result is saved; only a save resets the form, and every rejection leaves it unchanged |
| `Index.Find` | src/pages/Index.tsx:86 | returns no index iff no match has the id; otherwise the index of the first match with that id |
| `Index.RecordResult` | src/pages/Index.tsx:89-101 | definition, no contract of its own: every match with the id gets the scores, the finished status and both flags; the others are kept |
| `Index.Credit` | src/pages/Index.tsx:107-120 | definition, no contract of its own: one more game, the side's own score to goals for and the opponent's to goals against, and a win if it scored more, else an overtime loss after overtime or a shootout, else a loss |
| `Index.TeamAfter` | src/pages/Index.tsx:104-140 | definition, no contract of its own: a team credited as the home side if its id is the home team's, then as the away side if its id is the away team's |
| `Index.UpdateTeams` | src/pages/Index.tsx:104-140 | definition, no contract of its own: every team of the list, in order, after the match's result |
| `Index.Save` | src/pages/Index.tsx:85-143 | definition, no contract of its own: the save handler: with no match of the id the state is kept; otherwise the matches are recorded and the teams updated from the first match with the id |
| `Index.SaveUnknownMatch` | src/pages/Index.tsx:86-87 | with an unknown match id, teams and matches are both unchanged |
| `Index.SaveRecordsMatch` | src/pages/Index.tsx:89-101 | the match list keeps its length and order; a match with the id becomes finished with the given scores and flags and keeps its id, date, time and teams; every other match is unchanged |
| `Index.CreditOutcome` | src/pages/Index.tsx:107-120 | a credited side has one more game, its own score added to goals for and the opponent's to goals against, and exactly one of a win (if it scored more), an overtime loss (if not, after overtime or shootout) or a loss |
| `Index.CreditPoints` | src/pages/Index.tsx:112-120 | a result is worth 2 points to the winner, 1 to an overtime or shootout loser and 0 to a regulation loser |
| `Index.SaveUpdatesTeams` | src/pages/Index.tsx:104-140 | the team list keeps its length and order; teams named in neither side are unchanged; the home team is credited with home against away score, the away team the other way round; a team named on both sides is credited twice, first as home, then as away |
| `Index.SaveKeepsImbalance` | src/pages/Index.tsx:107-137 | for every team, wins + losses + overtime losses - games played is the same after a save |
| `Index.InitialTeams` | src/pages/Index.tsx:9-18 | definition, no contract of its own: the eight seed teams, ids 1 to 8 with their names and logos, every counter zero |
| `Index.InitialMatches` | src/pages/Index.tsx:20-69 | definition, no contract of its own: the six seed fixtures m1 to m6, all scheduled, with their dates, times and teams |
| `Index.SeedBalanced` | src/pages/Index.tsx:9-18 | every seed team has games played equal to wins + losses + overtime losses |
| `Index.SaveAllKeepsBalance` | src/pages/Index.tsx:104-140 | if every team is balanced, it stays balanced after any sequence of saves |
| `Index.SeedStaysBalanced` | src/pages/Index.tsx:9-18 | from the seed, games played equals wins + losses + overtime losses for every team after any sequence of saves |
| `Index.SaveTwiceCountsTwice` | src/pages/Index.tsx:85-143 | a finished match is not refused: after one save the same match is found again, finished and with the same teams, and saving the same result again credits its home side a second time |
| `Index.FindAfterRecord` | src/pages/Index.tsx:86-101 | recording a result does not change which match the id finds |
| `Index.GuardedSaveHasOneWinner` | src/pages/Index.tsx:85-140 | when the dialog saves a result for a match the page finds between two distinct teams, the page's save gives exactly one of them a win and the other exactly one loss or overtime loss, each of them one more result in total; 2 points are awarded for a regulation result, 3 after overtime or a shootout |
| `Index.UnguardedDrawHasNoWinner` | src/pages/Index.tsx:85-136 | called directly with equal scores for a match it finds between two distinct teams, the save handler gives both teams a loss or overtime loss and neither a win |
| `Index.League.constructor` | src/pages/Index.tsx:72-75 | the page starts with the seed teams and fixtures, no selected match and the dialog closed |
| `Index.League.EditResult` | src/pages/Index.tsx:77-83 | if a match has the id, the first one is selected and the dialog opens; otherwise nothing changes |
| `Index.League.CloseAdmin` | src/pages/Index.tsx:190-193 | closing the dialog clears the selection and marks the dialog closed |
| `Index.League.SaveResult` | src/pages/Index.tsx:85-143 | the new teams and matches are those of `Save` applied to the old state; all teams are balanced afterwards iff they were before |
| `Index.WorkedResults` | src/pages/Index.tsx:104-140 | A beats B 4:2: A gets 7 games, 6 wins, 24:17; B gets a loss and 20:20; the match is finished 4:2; then B loses 3:4 at home after overtime and gains an overtime loss, not a loss |

## Left out

- Rendering: tables, dialogs, badges, icons, the CSS strings. A row's class string is reduced to its zone.
- React hook mechanics: each `useState` pair is a plain field. The save and close callbacks are returned as outcomes, not called. The text of `alert` is reduced to a rejection reason.
- `parseInt` is reduced to an optional sign, then the longest run of decimal digits, with anything after it ignored. Leading whitespace, the `0x` prefix and other radix handling are not modelled.
- JavaScript numbers are modelled as unbounded integers: NaN, fractional and very large values do not arise in the model.
- The schedule's date ordering needs date-string parsing by the runtime, so it is not part of this model. Its status badge table is presentation only.
- The full administration panel and the login gate are not part of this model: the first forwards form records to callbacks and is not wired to the page; the second compares a fixed secret.
