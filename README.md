# kivi-timer competition engine, modelled in Dafny

kivi-timer runs the clock of a bouldering competition. A server object,
`CompetitionManager`, holds the round settings and the rosters of three
categories. It runs a stage countdown and a turnover countdown and advances
the round index. After each advance it rebuilds the `ondeck` table: which
athlete is due on which boulder.

- In normal rounds the table is a round robin.
- In finals it is a set of staggered windows, one per boulder.

Each second the engine writes a status line such as `stage3/04:59` or
`transit4/00:12` to a file. It plays a sound cue at 60 and 5 seconds, and
saves the round to disk after every advance. The control panel reads roster
files with `csvToJson`: one athlete per line, `Athlete ID,First Name,Last Name`.

The project has six modules:

- `Athletes` (athletes.dfy): the athlete record and the roster checks of the upload handler.
- `JsString` (jsstring.dfy): the JavaScript string primitives both parts rely on.
  - `trim`, `split` and `join` on one character;
  - the decimal rendering of integers and `padStart(2, "0")`;
  - readers that invert them, so that round trips can be stated.
- `Csv` (csv.dfy): `csvToJson`. It returns a result instead of throwing on a short line, and comes with a writer for the documented format and the round trip through it.
- `Status` (status.dfy): the port calls of one timer update.
  - the sound cue;
  - the `MM:SS` status line and a reader for it;
  - the latch that logs a failing status write only once.
- `Rotation` (rotation.dfy): the `ondeck` table as pure functions of the round index, the rosters and the settings, and what it promises about placements.
- `Competition` (competition.dfy): the class `CompetitionManager`.
  - Its fields are the engine's fields.
  - Each interval callback and each handler is a method with a `modifies` frame naming exactly the fields the source assigns.
  - The calls each method makes into the sound, status-file and state-file ports are returned in order as a sequence of `PortCall`.
  - `AdvanceRoundState` is proved to rebuild `ondeck` as `Rotation.Ondeck` of the new round index.

The two `setInterval` timers are modelled as a field `clock`:
`Idle`, `StageClock` or `TurnoverClock`. A tick is a method call that requires
its clock to be the running one. The source tests `timerInterval ||
turnoverInterval` before starting; that test holds exactly when some clock
runs. A handle cleared without being nulled is always replaced by a running
one before anything reads it, and `_clearAllIntervals` nulls both.

JavaScript falsiness on numbers is modelled by 0:
- `data.stage` and `data.time` of `changeRoundState`;
- `newSettings.timerMode` of `updateSettings`.

`Math.floor(t / 60)` is Dafny's `/`, and `t % 60` is the truncating `JsRem60`.

The three categories are indices 0..2 of the field sequences. They stand for
the object keys `1`..`3`. Their group numbers are `1`..`3`.

## Model

| member | source | states |
|---|---|---|
| JsString.TrimStartShape | client/helpers/utils.js:5 | `trimStart` keeps a suffix that does not start with white space and removes only white space |
| JsString.TrimEndShape | client/helpers/utils.js:5 | `trimEnd` keeps a prefix that does not end in white space and removes only white space |
| JsString.TrimIsTrimmed | client/helpers/utils.js:5 | the result of `trim` (`Trim`) has no white space at either end |
| JsString.TrimWindow | client/helpers/utils.js:5 | `trim` returns a contiguous window of its input, and everything outside the window is white space |
| JsString.TrimOfTrimmed | client/helpers/utils.js:7 | trimming an already trimmed string changes nothing |
| JsString.TrimOfWhiteSpace | client/helpers/utils.js:4-5 | a string of white space only trims to the empty string |
| JsString.TrimFree | client/helpers/utils.js:7 | trimming never introduces a character |
| JsString.Split | client/helpers/utils.js:6 | `split` yields at least one piece, and no piece holds the separator |
| JsString.JoinSplit | client/helpers/utils.js:6 | joining the pieces of `split` with the separator gives the text back |
| JsString.SplitConcat | client/helpers/utils.js:9 | splitting `a + sep + b` gives the pieces of `a` followed by the pieces of `b` |
| JsString.SplitNoSeparator | client/helpers/utils.js:9 | a text without the separator splits into itself |
| JsString.SplitJoin | client/helpers/utils.js:6 | separator-free pieces, once joined, split back into the same pieces |
| JsString.NatToString | server/CompetitionManager.js:265 | `toString` of a natural number is a non-empty digit string without a leading zero |
| JsString.ParseNatToString | server/CompetitionManager.js:265 | the decimal reader inverts `toString` on natural numbers |
| JsString.ParseIntToString | server/CompetitionManager.js:265 | the decimal reader inverts `toString` (`IntToString`) on all integers, the minus sign included |
| JsString.PaddedNatValue | server/CompetitionManager.js:265 | `padStart(2, "0")` (`PadStart2`) of a natural number is a digit string of the same value, two characters long below 100 |
| Csv.TrimEach | client/helpers/utils.js:7 | one trimmed line per input line, in order |
| Csv.TrimEachKeeps | client/helpers/utils.js:7 | every mapped line is trimmed and holds no character that its line did not |
| Csv.DropBlank | client/helpers/utils.js:8 | no blank line survives, and input without blank lines passes unchanged |
| Csv.DropBlankConcat | client/helpers/utils.js:8 | the filter works line by line: the kept lines of `a + b` are those of `a` followed by those of `b` |
| Csv.DropBlankSingle | client/helpers/utils.js:8 | a single line is kept exactly when it is not blank (with `DropBlankConcat` this pins the filter down completely) |
| Csv.DropBlankMembers | client/helpers/utils.js:8 | a line survives exactly when it is a non-blank line of the input |
| Csv.DropBlankKeepsLine | client/helpers/utils.js:8 | every non-blank line is kept, at the position right after the kept lines before it, so nothing is reordered |
| Csv.DropBlankKeeps | client/helpers/utils.js:8 | trimmed, separator-free lines stay trimmed and separator-free after the filter |
| Csv.Rows | client/helpers/utils.js:4-8 | the rows handed to the record mapping are non-empty, trimmed and newline-free (which rows they are: `RowsOfLines`) |
| Csv.ParseRow | client/helpers/utils.js:9-15 | a row yields a record exactly when it has at least three comma-separated fields |
| Csv.ParseRows | client/helpers/utils.js:11-15 | one record per row, or an error naming a row that exists |
| Csv.ParseRowsSpec | client/helpers/utils.js:11-15 | records are produced iff every row has three fields, each equal to its row's record in order; otherwise the error names the first short row (where the JavaScript throws) |
| Csv.CsvToJson | client/helpers/utils.js:3-16 | `csvToJson` gives one record per row, or an error naming one of the rows |
| Csv.BlankInputHasNoRecords | client/helpers/utils.js:4-8 | an empty or white-space-only file yields no records |
| Csv.ExtraFieldsIgnored | client/helpers/utils.js:12-14 | fields past the third do not change the record |
| Csv.LineTrimmed | client/helpers/utils.js:20-23 | the documented line of a record without commas, newlines or surrounding blanks is non-empty, trimmed and newline-free |
| Csv.LineOfCleanRecord | client/helpers/utils.js:20-23 | such a record, written as a documented line, parses back to itself |
| Csv.JoinTrimmed | client/helpers/utils.js:4-5 | lines that are non-empty and trimmed join into a trimmed text |
| Csv.RowsOfJoinedLines | client/helpers/utils.js:4-8 | the rows of a text made of clean lines are exactly those lines |
| Csv.JoinEnds | client/helpers/utils.js:4-6 | a text joined from lines starts with the first line's first character and ends with the last line's last |
| Csv.RowsOfLines | client/helpers/utils.js:4-8 | a text made of trimmed lines, the first and last not blank, has as rows exactly its non-blank lines in order: blank lines between them drop out |
| Csv.ParseLines | client/helpers/utils.js:11-15 | the documented lines of clean records parse to those records |
| Csv.CsvRoundTrip | client/helpers/utils.js:3-16 | `csvToJson` of a file written in the documented format gives back the records |
| Status.CueFor | helpers/config.js:20-23 | a cue is played exactly at 5 seconds (the five-beep file) and at 60 seconds (the beep file) |
| Status.JsRem60 | server/CompetitionManager.js:264 | the truncating remainder: the sign of the time, a magnitude below 60, `time - r` a multiple of 60, and the ordinary remainder for non-negative times |
| Status.TimerUpdateShape | server/CompetitionManager.js:247-273 | `TimerUpdateCalls`, the port calls of `_timerUpdateEmit`: a zero time makes none; any other time ends with the write of `StatusLine`, and plays a cue exactly at 5 and 60 seconds |
| Status.FormatNonNegative | server/CompetitionManager.js:263-265 | for non-negative times `FormatTime` gives the padded minutes, a colon, the padded seconds |
| Status.FormatTimeRoundTrip | server/CompetitionManager.js:263-265 | reading a non-negative status time back gives the seconds; below 100 minutes it is exactly five characters |
| Status.HeadParses | server/CompetitionManager.js:266-271 | the `transit`/`stage` prefix built by `Head` reads back as the phase and the round number it was made from |
| Status.StatusLineRoundTrip | server/CompetitionManager.js:262-271 | for a non-negative time, a `StatusLine` reads back as phase, displayed round (`roundState + 1` in transit) and remaining seconds |
| Status.LatchStep | server/CompetitionManager.js:273-280 | after a completed write the flag equals "this write failed", and an error is logged iff it failed while the flag was down |
| Status.LatchFollowsLastWrite | server/CompetitionManager.js:273-280 | after any non-empty run of writes the flag reflects only the last one |
| Status.OutageLoggedOnce | server/CompetitionManager.js:274-276 | a run of failures logs one error, or none when the flag was already up |
| Status.LogsBoundedBySuccesses | server/CompetitionManager.js:273-280 | logged errors never exceed one plus the number of successful writes |
| Rotation.AthleteAt | server/CompetitionManager.js:177 | an athlete is named exactly when the index is inside the roster |
| Rotation.MaxRosterSize | server/CompetitionManager.js:153-156 | `maxFinalists` bounds every roster size and is attained by one (or is 0) |
| Rotation.ClimbersOnWall | server/CompetitionManager.js:160-163 | with at least one boulder, between 1 and the number of boulders, and never above `finalsClimbers || 1` |
| Rotation.FinalsOffset | server/CompetitionManager.js:164 | the finals offset is at least 1 (its covering property is `OffsetCovers`) |
| Rotation.RoundRobinSlots | server/CompetitionManager.js:186-193 | a normal-round bucket has exactly one entry per boulder |
| Rotation.RoundRobinSlotAt | server/CompetitionManager.js:186-193 | entry `b - 1` is boulder `b`, holding `athletes[r - 2(b - 1)]` when that index exists, nobody otherwise |
| Rotation.RoundRobinVisitsOnce | server/CompetitionManager.js:187-190 | in a roster without repeats, athlete `i` is due on boulder `b` exactly at round `i + 2(b - 1)` |
| Rotation.FinalsSlots | server/CompetitionManager.js:171-180 | a finals bucket has at most one entry per boulder |
| Rotation.FinalsSlotsOrdered | server/CompetitionManager.js:171-180 | finals entries name boulders among 1..boulders, in strictly increasing order |
| Rotation.FinalsSlotMember | server/CompetitionManager.js:171-180 | a finals entry is listed exactly when its boulder's window `[(b - 1) * offset, (b - 1) * offset + maxFinalists)` holds the round, with `finalists[r - start]` or nobody |
| Rotation.FinalsVisitsOnce | server/CompetitionManager.js:171-180 | in finals, athlete `i` is due on boulder `b` exactly at round `(b - 1) * offset + i` |
| Rotation.CeilDivIsCeiling | server/CompetitionManager.js:164 | the integer form of `Math.ceil(a / b)` is the least multiplier of `b` reaching `a` |
| Rotation.OffsetCovers | server/CompetitionManager.js:160-164 | the offset is at least 1, and `climbersOnWall` windows of that many rounds cover all `maxFinalists` positions |
| Rotation.FinalsOverlapBound | server/CompetitionManager.js:159-181 | at any round a finals bucket has at most `climbersOnWall` entries, which is what the offset is chosen for |
| Rotation.CategoryOndeck | server/CompetitionManager.js:141-195 | one category's bucket: empty while the round index is negative, one entry per boulder in normal rounds, at most one per boulder in finals |
| Rotation.Ondeck | server/CompetitionManager.js:142-147 | one bucket per category, all empty while the round index is negative |
| Rotation.EmptyRostersEmptyFinals | server/CompetitionManager.js:157 | finals with every roster empty leave every bucket empty |
| Rotation.RoundRobinPlacement | server/CompetitionManager.js:226-228 | in normal rounds, stepping to `p + 2(b - 1)` puts athlete `p` on boulder `b` |
| Rotation.FinalsPlacementOneOnWall | server/CompetitionManager.js:226-228 | in finals with one climber on the wall, stepping to `p + n(b - 1)` (`n` the category size) puts athlete `p` on boulder `b` of the largest category |
| Rotation.FinalsPlacementTwoOnWall | server/CompetitionManager.js:226-228 | with two climbers on the wall the same step misses: 4 finalists and 4 boulders, athlete 0 asked onto boulder 2, boulder 2 holds athlete 2 |
| Rotation.DefaultScenarioRoundOne | helpers/config.js:10-18 | with the default settings and twelve athletes, round 1 puts athlete 1 on boulder 1 and nobody on boulder 2 |
| Competition.Merge | server/CompetitionManager.js:425 | every key the patch carries replaces the setting, every other setting is kept, and an empty patch changes nothing |
| Competition.FindIndex | server/CompetitionManager.js:216 | `findIndex` gives the first position holding the id, or none when no position does |
| Competition.LocateFrom | server/CompetitionManager.js:215-221 | the category search finds the first category (in key order) holding the id and the first position there, or none when no roster holds it |
| Competition.Locate | server/CompetitionManager.js:213-225 | no category holds the id exactly when the search finds nothing (the `could not place athlete` case) |
| Competition.JumpSteps | server/CompetitionManager.js:199-234 | the number of advances is unknown exactly when no stage is given and the id is in no roster; an explicit stage gives `stage - 1`, plus one with a preset time |
| Competition.SaveCallsRounds | server/CompetitionManager.js:236-238 | the state saves of `AdvanceSteps` (`SaveCalls`) name every round passed through, in order, with the same stage time |
| Competition.JumpPlacement | server/CompetitionManager.js:226-237 | a normal-round jump to a known athlete and boulder steps to the round where that athlete is due on that boulder |
| Competition.JumpLandsOnAthlete | server/CompetitionManager.js:226-238 | a table left by the jump (`JumpOutcome`, which `SelectRoundState` ensures) holds that athlete on that boulder |
| Competition.FinalsBucket | server/CompetitionManager.js:171-180 | the finals boulder loop builds exactly the finals bucket |
| Competition.RoundRobinBucket | server/CompetitionManager.js:186-193 | the normal-round boulder loop builds exactly the round-robin bucket |
| Competition.CompetitionManager.constructor | server/CompetitionManager.js:2-44 | three empty categories, round 0, stage time from the settings, all flags down, no clock |
| Competition.CompetitionManager.Reset | server/CompetitionManager.js:47-57 | stage time reloaded, flags down, clocks stopped, one timer update of the reloaded time |
| Competition.CompetitionManager.ClearData | server/CompetitionManager.js:59-64 | rosters, group names and buckets emptied, nothing else touched |
| Competition.CompetitionManager.ClearAllIntervals | server/CompetitionManager.js:66-71 | no clock runs afterwards |
| Competition.CompetitionManager.RunTimer | server/CompetitionManager.js:73-75 | the stage clock runs, replacing itself if it already ran |
| Competition.CompetitionManager.RunTurnoverTimer | server/CompetitionManager.js:109-112 | the turnover is reloaded only when used up, and the turnover clock runs |
| Competition.CompetitionManager.AdvanceRoundState | server/CompetitionManager.js:137-196 | one more round, one state save, and `ondeck` equal to the table of the new round |
| Competition.CompetitionManager.FillFinals | server/CompetitionManager.js:151-181 | every category's bucket is its finals bucket for the round |
| Competition.CompetitionManager.FillRoundRobin | server/CompetitionManager.js:183-194 | every category's bucket is its round-robin bucket for the round |
| Competition.CompetitionManager.StageTick | server/CompetitionManager.js:75-106 | counts down by exactly 1 with a timer update while positive; at zero the 120-second observation timer reloads; a normal round enters turnover without advancing; finals advance and stop the clock |
| Competition.CompetitionManager.TurnoverTick | server/CompetitionManager.js:113-134 | counts down by exactly 1 with a timer update while positive; at zero it hands over to `EnterStage` |
| Competition.CompetitionManager.EnterStage | server/CompetitionManager.js:118-132 | the stage clock runs, either at a pending preset stage time in the same round (which is then cleared), or with a full stage of the next round and its table |
| Competition.CompetitionManager.StartTimer | server/CompetitionManager.js:284-317 | first start: a 6-second turnover in normal rounds, an advance and the stage in finals; later starts leave a running clock alone, resume a paused turnover, or play the boop cue and run the stage |
| Competition.CompetitionManager.PauseTimer | server/CompetitionManager.js:319-322 | both clocks stop and nothing else changes |
| Competition.CompetitionManager.ZeroTimer | server/CompetitionManager.js:324-329 | clocks stop and the stage time goes back to the setting, with a timer update |
| Competition.CompetitionManager.NextClimber | server/CompetitionManager.js:331-347 | reset, round started, next climber pending, one advance |
| Competition.CompetitionManager.UpdateRoundName | server/CompetitionManager.js:349-352 | the round name is replaced |
| Competition.CompetitionManager.UpdateGroupName | server/CompetitionManager.js:354-357 | the named category's group name is replaced, the others kept |
| Competition.CompetitionManager.ResetRound | server/CompetitionManager.js:379-399 | round 0 and the timer reset; the transit table of round 0 is built, with one state save, iff some category has a group name |
| Competition.CompetitionManager.HasGroupName | server/CompetitionManager.js:384-390 | the category loop reports a group name exactly when some category has one |
| Competition.CompetitionManager.FindAthlete | server/CompetitionManager.js:214-220 | the loop over categories finds what `Locate` specifies |
| Competition.CompetitionManager.SelectRoundState | server/CompetitionManager.js:198-245 | `JumpOutcome`: a negative stage sets the round to `stage - 1` with its table; otherwise the round advances `JumpSteps` times (`stage - 1`, or `p + m(b - 1)`, plus one with a preset time), and an unknown id leaves round and table as they were; the calls are the saves of the rounds passed |
| Competition.CompetitionManager.AdvanceSteps | server/CompetitionManager.js:236-238 | the stepping loop advances `max(0, steps)` rounds, rebuilds the table when it advanced at all, and saves each round passed |
| Competition.CompetitionManager.PresetStageTime | server/CompetitionManager.js:407-415 | the stage time and the pending preset both become the given time, the round is not started, with one timer update |
| Competition.CompetitionManager.PrepareJump | server/CompetitionManager.js:405-415 | reset, round 0, and the preset stage time when one is given, with the timer updates of both in order |
| Competition.CompetitionManager.ChangeRoundState | server/CompetitionManager.js:401-417 | reset, optional preset stage time, then the jump (`JumpOutcome`); a normal-round jump to an athlete and a boulder ends with that athlete on that boulder's entry |
| Competition.CompetitionManager.UpdateSettings | server/CompetitionManager.js:419-428 | settings become the merge of old settings and patch; the stage time is reloaded, with a timer update, exactly when the patch sets a new non-zero stage length |
| Competition.CompetitionManager.HandleAthleteUpload | server/CompetitionManager.js:448-480 | delete always clears; otherwise a started round, a malformed list or an unknown category is refused with its message and no change; an accepted upload replaces exactly that category's roster and group name |
| Competition.CompetitionManager.Shutdown | server/CompetitionManager.js:430-433 | both clocks stop |
| Competition.CompetitionManager.StatusWriteCompleted | server/CompetitionManager.js:273-280 | `writeErrorFlag` and the log decision are `LatchStep` of the old flag and the outcome: the flag follows the write, a failure is logged only when the flag was down |

The finals jump of `_selectRoundState` multiplies the boulder by the size of
the athlete's category, not by the finals offset; `SelectRoundState` does the same. `FinalsPlacementOneOnWall`
shows that this lands the athlete on the requested boulder when one climber
is on the wall and the category is the largest one.
`FinalsPlacementTwoOnWall` gives a configuration where it does not. `SelectRoundState`
follows the code as written.

Long handlers are split where the source has a natural seam, so that each
proof stays small: `EnterStage` is the turnover expiry, `AdvanceSteps` the
stepping loop, `HasGroupName` the category loop of `resetRound`, and
`PrepareJump`/`PresetStageTime` the first half of `changeRoundState`.

`_advanceRoundState` pushes into buckets it has just emptied. The model builds
each category's bucket first (`FinalsBucket`, `RoundRobinBucket`) and then
stores it; the resulting table is the same.

## Left out

- Socket broadcasts (`io.emit`), console logging and the real one-second cadence are not modelled; only the port calls (sound, status file, state file) are recorded.
- The port implementations (sound playback, file writes, `saveStateToFile`) are not modelled. The write completion arrives as `StatusWriteCompleted` with its outcome.
- server.js, the socket handlers and the client pages are not part of this model.
- Competition.CompetitionManager.constructor: the status write made by its internal `_reset` is not returned, because a Dafny constructor has no out-parameters. `Reset` models that call.
- `updateGroupCategory` is not modelled: its body is commented out.
- Lead mode and the `zones` setting are only carried as settings: no core code reads them.
- `getFullState`, `getAthletes` and `getRoundSettings` are not modelled: they only read fields.
- Competition.CompetitionManager.UpdateGroupName: a group key outside 1..3 adds a stray key in the source. Here it changes nothing.
- Competition.CompetitionManager.HandleAthleteUpload: the category is taken as an already-parsed integer (0 for `NaN`). A missing `groupNumber`, which throws in the source, is not modelled. Neither are list elements that are not objects.
- Competition.CompetitionManager.ChangeRoundState: a missing or non-numeric `boulder` (`NaN` steps, no advance) is not modelled; `boulder` is an integer.
- `finalsClimbers || 1` is modelled as `Max(1, finalsClimbers)`, which agrees on integers. When there is no boulder, the source divides by a non-positive `climbersOnWall` (possibly `Infinity`). The model uses an offset of 1 there. No window is ever built in that case, so the table is the same.
- Csv.ParseRows: a short line makes the JavaScript throw a `TypeError`. Here it is an error result naming the line.
