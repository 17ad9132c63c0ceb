# holly agent core, modelled in Dafny

holly is a Windows service agent. It runs on the machines of a build farm. It has four core parts.

- **Control loop.** The service's `Execute` loop reads the main timer's period from `run.conf`. It reports its state to the service control manager and reacts to Interrogate, Stop, Shutdown, Pause and Continue requests. A tick of the ticker it listens to dispatches a scheduling pass only when all of these hold:
  - `run.conf` has a usable `timer = N` entry;
  - that ticker exists (a main period that is not positive gives no main ticker);
  - no pass is running.

  A pass that panics ends the whole service: nothing recovers the panic.
- **Scheduling pass.** The pass (`handleMainExecute`) reads `run.conf` line by line. Each line of the form `sync = <command> <args...>` becomes an argument list:
  - the trimmed line is split on single spaces;
  - every run of pieces between a piece that starts with `"` and a piece that ends with `"` is joined back into one argument, quotes kept;
  - the two keyword pieces are dropped.
- **Launcher.** The pass hands each argument list to the process launcher (`localExec`). The launcher has a case for lists of 1 to 15 items and does nothing for any other length.
- **Process checks.** `isProcessActive` and `isRunnerActive` look for image names in the output of `tasklist`, ignoring case.

The model has seven modules.

- `Wrappers`: `Option` and `Result`.
- `GoStrings`: the Go library string functions the core calls. These are `strings.TrimSpace`, `strings.Split`, `strings.Join`, `strings.ToLower` and `strings.Contains`, with the split/join round trips and the trimming facts proved about them.
- `SyncLine`: the line tokenizer.
  - Each of its three loops is stated as a function: `Marks`, `JoinRuns` and `Reassemble`.
  - Each is then carried out by a method with the source's loop and proved equal to that function: `CollectMarks`, `JoinQuotedRuns` and `RebuildArguments`.
  - `Classify` gives the outcome of one line, and `ProcessLine` is the line-loop body that computes it.
  - The run-time panics a line can cause are explicit results. They are `s[0]` on a non-empty blank line, `items[1]` on the line `sync`, `end[i]` for an unclosed quote, and a slice with its bounds reversed.
- `Dispatch`: one scheduling pass and the launcher, in the class `ServiceContext`.
  - The class has the shared `busy` flag and a log of launched argument lists.
  - `HandleMainExecute` is proved against the pure `Pass`. `Execute` is proved against the event-loop function `Run`.
- `TimerConfig`: the timer configuration. It contains:
  - a hand-written matcher for the regular expression `timer\s?=\s?\d+`, proved to find the leftmost occurrence and to take it as long as it goes;
  - Go's `strconv.Atoi` for a 64-bit `int`, including its range error for digits worth more than 64 unsigned bits that come before a character that is not a digit;
  - the `time.Duration(val) * time.Second` product, which wraps around in 64 bits.
- `EventLoop`: one select-statement step of the control loop, as a transition function over the loop's state, with its invariants. The end of a dispatched pass is the event `PassFinished`. Its panic is the event `PassCrashed`, which ends the loop without a StopPending report.
- `ProcessCheck`: the `tasklist` checks, as a specification function plus the two methods with their loops.

When a piece both opens and closes a quote, such as `"C:\tool.exe"`, the code sets `skip`. Plain pieces that follow it are then dropped from the argument list. Only a piece that ends with `"` and does not start with one clears `skip` again. A further self-closed piece such as `"b"` emits its own run and leaves `skip` set (`SyncLine.SkipSuppressesPlainPieces`).

## Model

| member | source | states |
|---|---|---|
| SyncLine.Marks | service.go:331-341 | The opening (or closing) indices are in ascending order. They are exactly the indices of the pieces that start (or end) with a double quote. |
| SyncLine.JoinRuns | service.go:343-349 | Joining succeeds exactly when every opening index has a closing partner at most one position to its left. It then gives one argument per opening piece: the pieces from the opener to its partner, joined with single spaces. |
| SyncLine.Reassemble | service.go:351-372 | The rebuild loop uses one joined run per opening piece, and it only ever appends to the argument list. |
| SyncLine.CollectMarks | service.go:331-341 | The first loop over the pieces collects exactly `Marks` of the opening and of the closing pieces. |
| SyncLine.JoinQuotedRuns | service.go:343-349 | The loop that fills `s2` yields `JoinRuns`, including its panic when a partner is missing or out of order. |
| SyncLine.RebuildArguments | service.go:351-372 | The loop with `skip` and `j` builds exactly `Reassemble`'s argument list. |
| SyncLine.ProcessLine | service.go:323-379 | Handling one line (trim, comment and blank checks, split, keyword test, the three loops, dropping two items) gives `Classify` of the line. |
| SyncLine.JoinRunsErrorSticks | service.go:347-349 | Once a prefix of the opening indices fails to pair, the whole join fails with that same panic. |
| SyncLine.MarksCount | service.go:331-341 | There are as many opening indices as pieces that open a quote. |
| SyncLine.CountOpenMonotone | service.go:331-341 | Opening pieces only accumulate along longer prefixes of the line. |
| SyncLine.CountOpenAppend | service.go:331-341 | The opening pieces of two concatenated lists add up. |
| SyncLine.ReassembleAppend | service.go:354-372 | Rebuilding a concatenation means rebuilding the second part from the state the first part left. |
| SyncLine.KeywordsLead | service.go:330-374 | The pieces `sync` and `=` are always the first two rebuilt arguments, so dropping two items drops exactly them and never goes out of range. |
| SyncLine.KeywordIsPlain | service.go:330 | A piece that trims to an unquoted keyword is non-empty and takes no part in quoting. |
| SyncLine.PlainPiecesPassThrough | service.go:354-372 | Outside quoted runs, pieces pass through unchanged and in order. The empty pieces left by double spaces are dropped. |
| SyncLine.SkipSuppressesPlainPieces | service.go:354-372 | While `skip` is set and no piece only closes a quote, only the next joined runs are emitted, one per opening piece. Plain pieces are dropped and `skip` stays set. |
| SyncLine.SelfClosedPieceSetsSkip | service.go:356-360 | A piece that both opens and closes a quote emits the next joined run and sets `skip`. |
| SyncLine.SkipOverPlainPieces | service.go:364-368 | With `skip` set, plain and empty pieces change nothing. |
| SyncLine.OneOpeningPiece | service.go:356-360 | An opening piece emits the next joined run, advances `j` and sets `skip`. |
| SyncLine.ClosingPiece | service.go:362-363 | A piece that only closes a quote clears `skip` and emits nothing. |
| SyncLine.QuotedRunCollapses | service.go:354-372 | An opener, plain pieces and a closer together give exactly one argument, the joined run, and leave `skip` clear. |
| SyncLine.ArgumentsComeFromLine | service.go:354-372 | Every rebuilt argument is a joined run or a non-empty plain piece of the line. |
| SyncLine.LaunchOnlySyncLines | service.go:324-379 | A line hands an argument list to the launcher exactly when it is a `sync = ...` line whose quotes pair up. |
| SyncLine.CommentLinesIgnored | service.go:327 | A line whose first non-space character is `#` is ignored. |
| Dispatch.Actions | service.go:323-388 | The pass has one action per configuration line. |
| Dispatch.RunActions | service.go:323-391 | The line loop either completes or crashes. It never aborts with a configuration error. |
| Dispatch.ServiceContext.constructor | service.go:628 | A new service context is idle and has launched nothing. |
| Dispatch.ServiceContext.LocalExec | service.go:69-196 | The launcher starts exactly one process for an argument list of 1 to 15 items and none for any other length. Nothing else changes. |
| Dispatch.ServiceContext.HandleLine | service.go:324-379 | The line-loop body extends the actions read so far by the action of the next line and launches that action's process, if any. |
| Dispatch.ServiceContext.HandleMainExecute | service.go:304-392 | `busy` is 0 again on every way out: a normal return, a configuration error, and the deferred store before a panicking line ends the service. The outcome, `Crashed` for a panic, is that of `Pass`, and the processes started are `Pass`'s, in order. |
| Dispatch.ServiceContext.Execute | service.go:521-609 | The service reports StartPending, then Running. It then follows `Run` of the parsed timer setting over the events. It reports StopPending when a Stop or Shutdown ends the loop, and reports nothing more when a crashed pass ends the service. |
| Dispatch.ActionsOfSnoc | service.go:323-324 | One more line extends the actions read so far by that line's action. |
| Dispatch.ActionsOfAll | service.go:323-388 | Once every line has been read, the actions read are those of the whole configuration. |
| Dispatch.RunActionsSnoc | service.go:323-388 | The line loop handles one more action by one more step. |
| Dispatch.CrashIsFinal | service.go:323-388 | After a panicking line, no later line is handled. |
| Dispatch.PanicEndsPass | service.go:323-388 | Once the lines read so far have panicked, the pass's result is fixed. |
| Dispatch.StartedSnoc | service.go:323-388 | Reading the actions from the back agrees with reading them from the front. |
| Dispatch.PanicFreeRunStartsEverything | service.go:323-391 | Without a panicking line, the pass completes and starts one process per launched line whose list has 1 to 15 items, in order. |
| Dispatch.StartedComeFromLaunches | service.go:69-196 | Every list the loop starts has 1 to 15 items and comes from some launched line. |
| Dispatch.LaunchedComeFromSyncLines | service.go:304-392 | Every process a pass starts comes from a `sync = ...` line of the configuration and has 1 to 15 arguments. |
| Dispatch.NoLaunchNoStart | service.go:323-388 | A run with no launched line starts nothing. |
| Dispatch.NoSyncLineNoLaunch | service.go:304-392 | A configuration without a `sync = ...` line starts no process. |
| Dispatch.BlankLineCrashesPass | service.go:324-327 | A non-empty line of white space only crashes the pass. Nothing after it is started, whatever the later lines are. |
| TimerConfig.SkipOptSpace | service.go:554 | `\s?` consumes one white-space character exactly when one is there. |
| TimerConfig.DigitsEnd | service.go:554 | `\d+` stops at the end of the text or at the first character that is not a digit. |
| TimerConfig.DigitsEndSpans | service.go:554 | Everything the greedy `\d+` consumes is a digit. |
| TimerConfig.DigitsEndCovers | service.go:554 | Any run of digits from the same start lies inside the greedy `\d+`. |
| TimerConfig.MatchAt | service.go:554-555 | A match at `p` starts at `p` with the word `timer`, has its `=` at least five positions later, and has at least one character of value after the `=`, all inside the text. |
| TimerConfig.FindFrom | service.go:555 | A match found from `p` starts at or after `p` and is the matcher's answer at its own start position. |
| TimerConfig.FindFromIsFirst | service.go:555 | The search from `p` reports the first position at which the matcher succeeds, and reports nothing only when the matcher succeeds nowhere from `p` on. |
| TimerConfig.MatchAtSound | service.go:554-555 | What the matcher reports is in the pattern's language. |
| TimerConfig.ValueCovered | service.go:554 | Any value part of the pattern at a position ends within the matcher's greedy `\s?\d+`. |
| TimerConfig.MatchAtComplete | service.go:554-555 | A match of the pattern from `p` to `q` makes the matcher report a match at `p` that ends at `q` or later. |
| TimerConfig.FindFromReaches | service.go:555 | A match at a position at or after `p` means the search from `p` finds one that starts no later. |
| TimerConfig.FindIsLeftmostLongest | service.go:554-555 | `Find` reports nothing exactly when no substring matches the pattern. Otherwise it reports a substring that matches, starts leftmost, and is the longest match at that start. |
| TimerConfig.MatchSplits | service.go:557 | Splitting a match on `=` gives exactly two parts, the keyword side and the value side. |
| TimerConfig.MatchValueTrims | service.go:558 | Trimming the value side of a match leaves exactly its digits. |
| TimerConfig.Atoi | service.go:558 | A parsed value fits in 64 bits, and the empty string is a syntax error. |
| TimerConfig.ParseUnsigned | service.go:558 | The unsigned part of `Atoi` yields a value between 0 and the largest unsigned 64-bit number, and an empty body is a syntax error. |
| TimerConfig.AtoiRangeBeforeSyntax | service.go:558 | Digits worth more than 64 unsigned bits give a range error, whatever characters follow them. |
| TimerConfig.AtoiOfDigits | service.go:558 | On digits only, `Atoi` yields their value when it fits in 64 bits and a range error otherwise. |
| TimerConfig.DecimalNonNegative | service.go:558 | A string of digits denotes a number that is not negative. |
| TimerConfig.WrapInt64 | service.go:564 | The product computed in `int64` lies in the 64-bit range and agrees with the true product modulo 2^64. |
| TimerConfig.SettingFromSpec | service.go:524-566 | Dispatching is switched on exactly when the text holds the pattern and the first match's digits denote at most MaxInt64. The period is then that many seconds, wrapped to 64 bits. Otherwise the 5-second default stays, with dispatching off. |
| TimerConfig.MatchedValueIsDigits | service.go:557-558 | The trimmed value side of a match, which `Atoi` is given, is exactly the match's digits. |
| TimerConfig.PeriodExactUpTo | service.go:564 | Up to 9223372036 seconds, the period is exact and not negative. |
| TimerConfig.PeriodWrapsPastLimit | service.go:564 | One second more overflows to a negative period. |
| EventLoop.TickDispatchesIff | service.go:578-586 | A tick dispatches a pass exactly when the loop listens to that ticker, the ticker exists, no pass runs and dispatching is on. It changes nothing else. |
| EventLoop.NoProceedNoDispatch | service.go:524-586 | Without a usable timer setting, no pass is ever dispatched. |
| EventLoop.OnePassAtATime | service.go:578-586 | The busy flag stays 0 or 1. Passes dispatched never exceed passes finished plus one. |
| EventLoop.EndsOnStopOrCrash | service.go:575-606 | The loop has ended exactly when a Stop or Shutdown request or a crashed pass has been received. |
| EventLoop.CrashedIffFirstEndIsCrash | service.go:575-607 | The service has crashed exactly when the first event that ended the loop was a crashed pass. A crashed service has stopped looping and reports no StopPending. |
| EventLoop.EndedIsFinal | service.go:594-595 | After the loop has ended, later events change nothing. |
| EventLoop.ReportsOnlyGrow | service.go:575-607 | Status reports are only ever appended. |
| EventLoop.PauseSwitchesToSlowTicker | service.go:596-598 | Pause reports Paused and switches to the 2-second ticker. That ticker's tick dispatches when idle and enabled, and the main ticker goes unheard. |
| EventLoop.ContinueSwitchesToMainTicker | service.go:599-601 | Continue reports Running and switches back to the main ticker. Its ticks dispatch again when the period is positive, and the 2-second ticker goes unheard. |
| EventLoop.DeadMainTickerNeverDispatches | service.go:571-586 | With a period that is not positive and no Pause request, no pass is ever dispatched. |
| EventLoop.DispatchNeedsHeardTick | service.go:578-586 | A pass is dispatched only by a heard tick of the current ticker, while the loop runs, no pass runs and dispatching is on. |
| EventLoop.DeadMainTickerOnlySlowDispatches | service.go:571-586 | With a period that is not positive, only the 2-second ticker's ticks dispatch passes. |
| EventLoop.ZeroTimerDispatchesOnlyWhenPaused | service.go:554-586 | The entry `timer = 0` turns dispatching on with a zero period. Passes are then dispatched only while paused. |
| ProcessCheck.HitCount | utils.go:102-110 | The count of names found never exceeds the names looked at. |
| ProcessCheck.IsProcessActive | utils.go:81-121 | The check answers `ProcessActive`. An empty list or a failed `tasklist` gives false. In all-mode every name must occur in the lower-cased output. In any-mode more than one entry must occur. Any other mode gives false. |
| ProcessCheck.IsRunnerActive | utils.go:134-136 | The runner check is the any-mode check for git.exe and msbuild.exe. |
| ProcessCheck.RunnerNeedsBothTools | utils.go:102-115 | The runner counts as active exactly when both git.exe and msbuild.exe occur in the output, ignoring case. One of them alone is not enough. |
| ProcessCheck.TwoHits | utils.go:102-115 | With two names, any-mode succeeds exactly when both are found. |
| ProcessCheck.HitCountIgnoresCase | utils.go:96-110 | Names that agree once lower-cased give the same count. |
| ProcessCheck.CaseInsensitive | utils.go:94-117 | Outputs and names that agree once lower-cased give the same answer. |
| ProcessCheck.HitCountFull | utils.go:95-110 | The count reaches the number of names exactly when every name is found. |
| ProcessCheck.AllImpliesAny | utils.go:95-115 | With two or more names, success in all-mode implies success in any-mode. |
| ProcessCheck.AnyModeNeedsTwoHits | utils.go:102-115 | In any-mode, a single name never suffices. |
| ProcessCheck.AnyModeCountsDuplicates | utils.go:102-115 | In any-mode, a name listed twice counts twice, so it alone suffices when it is running. |
| ProcessCheck.FalseByDefault | utils.go:81-117 | An empty list, a failed `tasklist` or an unknown mode all give false. |
| SyncLine.IsSyncLine | service.go:326-330 | A line is a `sync = ...` line when it is not empty, does not trim to nothing or to a comment, and its first two space-separated pieces trim to `sync` and `=`. |
| SyncLine.Classify | service.go:324-379 | What the pass does with one line. An empty line or a comment is ignored. A non-empty blank line panics. Otherwise the line goes to `ClassifyPieces`. |
| SyncLine.ClassifyPieces | service.go:329-379 | A line whose first piece is not `sync` is ignored, and the lone piece `sync` panics on `items[1]`. A second piece other than `=` is ignored. Quotes that do not pair up panic. Otherwise the rebuilt list, minus its first two items, is launched. |
| SyncLine.RebuildStep | service.go:355-370 | One iteration of the rebuild loop: skip an empty piece; emit the next joined run and set `skip` for an opening piece; clear `skip` for a closing piece; emit a plain piece when `skip` is clear. |
| Dispatch.Launches | service.go:73-194 | The launcher's `switch` starts one process for 1 to 15 arguments and none otherwise. |
| Dispatch.Next | service.go:323-388 | One line's effect on the pass: a launch is appended, a panic ends the pass, and nothing happens after a panic. |
| Dispatch.Pass | service.go:304-392 | A configuration error aborts the pass before any line. Otherwise the pass is the line loop over the actions of all the lines. |
| Dispatch.Started | service.go:323-388 | The launches of a panic-free run, read front to back: an independent statement of the line loop. |
| TimerConfig.IsTimerText | service.go:554 | The strings the whole pattern `timer\s?=\s?\d+` matches, with Go's `\s` and `\d`. |
| TimerConfig.Find | service.go:554-555 | `re.Find`: the search for the pattern from the start of the text. |
| TimerConfig.MatchedValue | service.go:557-558 | The match split on `=`, second part, trimmed: the text handed to `Atoi`. |
| TimerConfig.SettingOf | service.go:558-566 | A parse error keeps the 5-second default with dispatching off. A value `v` gives the period `v` seconds, wrapped to 64 bits, with dispatching on. |
| TimerConfig.SettingFrom | service.go:554-566 | No match keeps the default. Otherwise the setting is what `SettingOf` makes of `Atoi` of the match's value. |
| TimerConfig.ParseTimer | service.go:544-569 | When `run.conf` cannot be located or read, the default stays. Otherwise the setting is `SettingFrom` of its text. |
| EventLoop.Delivers | service.go:571-578 | The select statement hears a ticker only when the loop listens to it and it exists; the main ticker does not exist for a period that is not positive. |
| EventLoop.Step | service.go:575-605 | One select iteration: a tick dispatches under the conditions above; Interrogate echoes the current status twice; Pause and Continue report and switch tickers; Stop, Shutdown and a crashed pass end the loop; an unknown request changes nothing. |
| EventLoop.Run | service.go:575-606 | The loop over all the events, in order. |
| EventLoop.Entry | service.go:523-574 | On entering the loop: the main ticker, and StartPending then Running reported. |
| EventLoop.Reports | service.go:607 | The reports sent in all: StopPending follows only when a request ended the loop. |
| EventLoop.Ends | service.go:594-595 | The events that end the loop: Stop, Shutdown, and a crashed pass. |
| ProcessCheck.Listed | utils.go:96-106 | A name, lower-cased, occurs in the lower-cased `tasklist` output. |
| ProcessCheck.ProcessActive | utils.go:81-121 | The answer of `isProcessActive`: false for an empty list, a failed `tasklist` or an unknown mode. In all-mode every name must be listed. In any-mode more than one entry must be. |
| GoStrings.IsSpace | service.go:324 | `unicode.IsSpace`, the white space `strings.TrimSpace` removes. |
| GoStrings.TrimSpace | service.go:324 | `strings.TrimSpace`: the result does not start or end with white space. |
| GoStrings.TrimSpaceIsInfix | service.go:324 | `TrimSpace` removes white space only: its result sits in the line between two runs of white space. |
| GoStrings.TrimSpaceEmpty | service.go:324-327 | `TrimSpace` leaves nothing exactly when the line is all white space. |
| GoStrings.TrimSpaceFirst | service.go:330 | A first character that is not white space survives `TrimSpace`. |
| GoStrings.TrimSpaceLast | service.go:330 | A last character that is not white space survives `TrimSpace`. |
| GoStrings.TrimSpaceDropsPadding | service.go:558 | Trimming white space put in front of a word with solid ends gives back the word. |
| GoStrings.Split | service.go:329 | `strings.Split` on one character, keeping empty pieces. |
| GoStrings.SplitAtOnlySeparator | service.go:557 | A text with exactly one separator splits into the parts before and after it. |
| GoStrings.SplitFromPiecesLackSeparator | service.go:329 | No piece of a split contains the separator. |
| GoStrings.Join | service.go:348 | `strings.Join` of the pieces with the separator. |
| GoStrings.JoinSplit | service.go:329 | Joining the pieces of a split with the separator gives the line back. |
| GoStrings.SplitJoin | service.go:329-348 | Splitting the join of separator-free pieces gives the pieces back. |
| GoStrings.ToLower | utils.go:96 | `strings.ToLower`: the same length, each character folded. |
| GoStrings.ToLowerIdempotent | utils.go:96-98 | Lower-casing twice is lower-casing once, so lowering an already lowered name changes nothing. |
| GoStrings.Contains | utils.go:98-106 | `strings.Contains` holds exactly when some position of the text starts an occurrence of the name. |

## Left out

- Locating the executable (`getModuleFileName`), reading `run.conf` (`readLines`, `ioutil.ReadFile`) and running `tasklist`: I/O, so their results are parameters. A failure of the first two is a `ConfigError` in a pass and `None` in `Execute`; a failed `tasklist` is `None`.
- Running a process (`exec.Command(...).Run()`) and its output and error: I/O. A start is recorded as the argument list appended to the `launched` log.
- The `trace` and `elog` logging: it has no effect on the modelled state.
- The HTTP interface started by `Execute`, the update and exec handlers, reboot, the Windows shims and `main.go`: outside the core.
- Concurrency: a dispatched pass runs as a goroutine beside the loop. Its store of 1 into `busy` is modelled as happening at dispatch. Its final store of 0 is the `PassFinished` event, or the `PassCrashed` event when the pass panics. The race between the loop's load and the goroutine's first store is not modelled.
- Dispatch.ServiceContext.Execute: `PassFinished` and `PassCrashed` are inputs of the loop. They are not tied to the `Pass` outcome of the pass they end, so the model does not promise that a configuration with a panicking line produces `PassCrashed`.
- Time: the tickers are the events `Tick(MainTicker)` and `Tick(SlowTicker)`. Ticks buffered in a `time.Tick` channel across a switch of tickers, the 2-second period itself, and the 100 ms sleep inside Interrogate are not modelled.
- The `Accepts` bit mask of `svc.Status` is reduced to whether Stop, Shutdown, Pause and Continue are announced; other status fields are not modelled.
- Text is a sequence of characters. The source's byte-level checks (`e[0] == '"'`, `s[0] != '#'`) agree with this for valid UTF-8, since the characters compared are ASCII.
- GoStrings.ToLower: lowers only `A`-`Z`, not the whole of Unicode case mapping.
- GoStrings.TrimSpace: works on decoded characters with `unicode.IsSpace`'s white space; the treatment of invalid UTF-8 bytes is not modelled.
- TimerConfig.Atoi: assumes Go's `int` is 64 bits wide, as on windows/amd64.
