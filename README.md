# Vortex landing page: logo preferences and scripted demos

A model of the logic inside `App.tsx`, the single-page landing site of the Vortex coding agent.
Almost all of that file is static markup. Four pieces make decisions, and this model covers them:

- **The header's logo preference** (`Header`, module `LogoPrefs`). The fields `customLogo`,
  `logoSize` and `isLocked` mirror three keys of the browser's string key-value store:
  `codex_custom_logo`, `codex_logo_size` and `codex_logo_locked`. The mount effect loads them.
  The upload, size, lock, unlock and reset handlers update a field and the store together.
  The model is a class with those fields and a `map<string, string>` store. `InSync()` says
  that the fields equal `Decode(store)`, the state that loading the store would produce.
  Mounting and a reset establish it, and every handler keeps it when its store write goes
  through. It is lost in two ways, both modelled as inputs to the handlers:
  - a failed or aborted file read: `onloadend` then stores the string "null", which reloads
    as a logo while the field is null;
  - `setItem` throwing on a full store, after the size or logo field was already set.
  The logo size goes through `toString` and `parseInt`; module `JsNumber` models both.
- **Three animated demos.** Each runs an `async` loop of state-setter calls separated by
  `await wait(ms)`: the terminal (`TerminalWindow`, module `Terminal`), the agent chat
  (`AgentSection`, module `Agent`) and the autocomplete editor (`AutocompleteSection`, module
  `Autocomplete`). Module `Playback` holds what they share:
  - A loop body is a *script* of setter calls, pauses and guards, written in program order.
  - `Exec` runs a script.
  - `Loop` runs `while (isMounted)`.
  - `Replay` folds the setter calls made so far into the view.
- **Time and teardown.** Time is abstracted away. Every `await wait(ms)` is a `Pause`. A run
  has a *budget*: the number of pauses that resume while the view is still mounted. The view
  is torn down during the pause after those, which sets `isMounted = false`. Since the code
  runs synchronously between awaits, this covers every moment at which teardown can happen.
- **Guards.** The model keeps the `isMounted` guards exactly where the code has them:
  - at the loop heads;
  - inside the typing and output loops, where the guard returns from the whole sequence;
  - inside Autocomplete's `type` helper, where the guard returns only from the helper.
- **The component classes.** Each demo is also a class. Its fields are the component's state
  and the `isMounted` flag. Its methods are the loops of the code. Each method is proved to
  perform exactly its script, and the fields always equal the replay of the calls made so far.
  The properties of the scripts are then proved as lemmas.

**Setter calls after teardown.** One might expect teardown to stop every state change. The
code checks `isMounted` only at the loop head and inside the per-character and per-line loops.
So setter calls written after an `await` with no check are still made after teardown:

- the terminal commits a command after its typing loop (App.tsx:249-252, 277-280);
- the agent sends its message and walks steps 3 to 10 (App.tsx:469-502);
- the autocomplete editor still offers and accepts both suggestions (App.tsx:762-794).

The model follows the code. A run records such calls and counts them as `late` instead of
forbidding them. The `...AfterTeardown` and `...TornDown...` lemmas below state which calls are
made after teardown. After a real unmount React ignores a state update on the unmounted
component, so these calls change nothing on screen. The replayed view in those lemmas is what
the calls would write, not what is displayed.

## Model

| member | source | states |
|---|---|---|
| JsNumber.TrimStart | App.tsx:52 | `parseInt` skips exactly the leading white space: the result is a suffix of the input, everything dropped is white space, and the result does not start with white space |
| JsNumber.ParseInt | App.tsx:73 | `parseInt(s, 10)`: a blank string gives NaN, and a negative result needs a leading minus sign |
| JsNumber.IsJsSpace | App.tsx:52 | the white space `parseInt` trims: ECMAScript's white space and line terminators; a definition, used by TrimStart |
| JsNumber.DigitsValue | App.tsx:52 | the value of a digit string, most significant first; a definition, inverted by DecimalValue |
| JsNumber.ParseIntNaN | App.tsx:52 | `parseInt("NaN")` is NaN: a stored NaN size reads back as NaN |
| JsNumber.DigitRun | App.tsx:52 | the length of the leading digit run: all digits, followed by a non-digit or the end |
| JsNumber.Decimal | App.tsx:75 | the decimal numeral of a natural number is all digits, without a leading zero |
| JsNumber.ToString | App.tsx:75 | `String(size)` is never empty |
| JsNumber.DecimalValue | App.tsx:75 | reading back the decimal numeral that `toString` prints for n gives n |
| JsNumber.ParseIntOfDigits | App.tsx:73 | `parseInt` of a digit run followed by a non-digit reads just the run |
| JsNumber.ParseIntStopsAtNonDigit | App.tsx:52 | `parseInt` of a printed numeral followed by a non-digit suffix is the number |
| JsNumber.ParseIntNegative | App.tsx:52 | `parseInt("-" + numeral)` is the negated number |
| JsNumber.ParseIntToString | App.tsx:73-75 | `parseInt(x.toString(), 10)` is x for every integer and for NaN |
| LogoPrefs.Decode | App.tsx:43-57 | logo set iff a non-empty logo is stored; size is the parsed stored size when one is stored and 32 otherwise; locked iff the stored flag is exactly "true" |
| LogoPrefs.DisplayLogo | App.tsx:98 | `customLogo \|\| CUSTOM_LOGO_URL`: the custom logo when it is non-empty, otherwise the empty built-in URL (the wordmark) |
| LogoPrefs.SaveLogo | App.tsx:66 | `setItem(logoKey, url)`: reading the logo key gives the URL, every other key reads as before |
| LogoPrefs.SaveNullLogo | App.tsx:66 | `setItem(logoKey, null)` after a failed read: the logo key reads "null", every other key as before |
| LogoPrefs.SaveSize | App.tsx:75 | `setItem(sizeKey, size.toString())`: the size key reads the printed size, every other key as before |
| LogoPrefs.LockStore | App.tsx:79 | `setItem(lockKey, "true")`; a definition, stated by LockAgrees |
| LogoPrefs.UnlockStore | App.tsx:84 | `removeItem(lockKey)`; a definition, stated by UnlockAgrees |
| LogoPrefs.ResetStore | App.tsx:89-91 | the three `removeItem` calls; a definition, stated by ResetAgrees |
| LogoPrefs.FailedReadDiverges | App.tsx:63-66 | after a failed read the store reloads as the logo "null", an image source, while the session's null field shows the wordmark |
| LogoPrefs.UploadAgrees | App.tsx:63-66 | storing an upload and reloading yields that logo with size and lock unchanged |
| LogoPrefs.SizeAgrees | App.tsx:72-75 | storing any size with `toString` and reloading with `parseInt` yields that size, NaN included |
| LogoPrefs.SliderValueParses | App.tsx:151-156 | the slider's value string for a position in 20..60 parses back to that position |
| LogoPrefs.SliderSizeRoundTrip | App.tsx:72-75 | storing a slider size S in 20..60 and reloading yields S |
| LogoPrefs.LockAgrees | App.tsx:78-81 | Lock writes only the lock key and reloads as locked with logo and size unchanged |
| LogoPrefs.UnlockAgrees | App.tsx:83-86 | Unlock removes only the lock key and reloads as unlocked with logo and size unchanged |
| LogoPrefs.LockUnlockRoundTrip | App.tsx:78-86 | Lock then Unlock restores the store when it held no lock key |
| LogoPrefs.ResetAgrees | App.tsx:88-95 | Reset removes exactly the three logo keys, keeps every other entry, and reloads as no logo, size 32, unlocked |
| LogoPrefs.Header.Mount | App.tsx:38-57 | the mount effect leaves the fields equal to `Decode` of the store |
| LogoPrefs.Header.HandleLogoUpload | App.tsx:59-70 | locked or not: no file changes nothing; a loaded URL sets the field and, when the write goes through, the store, keeping them in sync; a failed read sets the field to null and writes "null", which always breaks sync; a refused write leaves them in sync iff the field did not change |
| LogoPrefs.Header.HandleSizeChange | App.tsx:72-76 | the size field becomes the slider position; the store gets it when the write goes through, keeping sync; a refused write leaves them in sync iff the size did not change |
| LogoPrefs.Header.HandleLock | App.tsx:78-81 | the store is written first: locked in field and store when the write goes through, nothing changed when it throws; sync kept either way |
| LogoPrefs.Header.HandleUnlock | App.tsx:83-86 | unlocked in field and store, logo and size unchanged, sync kept |
| LogoPrefs.Header.HandleReset | App.tsx:88-95 | the store loses the three keys and the fields return to the defaults, so field and store are in sync again from any state |
| Playback.Step | App.tsx:232-298 | one step: a setter call is recorded, and counted late once torn down; a pause resumes while budget is left and tears down otherwise; a guard returns once torn down, a helper's guard skips to the helper's end; a definition, stated through Exec |
| Playback.Loop | App.tsx:232 | `while (isMounted) { body }` for a number of passes; a definition, stated by LoopGrows, LoopPass and LoopExit |
| Playback.Replay | App.tsx:234-267 | the view after a sequence of setter calls, each applied to the state the previous one left (the `prev => ...` updates included); a definition, stated by ReplayAppend and ReplayKeeps |
| Playback.Guarded | App.tsx:244-248 | `for (...) { if (!isMounted) return; set(x); await wait(ms); }` over the given calls; a definition, stated by GuardedSets and ExecGuarded |
| Playback.HelperSteps | App.tsx:739-743 | the loop inside a helper, whose guard leaves only the helper; a definition, stated by HelperStepsSets and ExecHelperSteps |
| Playback.Helper | App.tsx:738-744 | a whole helper call: its loop, then the return to the caller; a definition, stated by HelperSets and ExecHelper |
| Playback.Exec | App.tsx:232-298 | a run only adds setter calls, never regains budget or remounts, does nothing once returned, and makes no late call while mounted |
| Playback.ExecUncancelled | App.tsx:232-298 | with budget for every pause, a script makes all of its setter calls in order and stays mounted |
| Playback.ExecTornDown | App.tsx:249-252 | after teardown, a script without guards still makes every setter call, each one late |
| Playback.ExecGuarded | App.tsx:244-248 | a guarded loop with budget b makes the first min(n, b+1) calls, returns from the sequence iff b+1 < n, and makes no late call |
| Playback.ExecHelperSteps | App.tsx:739-743 | the loop of a helper makes the first calls it has budget for, then skips the rest of the helper without returning |
| Playback.ExecHelper | App.tsx:738-744 | a helper call never returns from the sequence and leaves nothing skipped |
| Playback.ExecIssuesFromScript | App.tsx:232-298 | every setter call a run makes is one of its script's calls |
| Playback.ExecIssuesPrefix | App.tsx:232-298 | without helpers, a run makes a prefix of its script's calls, in script order |
| Playback.LoopIssuesFromBody | App.tsx:232-298 | every call over any number of passes of `while (isMounted)` is one of the body's calls |
| Playback.ReplayKeeps | App.tsx:232-298 | a view property kept by every call of the body holds at every point of the replay |
| Playback.LoopGrows | App.tsx:232 | over any number of passes of `while (isMounted)` calls are only added, budget is never regained, the view never remounts, and no call is late while mounted |
| Playback.LoopPass | App.tsx:232 | while mounted, the loop head lets one more pass of the body run |
| Playback.LoopExit | App.tsx:232 | once torn down, the loop head returns |
| Terminal.Apply | App.tsx:234-250 | only `setLines(lines)` can drop transcript lines, any other call adds at most one; `setInputValue` keeps the transcript, and nothing else touches the input |
| Terminal.Prompt | App.tsx:250 | the committed line `> cmd` in white; a definition |
| Terminal.Typing | App.tsx:244-248 | `setInputValue(cmd.slice(0, i))` for i = 0..\|cmd\|; a definition, stated by ReplayTyping |
| Terminal.Appends | App.tsx:263-267 | one `setLines(prev => [...prev, line])` per output line; a definition, stated by ReplayAppends |
| Terminal.Reset | App.tsx:234-240 | the header lines, the cleared input and a pause; a definition, stated by ResetSets |
| Terminal.Commit | App.tsx:249-252 | the unguarded commit: a pause, the `> cmd` line, the cleared input, a pause; a definition, stated by CommitSets |
| Terminal.Round | App.tsx:242-268 | one command: guarded typing, the unguarded commit, guarded output, a pause; a definition, stated by RoundSets |
| Terminal.Body | App.tsx:233-297 | the loop body: the reset and the rounds of `npm run dev` and `vortex fix`; a definition, stated by BodySets |
| Terminal.ResetSets | App.tsx:234-240 | the reset sets the three header lines and clears the input, with one pause |
| Terminal.CommitSets | App.tsx:249-252 | the commit appends `> cmd` and clears the input, with two pauses and no guard |
| Terminal.RoundSets | App.tsx:242-268 | a round types every prefix, commits, prints every output line; \|cmd\| + \|out\| + 4 pauses |
| Terminal.BodySets | App.tsx:233-297 | a pass is written with the reset and both rounds' calls and 42 pauses |
| Terminal.RoundKeepsLines | App.tsx:242-297 | no call of a round replaces the transcript |
| Terminal.CycleResetsToHeader | App.tsx:234-238 | the only transcript replacement in a pass sets the header lines |
| Terminal.ReplayTyping | App.tsx:244-248 | after the first n+1 typing calls the input holds `cmd[..n]`: the prefixes in order |
| Terminal.ReplayAppends | App.tsx:263-267 | the output calls append exactly the output lines |
| Terminal.RoundTranscript | App.tsx:242-268 | a round appends `> cmd` then its output and leaves the input empty |
| Terminal.CycleTranscript | App.tsx:233-297 | a pass ends with header + `> npm run dev` + output1 + `> vortex fix` + output2, 17 lines, input empty |
| Terminal.FullPass | App.tsx:232-298 | a pass with budget for its 42 pauses makes every call, stays mounted and ends with the 17-line transcript |
| Terminal.CycleOnlyAppends | App.tsx:242-297 | every call of a pass after the reset only grows the transcript |
| Terminal.PassOnlyAppends | App.tsx:232-297 | in any pass, however torn down, every call after the reset only grows the transcript |
| Terminal.HeaderAlwaysShown | App.tsx:232-298 | at every point of every run the transcript starts with the three header lines |
| Terminal.RoundCommitAfterTeardown | App.tsx:244-268 | teardown after the last keystroke still commits the command (two late calls), then the output guard returns |
| Terminal.PassCommitAfterTeardown | App.tsx:232-268 | a pass torn down after the first command's last keystroke ends after the commit, with two late calls |
| Terminal.CommitAfterTeardown | App.tsx:243-252 | teardown in the last pause of the first typing loop: the run ends after committing `npm run dev`, the commit's two calls being made after teardown |
| Terminal.TerminalWindow.constructor | App.tsx:211-216 | mounts with the header lines and an empty input |
| Terminal.TerminalWindow.Wait | App.tsx:229 | a pause changes no field; teardown happens only here |
| Terminal.TerminalWindow.ReplaceLines | App.tsx:234-238 | `setLines` replaces the transcript and records the call |
| Terminal.TerminalWindow.PushLine | App.tsx:250 | `setLines(prev => [...prev, line])` appends one line and records the call |
| Terminal.TerminalWindow.SetInputValue | App.tsx:246 | `setInputValue` sets the input and records the call |
| Terminal.TerminalWindow.TypeCommand | App.tsx:244-248 | the typing loop performs exactly the guarded typing script; returns true iff its guard returned |
| Terminal.TerminalWindow.PrintOutput | App.tsx:263-267 | the output loop performs exactly the guarded output script |
| Terminal.TerminalWindow.CommitCommand | App.tsx:249-252 | the commit performs its unguarded calls and never returns |
| Terminal.TerminalWindow.PlayRound | App.tsx:242-268 | a round performs exactly its script |
| Terminal.TerminalWindow.RunPass | App.tsx:233-297 | one pass performs exactly the loop body and uses up budget unless torn down |
| Terminal.TerminalWindow.RunScenario | App.tsx:231-299 | `runScenario` ends returned, with the run of `while (isMounted)` over the body |
| Agent.NextSecond | App.tsx:438 | the interval callback never exceeds 9, never decreases a counter in range, and stays put exactly at 9 |
| Agent.Apply | App.tsx:434-444 | a setter call and the seconds effect: `setStep(k)` sets step k and leaves the input, other calls keep the step, a counter in [0, 9] stays there, and a step change to a non-thinking step clears it; a tick outside thinking changes nothing |
| Agent.Typing | App.tsx:461-465 | `setInputValue(prompt.slice(0, i))` for i = 0..\|prompt\|; a definition, stated by TypingSetsNoStep |
| Agent.Reset | App.tsx:455-457 | `setStep(0)`, the cleared input and a pause; a definition, stated by HeadSets |
| Agent.Send | App.tsx:466-471 | the pause after typing, `setStep(2)`, the cleared input and a pause, with no guard; a definition, stated by SendProgressionSets |
| Agent.Progression | App.tsx:473-503 | `setStep(k); await wait(ms)` for k = lo..hi; a definition, stated by ProgressionSets |
| Agent.Script | App.tsx:454-503 | the loop body for a prompt: reset, step 1, guarded typing, sending, steps 3..10; a definition, stated by ScriptSets and CycleSteps |
| Agent.HeadSets | App.tsx:455-460 | the reset and step 1 set step 0, clear the input and set step 1, with one pause |
| Agent.ProgressionSets | App.tsx:473-503 | steps lo..hi are one setter call and one pause each, with no guard |
| Agent.SendProgressionSets | App.tsx:466-503 | sending and the action steps are written with step 2, the input cleared and steps lo..hi |
| Agent.TailSets | App.tsx:466-503 | everything after typing is ten calls, ten pauses and no guard |
| Agent.ScriptSets | App.tsx:454-503 | a pass is written with its calls and \|prompt\| + 12 pauses |
| Agent.StepRangeValues | App.tsx:473-502 | the action calls set lo, lo+1, ..., hi in order |
| Agent.TypingSetsNoStep | App.tsx:461-465 | typing sets no step |
| Agent.CycleSteps | App.tsx:455-502 | the calls of a pass set the steps 0, 1, ..., 10 in order and no others |
| Agent.PassSteps | App.tsx:453-504 | in any pass, however torn down, the step values are 0, 1, 2, ...: strictly increasing and within [0, 10] |
| Agent.TicksSaturate | App.tsx:438 | n interval callbacks from s in [0, 9] give min(s + n, 9) |
| Agent.ApplyKeepsSeconds | App.tsx:434-444 | every setter call and tick keeps the counter in [0, 9] and at 0 outside steps 3..9 |
| Agent.SecondsAlwaysConsistent | App.tsx:434-444 | under any interleaving of calls and ticks, the counter stays in [0, 9] and is 0 whenever the step is not in 3..9 |
| Agent.ReplayStepRange | App.tsx:473-503 | walking steps lo..hi ends at hi with the input untouched and the counter cleared outside thinking |
| Agent.CycleView | App.tsx:454-503 | a pass ends at step 10 with an empty input and the counter at 0 |
| Agent.FullPass | App.tsx:453-504 | a pass with budget for its pauses makes every call, stays mounted and ends at step 10 |
| Agent.TornDownWhileTyping | App.tsx:455-465 | teardown after the last keystroke leaves the typing loop without returning |
| Agent.TailTornDown | App.tsx:466-503 | after teardown, the send and all eight action steps are still set, ten late calls |
| Agent.ScriptTornDownAfterTyping | App.tsx:461-503 | a pass torn down after its last keystroke still runs to its end with ten late calls |
| Agent.LateStepsAfterTeardown | App.tsx:453-504 | teardown in the last typing pause: the calls made after it still walk to step 10, ten of them, and only the next loop head returns |
| Agent.ProgressionRun | App.tsx:473-503 | running the action steps is taking them one at a time |
| Agent.AgentSection.constructor | App.tsx:422-424 | mounts at step 0 with an empty input and the counter at 0 |
| Agent.AgentSection.Wait | App.tsx:450 | a pause changes no field |
| Agent.AgentSection.GoToStep | App.tsx:434-444 | `setStep(k)` sets the step and clears the counter when the step changes to one outside 3..9 |
| Agent.AgentSection.SetInputValue | App.tsx:463 | `setInputValue` sets the input only |
| Agent.AgentSection.TickSeconds | App.tsx:437-439 | one interval callback while thinking: `s < 9 ? s + 1 : 9` |
| Agent.AgentSection.TypePrompt | App.tsx:461-465 | the typing loop performs exactly the guarded typing script |
| Agent.AgentSection.SendPrompt | App.tsx:466-471 | sending performs its unguarded calls |
| Agent.AgentSection.Advance | App.tsx:474-475 | one action step: set the step, then pause |
| Agent.AgentSection.PlayActions | App.tsx:473-503 | steps 3 to 10 perform exactly their script |
| Agent.AgentSection.ResetView | App.tsx:455-457 | the reset performs exactly its script |
| Agent.AgentSection.PlayScript | App.tsx:454-503 | one pass for a given prompt performs exactly its script |
| Agent.AgentSection.Respond | App.tsx:466-503 | everything after typing performs exactly its script and never returns |
| Agent.AgentSection.RunPass | App.tsx:453-504 | one pass performs exactly the loop body |
| Agent.AgentSection.RunScenario | App.tsx:449-505 | `sequence` ends returned, with the run of `while (isMounted)` over the body |
| Autocomplete.Apply | App.tsx:741-772 | a setter call: `prev => prev + t` appends t and changes nothing else; only `setDisplayedCode` and the append touch the buffer, and only `setGhostText` the ghost text |
| Autocomplete.Chars | App.tsx:739-741 | one `prev => prev + char` per character; a definition, stated by ReplayChars |
| Autocomplete.Reset | App.tsx:748-752 | the start code, the three cleared fields and a pause; a definition, stated by ResetSets |
| Autocomplete.Press | App.tsx:767-768 | `setTabPressed(true)` and a pause; a definition, stated by PressSets |
| Autocomplete.Take | App.tsx:769-772 | clearing the ghost text, appending the suggestion, clearing the hint and the pressed flag; a definition, stated by TakeSets |
| Autocomplete.Type | App.tsx:738-744 | `type(t)`: a helper with a guarded append and a pause per character; a definition, stated by TypeSets |
| Autocomplete.Offer | App.tsx:762-764 | showing the ghost text and the Tab hint; a definition, stated by OfferSets |
| Autocomplete.Accept | App.tsx:767-772 | the Tab press and taking the suggestion; a definition, stated by AcceptSets |
| Autocomplete.Round | App.tsx:755-772 | one suggestion round; a definition, stated by RoundSets |
| Autocomplete.Pass | App.tsx:747-798 | the loop body: reset, two rounds, the closing snippet, the final pause; a definition, stated by PassSets |
| Autocomplete.TypeSets | App.tsx:738-744 | `type(t)` is written with one append and one pause per character |
| Autocomplete.OfferSets | App.tsx:762-764 | showing a suggestion sets the ghost text and the Tab hint, with one pause |
| Autocomplete.PressSets | App.tsx:767-768 | pressing Tab sets the pressed flag, with one pause |
| Autocomplete.TakeSets | App.tsx:769-772 | taking a suggestion clears the ghost text, appends it, and clears the hint and the pressed flag |
| Autocomplete.AcceptSets | App.tsx:767-772 | an acceptance is five unguarded calls and one pause |
| Autocomplete.SuggestionSets | App.tsx:762-772 | an offer and its acceptance are the offer's calls, then the acceptance's, with no guard |
| Autocomplete.RoundSets | App.tsx:755-772 | a round is written with its typed characters, the offer and the acceptance, and \|first\| + \|second\| + 4 pauses |
| Autocomplete.ResetSets | App.tsx:748-752 | the reset puts back the start code and clears the ghost text, hint and pressed flag, with one pause |
| Autocomplete.PassSets | App.tsx:747-798 | a pass is written with its calls and one pause per typed character plus ten |
| Autocomplete.ReplayChars | App.tsx:739-743 | the first n character calls append the first n characters |
| Autocomplete.TypedText | App.tsx:738-744 | a completed `type(t)` appends exactly t and changes nothing else |
| Autocomplete.TypeAppends | App.tsx:738-744 | `type(t)` appends exactly the characters it had budget for, completes when mounted with budget for all, and never returns from the sequence |
| Autocomplete.TypedView | App.tsx:738-744 | the same, read against the whole record of calls |
| Autocomplete.Offered | App.tsx:762-763 | an offer sets the ghost text and the hint and leaves the code alone |
| Autocomplete.Accepted | App.tsx:767-772 | accepting appends exactly the suggestion and clears the ghost text, the hint and the pressed flag |
| Autocomplete.Suggested | App.tsx:762-772 | offering then accepting appends the suggestion and leaves no ghost text or hint |
| Autocomplete.RoundCode | App.tsx:755-772 | a round appends its two snippets and its suggestion |
| Autocomplete.ResetCode | App.tsx:748-751 | the reset restores the start code and clears everything else, from any view |
| Autocomplete.PassCode | App.tsx:747-798 | the calls of a pass leave the start code, both rounds and the closing brace |
| Autocomplete.FullPass | App.tsx:746-799 | a pass with budget for its pauses makes every call, stays mounted and ends with the whole file and no ghost text |
| Autocomplete.FileTyped | App.tsx:746-799 | an uninterrupted pass of the demo leaves start code + hook + JSX + closing brace |
| Autocomplete.ApplyKeepsStart | App.tsx:741 | appending to a buffer that starts with the start code keeps it there |
| Autocomplete.PassKeepsStart | App.tsx:747-798 | the only buffer replacement in a pass puts back the start code |
| Autocomplete.StartAlwaysShown | App.tsx:746-799 | at every point of every run the buffer begins with the start code |
| Autocomplete.TypeTornDown | App.tsx:739-740 | after teardown `type` returns at once without a call |
| Autocomplete.TypingTornDown | App.tsx:755-758 | after teardown a round's typing and pauses do nothing |
| Autocomplete.RoundTornDown | App.tsx:755-772 | after teardown a round still offers and accepts its suggestion: seven late calls |
| Autocomplete.ResetTornDown | App.tsx:748-752 | the reset's calls are made before its pause tears the view down |
| Autocomplete.PassTornDownAtReset | App.tsx:747-798 | a pass torn down in its first pause still makes both suggestions' calls, fourteen late calls, and types nothing |
| Autocomplete.TornDownCode | App.tsx:748-794 | those calls, replayed, write the start code followed by both suggestions |
| Autocomplete.LoopTornDownAtReset | App.tsx:746-799 | teardown in the first pause ends the run after one pass, with both suggestions accepted late |
| Autocomplete.SuggestionsAfterTeardown | App.tsx:746-799 | for the demo's texts, teardown in the first pause: the fourteen calls made after it write the `queryFn` line and the JSX after the start code |
| Autocomplete.AutocompleteSection.constructor | App.tsx:715-727 | mounts with the start code and no ghost text, hint or pressed key |
| Autocomplete.AutocompleteSection.Wait | App.tsx:737 | a pause changes no field |
| Autocomplete.AutocompleteSection.ReplaceCode | App.tsx:748 | `setDisplayedCode(c)` replaces the buffer only |
| Autocomplete.AutocompleteSection.ExtendCode | App.tsx:741 | `setDisplayedCode(prev => prev + t)` appends t only |
| Autocomplete.AutocompleteSection.SetGhostText | App.tsx:762 | `setGhostText` sets the ghost text only |
| Autocomplete.AutocompleteSection.SetShowTabKey | App.tsx:763 | `setShowTabKey` sets the hint only |
| Autocomplete.AutocompleteSection.SetTabPressed | App.tsx:767 | `setTabPressed` sets the pressed flag only |
| Autocomplete.AutocompleteSection.TypeText | App.tsx:738-744 | `type(t)` appends exactly the prefix of t it had budget for, all of t when not torn down, and changes nothing else |
| Autocomplete.AutocompleteSection.TypeThenWait | App.tsx:755-756 | a typed snippet and the pause after it perform exactly their script |
| Autocomplete.AutocompleteSection.OfferGhost | App.tsx:762-764 | shows the suggestion and the hint, leaving the code alone |
| Autocomplete.AutocompleteSection.AcceptGhost | App.tsx:767-772 | appends the suggestion and clears the ghost text, the hint and the pressed flag |
| Autocomplete.AutocompleteSection.Suggest | App.tsx:762-772 | offering and accepting appends exactly the suggestion |
| Autocomplete.AutocompleteSection.PlayRound | App.tsx:755-772 | a round performs exactly its script |
| Autocomplete.AutocompleteSection.ResetView | App.tsx:748-752 | the reset performs exactly its script |
| Autocomplete.AutocompleteSection.RunPass | App.tsx:747-798 | one pass performs exactly the loop body and never returns |
| Autocomplete.AutocompleteSection.RunScenario | App.tsx:736-800 | `sequence` ends returned, with the run of `while (isMounted)` over the body |

## Left out

- Rendering: the JSX, the styling and the static sections (`FluidBackground`, `HeroSection`, `FeaturesSection`, the pricing, try and footer sections, `App`) make no decisions.
- The `step >= k` reveal conditions of the agent chat (App.tsx:591-656) only project the step onto markup.
- Real time: delay lengths and the `Math.random()` jitter (App.tsx:247, 266, 275, 742) only decide when teardown falls. The budget of pauses before teardown stands for them.
- The blinking cursor intervals (App.tsx:220-223, 428-431, 729-732) touch only a cursor flag that no logic reads.
- `FileReader.readAsDataURL` (App.tsx:62-68) is a browser call. Its outcome is an input: no file, a `data:` URL, or a null result. Whether `setItem` throws is an input too.
- React's scheduling: setter calls are applied at once and in order. The re-render and effect machinery is not modelled beyond the seconds effect, which runs whenever the step changes.
- React discards state updates on an unmounted component. The model records the calls a sequence makes after teardown but does not model that React drops them.
- A cleanup that runs while the component stays mounted, as in React's development re-mount, starts a second sequence. The late calls of the first then interleave with the second; that interleaving is not modelled.
- JsNumber.ToString: a number is an exact unbounded integer or NaN. JavaScript prints exponent form from 1e21 on, so the model's positional numeral differs there. The slider keeps stored sizes in 20..60.
- JsNumber.ParseInt: exact. JavaScript rounds results above 2^53 to a double and reads "-0" as -0; the model gives the exact integer and 0.
- JsNumber.ParseIntToString: holds for every integer of the model. In JavaScript it fails from 1e21 on, where `toString` switches to exponent form.
- LogoPrefs.SizeAgrees: "any size" means any model number. For JavaScript numbers it holds up to 1e21; slider sizes are 20..60.
- `SyntaxHighlighter` (App.tsx:692-712) splits the code with a JavaScript regular expression and colours the tokens; it is display only and depends on regex semantics.
- The three demos share no state and run independently; their interleaving is not modelled.
- Agent.AgentSection.RunScenario: runs the sequence without interleaving interval callbacks. `TickSeconds` can be called between any two steps. `Agent.SecondsAlwaysConsistent` covers every interleaving of setter calls and ticks.
- The header link's `preventDefault` while unlocked (App.tsx:109) is navigation behaviour, not state.
