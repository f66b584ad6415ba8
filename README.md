# Agent sandbox demo: wizard and terminal, in Dafny

This project models the two pieces of logic in the single React component
`App` (`src/App.tsx`) of the agent sandbox demo and proves properties of them:

- **The configuration wizard.** Six catalogue categories are followed by a file step.
  The wizard records one selection per category and a list of file names,
  then moves to a summary screen and finally to a connected terminal.
  The component also has a handler for a repository name, but no element calls it,
  so the summary always shows "Not provided" for the repository.
  The Next and Back buttons move the step, and Next on the last step completes the configuration.
- **The simulated terminal.** Every submitted line is echoed as `"> " + line`.
  The whole line, trimmed and lower-cased, is then compared for exact equality
  with thirteen keywords, and the matching command appends fixed lines.
  Anything else appends `"Command not found: " + line`. A fixed nine-line boot
  transcript is appended once the terminal is connected.

Modules, one per concern:

| file | module | contents |
|---|---|---|
| `catalog.dfy` | `Catalog` | the category catalogue, its size and ids |
| `text.dfy` | `Text` | `trim`, `toLowerCase` and `slice(k)` over ASCII strings |
| `terminal.dfy` | `Terminal` | dispatch (`Parse`), the lines each command adds (`Output`), the transcript after one line (`Execute`), the boot lines |
| `wizard.dfy` | `Wizard` | Next/Back as functions on `(step, complete)`, runs of presses, selections and files as values |
| `view.dfy` | `View` | the screen rendered for a state, the navigation bar, the summary and its fallbacks |
| `app.dfy` | `App` | class `AppState`: the component's state hooks as fields, one method per handler, the boot effect |

The event handlers are methods of `App.AppState`. Each `setState` call is an
assignment to a field, applied in call order. Each method states its new state
through a function of `Wizard`, `Terminal` or `View`, and the lemmas are proved
about those functions. `ExecuteCommand` keeps the source's `switch` on the
trimmed, lower-cased line, including the `clear` case that falls through into `cat`.
It is proved equal to `Terminal.Execute`, which dispatches through `Parse`.

The fixed output lines of the commands are the record `Terminal.Lines`, of type `LineTable`.
`Output`, `Respond` and `Execute` take the table as a parameter, so the
transcript lemmas hold for any table. `ExecuteCommand` uses `Lines`, the table
of the source's strings.

Notes on `src/App.tsx` that the model keeps:

- The step reaches `configOptions.length + 1` = 7.
  - Steps 6 and 7 both render the file step.
  - Completing from step 0 takes eight presses of Next.
- `clear` also drops its own `"> clear"` echo. The reset comes after the echo is
  appended and is followed by the `cat` usage line, so the transcript becomes exactly
  `["Usage: cat <filename>"]`.
- The handlers carry no guard once connected. Only the rendering hides their
  buttons, and that is what `View` states.

## Model

| member | source | states |
|---|---|---|
| Catalog.CatalogSize | src/App.tsx:10-65 | the catalogue has `CategoryCount` = 6 entries |
| Catalog.Ids | src/App.tsx:10-65 | the ids, in catalogue order, one per category |
| Catalog.CatalogWellFormed | src/App.tsx:10-65 | six categories; ids are scaffolding, github, model, os, hosting, capabilities and pairwise distinct; every option list is non-empty |
| Text.TrimStartIsSuffix | src/App.tsx:119 | leading trim leaves the suffix starting at the first non-space; everything dropped is whitespace |
| Text.TrimEndIsPrefix | src/App.tsx:119 | trailing trim leaves the prefix ending at the last non-space; everything dropped is whitespace |
| Text.TrimIsMiddle | src/App.tsx:119 | `trim()` leaves a contiguous middle with whitespace on both sides and non-space ends |
| Text.TrimStartSkipsSpace | src/App.tsx:119 | leading whitespace does not affect the leading trim |
| Text.TrimEndSkipsSpace | src/App.tsx:119 | trailing whitespace does not affect the trailing trim |
| Text.TrimIgnoresTrailingSpace | src/App.tsx:119 | `trim()` ignores appended whitespace |
| Text.TrimIgnoresSurroundingSpace | src/App.tsx:119 | `trim()` ignores whitespace on both sides |
| Text.LowerChar | src/App.tsx:119 | 'A'..'Z' become the letter 32 code points higher ('a'..'z'); every other character is kept; whitespace stays whitespace |
| Text.LowerIsPointwise | src/App.tsx:119 | `toLowerCase()` keeps the length and maps each character on its own |
| Text.LowerKeepsLowerCase | src/App.tsx:119 | a string without upper-case letters is unchanged by lower-casing |
| Text.LowerIdempotent | src/App.tsx:119 | lower-casing twice equals lower-casing once |
| Text.LowerOfPrefix | src/App.tsx:119 | lower-casing commutes with taking a prefix |
| Text.TrimStartCommutesWithLower | src/App.tsx:119 | leading trim and lower-casing commute |
| Text.TrimEndCommutesWithLower | src/App.tsx:119 | trailing trim and lower-casing commute |
| Text.TrimCommutesWithLower | src/App.tsx:119 | `trim()` and `toLowerCase()` commute |
| Text.PlainLineIsTrimmedLower | src/App.tsx:119 | a line with no surrounding space and no upper case is its own key |
| Text.SliceFrom | src/App.tsx:138 | `slice(k)` is the suffix from index k, or empty when k is past the end |
| Terminal.Lookup | src/App.tsx:120-159 | definition: the `switch` cases in source order, exact equality with each keyword, `default` otherwise; stated by `LookupIsExactMatch` and `LookupUnknownIff` |
| Terminal.Parse | src/App.tsx:119-159 | definition: the key is `trim().toLowerCase()` of the whole line, then `Lookup`; stated by `ParseIsExactMatch`, `ParseIgnoresCase`, `ParseIgnoresSurroundingSpace` |
| Terminal.Output | src/App.tsx:120-159 | definition: the lines each case appends, with `clear` sharing `cat`'s line by the fall-through; stated by `OutputLineCount` |
| Terminal.Respond | src/App.tsx:116-160 | definition: the echo line first, then `clear`'s reset, then the command's lines; stated by `RespondEcho` and the `Execute` lemmas |
| Terminal.Execute | src/App.tsx:116-160 | definition: the transcript after one submitted line; stated by `ExecuteExtends`, `ExecuteClear`, `ExecuteUnknown` and `App.AppState.ExecuteCommand` |
| Terminal.LookupIsExactMatch | src/App.tsx:119-157 | a key selects command c if and only if it equals c's keyword |
| Terminal.ParseKeyword | src/App.tsx:119-157 | each keyword typed as is selects its own command |
| Terminal.ParseIsExactMatch | src/App.tsx:119-157 | a line selects c if and only if its trimmed lower-cased form equals c's keyword |
| Terminal.LookupUnknownIff | src/App.tsx:158-159 | a key reaches `default` if and only if it is not one of the thirteen keywords |
| Terminal.ParseUnknownIff | src/App.tsx:119-159 | a line is unknown if and only if its normalised form is not a keyword |
| Terminal.ParseIgnoresCase | src/App.tsx:119 | lines equal up to ASCII case select the same command |
| Terminal.ParseIgnoresSurroundingSpace | src/App.tsx:119 | surrounding whitespace does not change the selected command |
| Terminal.OutputLineCount | src/App.tsx:120-157 | ps adds 3 lines, top 5, df 2, free 3, help 2, every other command 1 |
| Terminal.ExecuteExtends | src/App.tsx:116-160 | except for `clear`: the old transcript stays a prefix, then the echo `"> " + line`, then exactly the command's lines |
| Terminal.ExecuteLineCount | src/App.tsx:116-160 | except for `clear`, the transcript grows by one echo line plus the command's line count |
| Terminal.ExecuteClear | src/App.tsx:117-136 | `clear` leaves exactly the `cat` usage line: history and echo are gone |
| Terminal.ExecuteUnknown | src/App.tsx:158-159 | a non-keyword line adds exactly the echo and `"Command not found: " + line` |
| Terminal.ExecuteEcho | src/App.tsx:137-139 | `echo` prints the raw line from index 5, or `""` when it has at most five characters |
| Terminal.RespondEcho | src/App.tsx:137-139 | the echo case appends the echo line and the slice from index 5 |
| Terminal.ExecuteKeyword | src/App.tsx:116-157 | a keyword other than `clear`, typed as is, appends the echo and then its command's lines |
| Terminal.ArgumentsAreNotSplit | src/App.tsx:119-158 | `"echo hello"` and `"ls -la"` match no keyword: arguments are never split off |
| Terminal.BlankLineIsUnknown | src/App.tsx:119-158 | an empty or all-blank line matches no keyword |
| Terminal.EchoWithArgumentExample | src/App.tsx:116-159 | `"echo hello"` adds the echo and the not-found line |
| Terminal.BareEchoExample | src/App.tsx:116-139 | a bare `"echo"` adds the echo and an empty line |
| Terminal.ExecuteIndentedEcho | src/App.tsx:119-138 | indented bare `echo` is still matched, but the slice is taken from the raw line |
| Wizard.Advance | src/App.tsx:91-97 | definition of Next: one step forward below step 7, otherwise complete; stated by `RunNexts`, `CompletionNeedsNexts`, `RetreatUndoesAdvance` |
| Wizard.Retreat | src/App.tsx:99-103 | definition of Back: one step back unless at step 0; stated by `AdvanceUndoesRetreat` and `View.BackDisabledMeansNoOp` |
| Wizard.ApplyStaysInRange | src/App.tsx:91-103 | one press of Next or Back keeps the step in `[0, 7]` and never clears completion |
| Wizard.RunStaysInRange | src/App.tsx:91-103 | any run of presses keeps the step in `[0, 7]` and never clears completion |
| Wizard.CompletionNeedsNexts | src/App.tsx:91-103 | from step s, completion needs at least `8 - s` presses of Next |
| Wizard.CompletionFromStartNeedsEightNexts | src/App.tsx:91-103 | from the start, completion needs at least eight presses of Next |
| Wizard.RunNexts | src/App.tsx:91-97 | k presses of Next advance one step each up to step 7; one more completes |
| Wizard.RunNextsWhenComplete | src/App.tsx:91-97 | once complete at step 7, Next changes nothing |
| Wizard.EighthNextCompletes | src/App.tsx:91-97 | seven Nexts from the start reach step 7; the eighth completes |
| Wizard.RetreatUndoesAdvance | src/App.tsx:91-103 | Back undoes a Next that moved the step |
| Wizard.AdvanceUndoesRetreat | src/App.tsx:91-103 | Next undoes a Back that moved the step |
| Wizard.Select | src/App.tsx:78-80 | the selection sets the id's value, adds the id to the keys and keeps every other entry |
| Wizard.SelectIdempotent | src/App.tsx:78-80 | repeating a selection changes nothing |
| Wizard.SelectLastWins | src/App.tsx:78-80 | a later selection for the same id overwrites an earlier one |
| Wizard.AddFiles | src/App.tsx:82-85 | the old names stay first, followed by the new names in order, duplicates kept |
| Wizard.AddFilesTwice | src/App.tsx:82-85 | two additions equal one addition of both batches |
| Wizard.AddNoFiles | src/App.tsx:82-85 | adding no files changes nothing |
| View.ScreenOf | src/App.tsx:282-325 | connected if and only if the terminal is shown; summary if and only if complete and not connected; a category screen shows category `step` |
| View.CategoryScreenInBounds | src/App.tsx:286-290 | a category screen always indexes an existing catalogue entry |
| View.ConfiguringScreens | src/App.tsx:286-325 | while configuring, steps 0-5 show their category, steps 6 and 7 the file step |
| View.ShowsNavigation | src/App.tsx:327 | definition: the navigation bar is rendered when `!isComplete && !isConnected`; stated by `NavigationOnlyWhileConfiguring` |
| View.BackDisabled | src/App.tsx:331 | definition: Back is disabled when `step === 0`; stated by `BackDisabledMeansNoOp` |
| View.NextLabel | src/App.tsx:341 | definition: "Next" below step 7, "Finish" otherwise; stated by `FinishLabelMeansCompletion` |
| View.NavigationOnlyWhileConfiguring | src/App.tsx:327-344 | Back/Next are shown exactly on the category and file screens |
| View.FinishLabelMeansCompletion | src/App.tsx:341 | the button reads "Finish" exactly when pressing it completes, that is at step 7 |
| View.BackDisabledMeansNoOp | src/App.tsx:331 | Back is disabled exactly where pressing it would do nothing |
| View.SelectionText | src/App.tsx:215 | a missing or empty selection shows "Not selected", otherwise the selection |
| View.RepositoryText | src/App.tsx:223 | an empty repository shows "Not provided", otherwise the repository |
| View.FilesSection | src/App.tsx:230-238 | no files shows "No files added", otherwise the names in order |
| View.SummaryOf | src/App.tsx:209-238 | one summary line per category, in catalogue order, each with its fallback; the repository and files sections with theirs |
| View.SummaryShowsSelection | src/App.tsx:209-217 | after a non-empty selection, its category's line shows it and every other line is unchanged |
| View.EmptySelectionNotSelected | src/App.tsx:215 | selecting the empty string reads as "Not selected" |
| View.FreshSummary | src/App.tsx:209-238 | with the initial state every summary entry shows its fallback |
| App.AppState.CurrentScreen | src/App.tsx:282-325 | the terminal is shown exactly when connected; a category screen indexes category `step`, which exists |
| App.AppState.constructor | src/App.tsx:68-75 | the initial values of the state hooks; the state invariant holds |
| App.AppState.HandleOptionSelect | src/App.tsx:78-80 | `config` becomes `Select(config, id, value)`; nothing else changes |
| App.AppState.HandleFileAdd | src/App.tsx:82-85 | `files` becomes `AddFiles(files, names)`; nothing else changes |
| App.AppState.HandleGithubRepoChange | src/App.tsx:87-89 | the repository is replaced outright, also by `""`; no element of the component calls this handler |
| App.AppState.HandleNext | src/App.tsx:91-97 | the position moves as `Advance`; the step stays in `[0, 7]` |
| App.AppState.HandleBack | src/App.tsx:99-103 | the position moves as `Retreat`; the step stays in `[0, 7]` |
| App.AppState.HandleConnect | src/App.tsx:105-107 | a completed configuration becomes connected |
| App.AppState.HandleInputChange | src/App.tsx:262 | the input field holds the typed value |
| App.AppState.HandleKeyDown | src/App.tsx:109-114 | Enter runs the typed line and clears the field; other keys change nothing |
| App.AppState.ExecuteCommand | src/App.tsx:116-161 | the switch on the trimmed, lower-cased line leaves the transcript equal to `Execute(Lines, old transcript, line, now)` |
| App.AppState.BootEffect | src/App.tsx:163-183 | the nine boot lines are appended after the existing transcript, in order |

## Left out

- Markup, styling, icons (`renderIcon`) and the auto-scroll effect: presentation and DOM only.
- App.AppState.BootEffect: appends all nine lines at once. The 500 ms timers, and how they interleave with lines typed meanwhile, are not modelled.
- App.AppState.ExecuteCommand: `date` prints the clock reading, which is taken as the parameter `now` rather than read from `new Date()`.
- App.AppState.HandleConnect: requires `isComplete`, which the source does not check. Its only button is rendered on the summary screen, so no other call can happen.
- App.AppState.HandleGithubRepoChange: modelled as written, although no element of the component calls it; the model does not restrict `githubRepo` to `""`.
- App.AppState.HandleFileAdd: takes the picked file names directly. The `FileList` of the change event is not modelled.
- App.AppState.HandleKeyDown: takes the event's `key` as a string. The rest of the keyboard event is not modelled.
- Text.LowerChar: lower-cases ASCII letters only, and `trim` removes only ASCII whitespace (space, tab, line feed, carriage return, vertical tab, form feed). JavaScript also handles other Unicode whitespace and letters. No keyword contains such a character, but a line containing one is trimmed or lower-cased differently than in a browser.
- React scheduling: queued state updates are applied in call order, within one event. `handleNext` reads `step` from the render closure, so two presses handled within one render would both see the same step. The model treats each press as seeing the latest state.
