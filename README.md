# Vencord installer: helpers and window state, modelled in Dafny

This project models two parts of the Vencord (VencordJP) installer, a Go program that finds
Discord installs and patches them.

- **util.go** holds the generic helpers: slice map and search, the classification of a
  Discord folder or bundle name into the `canary`, `development`, `ptb` or `stable` branch,
  and the rule that turns a Windows sharing violation into a "close Discord first" message.
- **gui.go** keeps the window's state in package-level variables. The state covers:
  - the selected radio entry (one per install found, then the custom location);
  - the custom location text, with Tab completion over the entries of the directory being typed;
  - the counter that numbers message popups;
  - the one-time consent that OpenAsar needs.

Modules:

- `Wrappers`: an `Option` type. It gives the result of reading a directory, `None` when the read fails.
- `GoStrings`: the Go library functions the code relies on, as ASCII text operations. It has
  `strings.ToLower`, `HasPrefix`, `HasSuffix`, `filepath.Dir`, `filepath.Base` (`GoBase`) and
  `strconv.Itoa`.
- `Util`: util.go. Its loops (`SliceMap`, `SliceIndexFunc`, `GetBranch`) are methods.
  `GetBranch` is proved equal to the reference function `Branch`, and the lemmas about
  branches are stated on `Branch`.
- `Gui`: gui.go as the class `GuiState`. Its fields are the source's variables, and each
  event handler is a method whose `modifies` clause names exactly the fields that handler
  assigns. So everything else is unchanged; in particular only `AcceptOpenAsar` can change
  `acceptedOpenAsar`, and only to true.
  Tab completion is specified through three reference functions. `Filtered` gives the
  candidate list. `Slot` and `IndexAfterTabs` give the wrapping candidate index.

The constructor establishes `Valid()` of `GuiState`, which has two parts:
- `RadioInRange`: the selection is an install or the custom location. Every method that
  changes the selection preserves it. `SelectRadio` takes only the positions that have a
  radio button, and `MoveUp`/`MoveDown` stop at both ends.
- `CompletionAnchored`: the text ends with what the next Tab will remove. That is the
  previous completion, or otherwise the typed partial name.

`CompletionAnchored` implies `Complete`'s precondition. That precondition is the bound that
the input widget's byte deletion needs when there are candidates. `Complete` preserves
`CompletionAnchored`. The change handler keeps it when it held before, and re-establishes it
whenever no completion was pending (`didAutoComplete` false).

The OpenAsar consent is skipped once it was given, and also when the chosen install already
has OpenAsar, so the press uninstalls it (gui.go:142).

## Model

| member | source | states |
|---|---|---|
| `Util.SliceMap` | util.go:17-23 | The result has the input's length, and element i is the mapper applied to input element i. |
| `Util.SliceIndexFunc` | util.go:25-32 | Returns -1 exactly when no element satisfies fn. Otherwise it returns an index whose element satisfies fn, and no earlier element does. |
| `Util.SliceIndex` | util.go:34-38 | Returns -1 exactly when item does not occur. Otherwise it returns the first position holding item. |
| `Util.SliceContainsFunc` | util.go:40-42 | True exactly when some element satisfies fn. |
| `Util.SliceContains` | util.go:44-46 | True exactly when item occurs in the slice. |
| `Util.Ternary` | util.go:64-69 | Gives ifTrue when the condition holds, and ifFalse otherwise. |
| `Util.Prepend` | util.go:105-107 | The result is elems followed by slice, both in order. Its length is the sum of the two lengths. |
| `Util.GetBranch` | util.go:71-81 | The lowercase-then-first-suffix loop returns exactly `Branch(name)`, the first of canary, development, ptb that the lowercased name ends with, or stable. |
| `Util.FirstSuffixIsCandidate` | util.go:75-80 | The first-suffix search answers stable or one of the tried suffixes. A non-stable answer is a suffix of the name. Stable is answered exactly when no suffix matches. |
| `Util.BranchIsKnown` | util.go:71-81 | The branch is always one of canary, development, ptb, stable. |
| `Util.BranchMatchesSuffix` | util.go:73-80 | A non-stable branch is a suffix of the lowercased name. Stable is returned if and only if none of the three suffixes matches. |
| `Util.FirstSuffixFirstMatch` | util.go:75-79 | Suffixes are tried in order: the first one that matches is the answer. |
| `Util.BranchCaseInsensitive` | util.go:74 | Classifying a name equals classifying its lowercase form. |
| `Util.CheckIfErrIsCauseItsBusyRn` | util.go:87-103 | The error comes back changed exactly when the OS is Windows and the error is a link error whose errno is 32. In that case it becomes the "used by a different process" message. |
| `Util.BusyCheckIdempotent` | util.go:87-103 | Classifying an already classified error changes nothing. |
| `GoStrings.GoBaseIsLastElement` | gui.go:238-246 | For a non-empty typed path that does not end in '/', the base is a non-empty suffix of the path with no '/' in it. |
| `GoStrings.ItoaInjective` | gui.go:416 | Different popup counters give different decimal spellings. |
| `Gui.FilteredMembership` | gui.go:255-266 | A name is among the completion candidates exactly when it is a listed entry matching the partial name case-insensitively. |
| `Gui.FilteredConcat` | gui.go:258-264 | Filtering distributes over concatenation, so the candidates keep the directory order. |
| `Gui.FilteredAllWhenEmpty` | gui.go:261 | With an empty partial name every listed entry is a candidate. |
| `Gui.FilteredCaseInsensitive` | gui.go:256-261 | The candidates do not depend on the case of the partial name. |
| `Gui.Slot` | gui.go:491-493 | The wrapped candidate index is always in range, and an index already in range is kept. |
| `Gui.TabsFirstRound` | gui.go:491-511 | From index 0, the first n Tabs insert candidates 0 to n-1 in order. The stored index after k such Tabs is k. |
| `Gui.TabsPeriodic` | gui.go:490-493 | After n more Tabs over n candidates the same candidate comes again, so completion cycles with wrap-around. |
| `Gui.CompletionEndsText` | gui.go:498-510 | After a Tab the text ends with what the next Tab removes: the inserted candidate, or the empty partial name when the candidate is empty. |
| `Gui.PartialNameIsSuffix` | gui.go:238-246 | The partial name recorded for a path not ending in '/' is a suffix of the text. |
| `Gui.EmptyInputGoBaseOverrunsText` | gui.go:238-241 | As written, the base of an emptied input is ".". It is longer than the text, and an entry such as ".git" still matches it (see Findings). |
| `Gui.ModalPopupIdsDistinct` | gui.go:412-417 | Different message numbers open different popup ids. |
| `Gui.ModalPopupIdShape` | gui.go:416 | A message popup id is "#modal" followed by at least one decimal digit and nothing else, so it never names the OpenAsar confirmation popup, and the "#modal" prefix test at gui.go:303 recognises it. |
| `Gui.GuiState.constructor` | gui.go:30-51 | The start-up state: Go zero values everywhere, the default modal texts, and no consent. The custom choice index is the number of installs found (gui.go:64). The invariant holds. |
| `Gui.GuiState.WriteText` | gui.go:480 | The input widget stores the typed text in customDir and changes nothing else. |
| `Gui.GuiState.OnCustomInputChanged` | gui.go:211-249 | Non-empty text selects the custom location. A trailing '/' or a changed directory relists the entries, resets index, last completion and partial name, and records the partial name only on a directory change. Otherwise, unless the edit came from a completion, the partial name is recalculated and the last completion cleared. didAutoComplete always ends false. `RadioInRange` is preserved, and `CompletionAnchored` holds afterwards whenever it held before or no completion was pending (`didAutoComplete` false). |
| `Gui.GuiState.MakeAutoComplete` | gui.go:255-266 | The appending loop yields exactly `Filtered` of the listed entries and the partial name. |
| `Gui.GuiState.Complete` | gui.go:486-514 | With no candidates nothing changes. Otherwise the index wraps to 0 when past the end, and the previous completion (or the partial name) is cut from the end of the text and the chosen candidate appended. lastAutoComplete becomes that candidate, the index becomes the wrapped index + 1, and didAutoComplete becomes true. A stored index of `IndexAfterTabs(k, n)` becomes `IndexAfterTabs(k + 1, n)`, so `TabsFirstRound` and `TabsPeriodic` describe repeated Tabs. The length bound is required only when there are candidates. |
| `Gui.GuiState.SelectRadio` | gui.go:268-272 | A radio button sets the selection to its position. The buttons sit at the install positions and at the custom choice index (gui.go:460-472), so the selection stays in range. |
| `Gui.GuiState.MoveUp` | gui.go:621-625 | Up decrements the selection when it is above 0. It moves by at most one place and keeps the selection in range. |
| `Gui.GuiState.MoveDown` | gui.go:626-630 | Down increments the selection while it is below the custom choice index. It moves by at most one place and keeps the selection in range. |
| `Gui.GuiState.ShowModal` | gui.go:412-417 | Stores title and message and increases the counter by exactly one. It opens popup "#modal" followed by the new counter, an id no earlier message used. |
| `Gui.GuiState.HandleOpenAsar` | gui.go:141-148 | The toggle goes ahead without confirmation if and only if consent was given or the chosen install already has OpenAsar. Otherwise the consent popup opens. |
| `Gui.GuiState.AcceptOpenAsar` | gui.go:333-336 | The accept button sets the consent flag. No method ever clears it. |

## Left out

- `main`, window creation, icon decoding and the two goroutines waiting for the download and update checks (gui.go:56-86): window setup and concurrency.
- The widget builders `renderInstaller`, `renderErrorCard`, `renderFilesDirErr`, `Tooltip`, `InfoModal`, `RawInfoModal`, `UpdateModal`, `loop` and `CondWidget`: layout with float sizes. The popup ids they open are returned as outputs of the modelled handlers instead.
- `showedUpdatePrompt` (gui.go:430-433): it depends on `CanUpdateSelf`, which is not part of this model.
- `getChosenInstall`, `handlePatch`, `handleUnpatch`, `InstallLatestBuilds`, `HandleScuffedInstall` and the `Patch`/`Unpatch` wrappers (gui.go:102-139, 188-209): they call `ParseDiscord`, `patch`, `unpatch`, `CheckScuffedInstall` and `installLatestBuilds`, which are not part of this model. Apart from those calls they only open popups ("#invalid-custom-location", "#scuffed-install", "#patched", "#unpatched") or report errors through `ShowModal`, directly (gui.go:122) or through `handleErr`. Each such report advances the popup counter exactly as the modelled `ShowModal` does.
- `handleOpenAsarConfirmed` (gui.go:150-169): it calls `InstallOpenAsar` and `UninstallOpenAsar`, which are not part of this model.
- `handleErr` (gui.go:171-186): it picks a user-facing message text according to the OS and the permission error, and shows it with `ShowModal` (gui.go:185), which is modelled. The message text and the `errors.Is` test are not.
- `ExistsFile` and `IsDirectory` (util.go:48-62): `os.Stat` and logging.
- `Ptr` (util.go:83-85): pointer identity.
- `os.ReadDir` in the change handler is a parameter: the entry names that the listing would return, or `None` when it fails.
- Text is a sequence of characters, with one character per byte. Lowercasing is ASCII only, and `/` is the only path separator. `filepath.Dir` drops trailing separators but does not fold `.` and `..` elements or repeated inner separators the way `filepath.Clean` does.
- Integers are unbounded. The popup counter and the completion index cannot wrap at Go's int width.
- `SliceMap`, `SliceIndexFunc`, `SliceContainsFunc`: the callbacks are total functions that cannot panic. `Prepend` does not model that `append` may reuse the backing array of `elems`.
- CheckIfErrIsCauseItsBusyRn: takes a non-nil error built from errno, link error, path error and plain message shapes. A nil error, which Go returns unchanged as well, is not modelled.
- Complete: candidates are `makeAutoComplete()` of the state when the callback runs. The source computes them when the frame is built, and nothing changes the candidate state between that point and the callback.
- Complete: requires, when there are candidates, that the text to remove is no longer than the text. This is the bound imgui's byte deletion needs. Past it, with candidates, the source would delete from a negative position (see Findings). With no candidates the source returns before touching the text, and the model needs no bound there.
- OnCustomInputChanged: a completion that leaves the text unchanged may not be reported as an edit by the widget library. If it is not, `didAutoComplete` is still true at the next real edit. The handler then keeps the stale last completion, `CompletionAnchored` can fail, and the next Tab cuts the wrong number of bytes. For example, in "/home/user" with entries "user" and "users", a Tab inserts "user" and leaves the text as it was. Typing "s" next and pressing Tab then gives "/home/uusers". The model only promises the anchoring when it held before the edit or no completion was pending, and does not decide whether that library ever reports an unchanged buffer.
- WriteText, OnCustomInputChanged: the widget's writing of the text and its call of the change handler are two methods. The model does not decide whether the library calls the handler after a completion that leaves the text byte-for-byte the same.
- HandleOpenAsar: the chosen install's `IsOpenAsar()` is a parameter. On an invalid custom location the source calls `IsOpenAsar` on a nil install, and `IsOpenAsar` is not part of this model.
- OnCustomInputChanged: uses the corrected partial name of the Findings, "" for an empty input, where the source uses Go's `filepath.Base`, which gives ".".

## Findings

| source | as written | input that shows it | evidently intended | confidence | as-written member | corrected member |
|---|---|---|---|---|---|---|
| gui.go:238-241 | For an emptied input the partial name is set to Go's base of the empty path, which is ".". The next Tab deletes one byte starting 1 before the (empty) text. | The user types "a" and then deletes it, so the handler records "." as the partial name. The working directory holds ".git", so the candidate list is [".git"], and Tab computes start 0 - 1 = -1. | An empty input has an empty partial name: Tab then deletes nothing and offers every entry. | not executed; medium | `Gui.EmptyInputGoBaseOverrunsText` | `Gui.PartialNameIsSuffix` |
