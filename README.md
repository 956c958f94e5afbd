# k8s-dojo in Dafny

k8s-dojo is a Kubernetes troubleshooting trainer with a terminal interface.
The user picks a Kubernetes version, watches a local cluster being
bootstrapped, and then chooses scenarios from a sidebar tree. Each scenario
breaks something in its own namespace. The user repairs it in an embedded
shell while the program checks the cluster every few seconds until the
scenario's validator reports it solved.

This project models the logic of that program and proves properties of it:

- **Scenario validators** (`pkg/scenario/*.go`). Each `Validate` becomes a
  function of what the cluster API returned: an error text, or the object
  reduced to the fields the check reads. Its contract states when the
  scenario counts as solved and which message is shown. `ScenarioTypes`
  holds the shared metadata, result and int-or-string types.
- **The registry and versions** (`pkg/scenario/registry.go`,
  `pkg/cluster/versions.go`). The thirty registered scenarios are kept in
  registration order with their IDs proved distinct. Lookups are first-match,
  and an unknown version falls back to the latest one.
- **The engine** (`pkg/engine/engine.go`). A class with the
  idle/running/validated/cleaning lifecycle. The outcomes of a scenario's
  Setup, Validate and Cleanup, and the clock, are parameters.
- **The interface components** (`pkg/tui/components/*.go`) are classes
  updated in place:
  - the sidebar's tree, its flattened visible list, cursor and expansion
    map, and the summary arithmetic;
  - the content panel's hint cycling;
  - the progress display's steps and setters;
  - the embedded terminal: cell colours and contrast correction, key to
    byte translation, and the session lifecycle with its credential file.
- **The layout** (`pkg/tui/layout.go`): integer clamping of panel sizes
  with Go's truncating division.
- **The application** (`pkg/tui/app.go`). A class whose `Update` takes one
  message at a time. It moves between the seven views, the keyboard focus,
  the bootstrap animation, the check loop and the quit and restart dialogs.
  The commands it hands back to the event loop are returned as a list of
  effects, with one exception: the terminal's Start command is run within
  the step that opens a scenario (see "## Left out"). `AppTree` models how the registry becomes the sidebar's
  category tree.

Files: one `.dfy` per source file, each holding one module. `common.dfy`
holds Go's integer operators and string helpers. `app_tree.dfy` is the part
of `app.go` that builds the sidebar tree.

Where the code and the description of the program disagree, the model
follows the code. The one exception is the three application handlers
listed under "## Findings" (`LeaveScenario`, `UpdateConfirmQuit`,
`HandleCheckResult`): each is modelled twice, as written and corrected, and
the key and message dispatchers (`Update` and the handlers it calls) use the
corrected versions. Their rows say so, and "## Left out" names them.
Elsewhere:

- Retry (`pkg/tui/app.go:665-675`) re-arms the check tick at once and does
  not restart the terminal.
- In the sidebar, Left and Right (`pkg/tui/components/sidebar.go:189-198`)
  only remove or add lines after the selected category. The cursor
  therefore stays on that category and never falls past the list when
  category IDs are distinct (`Sidebar.CollapseKeepsSelection`).

## Model

| member | source | states |
|---|---|---|
| TuiLayout.NewLayout | pkg/tui/layout.go:41-75 | the window is raised to at least 80x24; the sidebar is a quarter of the width (Go's truncating division) clamped to [24, 40]: exactly 24 below width 96, exactly 40 from 160, and exactly the truncated quarter in between; sidebar, content and the four border columns add up to the width; the content is at least 36 wide and 9 rows shorter than the window |
| TuiLayout.MainAreaHeight | pkg/tui/layout.go:78-80 | with the standard header and status bar the main area is the window height less 5; for a layout made by NewLayout it is 4 rows taller than the content |
| TuiLayout.IsTooSmall | pkg/tui/layout.go:83-85 | a window is too small exactly when NewLayout would enlarge it in width or height |
| TuiLayout.NewLayoutIsNeverTooSmall | pkg/tui/layout.go:43-85 | a layout made by NewLayout is never too small, and its main area (window height less header and status bar) is the raised height less 5 |
| TuiLayout.SidebarWidthSamples | pkg/tui/layout.go:51-57 | the sidebar is 24 columns at width 80, 25 at width 100 and 40 at any width of 160 or more |
| TuiLayout.CenteredWidth | pkg/tui/layout.go:88-94 | two thirds of the width, truncated, capped at 60: exactly 60 from width 90 on |
| TuiLayout.CenteredBoxWidth | pkg/tui/layout.go:97-106 | half the width clamped to [30, 50]: 30 below width 62, 50 from 100, otherwise the truncated half |
| Versions.SupportedVersions | pkg/cluster/versions.go:13-26 | two versions, v1.32.0 marked latest then v1.31.4, each with node image "kindest/node:" followed by its version |
| Versions.FirstLatest | pkg/cluster/versions.go:30-34 | the search finds the first entry marked latest (no entry before it is marked), and fails exactly when none is marked |
| Versions.FindVersion | pkg/cluster/versions.go:42-46 | the search finds the first entry with the version string (no entry before it has it), and fails exactly when no entry has it |
| Versions.LatestIn | pkg/cluster/versions.go:29-37 | the first entry marked latest (no entry before it is marked), or the list's first entry when none is marked |
| Versions.LatestVersion | pkg/cluster/versions.go:29-37 | the latest version is a supported one marked latest |
| Versions.GetVersion | pkg/cluster/versions.go:41-47 | a known version string gives its entry; an unknown one gives LatestVersion |
| Versions.VersionSamples | pkg/cluster/versions.go:13-47 | the latest version is v1.32.0, "v1.31.4" gives its own node image, and "v1.29.0" falls back to v1.32.0 |
| Registry.Catalogue | pkg/scenario/registry.go:16-65 | the thirty scenarios in registration order, each with the ID, name, difficulty, category and namespace of its metadata |
| Registry.NewRegistry | pkg/scenario/registry.go:14-67 | the registry holds exactly 30 scenarios, from "net-service-selector" to "resource-limit-range", with pairwise distinct IDs |
| Registry.CatalogueTabulated | pkg/scenario/registry.go:16-65 | every catalogue entry's ID has the fingerprint tabulated at its position, and no entry is filed under the empty category or under "Ops" |
| Registry.CatalogueIdsDistinct | pkg/scenario/registry.go:16-65 | no two registered scenarios share an ID |
| Registry.List | pkg/scenario/registry.go:70-72 | the registered scenarios, unchanged and in order |
| Registry.Count | pkg/scenario/registry.go:85-87 | the count is the length of List |
| Registry.FirstWithId | pkg/scenario/registry.go:76-80 | the search returns the first position holding the ID, and fails exactly when no entry has it |
| Registry.Get | pkg/scenario/registry.go:75-82 | the first registered scenario with the ID (no scenario registered before it has that ID), or nothing exactly when no registered scenario has it |
| Registry.GetFindsEveryRegistered | pkg/scenario/registry.go:75-82 | with distinct IDs, looking up a registered scenario's ID returns that scenario |
| Registry.CatalogueLookups | pkg/scenario/registry.go:14-82 | every scenario of the catalogue is found by Get through its own ID |
| Engine.Engine.constructor | pkg/engine/engine.go:31-36 | a new engine holds the registry, is idle, has no current scenario and no start time |
| Engine.Engine.StartScenario | pkg/engine/engine.go:44-66 | an unknown ID is an error that changes nothing; a known one has its Cleanup then its Setup called; a Setup error is reported and leaves scenario, state and start time as they were; success makes it current and running from `now` |
| Engine.Engine.Check | pkg/engine/engine.go:69-80 | with no current scenario the answer is the error "no scenario is running" and nothing changes; otherwise the scenario's Validate is called and its result returned, and a solved result moves the state to validated |
| Engine.Engine.Cleanup | pkg/engine/engine.go:83-99 | with no current scenario nothing happens; otherwise the state becomes cleaning and the scenario's Cleanup is called; its error is reported with the scenario kept, and success clears the scenario and returns to idle |
| Engine.Engine.ElapsedTime | pkg/engine/engine.go:112-117 | zero when idle or when no start time is set, otherwise the time since the start |
| Engine.Engine.StartThenSolve | pkg/engine/engine.go:44-80 | starting a registered scenario and validating it as solved leaves it current in the validated state, after exactly the calls Cleanup, Setup, Validate on it |
| Progress.IconOf | pkg/tui/components/progress.go:209-219 | a complete step shows the done icon, an incomplete active one the working icon, any other the pending icon; exactly one applies |
| Progress.IconGlyphsDistinct | pkg/tui/components/progress.go:209-219 | the three icons are drawn with three different glyphs |
| Progress.BarWidth | pkg/tui/components/progress.go:144-150 | the bar is 20 columns narrower than the display, but never wider than 50 |
| Progress.ProgressModel.constructor | pkg/tui/components/progress.go:88-107 | a new display has no title, subtitle or steps, an empty bar 40 columns wide and an idle spinner |
| Progress.ProgressModel.SetTitle | pkg/tui/components/progress.go:115-118 | only the title changes |
| Progress.ProgressModel.SetSubtitle | pkg/tui/components/progress.go:120-123 | only the subtitle changes |
| Progress.ProgressModel.SetPercent | pkg/tui/components/progress.go:125-128 | only the filled fraction changes |
| Progress.ProgressModel.SetSteps | pkg/tui/components/progress.go:130-133 | only the step list changes |
| Progress.ProgressModel.GetSteps | pkg/tui/components/progress.go:135-142 | returns a newly allocated copy holding the steps in order |
| Progress.ProgressModel.SetWidth | pkg/tui/components/progress.go:144-150 | the width is stored and the bar resized by BarWidth; nothing else changes |
| Progress.ProgressModel.Update | pkg/tui/components/progress.go:155-163 | a spinner tick advances the spinner and nothing else; every other message leaves the display unchanged |
| Progress.ProgressModel.StepIcons | pkg/tui/components/progress.go:202-226 | one icon per step, in step order, each chosen by IconOf |
| Progress.ProgressModel.EditCopy | pkg/tui/components/progress.go:135-142 | writing into the copy from GetSteps leaves the display unchanged |
| Content.NextHintIndex | pkg/tui/components/content.go:161-165 | without hints the index does not move; from a hint inside the list the next index stays inside it |
| Content.PrevHintIndex | pkg/tui/components/content.go:168-172 | without hints the index does not move; from a hint inside the list the previous index stays inside it |
| Content.HintStepsWrap | pkg/tui/components/content.go:161-172 | from a hint inside the list, Next moves one on and wraps from the last to the first; Prev moves one back and wraps from the first to the last |
| Content.PrevUndoesNext | pkg/tui/components/content.go:161-172 | both moves keep the index inside the list, and each undoes the other |
| Content.NextHintTimesWraps | pkg/tui/components/content.go:161-165 | k presses of Next (k at most the number of hints) move k hints on, wrapping past the end at most once |
| Content.NextHintCycle | pkg/tui/components/content.go:161-165 | as many presses of Next as there are hints come back to the hint shown first |
| Content.ContentModel.constructor | pkg/tui/components/content.go:121-126 | every field starts at its zero value |
| Content.ContentModel.SetScenario | pkg/tui/components/content.go:129-136 | title, description and namespace are replaced, the status is cleared and the first hint is selected; hints, commands and hint visibility are kept |
| Content.ContentModel.SetStatus | pkg/tui/components/content.go:139-142 | only the status text and its success flag change |
| Content.ContentModel.SetCommands | pkg/tui/components/content.go:145-147 | only the quick commands change |
| Content.ContentModel.SetHints | pkg/tui/components/content.go:150-153 | the hints are replaced and the first one selected |
| Content.ContentModel.ToggleHints | pkg/tui/components/content.go:156-158 | only hint visibility changes, and it flips |
| Content.ContentModel.NextHint | pkg/tui/components/content.go:161-165 | the index moves to the next hint with wrap-around (unchanged with no hints) and stays inside the list |
| Content.ContentModel.PrevHint | pkg/tui/components/content.go:168-172 | the index moves to the previous hint with wrap-around (unchanged with no hints) and stays inside the list |
| Content.ContentModel.SetSize | pkg/tui/components/content.go:175-180 | the size is stored and the viewport made 6 columns narrower and 10 rows shorter, without clamping |
| Content.ContentModel.SetFocus | pkg/tui/components/content.go:183-185 | only the focus flag changes |
| Content.ContentModel.HintBoxShown | pkg/tui/components/content.go:261-273 | the hint box appears exactly when hints are shown and there is one; it shows the current hint, labelled with its 1-based position out of the number of hints |
| Content.ContentModel.NextThenPrevRestores | pkg/tui/components/content.go:161-172 | Next followed by Prev leaves the panel exactly as it was |
| Sidebar.Visible | pkg/tui/components/sidebar.go:159-165 | an item's lines are the item itself followed by its children exactly when it is an expanded category |
| Sidebar.FlattenAppend | pkg/tui/components/sidebar.go:157-168 | the visible list of two item lists one after the other is the two visible lists one after the other |
| Sidebar.CollapsedFlattenIsItems | pkg/tui/components/sidebar.go:157-168 | with no category expanded, the visible list is the top-level list |
| Sidebar.CategoryLineIsTopLevel | pkg/tui/components/sidebar.go:157-168 | in a tree with no nested categories, every category line of the visible list is a top-level item, placed right after the lines of the items before it |
| Sidebar.FlattenIgnoresOtherIds | pkg/tui/components/sidebar.go:157-168 | changing the expansion of an ID that no category in the list carries leaves the visible list unchanged |
| Sidebar.Flatten | pkg/tui/components/sidebar.go:157-168 | every top-level item is shown, the list is at least as long as the items, and every line is a top-level item or a child of an expanded category |
| Sidebar.FlattenSplitAt | pkg/tui/components/sidebar.go:157-168 | the visible list is the lines of the items before the k-th, the k-th item's lines, then the lines of the items after it |
| Sidebar.CategoriesBeforeDiffer | pkg/tui/components/sidebar.go:107-116 | in a tree with distinct category IDs, no category before a given category shares its ID |
| Sidebar.CollapseKeepsSelection | pkg/tui/components/sidebar.go:189-198 | collapsing or expanding the category under the cursor keeps the cursor on the visible list and on that same category |
| Sidebar.ExpandCategoriesMeaning | pkg/tui/components/sidebar.go:111-116 | after the auto-expansion loop the map holds its old keys plus every category ID; each category maps to true and every other key keeps its value |
| Sidebar.CountCompleted | pkg/tui/components/sidebar.go:123-126 | the completed items of one list never outnumber the items |
| Sidebar.CompletedChildren | pkg/tui/components/sidebar.go:118-128 | the completed children never outnumber the children |
| Sidebar.Percentage | pkg/tui/components/sidebar.go:275-278 | with no scenarios the percentage is 0; otherwise it is the truncated quotient of 100 times the completed count by the total |
| Sidebar.SummaryBar | pkg/tui/components/sidebar.go:281-288 | the filled count is the truncated share of the bar's width given by the percentage; the bar is absent exactly when that count is negative or exceeds the width (where Repeat would panic); a drawn bar's filled and empty counts are non-negative and add up to its width |
| Sidebar.PercentageBounds | pkg/tui/components/sidebar.go:275-278 | with no more completed than total, the summary percentage lies in [0, 100] and is 100 exactly when all are completed |
| Sidebar.BarWidth | pkg/tui/components/sidebar.go:282-285 | the summary bar is 6 columns narrower than the sidebar, capped at 20 |
| Sidebar.SummaryBarWide | pkg/tui/components/sidebar.go:281-288 | from 6 columns on the bar is drawn; filled and empty cells add up to its width, and (with scenarios and a non-empty bar) no cell is empty exactly when everything is completed |
| Sidebar.SummaryBarNarrow | pkg/tui/components/sidebar.go:281-288 | below 6 columns the empty-cell count is negative, where strings.Repeat panics |
| Sidebar.TruncateTitle | pkg/tui/components/sidebar.go:249-254 | a title longer than the room (width less 10) is cut to exactly that room ending in "..", when the room exceeds 3; otherwise it is unchanged |
| Sidebar.SidebarModel.constructor | pkg/tui/components/sidebar.go:99-104 | a new sidebar is empty with an empty expansion map, the cursor at 0, unfocused |
| Sidebar.SidebarModel.SetItems | pkg/tui/components/sidebar.go:107-129 | the tree is replaced, the cursor goes to the top, every category is marked expanded, and the counts become the number of children and of completed children; the cursor is on a line |
| Sidebar.SidebarModel.SetSize | pkg/tui/components/sidebar.go:132-135 | only the size changes |
| Sidebar.SidebarModel.SetFocus | pkg/tui/components/sidebar.go:138-140 | only the focus flag changes |
| Sidebar.SidebarModel.SelectedItem | pkg/tui/components/sidebar.go:148-154 | the visible line under the cursor, absent exactly when the cursor is outside the visible list |
| Sidebar.AfterKey | pkg/tui/components/sidebar.go:171-207 | the sidebar after one key, as a value: unfocused it is unchanged; only the cursor and the expansion map can change; the map changes only by left/h or right/l on a category line, which sets that category's entry; up/k and down/j move the cursor by at most one line |
| Sidebar.SidebarModel.Update | pkg/tui/components/sidebar.go:171-207 | unfocused, nothing changes; up/k and down/j move one line without leaving the list; left/h and right/l collapse or expand the selected category and nothing else; g goes to the first line and G to the last (-1 on an empty list); other keys change nothing; the new state is AfterKey of the old one |
| Sidebar.SidebarModel.UpdateKeepsCursorOnLine | pkg/tui/components/sidebar.go:171-207 | on a well-formed tree any key leaves the cursor on a visible line, collapse and expand keep the same item selected, and the new state is AfterKey of the old one |
| Terminal.SystemColorLightness | pkg/tui/components/terminal.go:525-533 | among the system colours, exactly 7 and 9 through 15 have a light background |
| Terminal.GreyRampLightness | pkg/tui/components/terminal.go:535-538 | on the grey ramp 232-255, a colour is light exactly from 244 on |
| Terminal.IsLightColor | pkg/tui/components/terminal.go:525-555 | white (7) and the bright colours 9 to 15 and the grey ramp from 244 are light; the other system colours, the darker greys and negative values are not (the colour cube is CubeLightness) |
| Terminal.CubeLightness | pkg/tui/components/terminal.go:540-552 | a colour-cube entry with levels r, g, b is light exactly when r + g + b is at least 9 |
| Terminal.ResolveFg | pkg/tui/components/terminal.go:463-470 | the default foreground is drawn in the dark text colour, the default background (used as foreground) in the light base colour, any other value as its palette index |
| Terminal.StyleCell | pkg/tui/components/terminal.go:436-507 | an empty cell shows a space; the cell is reversed exactly when focused and under the cursor; the default background leaves the background unset; the default foreground as background becomes dark with light text; any other background is kept, with black text when it is light |
| Terminal.ContrastCorrected | pkg/tui/components/terminal.go:472-490 | on an explicit background the text is never light-base on a light palette colour, nor dark text on the dark default |
| Terminal.ViewCells | pkg/tui/components/terminal.go:423-510 | the styled grid has the emulator's rows and columns, and each position holds its cell styled with the cursor at the emulator's cursor position |
| Terminal.UnfocusedHasNoCursor | pkg/tui/components/terminal.go:497-500 | an unfocused terminal shows no reversed cell |
| Terminal.SpecialBytes | pkg/tui/components/terminal.go:367-405 | the arrow keys send the ECMA-48 cursor movements CSI A, B, C, D, and every named key sends at least one byte |
| Terminal.SpecialBytesInjective | pkg/tui/components/terminal.go:367-405 | different named keys send different bytes |
| Terminal.WrapPaste | pkg/tui/components/terminal.go:359-363 | a paste adds exactly the 12 bytes of the two bracketed-paste markers |
| Terminal.PasteRoundTrip | pkg/tui/components/terminal.go:359-363 | removing the markers from a wrapped paste gives back the pasted text, whatever it contains |
| Terminal.KeyBytes | pkg/tui/components/terminal.go:357-411 | Tab sends nothing; a named key sends its fixed bytes; typed characters are sent as they are and pasted ones wrapped in paste markers; any other key is sent by name exactly when the name is a single byte |
| Terminal.TerminalModel.constructor | pkg/tui/components/terminal.go:89-102 | the shell is $SHELL or /bin/sh when that is empty; the emulator is 80x24; nothing runs and no credential file exists |
| Terminal.TerminalModel.SetKubeconfig | pkg/tui/components/terminal.go:112-116 | only the kubeconfig changes |
| Terminal.TerminalModel.Start | pkg/tui/components/terminal.go:119-189 | a running session is left alone; otherwise the shell is created; a kubeconfig that cannot be written to a temporary file stops the start; a failed pseudo-terminal removes the recorded credential file; success runs the shell with the new file and sizes the pseudo-terminal and emulator to the panel when it has a size |
| Terminal.TerminalModel.WriteCredentials | pkg/tui/components/terminal.go:138-155 | with a kubeconfig, the temporary file is created and written and recorded; a failure stops the start; without a kubeconfig there is nothing to write |
| Terminal.TerminalModel.Launch | pkg/tui/components/terminal.go:157-177 | a pseudo-terminal failure removes the recorded credential file and leaves the session stopped; success marks it running, sized to the panel when it has a size |
| Terminal.TerminalModel.ReaderFailed | pkg/tui/components/terminal.go:206-221 | a read error other than end of file marks the session stopped, leaving the pseudo-terminal and the credential file in place |
| Terminal.TerminalModel.Stop | pkg/tui/components/terminal.go:241-282 | a session that is not running is left alone, credential file included; otherwise the pseudo-terminal is closed, the credential file removed and the emulator reset to 80x24 |
| Terminal.TerminalModel.StopReleasingCredentials | pkg/tui/components/terminal.go:241-282 | corrected Stop: the credential file is removed in every case, so a stop leaves no credential file behind |
| Terminal.TerminalModel.SetSize | pkg/tui/components/terminal.go:285-310 | the panel size is stored; the emulator and any open pseudo-terminal get the inner size, 4 columns and 2 rows less, at least 1x1 |
| Terminal.TerminalModel.SetFocus | pkg/tui/components/terminal.go:313-317 | only the focus flag changes |
| Terminal.TerminalModel.SendInput | pkg/tui/components/terminal.go:334-341 | the input reaches the shell only while a pseudo-terminal is open and the session runs |
| Terminal.TerminalModel.Update | pkg/tui/components/terminal.go:348-414 | a focused terminal sends the bytes of the key to the shell; an unfocused one sends nothing; no other state changes |
| Terminal.TerminalModel.ReaderFailureLeaksCredentials | pkg/tui/components/terminal.go:241-282 | as written: a shell that dies on its own before Stop leaves its credential file on disk, and the next Start loses track of it |
| Terminal.TerminalModel.ReaderFailureReleasesCredentials | pkg/tui/components/terminal.go:241-282 | with the corrected Stop, the same sequence leaves no credential file behind |
| AppTree.CategoryOf | pkg/tui/app.go:413-416 | a scenario with no category is filed under "Uncategorized", any other under its own category; never under "" |
| AppTree.InCategory | pkg/tui/app.go:412-418 | the scenarios filed under a category are exactly those of the list with that category, never more than the list |
| AppTree.GroupMeaning | pkg/tui/app.go:409-418 | after grouping, a category has a group exactly when some scenario is filed under it, and its group holds that category's scenarios in registration order |
| AppTree.CategoryItemOf | pkg/tui/app.go:423-436 | the category item carries the category as ID and title and one child per scenario of its group, each with the scenario's ID, name, description, category and completion |
| AppTree.IndexOf | pkg/tui/app.go:421-422 | the position of the first occurrence, or the length when there is none |
| AppTree.RankOfPreferred | pkg/tui/app.go:410 | each preferred category ranks at its own place in the preferred order |
| AppTree.RankPast | pkg/tui/app.go:421-440 | a category ranked at or after j that is not the j-th preferred one ranks after j |
| AppTree.AppendSorted | pkg/tui/app.go:437 | appending an item ranked no lower than all others keeps the items in rank order |
| AppTree.EmitOne | pkg/tui/app.go:437-438 | emitting a pending category and deleting it from the map keeps every item built from its group, the IDs distinct, and the map holding exactly the categories not yet emitted |
| AppTree.GroupByCategory | pkg/tui/app.go:409-418 | the map built by the grouping loop is the grouping of the registered scenarios |
| AppTree.EmitPreferred | pkg/tui/app.go:420-440 | the preferred categories present are emitted in the preferred order and removed from the map; what remains ranks after all of them |
| AppTree.EmitRest | pkg/tui/app.go:442-459 | the remaining categories are emitted in any order, after the preferred ones, until every category has its item |
| AppTree.BuildSidebarItems | pkg/tui/app.go:407-462 | the tree has one category item per category, each holding its scenarios in order; every category is present, none twice, and the preferred ones lead in their fixed order |
| AppTree.TreeIsWellFormed | pkg/tui/app.go:407-462 | the tree meets the sidebar's shape requirement: no category among children, distinct category IDs |
| AppTree.SameIdSameEntry | pkg/scenario/registry.go:14-67 | with distinct IDs, two entries with the same ID are the same entry |
| AppTree.ScenarioListed | pkg/tui/app.go:407-462 | every registered scenario appears as a line under its own category |
| AppTree.ScenarioListedOnce | pkg/tui/app.go:407-462 | with distinct scenario IDs, a line carrying a scenario's ID is under that scenario's category and is its line |
| AppTree.SizesOfEmpty | pkg/tui/app.go:407-462 | no scenarios fill no category |
| AppTree.SizesOfSnoc | pkg/tui/app.go:407-462 | one more scenario adds one line to each item carrying its category |
| AppTree.HitsOfDistinct | pkg/tui/app.go:407-462 | among items with distinct IDs, an ID occurs once if it occurs at all |
| AppTree.SizesCountAll | pkg/tui/app.go:407-462 | distinct categories that cover every scenario's category hold all scenarios between them |
| AppTree.TotalChildrenIsSizes | pkg/tui/app.go:407-462 | the children of the tree are the scenarios of the categories its items carry |
| AppTree.TreeCountsEveryScenario | pkg/tui/app.go:407-462 | the tree holds exactly one line per registered scenario, so the sidebar's summary counts them all |
| AppTree.CatalogueHasNoOps | pkg/scenario/registry.go:16-65 | no scenario of the catalogue is filed under "Ops" |
| AppTree.OperationsAfterPreferred | pkg/tui/app.go:410-459 | with no scenario filed under "Ops", the tree has no "Ops" item and the "Operations" category comes after every preferred category |
| AppTree.OperationsRanksLast | pkg/tui/app.go:410 | "Operations" is not a preferred category, so it ranks after all of them |
| AppTree.PreferredRanksEarly | pkg/tui/app.go:410 | a preferred category ranks before every category that is not preferred |
| AppTree.NoOpsItem | pkg/tui/app.go:421-440 | with no scenario filed under "Ops", the tree has no "Ops" item |
| App.BindingOf | pkg/tui/keymap.go:43-141 | the key bindings the success screen and the dialogs test (back, forward, enter, cancel, y, n, m, r) are disjoint, and each key name falls under exactly the binding whose keys list it |
| App.ListKeyOf | pkg/tui/app.go:493-502 | up/k, down/j and enter are the version list's keys, each recognised exactly |
| App.ShortcutOf | pkg/tui/app.go:567-576 | c, h, n, p and esc are the running scenario's shortcuts, each recognised exactly |
| App.NextFocus | pkg/tui/app.go:204-213 | Tab always moves the keyboard to a different panel |
| App.FocusCycle | pkg/tui/app.go:204-213 | three presses of Tab visit all three panels and come back to the first |
| App.SelectionBack | pkg/tui/app.go:916-918 | moving back in a two-button dialog switches to the other button |
| App.SelectionForward | pkg/tui/app.go:919-921 | moving forward in a two-button dialog switches to the other button |
| App.SelectionMovesUndo | pkg/tui/app.go:916-921 | moving back undoes moving forward and the other way round |
| App.PanelsSplitMainArea | pkg/tui/app.go:313-332 | for every window size the information panel (40% of the main area, at least 8 rows) and the terminal split the main area exactly; the information panel is no taller than the terminal, which keeps at least 11 rows |
| App.InitialSteps | pkg/tui/app.go:507-513 | the bootstrap screen opens with five steps, the first two done and the third under way |
| App.TickMovesLead | pkg/tui/app.go:254-263 | a tick keeps the labels and moves the lead to the ticked step, whether the lead was already there or one step behind |
| App.StepListReading | pkg/tui/app.go:254-263 | with the lead at a step, the steps before it show done, it shows working, and the rest pending |
| App.CompleteSteps | pkg/tui/app.go:383-386 | every step becomes complete and none active, with its label kept |
| App.AppModel.constructor | pkg/tui/app.go:131-158 | the application opens on the version list with the first version selected, an 80x24 layout, no cluster, registry or completions, and no panel focused |
| App.AppModel.UpdateFocusStyles | pkg/tui/app.go:334-338 | each panel's focus flag becomes whether it is the focused panel, and nothing else changes |
| App.AppModel.BuildSidebar | pkg/tui/app.go:407-462 | the sidebar's tree becomes the category tree of the registered scenarios and their completions, with the cursor at the top on a line, counting every registered scenario |
| App.AppModel.RefreshSidebar | pkg/tui/app.go:652-653 | rebuilding the sidebar keeps the model valid and counts every registered scenario |
| App.AppModel.AskQuit | pkg/tui/app.go:191-200 | the quit dialog opens over the current screen, remembering it, with No selected |
| App.AppModel.ShowScenario | pkg/tui/app.go:704-715 | the information panel shows the scenario's name, description and namespace, its two quick commands, its hints from the first, and the status "Setting up scenario environment..." |
| App.AppModel.StartShell | pkg/tui/app.go:721-727 | the terminal's Start is run at once, in the same step (see Left out): a refresh is requested exactly when no shell was running, and afterwards a shell runs exactly when one ran already or the credentials and the pseudo-terminal could be set up |
| App.AppModel.StartSelectedScenario | pkg/tui/app.go:699-728 | the running-scenario screen opens with the terminal holding the keyboard, the information panel showing the scenario, the shell started, and the engine asked to start the scenario |
| App.AppModel.OpenScenarioPanels | pkg/tui/app.go:704-723 | the panel work of opening a scenario: the information panel shows it, the focus flags follow the model, and the shell is started |
| App.AppModel.UpdateVersionSelect | pkg/tui/app.go:491-527 | up and down move through the two versions without leaving the list; Enter opens the bootstrap screen at its third step with the bar at 2/5 and asks for the selected version's cluster and the first animation tick; other keys change nothing |
| App.AppModel.ShowBootstrap | pkg/tui/app.go:502-519 | the bootstrap screen opens at the third step, titled for the chosen version |
| App.AppModel.LabelBootstrap | pkg/tui/app.go:504-519 | the title, the version's subtitle, the five initial steps and the bar at 2/5 are set, and nothing else |
| App.AppModel.Picked | pkg/tui/app.go:537-553 | Enter on a scenario line picks a scenario that is registered |
| App.AppModel.PickScenario | pkg/tui/app.go:542-551 | the scenario becomes current; a completed one opens the restart dialog with No selected; any other starts at once |
| App.AppModel.UpdateDashboard | pkg/tui/app.go:535-561 | Enter on a registered scenario picks it; any other key goes to the sidebar, whose new state is Sidebar.AfterKey of the key, and nothing else changes |
| App.AppModel.LeaveScenario | pkg/tui/app.go:576-587 | corrected Escape: the engine cleans up, the shell stops and its credential file is removed, and the dashboard opens with the sidebar holding the keyboard |
| App.AppModel.LeaveScenarioAsWritten | pkg/tui/app.go:576-587 | Escape as written: the dashboard opens but the focus stays where it was, and the shell is stopped with the terminal's own Stop |
| App.AppModel.RunShortcut | pkg/tui/app.go:566-589 | c asks for a check and Escape leaves the scenario through the corrected LeaveScenario (see Findings), both using up the key; h, n and p toggle, advance or go back through the hints and let the key go on to the focused panel |
| App.AppModel.ForwardToPanel | pkg/tui/app.go:592-606 | the key goes to the focused panel: the sidebar takes the state Sidebar.AfterKey gives for the key, the shell receives the key's bytes, the information panel changes nothing |
| App.AppModel.UpdateScenarioRunning | pkg/tui/app.go:563-607 | a shortcut is taken first unless the shell holds the keyboard; c asks for a check, Escape leaves for the dashboard through the corrected LeaveScenario (see Findings); h toggles the hints, n and p move to the next or previous hint with NextHintIndex and PrevHintIndex; any key but c and Escape then reaches the focused panel: the sidebar takes Sidebar.AfterKey of the key, the information panel changes nothing; while the shell holds the keyboard it receives the key's bytes and nothing else changes |
| App.AppModel.Retry | pkg/tui/app.go:665-675 | the running-scenario screen returns, the engine is asked to start the scenario again and the check timer is armed; the shell is left as it is |
| App.AppModel.ReturnToDashboard | pkg/tui/app.go:638-663 | the scenario is recorded as completed, the engine cleans up, the sidebar is rebuilt and holds the keyboard, no scenario is current and the last result is cleared |
| App.AppModel.UpdateSuccess | pkg/tui/app.go:609-636 | the arrows and tab move between the buttons; Enter on Retry or r retries; Enter on Continue or m returns to the dashboard marking the scenario completed; other keys change nothing |
| App.AppModel.UpdateConfirmRestart | pkg/tui/app.go:912-947 | the arrows and tab flip the selection; y or Enter on Yes restart the scenario; n, Escape, the quit key or Enter on No return to the dashboard with no scenario current; other keys change nothing |
| App.AppModel.RestartDialogStays | pkg/tui/app.go:914-944 | in the restart dialog, the arrows and tab flip the selection; n, Escape, the quit key or Enter on No return to the dashboard with no scenario current; other keys change nothing |
| App.AppModel.RestartScenario | pkg/tui/app.go:923-925 | the scenario the dialog was opened for starts again, with the terminal holding the keyboard |
| App.AppModel.UpdateConfirmQuit | pkg/tui/app.go:974-1009 | corrected quit dialog: the arrows and tab flip the selection; y or Enter on Yes quit with the engine's cleanup; n, Escape, the quit key or Enter on No return to the screen the dialog was opened over |
| App.AppModel.UpdateConfirmQuitAsWritten | pkg/tui/app.go:985-993 | the quit dialog as written: Enter on No goes to the dashboard whatever screen the dialog was opened over |
| App.AppModel.DispatchKey | pkg/tui/app.go:292-311 | the key goes to the screen shown, with the corrected LeaveScenario and UpdateConfirmQuit (see Findings); the bootstrap screen ignores it; the final delay is never armed; a check is asked for only from the running scenario's screen; quitting comes with the engine's cleanup |
| App.AppModel.DispatchButtonsKey | pkg/tui/app.go:302-307 | with the corrected UpdateConfirmQuit (see Findings), the success screen and the dialogs never arm the final delay nor ask for a check, and a quit they cause comes with the engine's cleanup |
| App.AppModel.CycleFocus | pkg/tui/app.go:203-214 | the keyboard moves to the next panel and the panels' focus flags follow |
| App.AppModel.HandleKey | pkg/tui/app.go:176-214 | through DispatchKey, so with the corrected LeaveScenario and UpdateConfirmQuit (see Findings): the quit key quits at once on the bootstrap screen, is left to the dialogs, goes to the shell while it holds the keyboard, and opens the quit dialog elsewhere; while the shell holds the keyboard every key but Tab reaches it |
| App.AppModel.HandleWindowSize | pkg/tui/app.go:216-220 | the layout is recomputed for the new size and every panel resized from it, the bootstrap display included; the terminal's pseudo-terminal, when open, takes the new inner size; nothing but sizes changes |
| App.AppModel.SizePanels | pkg/tui/app.go:313-332 | the sidebar gets the main area's height, the information panel 40% of it and the terminal the rest, and the shell always gets at least 32 columns and 9 rows; the terminal's pseudo-terminal, when open, is resized to its new inner size, and nothing else of the terminal changes |
| App.AppModel.InstallRegistry | pkg/tui/app.go:352-373 | the kubeconfig goes to the model and the shell, the registry is installed, the stored completions replace the current ones when the store opens and loads, the sidebar lists every scenario, and the cluster counts as up |
| App.AppModel.InstallPanels | pkg/tui/app.go:354-367 | the shell gets the kubeconfig and the sidebar lists every registered scenario |
| App.AppModel.FinishSteps | pkg/tui/app.go:377-388 | the subtitle becomes "Cluster ready!", every step is complete with its label kept, and the bar is full |
| App.AppModel.HandleBootstrapDone | pkg/tui/app.go:340-397 | a cluster or client error is recorded and nothing else changes; otherwise the registry of 30 scenarios is installed, and if the animation has already run out the step list is completed and the final delay armed |
| App.AppModel.FinishIfAnimationDone | pkg/tui/app.go:375-396 | past the last step the step list is completed and the final delay armed; before it nothing changes |
| App.AppModel.HandleCheckResult | pkg/tui/app.go:464-488 | with an engine the status shows the result; a solved result for the current scenario records it as completed (in the store too when open) and opens the success screen; any other result arms the next check |
| App.AppModel.RecordResult | pkg/tui/app.go:471-487 | a solved result for the current scenario marks it completed and opens the success screen; any other arms the next check |
| App.AppModel.HandleCheckResultAsWritten | pkg/tui/app.go:464-488 | as written: a solved result with an engine but no current scenario dereferences the missing scenario and panics |
| App.AppModel.TickStep | pkg/tui/app.go:254-268 | the step before the animation's step completes, that step gets under way, and the bar is filled to (step + 1) / number of steps |
| App.AppModel.HandleProgressTick | pkg/tui/app.go:238-272 | off the bootstrap screen nothing happens; past the last step the final delay is armed once the cluster is up, and otherwise the subtitle says it is finishing; before that the step list moves on, the bar grows and the next tick is armed |
| App.AppModel.AdvanceAnimation | pkg/tui/app.go:254-270 | the animation moves one step on, the step list leads at the old step, and the bar grows to the new step's fraction |
| App.AppModel.FinalizeBootstrap | pkg/tui/app.go:399-405 | the dashboard opens with the sidebar holding the keyboard |
| App.AppModel.HandleScenarioStarted | pkg/tui/app.go:277-285 | a start error is shown as the status; success is announced and the first check armed |
| App.AppModel.Update | pkg/tui/app.go:172-311 | with the corrected LeaveScenario, UpdateConfirmQuit and HandleCheckResult (see Findings), every message keeps the model valid; the final delay is armed only once the cluster is up; checks are asked for only from the running scenario's screen; the bootstrap screen is left only when the final delay fires and its bar never moves back; quitting always comes with the engine's cleanup |
| App.AppModel.HandleBootstrapMsg | pkg/tui/app.go:222-275 | a spinner tick advances the spinner twice on the bootstrap screen and once elsewhere and changes nothing else; the spinner, the animation tick and the final delay keep the model valid, never ask for a check or quit, and the bar never moves back on the bootstrap screen |
| App.AppModel.HandleScenarioMsg | pkg/tui/app.go:230-289 | with the corrected HandleCheckResult (see Findings), a check's result, the check timer, the engine's start answer and the shell's output never arm the final delay, quit, or leave the bootstrap screen, and ask for a check only from the running scenario's screen |
| App.AppModel.EscapeLeavesSidebarDeaf | pkg/tui/app.go:576-587 | as written: Escape with the information panel focused opens the dashboard with the focus still on that panel, so the sidebar ignores every key |
| App.AppModel.EscapeFocusesSidebar | pkg/tui/app.go:576-587 | with the corrected handler the same Escape gives the sidebar the keyboard |
| App.AppModel.QuitDialogNoAsWritten | pkg/tui/app.go:985-993 | as written: quit then Enter on No from the version list opens the dashboard with no cluster and nothing to select |
| App.AppModel.QuitDialogNoReturns | pkg/tui/app.go:985-998 | with the corrected dialog the same keys return to the version list as it was |
| App.AppModel.StaleSolvedResultPanics | pkg/tui/app.go:464-488 | as written: a solved result arriving after Escape left the scenario makes the program panic |
| App.AppModel.StaleSolvedResultIgnored | pkg/tui/app.go:464-488 | with the corrected handler the same result arms the next check and the dashboard stays |
| ImagePull.GetMetadata | pkg/scenario/imagepull.go:32-46 | the scenario is "image-pull-backoff", easy, filed under "Pods & Containers", with three hints and a 10-minute limit |
| ImagePull.AllReady | pkg/scenario/imagepull.go:128-134 | the readiness scan succeeds exactly when every container status is ready |
| ImagePull.AnyServing | pkg/scenario/imagepull.go:125-139 | the first scan succeeds exactly when some pod is Running with every container ready |
| ImagePull.FirstPullFailureIn | pkg/scenario/imagepull.go:143-150 | the reason found is ImagePullBackOff or ErrImagePull and is that of the first status waiting on a pull failure; none is found exactly when no status waits on a pull failure |
| ImagePull.FirstPullFailure | pkg/scenario/imagepull.go:142-151 | the reason found is that of the first pod holding a pull failure, taken from that pod's first failing status; none is found exactly when no pod's status waits on a pull failure |
| ImagePull.Validate | pkg/scenario/imagepull.go:111-154 | a listing error or no pods is unsolved with its message; otherwise solved exactly when some pod serves; an unsolved check names the first pull failure (FirstPullFailure) when there is one and says the pod is not yet running when there is none |
| ImagePull.ServingPodWinsOverStuckPod | pkg/scenario/imagepull.go:124-151 | one serving pod solves the scenario even beside a pod stuck pulling its image, in either order |
| NetPol.AnyPortOpensDNS | pkg/scenario/net_pol.go:89-93 | true exactly when some port entry is set with integer value 53 |
| NetPol.AnyRuleAllowsDNS | pkg/scenario/net_pol.go:88-99 | true exactly when some egress rule lists a DNS port, or lists no port but at least one peer |
| NetPol.AnyPolicyAllowsDNS | pkg/scenario/net_pol.go:86-100 | true exactly when some rule of some policy allows DNS in that sense |
| NetPol.Validate | pkg/scenario/net_pol.go:79-107 | a listing error is unsolved with the error's text; otherwise solved exactly when some rule of some policy allows DNS, with the matching message |
| NetPol.NamedPortsAndEmptyRulesDoNotCount | pkg/scenario/net_pol.go:90-97 | a named port never opens DNS (its integer value reads as zero) and a rule with neither ports nor peers is not accepted |
| NetPol.SeedIsUnsolved | pkg/scenario/net_pol.go:66-77 | the seeded deny-all policy with no egress rule leaves the check unsolved |
| OpsChecksum.GetMetadata | pkg/scenario/ops_checksum.go:25-34 | the scenario is "ops-config-checksum", medium, filed under "Operations", with two hints and no time limit |
| OpsChecksum.FindChecksumKey | pkg/scenario/ops_checksum.go:68-72 | the search succeeds exactly when some annotation key is "checksum/config" or is longer than eight bytes and starts with "checksum" |
| OpsChecksum.Validate | pkg/scenario/ops_checksum.go:62-74 | a fetch error is unsolved with the error's text; otherwise solved exactly when some annotation key carries the checksum prefix, with the matching message |
| OpsChecksum.ChecksumConfigIsRedundant | pkg/scenario/ops_checksum.go:69 | the explicit "checksum/config" test accepts nothing the prefix test does not, and a bare "checksum" key is refused |
| OpsChecksum.IterationOrderIrrelevant | pkg/scenario/ops_checksum.go:68-73 | the verdict is the same for every order in which the annotation map may be iterated |
| OpsChecksum.SeedIsUnsolved | pkg/scenario/ops_checksum.go:44-57 | the seeded Deployment, with no template annotation, leaves the check unsolved |
| NetDns.LexBelowThreeIsFirstChar | pkg/scenario/net_dns.go:64 | Go's string comparison `val < "3"` holds exactly when the value is empty or its first byte is below '3' |
| NetDns.AnyLexBelowThree | pkg/scenario/net_dns.go:61-68 | the loop as written succeeds exactly when some option is ndots with a value that compares below "3" as a string |
| NetDns.ValidateAsWritten | pkg/scenario/net_dns.go:54-72 | as written: a fetch error is unsolved with its text; otherwise solved exactly when the pod has a DNS configuration with such an option, with the matching message |
| NetDns.AsWrittenAcceptsTen | pkg/scenario/net_dns.go:64 | the check as written accepts ndots "10" and an empty value, and refuses "5" |
| NetDns.DecimalValue | pkg/scenario/net_dns.go:64 | the value of a digit string; a single digit reads as itself, and a value below 3 has only zeros before its last digit |
| NetDns.AnyNumericBelowThree | pkg/scenario/net_dns.go:61-68 | the corrected loop succeeds exactly when some option is ndots with a decimal value below 3 |
| NetDns.Validate | pkg/scenario/net_dns.go:54-72 | corrected: the same outcomes, with ndots compared as a number below 3 |
| NetDns.NumericCheckRejectsTen | pkg/scenario/net_dns.go:64 | the corrected check refuses "10" and an empty value and still accepts "2" |
| NetDns.NumericBelowThreeShape | pkg/scenario/net_dns.go:64 | an accepted value is zeros followed by one digit below '3' |
| NetDns.SingleDigitAgrees | pkg/scenario/net_dns.go:64 | on a single digit the corrected and the as-written comparisons agree |
| NetDns.SeedIsUnsolved | pkg/scenario/net_dns.go:43-51 | the seeded pod, with no DNS configuration, leaves both checks unsolved |
| SecRbac.AnyVerbGrantsList | pkg/scenario/sec_rbac.go:90-94 | true exactly when some verb of the rule is "list" or "*" |
| SecRbac.AnyRuleGrantsList | pkg/scenario/sec_rbac.go:89-95 | true exactly when some rule holds such a verb |
| SecRbac.Validate | pkg/scenario/sec_rbac.go:83-97 | a fetch error is unsolved with its text; otherwise solved exactly when some rule grants list or every verb, with the matching message |
| SecRbac.SeedIsUnsolved | pkg/scenario/sec_rbac.go:52-60 | the seeded role granting only get and watch is unsolved, and a wildcard rule added anywhere solves it |
| StorageSubpath.FindConfigSubPath | pkg/scenario/storage_subpath.go:78-84 | true exactly when some mount is named "config" with a non-empty subPath |
| StorageSubpath.Validate | pkg/scenario/storage_subpath.go:71-87 | a fetch error is unsolved with its text; otherwise solved exactly when the first container mounts "config" with a subPath, with the matching message |
| StorageSubpath.OnlyFirstContainerCounts | pkg/scenario/storage_subpath.go:77-78 | the seeded pod is unsolved, and a correct mount in a second container is not seen |
| SchedScheduler.Validate | pkg/scenario/sched_scheduler.go:54-67 | a fetch error is unsolved with its text; solved exactly when the pod uses the default scheduler (named or empty) and runs; a fixed but not yet running pod is told to wait; any other scheduler is named in the message |
| SchedScheduler.SeedIsUnsolved | pkg/scenario/sched_scheduler.go:43-49 | the seeded pod is reported as using "ghost-scheduler" |
| SecDigest.Validate | pkg/scenario/sec_digest.go:66-79 | a fetch error is unsolved with its text; otherwise solved exactly when the first container's image contains "@sha256:", with the matching message |
| SecDigest.DigestAccepted | pkg/scenario/sec_digest.go:45-79 | any image of the form name@sha256:digest is accepted, and the seeded "nginx:latest" is not |
| SecPriv.Validate | pkg/scenario/sec_priv.go:69-82 | a fetch error is unsolved with its text; otherwise solved exactly when there is a first container and it does not explicitly ask for privileged mode, with the matching message |
| SecPriv.SeedAndEmptyAreUnsolved | pkg/scenario/sec_priv.go:44-82 | the seeded privileged container is unsolved, and so is a template with no container at all |
| SecSa.Validate | pkg/scenario/sec_sa.go:58-69 | a fetch error is unsolved with its text; otherwise solved exactly when token automounting is not explicitly switched off, with the matching message |
| SecSa.SeedIsUnsolved | pkg/scenario/sec_sa.go:43-68 | the seeded pod with automounting off is unsolved, and removing the field solves it |
| NetTargetPort.Validate | pkg/scenario/net_target_port.go:77-91 | a fetch error is unsolved with its text; otherwise solved exactly when the first service port targets 80, as an integer or as the string "80", with the matching message |
| NetTargetPort.SeedIsUnsolved | pkg/scenario/net_target_port.go:62-90 | the seeded target 8080 is unsolved, a service without ports is unsolved, and a correct second port is not seen |
| ProbeLiveness.Validate | pkg/scenario/probe_liveness.go:68-84 | a fetch error is unsolved with its text; otherwise solved exactly when the first container's liveness probe is an HTTP GET on port 80, with the matching message |
| ProbeLiveness.SeedIsUnsolved | pkg/scenario/probe_liveness.go:44-83 | the seeded probe on 8080 is unsolved, and a probe without an HTTP handler never solves the scenario |
| ScenarioTypes.IntValField | pkg/scenario/net_pol.go:90 | the integer field of an int-or-string reads as zero when the string alternative is set |
| ScenarioTypes.StrValField | pkg/scenario/net_target_port.go:85 | the string field of an int-or-string reads as "" when the integer alternative is set |
| IngressTls.ReferencedSecret | pkg/scenario/ingress_tls.go:88-91 | the Secret looked up is the first TLS entry's, or "" when the Ingress has no TLS entry |
| IngressTls.Validate | pkg/scenario/ingress_tls.go:81-99 | a fetch error is unsolved with its text; otherwise solved exactly when the Ingress names a Secret (the API refuses a lookup by the empty name) and that Secret can be fetched, and an unsolved result names the missing Secret |
| IngressTls.EitherFixSolves | pkg/scenario/ingress_tls.go:44-98 | the seed is unsolved, and both renaming the Secret and re-pointing the Ingress solve it |
| IngressPath.ValidateAsWritten | pkg/scenario/ingress_path.go:82-95 | as written: the check fails on a nil dereference exactly when the first rule has no HTTP part; otherwise a fetch error is unsolved with its text and the check is solved exactly when the first rule's first path is "/app" |
| IngressPath.HostOnlyRuleCrashes | pkg/scenario/ingress_path.go:89 | a host-only first rule makes the check as written fail |
| IngressPath.Validate | pkg/scenario/ingress_path.go:82-95 | corrected with a nil test: never fails; solved exactly when the first rule's first path is "/app", with the matching message |
| IngressPath.CorrectedAgreesWhereOriginalReturns | pkg/scenario/ingress_path.go:88-94 | wherever the check as written returns, the corrected check returns the same result; where it fails, the corrected check reports the path as still incorrect |
| IngressPath.SeedIsUnsolved | pkg/scenario/ingress_path.go:56-77 | the seeded "/wrong-path" route is reported as still incorrect |
| PodFinalizer.Validate | pkg/scenario/pod_finalizer.go:63-70 | solved exactly when fetching the pod fails, for whatever reason, with the matching message |
| PodFinalizer.Setup | pkg/scenario/pod_finalizer.go:35-61 | the first failing create call's error is returned and stops the sequence; on success the namespace and the finalized pod are created and the pod deleted, the delete's own error discarded |
| PodFinalizer.Cleanup | pkg/scenario/pod_finalizer.go:72-80 | the pod is looked up first and its finalizers cleared exactly when it is retrievable; the namespace is deleted last and that deletion's error is the result |
| PodFinalizer.Apply | pkg/scenario/pod_finalizer.go:43-58 | a created pod is stored with its finalizers; deleting a pod that has finalizers leaves it stored and marked for deletion; clearing the finalizers of a pod marked for deletion removes it |
| PodFinalizer.SetupLeavesUnsolved | pkg/scenario/pod_finalizer.go:35-80 | replaying a successful Setup's calls leaves the pod stored and marked for deletion, so the lookup succeeds and the check starts unsolved; replaying Cleanup's calls after it removes the pod, so the check reads solved; any failed lookup reads as solved |
| Common.GoDiv | pkg/tui/layout.go:98 | Go's integer division: the remainder it leaves is smaller than the divisor in magnitude and takes the dividend's sign |
| Common.GoRem | pkg/tui/components/content.go:163 | Go's `%`: with GoDiv it reassembles the dividend, is smaller than the divisor in magnitude, and takes the dividend's sign |
| Common.GoDivNonNegative | pkg/tui/components/content.go:163 | on a non-negative dividend and a positive divisor Go's operators agree with Euclidean division |
| Common.U16 | pkg/tui/components/terminal.go:171-172 | Go's `uint16(x)` conversion: the result lies in [0, 65536), leaves values in range unchanged, and differs from x by a multiple of 65536 |
| Common.ContainsIffOccurs | pkg/scenario/sec_digest.go:74 | Go's strings.Contains holds exactly when the pattern sits at some offset of the string |

## Left out

- Concurrency: the terminal's mutex, its output-reader goroutine and the 500 ms wait in Stop are not modelled. Each method is one atomic step, and the reader's failure is the separate step `Terminal.TerminalModel.ReaderFailed`.
- The shell process, the pseudo-terminal and the VT emulator's parsing of shell output are not modelled. The emulator is reduced to a grid of cells and a cursor that are given as inputs. The files on disk and the bytes sent to the shell are ghost state.
- Rendering: the `View` functions and lipgloss styling are not modelled. Only the decisions inside them are: cell colours and the cursor, the hint box, step icons, the summary bar, title truncation and panel sizes.
- The spinner: its frames are a count of consumed ticks, and the commands it returns are not modelled. Go's Update passes every spinner tick to the bootstrap display once (`app.go:222-225`), and on the bootstrap screen `updateBootstrap` passes it a second time (`app.go:529-533`); the model counts both. The command of the first update is dropped in every view, because each view's handler returns its own command (`app.go:292-309`).
- The progress fraction is a float64 in Go and an exact `real` here, so rounding is not modelled.
- Go's map iteration order (the category map in `buildSidebarItems`, the annotation map in `ops_checksum.go`) is left open. The model chooses an order nondeterministically and proves the properties for every order.
- The cluster API, cluster creation (`pkg/cluster`'s manager), the completion store and the engine are reached from the application only through returned effects. Their answers come back as message parameters.
- Each scenario's Setup and Cleanup calls on the cluster are not modelled, except for `pod_finalizer.go`, whose call order is modelled. The description and hints that the application shows for a scenario come from `details`, a function from scenario ID to description and hints, given to `App.AppModel`'s constructor. Nothing ties it to any scenario's metadata, not even that of `ImagePull.GetMetadata` and `OpsChecksum.GetMetadata`, and the registry's `Entry` carries neither.
- Engine logging and the wall clock are not modelled. The clock is a parameter of the start and of the elapsed-time query.
- The header, status bar and success-screen components are not modelled. `pkg/tui/components/success.go` does not define the button methods that `app.go` calls. `App.AppModel.UpdateSuccess` therefore models the selected button as an unspecified choice of 0 or 1.
- `pkg/tui/tui.go` is an earlier, unused version of the application model, and `cmd/k8s-dojo/main.go` only starts the program. Neither is part of this model.
- Messages that reach a view's key handler without being key presses (content-viewport scrolling, terminal output refreshes) change nothing in the model. The viewport's scroll position is not modelled.
- The rendering code in `app.go` (line 858) reads a layout field `InfoHeight` that `layout.go` does not declare. Rendering is not modelled. The panel sizes come from `updateComponentSizes`, whose split of the main area `App.PanelsSplitMainArea` states.
- The application's own fields are held in one value, `AppModel.st`, which its methods reassign. Its sidebar, content, progress and terminal components are separate objects updated in place.
- App.AppModel.RunShortcut: composes the corrected LeaveScenario. As written (app.go:576-587) Escape leaves the focus where it was; see Findings.
- App.AppModel.UpdateScenarioRunning: composes the corrected LeaveScenario through RunShortcut; see Findings.
- App.AppModel.DispatchKey: composes the corrected LeaveScenario and UpdateConfirmQuit. As written (app.go:985-993) Enter on "No" always opens the dashboard; see Findings.
- App.AppModel.DispatchButtonsKey: composes the corrected UpdateConfirmQuit; see Findings.
- App.AppModel.HandleKey: composes the corrected LeaveScenario and UpdateConfirmQuit through DispatchKey; see Findings.
- App.AppModel.HandleScenarioMsg: composes the corrected HandleCheckResult. As written (app.go:464-488) a solved result arriving after Escape reads a scenario that is gone; see Findings.
- Sidebar.TruncateTitle: counts the title's length and cuts it in characters, where Go's `len(title)` and `title[:titleWidth-2]` (`sidebar.go:252-253`) count bytes and can split a multi-byte character. Every title in the catalogue is ASCII, so none of them is truncated differently.
- App.AppModel.StartShell: the terminal's Start is run within the step that opens the scenario. In Go, `startSelectedScenario` returns it as a command in a batch (`app.go:721-727`), and the event loop runs it later (`terminal.go:119-189`). So the model does not capture a message, Escape for instance, being handled before that command runs. In that case a shell and its credential file would be created after the dashboard has opened.
- App.AppModel.StartSelectedScenario: runs the terminal's Start within the same step, as StartShell does; the engine's start is returned as an effect.
- App.AppModel.Update: composes the corrected LeaveScenario, UpdateConfirmQuit and HandleCheckResult, so the validity it proves is that of the corrected program. Its as-written counterparts are the members named under Findings.
- App.AppModel.Update: proves that the model stays valid, plus the properties listed in its row. It does not state the complete new state for every message; the per-message handlers do that.

## Findings

| source | as written | input that shows it | evidently intended | confidence | as-written member | corrected member |
|---|---|---|---|---|---|---|
| pkg/scenario/net_dns.go:64 | ndots is compared with `val < "3"` as a string | ndots "10" (or "") is accepted as solved | ndots compared as a number below 3 | high; not executed | NetDns.ValidateAsWritten, NetDns.AsWrittenAcceptsTen | NetDns.Validate, NetDns.NumericCheckRejectsTen |
| pkg/scenario/ingress_path.go:89 | `Rules[0].HTTP.Paths` is read without a nil test | an Ingress whose first rule is host-only (no HTTP part) | a rule without an HTTP part counts as "path still incorrect" | high; not executed | IngressPath.ValidateAsWritten, IngressPath.HostOnlyRuleCrashes | IngressPath.Validate, IngressPath.CorrectedAgreesWhereOriginalReturns |
| pkg/tui/components/terminal.go:241-282 | Stop returns at once when the session is no longer running, before removing the credential file | the shell exits on its own (reader error), then Stop, then Start again | the credential file is removed whenever the session is stopped | medium; not executed | Terminal.TerminalModel.Stop, Terminal.TerminalModel.ReaderFailureLeaksCredentials | Terminal.TerminalModel.StopReleasingCredentials, Terminal.TerminalModel.ReaderFailureReleasesCredentials |
| pkg/tui/app.go:985-993 | Enter on "No" in the quit dialog always opens the dashboard | q then Enter from the version list, before any cluster exists | return to the view the dialog was opened over, as Esc and n do | high; not executed | App.AppModel.UpdateConfirmQuitAsWritten, App.AppModel.QuitDialogNoAsWritten | App.AppModel.UpdateConfirmQuit, App.AppModel.QuitDialogNoReturns |
| pkg/tui/app.go:576-587 | Escape from a scenario opens the dashboard without moving the focus to the sidebar | Escape while the information panel has the focus, then any sidebar key | the sidebar holds the focus on the dashboard | high; not executed | App.AppModel.LeaveScenarioAsWritten, App.AppModel.EscapeLeavesSidebarDeaf | App.AppModel.LeaveScenario, App.AppModel.EscapeFocusesSidebar |
| pkg/tui/app.go:464-488 | a solved check result reads the current scenario without testing it | Escape while a check is in flight, then the solved result arrives | a result for a scenario that has been left is not applied to it | medium; not executed | App.AppModel.HandleCheckResultAsWritten, App.AppModel.StaleSolvedResultPanics | App.AppModel.HandleCheckResult, App.AppModel.StaleSolvedResultIgnored |

The proofs also make explicit some behaviour that may or may not be intended:

- The preferred category order in `app.go:410` names "Ops", but the catalogue files its operations scenario under "Operations". That category therefore comes after all the preferred ones, in map order (`AppTree.OperationsAfterPreferred`).
- The content viewport is sized without clamping, so it gets a negative height on a small panel (`Content.ContentModel.SetSize`).
- The sidebar's summary bar asks strings.Repeat for a negative count below 6 columns (`Sidebar.SummaryBarNarrow`).
