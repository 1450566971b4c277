# Chat bottom sheet and calendar entry components, modelled in Dafny

This project models the interactive core of a mobile calendar/todo client. The
model has one Dafny module per source file, plus three helper modules
(`Wrappers`, `JsString`, `JsDate`) for the language features they use.

- `ChatBottomSheet` (chat_bottom_sheet.dfy) models the draggable bottom sheet
  that hosts the chat input dock. The class `SheetController` holds the shared
  values the component mutates: screen height, measured dock height, sheet
  height, drag start, the height recorded before keyboard growth, and the
  dock's vertical offset. It has one method per event:
  - the dock's layout measurement;
  - the two height effects;
  - the four keyboard listeners;
  - pan start, update and end;
  - `expandToMid`.

  Each method is specified by a pure step function over a `SheetState` value.
  The lemmas beside them state what the component does: snapping, opacity,
  drag bounds, the keyboard round trip, and the effects' collapse.
- `QueryInput` models the chat text dock: the blank-submit guard, clearing
  the text, and the optional expand callback.
- `AgentDock` models the agent chat log. The log only grows. It covers the
  trimmed send, the create/reply flags, the canned reply chosen by `pick`,
  and the view of the last six messages.
- `CategoryTodoList` models grouping todos by category (a loop that builds a
  dictionary, keys in insertion order) and the empty-state rendering.
- `DayCell` models a month-grid cell: the number it shows, whether it is
  selected, and what a press reports. `JsDate` models the
  `new Date(year, month, day)` constructor it uses, as MakeDay (section
  21.4.1.28 of ECMA-262) defines it: days roll over into neighbouring months,
  and a two-digit year means 19xx.
- `EventCreateModal` models the category/todo choice dialog. The chosen
  category always stays one of the pills.
- `TodoQueryInput` models the plus-button/text-field toggle of the calendar
  screen.
- `JsString` models `String.prototype.trim`, and `Wrappers` holds the `Option`
  type.

Numbers are exact reals. `SCREEN_HEIGHT * 0.33` is exactly 33/100 of the
screen. Every spring or timing animation is taken to have committed its
target value. Platform inputs become method parameters: keyboard height, drag
translation, measured layout height, and the value of `Math.random()`.
Callbacks the components invoke (`onAddTodo`, `onSubmit`, `onDateClick`,
`onConfirm`, `onClose`, `onExpand`) become results.

Where the code does something other than its own comments suggest
(components/ChatBottomSheet.tsx:50 and :68), the model follows the code, and
the lemmas make the difference explicit:

- The layout handler compares the sheet with the new measured height, not the
  old minimum (`LayoutComparesWithNewHeight`).
- Keyboard growth is not clamped to the screen height
  (`KeyboardGrowthUnclamped`).
- The height recorded before keyboard growth is never cleared. A keyboard
  hide after a show that did not grow the sheet collapses an expanded sheet
  to that stale value: 536 becomes 80 for a screen of 800
  (`KeyboardHideUsesStaleOriginal`, `KeyboardScenarioExpanded`).
- Growth is not idempotent. A second show without a hide compounds it
  when the keyboard is under 10 high (`KeyboardSecondShowCompounds`).
- The two height effects together always snap the sheet to the dock height.
  So any change of the screen height or of the measured dock height
  collapses an expanded sheet (`HeightEffectsCollapse`).

## Model

| member | source | states |
|---|---|---|
| `ChatBottomSheet.MidHeight` | components/ChatBottomSheet.tsx:31-35 | the MID height `SCREEN_HEIGHT - SCREEN_HEIGHT*0.33` lies in [0, SCREEN_HEIGHT], strictly inside when the screen height is positive |
| `ChatBottomSheet.NearestSnap` | components/ChatBottomSheet.tsx:205-219 | the release target is no farther from the current height than any of FULL, MID, MIN, and strictly nearer than every point before it in the order FULL, MID, MIN |
| `ChatBottomSheet.PreferredNearestUnique` | components/ChatBottomSheet.tsx:210-219 | exactly one snap point is nearest with that tie-breaking, so the condition alone determines the choice |
| `ChatBottomSheet.SnapWithinBounds` | components/ChatBottomSheet.tsx:199-224 | when MIN <= MID the snapped height lies within [MIN, SCREEN_HEIGHT] |
| `ChatBottomSheet.SnapScenarios` | components/ChatBottomSheet.tsx:199-224 | for screen 800 and min 80: MID is 536, and releases at 750, 500, 100 snap to 800, 536, 80 |
| `ChatBottomSheet.Interpolate01` | components/ChatBottomSheet.tsx:236-241 | `interpolate(x, [lo, hi], [0, 1], "clamp")` lies in [0,1]; on an increasing range it is 0 at or below lo, 1 at or above hi, and linear in between; equal edges give 0 |
| `ChatBottomSheet.Interpolate01Monotone` | components/ChatBottomSheet.tsx:232-243 | on an increasing range the interpolated opacity never decreases as the height grows |
| `ChatBottomSheet.Initial` | components/ChatBottomSheet.tsx:59-63 | at mount the dock height, sheet height and recorded height are 80, and drag start and dock offset are 0 |
| `ChatBottomSheet.ChatContentOpacity` | components/ChatBottomSheet.tsx:232-243 | the chat content opacity is in [0,1]; when min < MID it is 0 with the sheet at or below min and 1 at or above MID |
| `ChatBottomSheet.HandleOpacity` | components/ChatBottomSheet.tsx:245-256 | the handle opacity has the same bounds and end values |
| `ChatBottomSheet.OpacitiesAgree` | components/ChatBottomSheet.tsx:232-256 | the two opacities are equal in every state |
| `ChatBottomSheet.OpacitiesRise` | components/ChatBottomSheet.tsx:232-256 | when min < MID both opacities rise (weakly) as the sheet grows |
| `ChatBottomSheet.PanUpdateTracksFinger` | components/ChatBottomSheet.tsx:188-198 | a drag update sets the sheet to `startY - translationY` when that lies in [min, SCREEN_HEIGHT], to min when it is below and to SCREEN_HEIGHT when it is above, and changes nothing else |
| `ChatBottomSheet.DragStaysWithinBounds` | components/ChatBottomSheet.tsx:184-198 | after a drag start and any non-empty run of updates, the sheet is the last translation applied to the height captured at the start, clamped, so it stays in [min, SCREEN_HEIGHT] |
| `ChatBottomSheet.ExpandToMidThenReleaseStays` | components/ChatBottomSheet.tsx:264-270 | `expandToMid` commits exactly the MID snap height and changes nothing else, and a release right after it settles at MID |
| `ChatBottomSheet.HeightEffectsCollapse` | components/ChatBottomSheet.tsx:66-84 | with positive screen and dock heights the two effects in order leave the sheet exactly at the dock height; otherwise they change nothing |
| `ChatBottomSheet.LayoutIdempotent` | components/ChatBottomSheet.tsx:42-57 | a repeated identical layout measurement is ignored |
| `ChatBottomSheet.LayoutComparesWithNewHeight` | components/ChatBottomSheet.tsx:50-54 | a sheet resting on the old minimum 80 stays at 80 when the dock measures 140: the comparison is with the new height |
| `ChatBottomSheet.KeyboardRoundTrip` | components/ChatBottomSheet.tsx:90-130 | from any collapsed state (a positive sheet within 10 of min) a show grows the sheet by the keyboard height and the following hide restores sheet and dock offset; only the recorded height remains |
| `ChatBottomSheet.KeyboardNoRestoreFromZero` | components/ChatBottomSheet.tsx:123-128 | the hide restores only a positive recorded height: with min 5 a sheet at 0 grows to 300 on show and stays at 300 on hide |
| `ChatBottomSheet.KeyboardScenarioCollapsed` | components/ChatBottomSheet.tsx:96-128 | 80 grows to 380 with dock offset -300 for a 300-high keyboard, and the hide returns to 80 and offset 0 |
| `ChatBottomSheet.KeyboardSecondShowIsNoOp` | components/ChatBottomSheet.tsx:96-104 | after a show that grew the sheet from at or above min, a second show with the same height of at least 10 changes nothing |
| `ChatBottomSheet.KeyboardSecondShowCompounds` | components/ChatBottomSheet.tsx:140-148 | with a 5-high keyboard a second show grows the sheet again, 80 to 85 to 90 |
| `ChatBottomSheet.KeyboardGrowthUnclamped` | components/ChatBottomSheet.tsx:98-103 | the keyboard growth can take the sheet above the screen height |
| `ChatBottomSheet.KeyboardHideUsesStaleOriginal` | components/ChatBottomSheet.tsx:120-129 | when a show does not grow the sheet but the recorded height is within 10 of min, the following hide moves the sheet to the stale recorded height |
| `ChatBottomSheet.KeyboardScenarioExpanded` | components/ChatBottomSheet.tsx:134-172 | at MID 536 a show keeps 536 and sets the offset to -300; the hide then drops the sheet to 80 |
| `ChatBottomSheet.SheetController.constructor` | components/ChatBottomSheet.tsx:21-24 | the shared values start as `Initial(SCREEN_HEIGHT)` |
| `ChatBottomSheet.SheetController.Resize` | components/ChatBottomSheet.tsx:21 | a new window height replaces SCREEN_HEIGHT only |
| `ChatBottomSheet.SheetController.HandleQueryInputLayout` | components/ChatBottomSheet.tsx:42-57 | a measurement is taken only if positive and more than 1 away from the dock height; then the dock height becomes it, and the sheet snaps to it when the screen height is positive and the sheet is within 50 of it |
| `ChatBottomSheet.SheetController.SnapToInputIfFar` | components/ChatBottomSheet.tsx:66-73 | the first effect snaps the sheet to the dock height when it is more than 10 away (both heights positive) |
| `ChatBottomSheet.SheetController.SnapToInputIfNear` | components/ChatBottomSheet.tsx:76-84 | the second effect snaps the sheet to the dock height when it is less than 50 away (both heights positive) |
| `ChatBottomSheet.SheetController.RunHeightEffects` | components/ChatBottomSheet.tsx:65-84 | both effects in order leave the sheet equal to the dock height whenever both heights are positive |
| `ChatBottomSheet.SheetController.ShowKeyboard` | components/ChatBottomSheet.tsx:90-109 | if the sheet is within 10 of min, the recorded height becomes the sheet and the sheet grows by the keyboard height; the dock offset becomes minus the keyboard height |
| `ChatBottomSheet.SheetController.HideKeyboard` | components/ChatBottomSheet.tsx:114-130 | the dock offset becomes 0; the sheet becomes the recorded height exactly when that is positive and within 10 of min |
| `ChatBottomSheet.SheetController.KeyboardWillShow` | components/ChatBottomSheet.tsx:88-111 | the "will show" listener performs the show step |
| `ChatBottomSheet.SheetController.KeyboardWillHide` | components/ChatBottomSheet.tsx:112-131 | the "will hide" listener performs the hide step |
| `ChatBottomSheet.SheetController.KeyboardDidShow` | components/ChatBottomSheet.tsx:132-155 | the "did show" listener performs the same show step |
| `ChatBottomSheet.SheetController.KeyboardDidHide` | components/ChatBottomSheet.tsx:156-174 | the "did hide" listener performs the same hide step |
| `ChatBottomSheet.SheetController.PanStart` | components/ChatBottomSheet.tsx:185-187 | the drag start captures the current sheet height |
| `ChatBottomSheet.SheetController.PanUpdate` | components/ChatBottomSheet.tsx:188-198 | the sheet becomes the clamped `startY - translationY`, within [min, SCREEN_HEIGHT] whenever min <= SCREEN_HEIGHT |
| `ChatBottomSheet.SheetController.PanEnd` | components/ChatBottomSheet.tsx:199-225 | the sheet is committed to the nearest snap height with FULL/MID/MIN tie-breaking |
| `ChatBottomSheet.SheetController.ExpandToMid` | components/ChatBottomSheet.tsx:264-270 | the sheet is committed to the MID height |
| `JsString.TrimStart` | components/query-input.tsx:23 | the leading part removed by `trim` is all white space, the rest does not start with white space, and the result is empty exactly for all-white-space input |
| `JsString.TrimEnd` | components/agent/agent-dock.tsx:49 | the trailing part removed by `trim` is all white space, the rest does not end with white space, and the result is empty exactly for all-white-space input |
| `JsString.Trim` | components/agent/agent-dock.tsx:49 | `trim` yields the input with an all-white-space prefix and suffix cut off, and the rest neither starts nor ends with white space |
| `JsString.TrimEmptyIffAllWhiteSpace` | components/agent/agent-dock.tsx:49-50 | the blank guard `!text.trim()` holds exactly when the text is empty or only white space |
| `JsString.TrimIdempotent` | components/query-input.tsx:23 | trimming twice gives the same as trimming once |
| `QueryInput.Submit` | components/query-input.tsx:22-28 | a blank text reports nothing and stays; any other text is reported untrimmed to `onAddTodo` and the field becomes "" |
| `QueryInput.SubmitTwiceReportsOnce` | components/query-input.tsx:22-26 | a second submit right after the first reports nothing and changes nothing |
| `QueryInput.InputState.constructor` | components/query-input.tsx:15 | the field starts empty |
| `QueryInput.InputState.OnChangeText` | components/query-input.tsx:18-20 | the text becomes the new value |
| `QueryInput.InputState.AddSchedule` | components/query-input.tsx:22-28 | the new text and the `onAddTodo` call are those of `Submit` on the old text |
| `QueryInput.InputState.HandleFocus` | components/query-input.tsx:30-32 | `onExpand` is called if and only if it was provided |
| `AgentDock.PickIndex` | components/agent/agent-dock.tsx:15 | `Math.floor(random * n)` for a random in [0,1) is an index below n |
| `AgentDock.Pick` | components/agent/agent-dock.tsx:15 | `pick` returns an element of the array |
| `AgentDock.Visible` | components/agent/agent-dock.tsx:111 | `msgs.slice(-6)` is the last min(6, n) messages in their original order |
| `AgentDock.VisibleAfterAppend` | components/agent/agent-dock.tsx:109-117 | appending a message shows it last, and with six already shown the oldest one leaves the view |
| `AgentDock.Dock.constructor` | components/agent/agent-dock.tsx:28-45 | at mount the prompt effect runs once: the log holds the prompt bubble, typing is off, no reply is pending |
| `AgentDock.Dock.SetPrompt` | components/agent/agent-dock.tsx:38-45 | a changed prompt appends one agent message carrying it; an unchanged prompt appends nothing |
| `AgentDock.Dock.HandleSend` | components/agent/agent-dock.tsx:48-85 | blank input changes nothing and calls nothing; otherwise one user message with the trimmed text is appended, `onSubmit` gets that text iff `enableCreate`, and in reply mode typing is set and one reply is scheduled |
| `AgentDock.Dock.DeliverReply` | components/agent/agent-dock.tsx:74-84 | the reply timer appends one agent message whose text is from `DUMMY` and turns typing off |
| `CategoryTodoList.InCategory` | components/category-todo-list.tsx:20-32 | a group holds only todos of its own category, and no more todos than the input |
| `CategoryTodoList.InCategoryAppend` | components/category-todo-list.tsx:29 | the group of `a + b` is the group of `a` followed by that of `b`, so todos keep their input order within a group |
| `CategoryTodoList.Categories` | components/category-todo-list.tsx:24-26 | the dictionary's keys are distinct, and a category is a key exactly when some todo has it (no group is empty) |
| `CategoryTodoList.CategoriesExtendPrefix` | components/category-todo-list.tsx:58 | the keys met in the first k todos come first, in the same order: sections follow first appearance |
| `CategoryTodoList.TodoInOwnGroup` | components/category-todo-list.tsx:20-29 | every todo is in the group keyed by its own category |
| `CategoryTodoList.GroupSizesSumToTotal` | components/category-todo-list.tsx:17-33 | the group sizes add up to the number of todos, so nothing is dropped or duplicated |
| `CategoryTodoList.GroupTodosByCategory` | components/category-todo-list.tsx:17-33 | the reduce builds a dictionary whose keys, in insertion order, are the categories by first appearance, each mapped to its non-empty todos in input order |
| `CategoryTodoList.RenderTodosByCategory` | components/category-todo-list.tsx:43-67 | the empty state is shown exactly when there are no todos; otherwise one non-empty section per category in order of first appearance |
| `JsDate.Normalize` | components/day-cell.tsx:26-30 | the day walk ends on a real date with the same day number, and keeps an in-month day unchanged |
| `JsDate.MakeDate` | components/day-cell.tsx:26-30 | `new Date(y, m, d)` is a real date with MakeDay's day number, and for an in-month day it is (y, m, d), with a year 0..99 read as 1900+y |
| `DayCell.DisplayedDay` | components/day-cell.tsx:71 | a previous-month cell shows `daysInPrevMonth - date + 1`, in [1, daysInPrevMonth] for an in-range date; other cells show `date` |
| `DayCell.PrevMonthRowIsMonthEnd` | components/day-cell.tsx:71 | the previous-month cells, which the calendar screen pushes for date = firstDay down to 1, show the last firstDay days of that month in increasing order, ending at daysInPrevMonth |
| `DayCell.IsSelected` | components/day-cell.tsx:36-42 | a cell is selected iff it is in the current month, both dates are given, and the selected date is this day of the calendar's month and year |
| `DayCell.IsDisabled` | components/day-cell.tsx:49 | exactly the cells outside the current month are disabled |
| `DayCell.HandlePress` | components/day-cell.tsx:24-33 | `onDateClick` is called iff a handler exists, the cell is current and the calendar date is given; the date has the day number of `new Date(FullYear(year), month, date)`, where a year 0..99 is read as 1900+year, and for a year of 100 or more and an in-month day it equals (year, month, date) |
| `DayCell.PressSelectsCell` | components/day-cell.tsx:24-42 | taking the date a current in-month cell reports as the selection marks that same cell selected |
| `EventCreateModal.Modal.constructor` | components/agent/event-create-modal.tsx:15-16 | the choice starts as category "기타" with the todo switch on |
| `EventCreateModal.Modal.ActivePill` | components/agent/event-create-modal.tsx:27-35 | exactly one pill is highlighted: the one of the chosen category |
| `EventCreateModal.Modal.PressPill` | components/agent/event-create-modal.tsx:27-30 | pressing a pill makes its value the category, which stays in `CATEGORIES`; the switch is unchanged |
| `EventCreateModal.Modal.SetIsTodo` | components/agent/event-create-modal.tsx:40 | the switch sets the todo flag and leaves the category alone |
| `EventCreateModal.Modal.Confirm` | components/agent/event-create-modal.tsx:47-49 | `onConfirm` receives the current (category, isTodo), a category from `CATEGORIES`, and nothing changes |
| `EventCreateModal.Modal.Cancel` | components/agent/event-create-modal.tsx:44 | cancel calls `onClose` and changes nothing |
| `EventCreateModal.Modal.SetVisible` | components/agent/event-create-modal.tsx:14-19 | showing or hiding the dialog keeps the choice |
| `TodoQueryInput.EntryState.constructor` | components/todo-query-input.tsx:31-32 | the entry starts with the plus button and an empty text |
| `TodoQueryInput.EntryState.Rendered` | components/todo-query-input.tsx:85-94 | exactly one of the plus button and the text field is rendered, chosen by `showInput` |
| `TodoQueryInput.EntryState.OnChangeText` | components/todo-query-input.tsx:38-40 | the text becomes the new value |
| `TodoQueryInput.EntryState.HandlePressPlus` | components/todo-query-input.tsx:42-57 | pressing plus shows the text field |
| `TodoQueryInput.EntryState.AddSchedule` | components/todo-query-input.tsx:58-76 | submit clears the text unconditionally and starts one fade-out that will hide the field |
| `TodoQueryInput.EntryState.OnBlur` | components/todo-query-input.tsx:110-129 | leaving an empty field starts one fade-out; leaving a filled one changes nothing |
| `TodoQueryInput.EntryState.HideAnimationDone` | components/todo-query-input.tsx:75 | a completed fade-out hides the field and brings the plus button back |

## Left out

- Animation dynamics: the spring's damping and stiffness, timing durations, `e.duration || 250`, and values read in mid-animation. Every animated write commits its target at once. So the continuity of a drag started during a settle, and a keyboard event arriving mid-animation, are not modelled.
- Platform plumbing: registering and removing the keyboard listeners, `Keyboard.dismiss`, gesture recognition, `useWindowDimensions` and safe-area insets. Each platform notification is a method call carrying its numbers.
- The React re-render between `setQueryInputHeight` and the next handler. The state `queryInputHeight` and the shared `queryInputHeightShared` are written together and start equal, so they are one number in the model. Two measurements delivered before a re-render are not distinguished.
- Floating-point rounding of `SCREEN_HEIGHT * 0.33` and of `interpolate`. Reals are exact.
- `interpolate` belongs to the animation library, not to this repository. It is modelled by its documented clamped linear behaviour.
- ChatBottomSheet.Interpolate01Monotone: stated only for an increasing input range (min below MID). With a dock taller than MID the opacity falls as the sheet grows, and the model computes that but proves nothing about it.
- ChatBottomSheet.KeyboardSecondShowIsNoOp: requires the sheet to start at or above the minimum. From up to 10 below it, a 10-high keyboard leaves the sheet within 10 of the minimum, and the sheet grows again.
- Agent dock: the reply delay (`setTimeout`), the time-based ids and timestamps (which need not be unique), and `scrollEnd`/`requestAnimationFrame`/`FlatList`. `Math.random()` is a parameter in [0, 1). The unused `placeholder` prop is not modelled.
- Category grouping: JavaScript lists integer-like keys such as "1" before all others in `Object.entries`. Category names inherited from `Object.prototype`, such as "toString", make `push` fail. The model treats every category as an ordinary key in insertion order.
- Dates: time of day, time zones, the `isToday` styling and the representable range of `Date` are not modelled. Month arguments are the 0..11 that `getMonth()` returns.
- The opacity animations of the plus button and text field. Only their completion callbacks are modelled, and an interrupted animation is treated as completing. The unused `isInputFocused` state and the `console.log` calls are not modelled.
- Style sheets, icon components and the wiring-only modals render but hold no logic; they are not part of this model.
