# Admin dashboard — a Dafny model of its state machine

The admin dashboard is a single React component, `AdminDashboard`, that holds all of
its state in local slots: the colour `theme`, the `activeTab` chosen in the sidebar,
the kanban `tasks`, the calendar `events`, and the calendar's add-event form
(`newEvent`) together with its `showModal` flag. Its handlers overwrite those slots.
This project models those handlers and the pure computations behind them, and proves
what they promise:

- `theme.dfy` (module `Theme`): the toggle between `"light"` and `"dark"`.
- `tabs.dfy` (module `Tabs`): the `renderContent` switch from `activeTab` to one of
  the four views.
- `tasks.dfy` (module `Tasks`): `moveTask` over the task list, the fixed
  `columns` list with its ← / → neighbours (via `indexOf`), and the per-column filter
  the board renders.
- `events.dfy` (module `Events`): the event built from the form, `addEvent`, and the
  guarded submission `handleAddEvent`.
- `chart.dfy` (module `Chart`): the integer horizontal layout of the weekly bar chart.
- `dashboard.dfy` (module `Dashboard`): class `AdminDashboard` with the six state slots
  as fields and one method per handler. Each method's `ensures` ties the new state to
  the pure functions above, and the lemmas about those functions carry the properties.

Theme, tab and task status stay strings, as in the component. This keeps the
"anything else" branches real: the toggle's else-branch, the switch's `default`, and
a card whose status is not a column. `Date.now()` becomes a `freshId` parameter.

The presence check tests only that each field is truthy, which for a string means
non-empty, so a title of `"  "` is accepted; the model follows the code (`Events.Filled`).

## Model

| member | source | states |
|---|---|---|
| `Theme.Toggled` | src/App.jsx:21-23 | the toggle always yields a valid theme; it yields dark exactly when the old theme is light, and it changes every valid theme |
| `Theme.ToggleTwice` | src/App.jsx:21-23 | toggling twice restores a light or dark theme |
| `Theme.ToggleFromInvalid` | src/App.jsx:22 | any other value goes to light, then to dark |
| `Tabs.TabOf` | src/App.jsx:679-702 | each view has a sidebar tab, and it is one of the four tab names |
| `Tabs.RenderContent` | src/App.jsx:247-255 | a named tab renders the view whose tab it is; any other value renders the dashboard |
| `Tabs.RenderTabOf` | src/App.jsx:247-254 | selecting a view's tab renders exactly that view, so every view is reachable |
| `Tabs.RenderInjectiveOnTabs` | src/App.jsx:248-252 | two different named tabs never render the same view |
| `Tabs.RenderDashboardIff` | src/App.jsx:249-253 | the dashboard renders exactly for its own tab and for every non-tab value |
| `Tasks.IndexOf` | src/App.jsx:227 | indexOf gives the first position holding the value, or -1 exactly when the value is absent |
| `Tasks.LeftTarget` | src/App.jsx:226-230 | the ← button is absent exactly in todo; where present it targets a column |
| `Tasks.RightTarget` | src/App.jsx:231-235 | the → button is absent exactly in done; where present it targets a column |
| `Tasks.TargetsExplicit` | src/App.jsx:210-235 | ← takes progress to todo and done to progress; → takes todo to progress and progress to done |
| `Tasks.RightThenLeft` | src/App.jsx:227-232 | from todo or progress, → then ← returns to the starting column |
| `Tasks.LeftThenRight` | src/App.jsx:227-232 | from progress or done, ← then → returns to the starting column |
| `Tasks.MoveTaskSeq` | src/App.jsx:25-29 | moveTask keeps length and order; a card with another id is unchanged; a card with the id gets the new status and keeps its id, title and priority |
| `Tasks.MoveNoChange` | src/App.jsx:26-28 | moving cards to the status they already have changes nothing |
| `Tasks.MoveMissingId` | src/App.jsx:26-28 | if no card has the id, the list is unchanged |
| `Tasks.LastMoveWins` | src/App.jsx:25-29 | two moves of the same id equal the second move alone |
| `Tasks.MovePreservesIds` | src/App.jsx:26-28 | the sequence of ids is the same after a move |
| `Tasks.MoveKeepsOnBoard` | src/App.jsx:226-235 | moving to a column keeps every card's status within the three columns |
| `Tasks.RightThenLeftRestores` | src/App.jsx:227-232 | pressing → then ← on a card in todo or progress gives back the original task list |
| `Tasks.LeftThenRightRestores` | src/App.jsx:227-232 | pressing ← then → on a card in progress or done gives back the original task list |
| `Tasks.ColumnTasks` | src/App.jsx:221 | a column lists exactly the cards whose status equals it, each as many times as it occurs in the task list |
| `Tasks.ShownInOwnColumn` | src/App.jsx:217-221 | a card appears under exactly the column equal to its status, and under none when its status is not a column |
| `Tasks.ColumnsPartition` | src/App.jsx:217-221 | the three column lengths add up to the number of cards whose status is a column |
| `Tasks.BoardShowsAll` | src/App.jsx:210-221 | when every status is a column, the board shows every card exactly once in total |
| `Events.FromForm` | src/App.jsx:32 | the new event carries the clock id and exactly the form's title, date and time |
| `Events.AddEvent` | src/App.jsx:31-33 | addEvent appends one event at the end and keeps the earlier events as a prefix |
| `Events.Submitted` | src/App.jsx:151-157 | a submission never removes or changes existing events and adds at most one |
| `Events.SubmitRefused` | src/App.jsx:151-152 | with any field empty, events, form and modal all stay as they were |
| `Events.SubmitAccepted` | src/App.jsx:152-156 | with all fields filled, exactly one event is appended with the form's fields and the fresh id; the form is cleared and the modal closes |
| `Events.SubmitGrowsIff` | src/App.jsx:152-153 | the event list grows if and only if all three fields are non-empty |
| `Events.SubmitTwice` | src/App.jsx:152-155 | submitting again right after a submission adds nothing more |
| `Chart.BarAt` | src/App.jsx:59-69 | a bar is 30 wide, both labels are centred on it, and it carries the day label and the value of its entry |
| `Chart.LayoutBars` | src/App.jsx:57-70 | the loop lays out one bar per entry in order, and no two bars overlap |
| `Chart.BarsApart` | src/App.jsx:59-63 | a later bar starts at least 10 px after an earlier bar ends |
| `Chart.FitsIff` | src/App.jsx:59-74 | all bars fit in the 300 px canvas exactly when the series has at most seven entries |
| `Chart.WeeklyChartFits` | src/App.jsx:53-74 | the seven weekly bars lie inside the canvas, each with its labels strictly inside the bar |
| `Dashboard.AdminDashboard.constructor` | src/App.jsx:4-14 | the component starts on the dashboard tab with the light theme and the seed tasks and events (lines 4-14), with an empty form and a closed modal (the calendar's initial state at lines 148-149) |
| `Dashboard.AdminDashboard.ToggleTheme` | src/App.jsx:21-23 | the theme becomes its toggle and stays light or dark |
| `Dashboard.AdminDashboard.SetActiveTab` | src/App.jsx:679-702 | a sidebar button stores its tab |
| `Dashboard.AdminDashboard.Render` | src/App.jsx:247-255 | the current tab renders its own view, or the dashboard when it is not a tab |
| `Dashboard.AdminDashboard.MoveTask` | src/App.jsx:25-29 | the task list becomes moveTask of the old list |
| `Dashboard.AdminDashboard.PressLeft` | src/App.jsx:226-230 | the ← button does nothing in todo; elsewhere it moves the card one column left; cards stay on the board |
| `Dashboard.AdminDashboard.PressRight` | src/App.jsx:231-235 | the → button does nothing in done; elsewhere it moves the card one column right; cards stay on the board |
| `Dashboard.AdminDashboard.AddEvent` | src/App.jsx:31-33 | the event list becomes addEvent of the old list |
| `Dashboard.AdminDashboard.OpenModal` | src/App.jsx:162 | the Add Event button opens the modal |
| `Dashboard.AdminDashboard.CloseModal` | src/App.jsx:198 | Cancel, or a click on the overlay at line 177, closes the modal |
| `Dashboard.AdminDashboard.SetTitle` | src/App.jsx:185 | typing in the title input changes only the form's title |
| `Dashboard.AdminDashboard.SetDate` | src/App.jsx:190 | typing in the date input changes only the form's date |
| `Dashboard.AdminDashboard.SetTime` | src/App.jsx:195 | typing in the time input changes only the form's time |
| `Dashboard.AdminDashboard.HandleAddEvent` | src/App.jsx:151-157 | the calendar slots become the guarded submission of the old slots; events grow exactly when the form was filled; otherwise nothing changes |
| `Dashboard.SeedMoves` | src/App.jsx:6-10 | on the seed board, → on card 1 puts it in progress, and ← on card 3 puts it in progress |

## Left out

- Bar heights, the series maximum and the y positions (src/App.jsx:55-60). They are floating-point arithmetic.
- The y coordinate of the value label (src/App.jsx:69). It depends on the floating-point height.
- Canvas calls (`getContext`, `clearRect`, `fillRect`, `fillText`, fill styles, font), and the theme-dependent label colour. These are browser APIs and presentation only.
- `useEffect` re-running the chart on theme change, and React's re-render and remount behaviour. `Calendar` and `Chart` are declared inside the component (src/App.jsx:45, 147), so `Calendar`'s local state (src/App.jsx:148-149) is thrown away whenever the component re-renders or another tab is shown, and the form is empty and the modal closed the next time the calendar is shown. The model keeps `newEvent` and `showModal` on the one class: `ToggleTheme`, `SetActiveTab`, `MoveTask` and `AddEvent` leave a half-typed form and an open modal as they were. This is framework behaviour.
- `Date.now()` as an id source. It is a clock reading, so it is the `freshId` parameter. Event ids are not claimed unique, because the code does not ensure it.
- The user table (src/App.jsx:112-145) and the `users` seed data. The table only renders static data; its search box and Add/Edit/Delete buttons have no handlers.
- `StatsCard`, the static dashboard cards and activity list, all JSX markup and the inline CSS (src/App.jsx:259-664). These are presentation only.
- src/main.jsx only mounts the component through ReactDOM; it has no logic.
- The ← and → handlers take the card's id and its column as parameters. The model does not check that a card with that id is shown in that column; the board only offers the buttons on cards rendered there.
