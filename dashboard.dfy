/** The AdminDashboard component: the state slots its handlers overwrite,
    and those handlers.  Each setter call becomes a field assignment. */
module Dashboard {
  import opened Theme
  import opened Tabs
  import opened Tasks
  import opened Events

  /** The cards the board starts with. */
  const SeedTasks: seq<Task> := [
    Task(1, "Task 1", Todo, "high"),
    Task(2, "Task 2", Progress, "medium"),
    Task(3, "Task 3", Done, "low")
  ]

  /** The events the calendar starts with. */
  const SeedEvents: seq<Event> := [
    Event(1, "Meeting", "2025-06-10", "10:00"),
    Event(2, "Project Review", "2025-06-12", "14:00")
  ]

  class AdminDashboard {
    var activeTab: string
    var theme: string
    var tasks: seq<Task>
    var events: seq<Event>
    /** The calendar's form inputs and whether its modal is open. */
    var newEvent: EventForm
    var showModal: bool

    /** The theme slot only ever holds "light" or "dark". */
    ghost predicate Valid()
      reads this
    {
      IsTheme(theme)
    }

    /** The slots the add-event handler works on, as one value. */
    function Calendar(): CalendarSlots
      reads this
    {
      CalendarSlots(events, newEvent, showModal)
    }

    /** The initial state: dashboard tab, light theme, the seed data, an empty
        form and a closed modal. */
    constructor ()
      ensures Valid()
      ensures activeTab == DashboardTab && theme == Light
      ensures tasks == SeedTasks && events == SeedEvents
      ensures newEvent == EmptyForm && !showModal
    {
      activeTab := DashboardTab;
      theme := Light;
      tasks := SeedTasks;
      events := SeedEvents;
      newEvent := EmptyForm;
      showModal := false;
    }

    /** toggleTheme: flip between light and dark. */
    method ToggleTheme()
      requires Valid()
      modifies this`theme
      ensures Valid()
      ensures theme == Toggled(old(theme)) && theme != old(theme)
    {
      theme := if theme == Light then Dark else Light;
    }

    /** A sidebar button: select a tab. */
    method SetActiveTab(tab: string)
      modifies this`activeTab
      ensures activeTab == tab
    {
      activeTab := tab;
    }

    /** renderContent: the one view shown for the current tab. */
    function Render(): (v: View)
      reads this
      ensures IsTab(activeTab) ==> TabOf(v) == activeTab
      ensures !IsTab(activeTab) ==> v == Tabs.Dashboard
    {
      RenderContent(activeTab)
    }

    /** moveTask: give every card with `taskId` the status `newStatus`. */
    method MoveTask(taskId: int, newStatus: string)
      modifies this`tasks
      ensures tasks == MoveTaskSeq(old(tasks), taskId, newStatus)
    {
      tasks := MoveTaskSeq(tasks, taskId, newStatus);
    }

    /** The ← button on a card shown in `column`; it is not rendered in the
        first column, so there pressing it does nothing. */
    method PressLeft(taskId: int, column: string) returns (offered: bool)
      requires column in Columns
      modifies this`tasks
      ensures offered <==> column != Todo
      ensures offered ==> tasks == MoveTaskSeq(old(tasks), taskId, LeftTarget(column).value)
      ensures !offered ==> tasks == old(tasks)
      ensures AllOnBoard(old(tasks)) ==> AllOnBoard(tasks)
    {
      offered := column != Todo;
      if offered {
        MoveTask(taskId, Columns[IndexOf(Columns, column) - 1]);
        MoveKeepsOnBoard(old(tasks), taskId, LeftTarget(column).value);
      }
    }

    /** The → button on a card shown in `column`; it is not rendered in the
        last column, so there pressing it does nothing. */
    method PressRight(taskId: int, column: string) returns (offered: bool)
      requires column in Columns
      modifies this`tasks
      ensures offered <==> column != Done
      ensures offered ==> tasks == MoveTaskSeq(old(tasks), taskId, RightTarget(column).value)
      ensures !offered ==> tasks == old(tasks)
      ensures AllOnBoard(old(tasks)) ==> AllOnBoard(tasks)
    {
      offered := column != Done;
      if offered {
        MoveTask(taskId, Columns[IndexOf(Columns, column) + 1]);
        MoveKeepsOnBoard(old(tasks), taskId, RightTarget(column).value);
      }
    }

    /** addEvent: append the form as a new event with the given clock value. */
    method AddEvent(form: EventForm, freshId: int)
      modifies this`events
      ensures events == Events.AddEvent(old(events), form, freshId)
    {
      events := events + [Event(freshId, form.title, form.date, form.time)];
    }

    /** The "Add Event" button: open the modal. */
    method OpenModal()
      modifies this`showModal
      ensures showModal
    {
      showModal := true;
    }

    /** Cancel, or a click on the overlay: close the modal. */
    method CloseModal()
      modifies this`showModal
      ensures !showModal
    {
      showModal := false;
    }

    /** Typing in the title input. */
    method SetTitle(value: string)
      modifies this`newEvent
      ensures newEvent == old(newEvent).(title := value)
    {
      newEvent := newEvent.(title := value);
    }

    /** Typing in the date input. */
    method SetDate(value: string)
      modifies this`newEvent
      ensures newEvent == old(newEvent).(date := value)
    {
      newEvent := newEvent.(date := value);
    }

    /** Typing in the time input. */
    method SetTime(value: string)
      modifies this`newEvent
      ensures newEvent == old(newEvent).(time := value)
    {
      newEvent := newEvent.(time := value);
    }

    /** handleAddEvent: when title, date and time are all non-empty, append
        the event, clear the form and close the modal, in that order;
        otherwise leave everything as it was. */
    method HandleAddEvent(freshId: int)
      modifies this`events, this`newEvent, this`showModal
      ensures Calendar() == Submitted(old(Calendar()), freshId)
      ensures Filled(old(newEvent)) <==> |events| == |old(events)| + 1
      ensures !Filled(old(newEvent)) ==>
                (events == old(events) && newEvent == old(newEvent) && showModal == old(showModal))
    {
      if newEvent.title != "" && newEvent.date != "" && newEvent.time != "" {
        AddEvent(newEvent, freshId);
        newEvent := EventForm("", "", "");
        showModal := false;
      }
    }
  }

  /** The seeded board under the two example moves: → on card 1 (in todo)
      and ← on card 3 (in done). */
  lemma SeedMoves()
    ensures MoveTaskSeq(SeedTasks, 1, RightTarget(Todo).value)
            == [Task(1, "Task 1", Progress, "high"), SeedTasks[1], SeedTasks[2]]
    ensures MoveTaskSeq(SeedTasks, 3, LeftTarget(Done).value)
            == [SeedTasks[0], SeedTasks[1], Task(3, "Task 3", Progress, "low")]
  {
    TargetsExplicit();
    var r1 := MoveTaskSeq(SeedTasks, 1, Progress);
    assert r1 == [r1[0], r1[1], r1[2]];
    var r3 := MoveTaskSeq(SeedTasks, 3, Progress);
    assert r3 == [r3[0], r3[1], r3[2]];
  }
}
