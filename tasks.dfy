/** Kanban tasks: the `tasks` list, `moveTask`, the fixed column list with
    its ← / → neighbours, and the per-column filter of the board. */
module Tasks {

  /** A task card.  Status and priority are the strings the component
      stores; a status outside the column list is representable. */
  datatype Task = Task(id: int, title: string, status: string, priority: string)

  const Todo: string := "todo"
  const Progress: string := "progress"
  const Done: string := "done"

  /** The board's columns, left to right. */
  const Columns: seq<string> := [Todo, Progress, Done]

  /** Array indexOf: the first position holding x, or -1 when there is none. */
  function IndexOf(s: seq<string>, x: string): (r: int)
    ensures -1 <= r < |s|
    ensures r == -1 <==> x !in s
    ensures 0 <= r ==> s[r] == x && x !in s[..r]
  {
    if s == [] then -1
    else if s[0] == x then 0
    else
      var k := IndexOf(s[1..], x);
      if k == -1 then -1
      else
        assert s[..k + 1] == [s[0]] + s[1..][..k];
        k + 1
  }

  /** The target of the ← button of a card in `column`: absent in the first
      column, otherwise the column before it. */
  function LeftTarget(column: string): (r: Option<string>)
    requires column in Columns
    ensures r.None? <==> column == Todo
    ensures r.Some? ==> r.value in Columns
  {
    if column == Todo then None else Some(Columns[IndexOf(Columns, column) - 1])
  }

  /** The target of the → button of a card in `column`: absent in the last
      column, otherwise the column after it. */
  function RightTarget(column: string): (r: Option<string>)
    requires column in Columns
    ensures r.None? <==> column == Done
    ensures r.Some? ==> r.value in Columns
  {
    if column == Done then None else Some(Columns[IndexOf(Columns, column) + 1])
  }

  datatype Option<T> = None | Some(value: T)

  /** The column each button leads to, spelled out: ← takes progress to todo
      and done to progress, → takes todo to progress and progress to done. */
  lemma TargetsExplicit()
    ensures LeftTarget(Progress) == Some(Todo) && LeftTarget(Done) == Some(Progress)
    ensures RightTarget(Todo) == Some(Progress) && RightTarget(Progress) == Some(Done)
  {
    assert IndexOf(Columns, Progress) == 1;
    assert IndexOf(Columns, Done) == 2;
    assert IndexOf(Columns, Todo) == 0;
  }

  /** → then ← restores a card that was not in the last column. */
  lemma RightThenLeft(column: string)
    requires column in Columns && column != Done
    ensures RightTarget(column).Some?
    ensures LeftTarget(RightTarget(column).value) == Some(column)
  {
    TargetsExplicit();
  }

  /** ← then → restores a card that was not in the first column. */
  lemma LeftThenRight(column: string)
    requires column in Columns && column != Todo
    ensures LeftTarget(column).Some?
    ensures RightTarget(LeftTarget(column).value) == Some(column)
  {
    TargetsExplicit();
  }

  /** The new card written for `task` by `moveTask`. */
  function Moved(task: Task, taskId: int, newStatus: string): Task {
    if task.id == taskId then task.(status := newStatus) else task
  }

  /** moveTask: every card whose id matches gets the new status; the list
      keeps its length and order and every other card stays as it was. */
  function MoveTaskSeq(tasks: seq<Task>, taskId: int, newStatus: string): (r: seq<Task>)
    ensures |r| == |tasks|
    ensures forall i :: 0 <= i < |tasks| && tasks[i].id != taskId ==> r[i] == tasks[i]
    ensures forall i :: 0 <= i < |tasks| && tasks[i].id == taskId ==>
              r[i] == Task(taskId, tasks[i].title, newStatus, tasks[i].priority)
  {
    if tasks == [] then []
    else [Moved(tasks[0], taskId, newStatus)] + MoveTaskSeq(tasks[1..], taskId, newStatus)
  }

  /** True when no card carries the id. */
  predicate NoCardWithId(tasks: seq<Task>, taskId: int) {
    forall i :: 0 <= i < |tasks| ==> tasks[i].id != taskId
  }

  /** True when every card carrying the id is already in `status`. */
  predicate AllWithIdIn(tasks: seq<Task>, taskId: int, status: string) {
    forall i :: 0 <= i < |tasks| && tasks[i].id == taskId ==> tasks[i].status == status
  }

  /** Moving a card that is already in the target column, or an id that no
      card carries, leaves the list unchanged. */
  lemma {:induction false} MoveNoChange(tasks: seq<Task>, taskId: int, newStatus: string)
    requires AllWithIdIn(tasks, taskId, newStatus)
    ensures MoveTaskSeq(tasks, taskId, newStatus) == tasks
  {
    if tasks != [] {
      MoveNoChange(tasks[1..], taskId, newStatus);
    }
  }

  /** An id no card carries moves nothing. */
  lemma MoveMissingId(tasks: seq<Task>, taskId: int, newStatus: string)
    requires NoCardWithId(tasks, taskId)
    ensures MoveTaskSeq(tasks, taskId, newStatus) == tasks
  {
    MoveNoChange(tasks, taskId, newStatus);
  }

  /** Two moves of the same id: the second one wins. */
  lemma {:induction false} LastMoveWins(tasks: seq<Task>, taskId: int, a: string, b: string)
    ensures MoveTaskSeq(MoveTaskSeq(tasks, taskId, a), taskId, b) == MoveTaskSeq(tasks, taskId, b)
  {
    if tasks != [] {
      LastMoveWins(tasks[1..], taskId, a, b);
    }
  }

  /** The ids of the cards, in order. */
  function Ids(tasks: seq<Task>): (r: seq<int>)
    ensures |r| == |tasks|
    ensures forall i :: 0 <= i < |tasks| ==> r[i] == tasks[i].id
  {
    if tasks == [] then [] else [tasks[0].id] + Ids(tasks[1..])
  }

  /** Moving never changes which ids sit where. */
  lemma MovePreservesIds(tasks: seq<Task>, taskId: int, newStatus: string)
    ensures Ids(MoveTaskSeq(tasks, taskId, newStatus)) == Ids(tasks)
  {
    var r := MoveTaskSeq(tasks, taskId, newStatus);
    assert forall i :: 0 <= i < |tasks| ==> Ids(r)[i] == Ids(tasks)[i];
  }

  /** True when every card sits in one of the board's columns. */
  predicate AllOnBoard(tasks: seq<Task>) {
    forall i :: 0 <= i < |tasks| ==> tasks[i].status in Columns
  }

  /** Moving to a column keeps every card on the board. */
  lemma MoveKeepsOnBoard(tasks: seq<Task>, taskId: int, newStatus: string)
    requires newStatus in Columns
    ensures AllOnBoard(tasks) ==> AllOnBoard(MoveTaskSeq(tasks, taskId, newStatus))
  {
  }

  /** → then ← on the card with `taskId` sitting in `column` gives back the
      original list, provided every card with that id is in that column. */
  lemma {:induction false} RightThenLeftRestores(tasks: seq<Task>, taskId: int, column: string)
    requires column in Columns && column != Done
    requires AllWithIdIn(tasks, taskId, column)
    ensures RightTarget(column).Some?
    ensures var there := MoveTaskSeq(tasks, taskId, RightTarget(column).value);
            MoveTaskSeq(there, taskId, LeftTarget(RightTarget(column).value).value) == tasks
  {
    RightThenLeft(column);
    LastMoveWins(tasks, taskId, RightTarget(column).value, column);
    MoveNoChange(tasks, taskId, column);
  }

  /** ← then → on the card with `taskId` sitting in `column` gives back the
      original list, provided every card with that id is in that column. */
  lemma {:induction false} LeftThenRightRestores(tasks: seq<Task>, taskId: int, column: string)
    requires column in Columns && column != Todo
    requires AllWithIdIn(tasks, taskId, column)
    ensures LeftTarget(column).Some?
    ensures var there := MoveTaskSeq(tasks, taskId, LeftTarget(column).value);
            MoveTaskSeq(there, taskId, RightTarget(LeftTarget(column).value).value) == tasks
  {
    LeftThenRight(column);
    LastMoveWins(tasks, taskId, LeftTarget(column).value, column);
    MoveNoChange(tasks, taskId, column);
  }

  /** The cards the board lists under `column`. */
  function ColumnTasks(tasks: seq<Task>, column: string): (r: seq<Task>)
    ensures |r| <= |tasks|
    ensures forall t :: t in r <==> t in tasks && t.status == column
    ensures forall t :: multiset(r)[t] == if t.status == column then multiset(tasks)[t] else 0
  {
    if tasks == [] then []
    else
      assert tasks == [tasks[0]] + tasks[1..];
      if tasks[0].status == column then [tasks[0]] + ColumnTasks(tasks[1..], column)
      else ColumnTasks(tasks[1..], column)
  }

  /** A card is listed under exactly the column equal to its status: one
      column when the status is a column, none otherwise. */
  lemma ShownInOwnColumn(tasks: seq<Task>, t: Task)
    requires t in tasks
    ensures forall c :: c in Columns ==> (t in ColumnTasks(tasks, c) <==> c == t.status)
    ensures t.status !in Columns ==> forall c :: c in Columns ==> t !in ColumnTasks(tasks, c)
  {
  }

  /** Number of cards whose status is a column of the board. */
  function OnBoardCount(tasks: seq<Task>): nat {
    if tasks == [] then 0
    else (if tasks[0].status in Columns then 1 else 0) + OnBoardCount(tasks[1..])
  }

  /** The three columns list every card with a column status exactly once:
      their lengths add up to the number of such cards. */
  lemma {:induction false} ColumnsPartition(tasks: seq<Task>)
    ensures |ColumnTasks(tasks, Todo)| + |ColumnTasks(tasks, Progress)| + |ColumnTasks(tasks, Done)|
            == OnBoardCount(tasks)
  {
    if tasks != [] {
      ColumnsPartition(tasks[1..]);
      ColumnLengthStep(tasks, Todo);
      ColumnLengthStep(tasks, Progress);
      ColumnLengthStep(tasks, Done);
    }
  }

  /** One card more in the list adds one card to its own column only. */
  lemma ColumnLengthStep(tasks: seq<Task>, column: string)
    requires tasks != []
    ensures |ColumnTasks(tasks, column)|
            == (if tasks[0].status == column then 1 else 0) + |ColumnTasks(tasks[1..], column)|
  {
  }

  /** When every card is on the board, the board shows all of them. */
  lemma BoardShowsAll(tasks: seq<Task>)
    requires AllOnBoard(tasks)
    ensures |ColumnTasks(tasks, Todo)| + |ColumnTasks(tasks, Progress)| + |ColumnTasks(tasks, Done)|
            == |tasks|
  {
    ColumnsPartition(tasks);
    AllOnBoardCount(tasks);
  }

  lemma {:induction false} AllOnBoardCount(tasks: seq<Task>)
    requires AllOnBoard(tasks)
    ensures OnBoardCount(tasks) == |tasks|
  {
    if tasks != [] {
      AllOnBoardCount(tasks[1..]);
    }
  }
}
