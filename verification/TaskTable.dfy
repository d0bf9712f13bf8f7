/// The table of tracked sub-agent tasks (subagent.rs). Each method is the section its caller runs under the lock;
/// the positions it returns are the tasks whose notify the caller signals after releasing the lock.

module TaskTable {
  import opened Core

  datatype TaskStatus = Pending | Running | Completed(output: string) | Failed(error: string) | Cancelled {
    predicate IsTerminal() {
      Completed? || Failed? || Cancelled?
    }
  }

  datatype AgentMessage = AgentMessage(from: string, content: string)

  datatype TrackedTask = TrackedTask(id: string, status: TaskStatus, mailbox: seq<AgentMessage>, hasHandle: bool)

  /// The position of the first task with this id.
  function Find(tasks: seq<TrackedTask>, id: string): (at: Option<nat>)
    ensures at.Some? ==> at.value < |tasks| && tasks[at.value].id == id
    ensures at.Some? ==> forall i | 0 <= i < at.value :: tasks[i].id != id
    ensures at.None? ==> forall i | 0 <= i < |tasks| :: tasks[i].id != id
  {
    if tasks == [] then None
    else
      var earlier := Find(tasks[..|tasks| - 1], id);
      if earlier.Some? then earlier
      else if tasks[|tasks| - 1].id == id then Some(|tasks| - 1)
      else None
  }

  function Active(tasks: seq<TrackedTask>): seq<TrackedTask> {
    if tasks == [] then []
    else if tasks[|tasks| - 1].status.IsTerminal() then Active(tasks[..|tasks| - 1])
    else Active(tasks[..|tasks| - 1]) + [tasks[|tasks| - 1]]
  }

  /// An unfinished task is aborted and cancelled, a finished one stays as it is.
  function Stopped(t: TrackedTask): TrackedTask {
    if t.status.IsTerminal() then t else t.(status := Cancelled, hasHandle := false)
  }

  function Registered(tasks: seq<TrackedTask>, id: string): seq<TrackedTask> {
    tasks + [TrackedTask(id, Pending, [], false)]
  }

  function Finished(tasks: seq<TrackedTask>, id: string, status: TaskStatus): seq<TrackedTask> {
    var at := Find(tasks, id);
    if at.Some? then tasks[at.value := tasks[at.value].(status := status)] else tasks
  }

  function StoppedOne(tasks: seq<TrackedTask>, id: string): seq<TrackedTask> {
    var at := Find(tasks, id);
    if at.Some? then tasks[at.value := Stopped(tasks[at.value])] else tasks
  }

  function AllStopped(tasks: seq<TrackedTask>): (after: seq<TrackedTask>)
    ensures |after| == |tasks| && forall i | 0 <= i < |tasks| :: after[i] == Stopped(tasks[i])
  {
    seq(|tasks|, i requires 0 <= i < |tasks| => Stopped(tasks[i]))
  }

  function Received(t: TrackedTask, message: AgentMessage): TrackedTask {
    if t.status.IsTerminal() then t else t.(mailbox := t.mailbox + [message])
  }

  function Sent(tasks: seq<TrackedTask>, id: string, message: AgentMessage): seq<TrackedTask> {
    var at := Find(tasks, id);
    if at.Some? then tasks[at.value := Received(tasks[at.value], message)] else tasks
  }

  function Broadcasted(tasks: seq<TrackedTask>, message: AgentMessage): (after: seq<TrackedTask>)
    ensures |after| == |tasks| && forall i | 0 <= i < |tasks| :: after[i] == Received(tasks[i], message)
  {
    seq(|tasks|, i requires 0 <= i < |tasks| => Received(tasks[i], message))
  }

  function Drained(tasks: seq<TrackedTask>, id: string): seq<TrackedTask> {
    var at := Find(tasks, id);
    if at.Some? then tasks[at.value := tasks[at.value].(mailbox := [])] else tasks
  }

  class SubAgentManager {
    var tasks: seq<TrackedTask>

    constructor ()
      ensures tasks == []
    {
      tasks := [];
    }

    /// spawn: a new task, pending.
    method Spawn(id: string)
      modifies this
      ensures tasks == Registered(old(tasks), id)
    {
      tasks := tasks + [TrackedTask(id, Pending, [], false)];
    }

    /// complete and fail: the status is overwritten whatever it was.
    method Finish(id: string, status: TaskStatus) returns (notify: Option<nat>)
      modifies this
      ensures notify == Find(old(tasks), id) && tasks == Finished(old(tasks), id, status)
    {
      notify := Find(tasks, id);
      if notify.Some? {
        tasks := tasks[notify.value := tasks[notify.value].(status := status)];
      }
    }

    method Cancel(id: string) returns (notify: Option<nat>)
      modifies this
      ensures
        var at := Find(old(tasks), id);
        notify == if at.Some? && !old(tasks)[at.value].status.IsTerminal() then at else None
      ensures tasks == StoppedOne(old(tasks), id)
    {
      notify := Find(tasks, id);
      if notify.Some? {
        if tasks[notify.value].status.IsTerminal() {
          assert tasks[notify.value := tasks[notify.value]] == tasks;
          return None;
        }
        tasks := tasks[notify.value := tasks[notify.value].(status := Cancelled, hasHandle := false)];
      }
    }

    /// Cancels exactly the tasks that have not ended and notifies each of them once.
    method TerminateAll() returns (notifies: seq<nat>)
      modifies this
      ensures tasks == AllStopped(old(tasks)) && Active(tasks) == []
      ensures forall i: nat :: i in notifies <==> i < |tasks| && !old(tasks)[i].status.IsTerminal()
      ensures |notifies| == |Active(old(tasks))|
    {
      notifies := [];
      ghost var before := tasks;
      for i := 0 to |tasks|
        invariant |tasks| == |before|
        invariant forall j | 0 <= j < i :: tasks[j] == Stopped(before[j])
        invariant forall j | i <= j < |tasks| :: tasks[j] == before[j]
        invariant forall j: nat :: j in notifies <==> j < i && !before[j].status.IsTerminal()
        invariant |notifies| == |Active(before[..i])|
      {
        assert before[..i + 1][..i] == before[..i];
        if !tasks[i].status.IsTerminal() {
          tasks := tasks[i := Stopped(tasks[i])];
          notifies := notifies + [i];
        }
      }
      assert before[..|before|] == before;
      NoneActive(tasks);
    }

    /// Removes exactly the ended tasks, keeping the order of the others.
    method CleanupCompleted() returns (removed: nat)
      modifies this
      ensures tasks == Active(old(tasks)) && removed == |old(tasks)| - |tasks|
    {
      ActiveIsShorter(tasks);
      removed := |tasks| - |Active(tasks)|;
      tasks := Active(tasks);
    }

    /// Delivery is refused exactly when the id is unknown or the task has ended.
    method SendMessage(id: string, message: AgentMessage) returns (accepted: bool)
      modifies this
      ensures
        var at := Find(old(tasks), id);
        accepted <==> at.Some? && !old(tasks)[at.value].status.IsTerminal()
      ensures tasks == Sent(old(tasks), id, message)
    {
      var at := Find(tasks, id);
      if at.None? {
        return false;
      }
      if tasks[at.value].status.IsTerminal() {
        assert tasks[at.value := tasks[at.value]] == tasks;
        return false;
      }
      tasks := tasks[at.value := tasks[at.value].(mailbox := tasks[at.value].mailbox + [message])];
      accepted := true;
    }

    /// Delivers to every task that has not ended.
    method BroadcastMessage(message: AgentMessage) returns (count: nat)
      modifies this
      ensures tasks == Broadcasted(old(tasks), message) && count == |Active(old(tasks))|
    {
      count := 0;
      ghost var before := tasks;
      for i := 0 to |tasks|
        invariant |tasks| == |before| && count == |Active(before[..i])|
        invariant forall j | 0 <= j < i :: tasks[j] == Received(before[j], message)
        invariant forall j | i <= j < |tasks| :: tasks[j] == before[j]
      {
        assert before[..i + 1][..i] == before[..i];
        if !tasks[i].status.IsTerminal() {
          tasks := tasks[i := tasks[i].(mailbox := tasks[i].mailbox + [message])];
          count := count + 1;
        }
      }
      assert before[..|before|] == before;
    }

    method DrainMessages(id: string) returns (messages: seq<AgentMessage>)
      modifies this
      ensures messages == MailboxOf(old(tasks), id) && tasks == Drained(old(tasks), id)
    {
      var at := Find(tasks, id);
      if at.None? {
        return [];
      }
      messages := tasks[at.value].mailbox;
      tasks := tasks[at.value := tasks[at.value].(mailbox := [])];
    }
  }

  lemma {:induction false} ActiveIsShorter(tasks: seq<TrackedTask>)
    ensures |Active(tasks)| <= |tasks|
  {
    if tasks != [] {
      ActiveIsShorter(tasks[..|tasks| - 1]);
    }
  }

  lemma {:induction false} NoneActive(tasks: seq<TrackedTask>)
    requires forall i | 0 <= i < |tasks| :: tasks[i].status.IsTerminal()
    ensures Active(tasks) == []
  {
    if tasks != [] {
      NoneActive(tasks[..|tasks| - 1]);
    }
  }

  // ----- What the table operations do to the status of one id -----

  ghost predicate UniqueIds(tasks: seq<TrackedTask>) {
    forall i, j | 0 <= i < j < |tasks| :: tasks[i].id != tasks[j].id
  }

  function TaskOf(tasks: seq<TrackedTask>, id: string): Option<TrackedTask> {
    var at := Find(tasks, id);
    if at.Some? then Some(tasks[at.value]) else None
  }

  function MailboxOf(tasks: seq<TrackedTask>, id: string): seq<AgentMessage> {
    var t := TaskOf(tasks, id);
    if t.Some? then t.value.mailbox else []
  }

  function StatusOf(tasks: seq<TrackedTask>, id: string): Option<TaskStatus> {
    var t := TaskOf(tasks, id);
    if t.Some? then Some(t.value.status) else None
  }

  lemma {:induction false} ActiveIsFromTasks(tasks: seq<TrackedTask>, id: string)
    requires forall i | 0 <= i < |tasks| :: tasks[i].id != id
    ensures forall i | 0 <= i < |Active(tasks)| :: Active(tasks)[i].id != id
  {
    if tasks != [] {
      ActiveIsFromTasks(tasks[..|tasks| - 1], id);
    }
  }

  lemma TaskOfLast(front: seq<TrackedTask>, last: TrackedTask, id: string)
    ensures TaskOf(front + [last], id) ==
      if TaskOf(front, id).Some? then TaskOf(front, id) else if last.id == id then Some(last) else None
  {
    assert (front + [last])[..|front|] == front;
  }

  lemma {:induction false} SameIdsSamePlace(a: seq<TrackedTask>, b: seq<TrackedTask>, id: string)
    requires |a| == |b| && forall i | 0 <= i < |a| :: a[i].id == b[i].id
    ensures Find(a, id) == Find(b, id)
  {
    if a != [] {
      SameIdsSamePlace(a[..|a| - 1], b[..|b| - 1], id);
    }
  }

  /// complete and fail overwrite the status of their id, ended or not, and touch no other.
  lemma FinishPerId(tasks: seq<TrackedTask>, id: string, status: TaskStatus, other: string)
    ensures StatusOf(Finished(tasks, id, status), other) ==
      if other == id && StatusOf(tasks, id).Some? then Some(status) else StatusOf(tasks, other)
  {
    SameIdsSamePlace(tasks, Finished(tasks, id, status), other);
  }

  /// cancel ends its own task only, and only if it has not ended.
  lemma CancelPerId(tasks: seq<TrackedTask>, id: string, other: string)
    ensures
      var before := StatusOf(tasks, other);
      StatusOf(StoppedOne(tasks, id), other) ==
        if other == id && before.Some? && !before.value.IsTerminal() then Some(Cancelled) else before
  {
    SameIdsSamePlace(tasks, StoppedOne(tasks, id), other);
  }

  /// terminate_all leaves no task active and changes no status that had ended.
  lemma TerminateAllPerId(tasks: seq<TrackedTask>, id: string)
    ensures
      var before := StatusOf(tasks, id);
      StatusOf(AllStopped(tasks), id) == if before.Some? && !before.value.IsTerminal() then Some(Cancelled) else before
  {
    SameIdsSamePlace(tasks, AllStopped(tasks), id);
  }

  lemma {:induction false} CleanupKeepsTask(tasks: seq<TrackedTask>, id: string)
    requires UniqueIds(tasks)
    ensures
      var before := TaskOf(tasks, id);
      TaskOf(Active(tasks), id) == if before.Some? && before.value.status.IsTerminal() then None else before
  {
    if tasks != [] {
      hide TaskOf, Active, UniqueIds;
      var front, last := tasks[..|tasks| - 1], tasks[|tasks| - 1];
      LastTask(tasks);
      TaskOfLast(front, last, id);
      TaskOfLast(Active(front), last, id);
      CleanupKeepsTask(front, id);
      if last.id == id {
        NoOther(front, last);
      }
    }
  }

  lemma LastTask(tasks: seq<TrackedTask>)
    requires tasks != []
    ensures
      var front, last := tasks[..|tasks| - 1], tasks[|tasks| - 1];
      && tasks == front + [last]
      && Active(tasks) == (if last.status.IsTerminal() then Active(front) else Active(front) + [last])
      && (UniqueIds(tasks) ==> UniqueIds(front))
  {
  }

  lemma NoOther(front: seq<TrackedTask>, last: TrackedTask)
    requires UniqueIds(front + [last])
    ensures TaskOf(front, last.id).None? && TaskOf(Active(front), last.id).None?
  {
    forall i | 0 <= i < |front| ensures front[i].id != last.id {
      assert (front + [last])[i].id != (front + [last])[|front|].id;
    }
    ActiveIsFromTasks(front, last.id);
  }

  /// Cleaning up forgets an id exactly when its task has ended and leaves every other status as it was.
  lemma CleanupPerId(tasks: seq<TrackedTask>, id: string)
    requires UniqueIds(tasks)
    ensures
      var before := StatusOf(tasks, id);
      StatusOf(Active(tasks), id) == if before.Some? && before.value.IsTerminal() then None else before
  {
    CleanupKeepsTask(tasks, id);
  }

  // ----- Mailboxes over whole runs -----

  datatype Op =
    | Register(id: string)
    | Send(id: string, message: AgentMessage)
    | Broadcast(message: AgentMessage)
    | Drain(id: string)
    | Conclude(id: string, status: TaskStatus)
    | Halt(id: string)
    | HaltAll
    | CleanUp

  function Apply(tasks: seq<TrackedTask>, op: Op): seq<TrackedTask> {
    match op
    case Register(id) => Registered(tasks, id)
    case Send(id, message) => Sent(tasks, id, message)
    case Broadcast(message) => Broadcasted(tasks, message)
    case Drain(id) => Drained(tasks, id)
    case Conclude(id, status) => Finished(tasks, id, status)
    case Halt(id) => StoppedOne(tasks, id)
    case HaltAll => AllStopped(tasks)
    case CleanUp => Active(tasks)
  }

  function After(tasks: seq<TrackedTask>, ops: seq<Op>): seq<TrackedTask> {
    if ops == [] then tasks else Apply(After(tasks, ops[..|ops| - 1]), ops[|ops| - 1])
  }

  /// Each task is registered under an id that no other task in the table has, as a new UUID is.
  ghost predicate FreshIds(tasks: seq<TrackedTask>, ops: seq<Op>) {
    forall k: nat | k < |ops| && ops[k].Register? :: Find(After(tasks, ops[..k]), ops[k].id).None?
  }

  ghost predicate Takes(tasks: seq<TrackedTask>, id: string) {
    StatusOf(tasks, id).Some? && !StatusOf(tasks, id).value.IsTerminal()
  }

  /// What one operation does to the messages waiting for id.
  ghost function Delivery(waiting: seq<AgentMessage>, tasks: seq<TrackedTask>, op: Op, id: string): seq<AgentMessage> {
    if op == Drain(id) || (op == CleanUp && !Takes(tasks, id)) then []
    else if (op.Broadcast? || (op.Send? && op.id == id)) && Takes(tasks, id) then waiting + [op.message]
    else waiting
  }

  /// The messages for id since the last drain of its mailbox: those sent or broadcast while its task had not ended; a
  /// clean-up forgets those of an ended task.
  ghost function Delivered(tasks: seq<TrackedTask>, ops: seq<Op>, id: string): seq<AgentMessage> {
    if ops == [] then MailboxOf(tasks, id)
    else
      var front := ops[..|ops| - 1];
      Delivery(Delivered(tasks, front, id), After(tasks, front), ops[|ops| - 1], id)
  }

  /// All other operations change tasks in place.
  lemma SameIds(tasks: seq<TrackedTask>, op: Op)
    requires !op.Register? && !op.CleanUp?
    ensures |Apply(tasks, op)| == |tasks| && forall i | 0 <= i < |tasks| :: Apply(tasks, op)[i].id == tasks[i].id
  {
  }

  lemma InPlaceDelivery(tasks: seq<TrackedTask>, op: Op, id: string)
    requires !op.Register? && !op.CleanUp?
    ensures MailboxOf(Apply(tasks, op), id) == Delivery(MailboxOf(tasks, id), tasks, op, id)
  {
    SameIds(tasks, op);
    SameIdsSamePlace(tasks, Apply(tasks, op), id);
    hide UniqueIds, Active;
  }

  lemma OneDelivery(tasks: seq<TrackedTask>, op: Op, id: string)
    requires UniqueIds(tasks) && (op.Register? ==> Find(tasks, op.id).None?)
    ensures MailboxOf(Apply(tasks, op), id) == Delivery(MailboxOf(tasks, id), tasks, op, id)
    ensures UniqueIds(Apply(tasks, op))
  {
    hide MailboxOf, Delivery, Apply, Find, UniqueIds;
    if op.CleanUp? {
      CleanUpDelivery(tasks, id);
    } else if op.Register? {
      RegisterDelivery(tasks, op.id, id);
    } else {
      InPlaceDelivery(tasks, op, id);
      InPlaceUnique(tasks, op);
    }
  }

  lemma CleanUpDelivery(tasks: seq<TrackedTask>, id: string)
    requires UniqueIds(tasks)
    ensures MailboxOf(Apply(tasks, CleanUp), id) == Delivery(MailboxOf(tasks, id), tasks, CleanUp, id)
    ensures UniqueIds(Apply(tasks, CleanUp))
  {
    CleanupKeepsTask(tasks, id);
    ActiveKeepsUnique(tasks);
    hide TaskOf, Active, UniqueIds;
  }

  lemma RegisterDelivery(tasks: seq<TrackedTask>, newId: string, id: string)
    requires UniqueIds(tasks) && Find(tasks, newId).None?
    ensures MailboxOf(Apply(tasks, Register(newId)), id) == Delivery(MailboxOf(tasks, id), tasks, Register(newId), id)
    ensures UniqueIds(Apply(tasks, Register(newId)))
  {
    TaskOfLast(tasks, TrackedTask(newId, Pending, [], false), id);
    hide TaskOf;
  }

  lemma InPlaceUnique(tasks: seq<TrackedTask>, op: Op)
    requires UniqueIds(tasks) && !op.Register? && !op.CleanUp?
    ensures UniqueIds(Apply(tasks, op))
  {
    SameIds(tasks, op);
    hide Apply;
  }

  lemma {:induction false} ActiveKeepsUnique(tasks: seq<TrackedTask>)
    requires UniqueIds(tasks)
    ensures UniqueIds(Active(tasks))
  {
    if tasks != [] {
      var front, last := tasks[..|tasks| - 1], tasks[|tasks| - 1];
      assert tasks == front + [last];
      ActiveKeepsUnique(front);
      forall i | 0 <= i < |front| ensures front[i].id != last.id {
        assert tasks[i].id != tasks[|front|].id;
      }
      ActiveIsFromTasks(front, last.id);
    }
  }

  /// In every run of the table a mailbox holds exactly the messages delivered since it was last drained, in the order
  /// they came; so a drain returns each accepted message once, first in, first out.
  lemma {:induction false} MailboxIsFifo(tasks: seq<TrackedTask>, ops: seq<Op>, id: string)
    requires UniqueIds(tasks) && FreshIds(tasks, ops)
    ensures MailboxOf(After(tasks, ops), id) == Delivered(tasks, ops, id) && UniqueIds(After(tasks, ops))
  {
    if ops != [] {
      hide MailboxOf, UniqueIds, Apply, Delivery, Find;
      FreshFront(tasks, ops);
      MailboxIsFifo(tasks, ops[..|ops| - 1], id);
      OneDelivery(After(tasks, ops[..|ops| - 1]), ops[|ops| - 1], id);
    }
  }

  lemma FreshFront(tasks: seq<TrackedTask>, ops: seq<Op>)
    requires FreshIds(tasks, ops) && ops != []
    ensures
      var front, last := ops[..|ops| - 1], ops[|ops| - 1];
      FreshIds(tasks, front) && (last.Register? ==> Find(After(tasks, front), last.id).None?)
  {
    hide After, Find;
    var front := ops[..|ops| - 1];
    forall k: nat | k < |front| && front[k].Register? ensures Find(After(tasks, front[..k]), front[k].id).None? {
      assert front[..k] == ops[..k] && front[k] == ops[k];
    }
  }
}
