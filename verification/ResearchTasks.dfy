/** The internal research task queue: notes to look harder at a topic, at most one open per topic. */
module ResearchTasks {
  import opened Journal
  import opened Options
  import opened Rounding

  datatype Status = Pending | Running | Blocked | Done | Failed | Cancelled

  // The epistemic status a task run comes back with; a missing one is an error.
  datatype Outcome =
    | KnownResult | ProvisionalResult | ActionDone | UnknownResult | DisputedResult | ErrorResult | OtherResult

  // What is stored as a task's result.
  datatype Result = Returned(outcome: Outcome) | RepeatedFailure

  // `web` says whether "web" is among the allowed sources.
  datatype Task = Task(
    topic: string, priority: real, web: bool, needsPermission: bool, status: Status, result: Option<Result>)

  type Tasks = Book<Id, Task>

  datatype Queue = Queue(book: Tasks, log: seq<Saved<Id, Task>>)

  predicate IsOpen(s: Status) {
    s.Pending? || s.Running? || s.Blocked?
  }

  // Every change of a task is appended to the log at once.
  function Filed(q: Queue, id: Id, t: Task): Queue {
    Queue(Put(q.book, id, t), q.log + [Saved(id, t)])
  }

  // The first open task of a topic.
  function FindOpen(records: map<Id, Task>, ids: seq<Id>, topic: string): Option<Id> {
    if ids == [] then None
    else if ids[0] in records && records[ids[0]].topic == topic && IsOpen(records[ids[0]].status) then Some(ids[0])
    else FindOpen(records, ids[1..], topic)
  }

  function ByTopic(q: Queue, topic: string): Option<Id> {
    FindOpen(q.book.records, q.book.order, topic)
  }

  function NewTask(topic: string, priority: real, web: bool, blocked: bool): Task {
    Task(topic, priority, web, blocked, if blocked then Blocked else Pending, None)
  }

  // Creation is idempotent by topic: an open task of the topic is bumped instead.
  function Created(q: Queue, topic: string, priority: real, web: bool, autonomousWeb: bool, triggered: bool): Queue {
    var existing := ByTopic(q, topic);
    if existing.Some? && existing.value in q.book.records then
      var t := q.book.records[existing.value];
      if triggered then Filed(q, existing.value, t.(priority := Round3(t.priority + 0.5))) else q
    else
      var blocked := web && !autonomousWeb;
      Filed(q, NextId(q.book.order), NewTask(topic, priority, web, blocked))
  }

  // A task moved to a status, and to a result if one is given.
  function Moved(t: Task, s: Status, result: Option<Result>): Task {
    t.(status := s, result := if result.Some? then result else t.result)
  }

  function WithStatus(q: Queue, id: Id, s: Status, result: Option<Result>): Queue {
    if id in q.book.records then Filed(q, id, Moved(q.book.records[id], s, result)) else q
  }

  // Operator actions.
  function WebApproved(q: Queue, id: Id): Queue {
    if id in q.book.records then Filed(q, id, q.book.records[id].(needsPermission := false, status := Pending)) else q
  }

  function OpenIds(records: map<Id, Task>, ids: seq<Id>): seq<Id> {
    if ids == [] then []
    else
      var n := |ids| - 1;
      OpenIds(records, ids[..n]) + (if ids[n] in records && IsOpen(records[ids[n]].status) then [ids[n]] else [])
  }

  // ---------------------------------------------------------------- what the queue keeps

  predicate OpenIn(b: Tasks, id: Id) {
    id in b.records && b.records[id].status in {Pending, Running, Blocked}
  }

  ghost predicate HasOpen(b: Tasks, topic: string) {
    exists id :: OpenIn(b, id) && b.records[id].topic == topic
  }

  ghost predicate OneOpenPerTopic(b: Tasks) {
    forall i, j :: OpenIn(b, i) && OpenIn(b, j) && i != j ==> b.records[i].topic != b.records[j].topic
  }

  ghost predicate QueueOk(q: Queue) {
    Sound(q.book) && q.book == Replay(q.log) && OneOpenPerTopic(q.book)
  }

  lemma {:induction false} FindOpenFinds(records: map<Id, Task>, ids: seq<Id>, topic: string)
    ensures
      var hit := FindOpen(records, ids, topic);
      && (hit.Some? ==> hit.value in ids && hit.value in records &&
                        records[hit.value].topic == topic && IsOpen(records[hit.value].status))
      && (hit.None? ==> forall id :: id in ids && id in records && records[id].topic == topic ==>
                          !IsOpen(records[id].status))
  {
    if ids != [] {
      FindOpenFinds(records, ids[1..], topic);
      assert forall id :: id in ids ==> id == ids[0] || id in ids[1..];
    }
  }

  lemma FiledKeepsLog(q: Queue, id: Id, t: Task)
    requires Sound(q.book) && q.book == Replay(q.log)
    ensures Sound(Filed(q, id, t).book) && Filed(q, id, t).book == Replay(Filed(q, id, t).log)
  {
    PutKeepsSound(q.book, id, t);
    ReplayAppend(q.log, id, t);
  }

  // Adding an open task of a topic that has none.
  lemma OpeningKeepsOne(b: Tasks, id: Id, t: Task)
    requires OneOpenPerTopic(b) && id !in b.records
    requires forall i :: OpenIn(b, i) ==> b.records[i].topic != t.topic
    ensures OneOpenPerTopic(Put(b, id, t))
  {
    var b' := Put(b, id, t);
    forall i, j | OpenIn(b', i) && OpenIn(b', j) && i != j ensures b'.records[i].topic != b'.records[j].topic {
      assert i != id ==> OpenIn(b, i);
      assert j != id ==> OpenIn(b, j);
    }
  }

  // Changing a task without opening it or moving it to another topic.
  lemma ChangingKeepsOne(b: Tasks, id: Id, t: Task)
    requires OneOpenPerTopic(b) && id in b.records && t.topic == b.records[id].topic
    requires IsOpen(t.status) ==> IsOpen(b.records[id].status)
    ensures OneOpenPerTopic(Put(b, id, t))
  {
    var b' := Put(b, id, t);
    forall i, j | OpenIn(b', i) && OpenIn(b', j) && i != j ensures b'.records[i].topic != b'.records[j].topic {
      assert OpenIn(b, i) && OpenIn(b, j);
    }
  }

  lemma BumpKeepsOk(q: Queue, id: Id, t: Task)
    requires QueueOk(q) && OpenIn(q.book, id) && t.topic == q.book.records[id].topic && IsOpen(t.status)
    ensures QueueOk(Filed(q, id, t)) && OpenIn(Filed(q, id, t).book, id)
  {
    FiledKeepsLog(q, id, t);
    ChangingKeepsOne(q.book, id, t);
  }

  lemma OpeningKeepsOk(q: Queue, t: Task)
    requires QueueOk(q) && IsOpen(t.status)
    requires forall id :: id in q.book.order && id in q.book.records && q.book.records[id].topic == t.topic ==>
      !IsOpen(q.book.records[id].status)
    ensures
      var id := NextId(q.book.order);
      QueueOk(Filed(q, id, t)) && OpenIn(Filed(q, id, t).book, id)
  {
    var id := NextId(q.book.order);
    FiledKeepsLog(q, id, t);
    assert forall i :: OpenIn(q.book, i) ==> i in q.book.order;
    OpeningKeepsOne(q.book, id, t);
  }

  /** Creation keeps at most one open task per topic, and after it the topic has one; nothing is lost in a restart. */
  lemma CreatedKeepsOk(q: Queue, topic: string, priority: real, web: bool, autonomousWeb: bool, triggered: bool)
    requires QueueOk(q)
    ensures QueueOk(Created(q, topic, priority, web, autonomousWeb, triggered))
    ensures HasOpen(Created(q, topic, priority, web, autonomousWeb, triggered).book, topic)
  {
    var q' := Created(q, topic, priority, web, autonomousWeb, triggered);
    var existing := ByTopic(q, topic);
    FindOpenFinds(q.book.records, q.book.order, topic);
    if existing.Some? {
      var t := q.book.records[existing.value].(priority := Round3(q.book.records[existing.value].priority + 0.5));
      BumpKeepsOk(q, existing.value, t);
      assert q' == if triggered then Filed(q, existing.value, t) else q;
      assert OpenIn(q'.book, existing.value);
    } else {
      var blocked := web && !autonomousWeb;
      var t := NewTask(topic, priority, web, blocked);
      OpeningKeepsOk(q, t);
      assert q' == Filed(q, NextId(q.book.order), t);
      assert OpenIn(q'.book, NextId(q.book.order));
    }
  }

  // Moving a task to any status is safe if it was open, or ends up closed.
  lemma WithStatusKeepsOk(q: Queue, id: Id, s: Status, result: Option<Result>)
    requires QueueOk(q) && id in q.book.records
    requires IsOpen(q.book.records[id].status) || !IsOpen(s)
    ensures QueueOk(WithStatus(q, id, s, result))
  {
    FiledKeepsLog(q, id, Moved(q.book.records[id], s, result));
    ChangingKeepsOne(q.book, id, Moved(q.book.records[id], s, result));
  }

  // ---------------------------------------------------------------- what becomes of one task and of the others

  /** Filing a topic that has an open task raises the priority of that task by one half, if something triggered it,
  and adds none. */
  lemma OpenTaskIsBumped(q: Queue, topic: string, priority: real, web: bool, autonomousWeb: bool, triggered: bool,
                         id: Id)
    requires QueueOk(q) && OpenIn(q.book, id) && q.book.records[id].topic == topic
    ensures
      var t, b' := q.book.records[id], Created(q, topic, priority, web, autonomousWeb, triggered).book;
      b' == Book(q.book.order, q.book.records[
                   id := t.(priority := if triggered then Round3(t.priority + 0.5) else t.priority)])
  {
    FindOpenFinds(q.book.records, q.book.order, topic);
    assert id in q.book.order;
    var hit := ByTopic(q, topic).value;
    assert OpenIn(q.book, hit) && hit == id;
    assert q.book.records[id := q.book.records[id]] == q.book.records;
  }

  /** Filing any other topic adds one task, as filed: blocked and in need of permission exactly if it wants the web
  without leave. */
  lemma NewTaskIsFiled(q: Queue, topic: string, priority: real, web: bool, autonomousWeb: bool, triggered: bool)
    requires QueueOk(q) && !HasOpen(q.book, topic)
    ensures
      var newId := NextId(q.book.order);
      && newId !in q.book.records
      && Created(q, topic, priority, web, autonomousWeb, triggered).book ==
         Book(q.book.order + [newId], q.book.records[
                newId := if web && !autonomousWeb then Task(topic, priority, web, true, Blocked, None)
                         else Task(topic, priority, web, false, Pending, None)])
  {
    FindOpenFinds(q.book.records, q.book.order, topic);
    if ByTopic(q, topic).Some? {
      assert OpenIn(q.book, ByTopic(q, topic).value);
    }
  }

  /** Moving or approving a task changes that task alone, in its status and what it was moved or approved for;
  moving keeps the result if none is given, and approving keeps it always. */
  lemma MovesExactly(q: Queue, id: Id, s: Status, result: Option<Result>, other: Id)
    requires other in q.book.records
    ensures
      var t, b', a' := q.book.records[other], WithStatus(q, id, s, result).book, WebApproved(q, id).book;
      && (id in q.book.records ==> b'.order == q.book.order && a'.order == q.book.order)
      && other in b'.records && other in a'.records
      && (other != id ==> b'.records[other] == t && a'.records[other] == t)
      && (other == id ==>
            b'.records[id] == t.(status := s, result := if result.None? then t.result else result) &&
            a'.records[id] == t.(status := Pending, needsPermission := false))
  {
  }

  // ---------------------------------------------------------------- the object

  class ResearchTaskQueue {
    var order: seq<Id>
    var tasks: map<Id, Task>
    var log: seq<Saved<Id, Task>>

    ghost function Contents(): Queue
      reads this
    {
      Queue(Book(order, tasks), log)
    }

    // Replays the log, last record of each id winning.
    constructor (lines: seq<Saved<Id, Task>>)
      ensures Contents() == Queue(Replay(lines), lines)
    {
      log := lines;
      order, tasks := [], map[];
      new;
      var i := 0;
      while i < |lines|
        invariant 0 <= i <= |lines| && log == lines
        invariant Book(order, tasks) == Replay(lines[..i])
      {
        assert lines[..i + 1][..i] == lines[..i];
        if lines[i].id !in tasks {
          order := order + [lines[i].id];
        }
        tasks := tasks[lines[i].id := lines[i].record];
        i := i + 1;
      }
      assert lines[..i] == lines;
    }

    method Append(id: Id, t: Task)
      modifies this
      ensures Contents() == Filed(old(Contents()), id, t)
    {
      log := log + [Saved(id, t)];
      if id !in tasks {
        order := order + [id];
      }
      tasks := tasks[id := t];
    }

    method FindByTopic(topic: string) returns (id: Option<Id>)
      ensures id == ByTopic(Contents(), topic)
      ensures id.Some? ==> id.value in tasks
    {
      FindOpenFinds(tasks, order, topic);
      var i := 0;
      while i < |order|
        invariant 0 <= i <= |order|
        invariant FindOpen(tasks, order, topic) == FindOpen(tasks, order[i..], topic)
      {
        if order[i] in tasks && tasks[order[i]].topic == topic && IsOpen(tasks[order[i]].status) {
          return Some(order[i]);
        }
        assert order[i..][1..] == order[i + 1..];
        i := i + 1;
      }
      return None;
    }

    // A secret never becomes a task.
    method Create(topic: string, priority: real, web: bool, autonomousWeb: bool, triggered: bool, secret: bool)
      returns (id: Option<Id>)
      modifies this
      ensures Contents() ==
        if secret then old(Contents()) else Created(old(Contents()), topic, priority, web, autonomousWeb, triggered)
      ensures id.None? <==> secret
      ensures id.Some? ==> id.value in tasks && tasks[id.value].topic == topic && IsOpen(tasks[id.value].status)
    {
      if secret {
        return None;
      }
      FindOpenFinds(tasks, order, topic);
      var existing := FindByTopic(topic);
      if existing.Some? {
        if triggered {
          var t := tasks[existing.value];
          Append(existing.value, t.(priority := Round3(t.priority + 0.5)));
        }
        return existing;
      }
      var newId := NextId(order);
      var needsPermission := web && !autonomousWeb;
      var status := if needsPermission then Blocked else Pending;
      Append(newId, Task(topic, priority, web, needsPermission, status, None));
      id := Some(newId);
    }

    method SetStatus(id: Id, s: Status, result: Option<Result>)
      modifies this
      ensures Contents() == WithStatus(old(Contents()), id, s, result)
    {
      if id in tasks {
        var t := tasks[id].(status := s);
        if result.Some? {
          t := t.(result := result);
        }
        Append(id, t);
      }
    }

    method ApproveWeb(id: Id)
      modifies this
      ensures Contents() == WebApproved(old(Contents()), id)
    {
      if id in tasks {
        var t := tasks[id];
        t := t.(needsPermission := false);
        t := t.(status := Pending);
        Append(id, t);
      }
    }

    method Cancel(id: Id)
      modifies this
      ensures Contents() == WithStatus(old(Contents()), id, Cancelled, None)
    {
      SetStatus(id, Cancelled, None);
    }

    method Open() returns (ids: seq<Id>)
      ensures ids == OpenIds(tasks, order)
    {
      ids := [];
      var i := 0;
      while i < |order|
        invariant 0 <= i <= |order|
        invariant ids == OpenIds(tasks, order[..i])
      {
        assert order[..i + 1][..i] == order[..i];
        if order[i] in tasks && IsOpen(tasks[order[i]].status) {
          ids := ids + [order[i]];
        }
        i := i + 1;
      }
      assert order[..i] == order;
    }
  }
}
