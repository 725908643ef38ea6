/** What the life loop keeps over every run, the operator acting on topics and tasks at any time. */
module LifeLoopOperator {
  import opened Journal
  import opened Options
  import opened Pressure
  import opened ResearchTasks
  import opened Rounding
  import opened Sequences
  import opened LifeLoopSpec
  import opened LifeLoopTheorems

  // ---------------------------------------------------------------- pressures, counts and the queue

  lemma TopicPutShifts(s: Circulation, topic: string, t: Topic)
    requires TopicsOk(s.topics) && t.pressure >= 0 && t.fails == TopicOf(s.topics, topic).fails
    ensures Shifted(s, s.(topics := Put(s.topics, topic, t)))
  {
    PutKeepsTopics(s.topics, topic, t);
  }

  lemma RelievingShifts(s: Circulation, topic: string, amount: int)
    requires TopicsOk(s.topics)
    ensures Shifted(s, s.(topics := TopicRelieved(s.topics, topic, amount)))
  {
    FailsKeptReflexive(s.topics);
    if topic in s.topics.records {
      var t := s.topics.records[topic];
      TopicPutShifts(s, topic, t.(pressure := Floor0(t.pressure - amount)));
    }
  }

  lemma {:induction false} CancelledKeepsLog(q: Queue, ids: seq<Id>, topic: string)
    requires Sound(q.book) && q.book == Replay(q.log)
    ensures
      var q' := CancelledOn(q, ids, topic);
      Sound(q'.book) && q'.book == Replay(q'.log) && q'.book.order == q.book.order
  {
    if ids != [] {
      var n := |ids| - 1;
      CancelledKeepsLog(q, ids[..n], topic);
      CancelledAt(q, ids[..n], topic, ids[n]);
      StatusKeepsLog(CancelledOn(q, ids[..n], topic), ids[n], Cancelled, None);
    }
  }

  lemma ResolvingKeepsSane(s: Circulation, topic: string)
    requires Sane(s)
    ensures Sane(Resolved(s, topic))
  {
    var relieved := s.(topics := TopicRelieved(s.topics, topic, 999000));
    RelievingShifts(s, topic, 999000);
    ShiftKeepsSane(s, relieved);
    CancelledKeepsLog(s.queue, OpenIds(s.queue.book.records, s.queue.book.order), topic);
    QueueKeepsSane(relieved, Resolved(s, topic).queue);
  }

  lemma PerformKeepsSane(s: Circulation, l: Limits, act: Act)
    requires Sane(s)
    ensures Sane(Perform(s, l, act))
  {
    match act
    case Alone(op) =>
      DoKeepsSane(s, l, op);
    case Freeze(topic) =>
      TopicPutShifts(s, topic, TopicOf(s.topics, topic).(frozen := true));
      ShiftKeepsSane(s, Perform(s, l, act));
    case Relieve(topic, amount) =>
      RelievingShifts(s, topic, amount);
      ShiftKeepsSane(s, Perform(s, l, act));
    case Resolve(topic) => ResolvingKeepsSane(s, topic);
    case Move(id, status, result) =>
      StatusKeepsLog(s.queue, id, status, result);
      QueueKeepsSane(s, WithStatus(s.queue, id, status, result));
    case ApproveWeb(id) =>
      if id in s.queue.book.records {
        FiledKeepsLog(s.queue, id, s.queue.book.records[id].(needsPermission := false, status := Pending));
      }
      QueueKeepsSane(s, WebApproved(s.queue, id));
  }

  lemma {:induction false} AttendedIsSane(l: Limits, acts: seq<Act>)
    ensures Sane(Attended(l, acts))
  {
    if acts == [] {
      assert Replay<Id, Task>([]) == Empty();
    } else {
      AttendedIsSane(l, acts[..|acts| - 1]);
      PerformKeepsSane(Attended(l, acts[..|acts| - 1]), l, acts[|acts| - 1]);
    }
  }

  /** So is every state inside a tick of any run: after consolidation and decay, and after any number of tasks tried.
  The tasks a tick runs start from these. */
  lemma DrainsAreSane(l: Limits, acts: seq<Act>, w: Weather, tried: seq<Id>, budget: int)
    ensures Sane(DrainedFrom(BeforeDraining(Attended(l, acts), l, w), tried, budget, w.runner))
  {
    AttendedIsSane(l, acts);
    SaneIsInductive();
    TickKeeps(Sane, Attended(l, acts), l, w);
    DrainKeeps(Sane, BeforeDraining(Attended(l, acts), l, w), tried, budget, w.runner);
  }

  /** Pressures never go negative, whatever the loop and the operator do. */
  lemma PressuresStayNonNegative(l: Limits, acts: seq<Act>)
    ensures NonNegative(Attended(l, acts).topics)
  {
    AttendedIsSane(l, acts);
  }

  /** What is counted against a topic is exact: over any run it is the number of its executions that neither succeeded
  nor came back disputed, UNKNOWN ones included. */
  lemma FailsAreFruitlessRuns(l: Limits, acts: seq<Act>, topic: string)
    ensures TopicOf(Attended(l, acts).topics, topic).fails == FruitlessRuns(Attended(l, acts).results, topic)
  {
    AttendedIsSane(l, acts);
    assert CountExact(Attended(l, acts), topic);
  }

  /** A restart brings the task queue back exactly as it was. */
  lemma RestartKeepsQueue(l: Limits, acts: seq<Act>)
    ensures Attended(l, acts + [Alone(Restart)]).queue == Attended(l, acts).queue
  {
    assert (acts + [Alone(Restart)])[..|acts|] == acts;
    AttendedIsSane(l, acts);
  }

  // ---------------------------------------------------------------- how often a topic can fail

  predicate PendingIn(records: map<Id, Task>, id: Id, topic: string) {
    id in records && records[id].status.Pending? && records[id].topic == topic
  }

  function CountPending(records: map<Id, Task>, ids: seq<Id>, topic: string): nat {
    if ids == [] then 0
    else
      var n := |ids| - 1;
      CountPending(records, ids[..n], topic) + (if PendingIn(records, ids[n], topic) then 1 else 0)
  }

  function PendingOn(b: Tasks, topic: string): nat {
    CountPending(b.records, b.order, topic)
  }

  lemma {:induction false} FewerPending(records: map<Id, Task>, records': map<Id, Task>, ids: seq<Id>, topic: string)
    requires forall i :: 0 <= i < |ids| && PendingIn(records', ids[i], topic) ==> PendingIn(records, ids[i], topic)
    ensures CountPending(records', ids, topic) <= CountPending(records, ids, topic)
  {
    if ids != [] {
      FewerPending(records, records', ids[..|ids| - 1], topic);
    }
  }

  lemma {:induction false} OnePendingChanged(records: map<Id, Task>, ids: seq<Id>, id: Id, t: Task, topic: string)
    requires Distinct(ids)
    ensures id !in ids ==> CountPending(records[id := t], ids, topic) == CountPending(records, ids, topic)
    ensures id in ids ==>
      CountPending(records[id := t], ids, topic) + (if PendingIn(records, id, topic) then 1 else 0) ==
      CountPending(records, ids, topic) + (if t.status.Pending? && t.topic == topic then 1 else 0)
  {
    if ids != [] {
      OnePendingChanged(records, ids[..|ids| - 1], id, t, topic);
    }
  }

  lemma PutPending(b: Tasks, id: Id, t: Task, topic: string)
    requires Sound(b)
    ensures
      PendingOn(Put(b, id, t), topic) + (if PendingIn(b.records, id, topic) then 1 else 0) ==
      PendingOn(b, topic) + (if t.status.Pending? && t.topic == topic then 1 else 0)
  {
    OnePendingChanged(b.records, b.order, id, t, topic);
    if id !in b.records {
      assert Put(b, id, t).order[..|b.order|] == b.order;
    }
  }

  lemma {:induction false} PendingIsCounted(b: Tasks, ids: seq<Id>, id: Id, topic: string)
    requires id in ids && PendingIn(b.records, id, topic)
    ensures CountPending(b.records, ids, topic) >= 1
  {
    var n := |ids| - 1;
    if ids[n] != id {
      assert id in ids[..n];
      PendingIsCounted(b, ids[..n], id, topic);
    }
  }

  /** Errors so far and tasks waiting to err, against an allowance of 2 + n. */
  ghost predicate Within(s: Circulation, topic: string, n: nat) {
    && Sane(s)
    && Failures(s.results, topic) + PendingOn(s.queue.book, topic) <= 2 + n
    && (Failures(s.results, topic) <= 1 + n || HasOpen(s.queue.book, topic))
  }

  lemma OpenElsewhere(b: Tasks, id: Id, t: Task, topic: string)
    requires HasOpen(b, topic)
    requires id in b.records && b.records[id].topic == topic ==> IsOpen(t.status) && t.topic == topic
    ensures HasOpen(Put(b, id, t), topic)
  {
    var k :| OpenIn(b, k) && b.records[k].topic == topic;
    assert OpenIn(Put(b, id, t), k) && Put(b, id, t).records[k].topic == topic;
  }

  lemma ShiftKeepsWithin(s: Circulation, s': Circulation, topic: string, n: nat)
    requires Within(s, topic, n) && Shifted(s, s')
    ensures Within(s', topic, n)
  {
    ShiftKeepsSane(s, s');
  }

  lemma {:induction false} NonePending(b: Tasks, ids: seq<Id>, topic: string)
    requires !HasOpen(b, topic)
    ensures CountPending(b.records, ids, topic) == 0
  {
    if ids != [] {
      NonePending(b, ids[..|ids| - 1], topic);
      assert PendingIn(b.records, ids[|ids| - 1], topic) ==> OpenIn(b, ids[|ids| - 1]);
    }
  }

  // What filing does to the pending tasks of a topic: it adds one only where nothing was open.
  ghost predicate AddsOnlyFirst(b: Tasks, b': Tasks, topic: string) {
    if HasOpen(b, topic) then HasOpen(b', topic) && PendingOn(b', topic) <= PendingOn(b, topic)
    else PendingOn(b', topic) == 0 || (HasOpen(b', topic) && PendingOn(b', topic) == 1)
  }

  lemma BumpAdds(b: Tasks, id: Id, t: Task, topic: string)
    requires Sound(b) && OpenIn(b, id)
    requires t.topic == b.records[id].topic && t.status == b.records[id].status
    ensures AddsOnlyFirst(b, Put(b, id, t), topic)
  {
    PutPending(b, id, t, topic);
    if HasOpen(b, topic) {
      OpenElsewhere(b, id, t, topic);
    } else {
      NonePending(b, b.order, topic);
    }
  }

  lemma OpeningAdds(b: Tasks, id: Id, t: Task, topic: string)
    requires Sound(b) && id !in b.records && IsOpen(t.status) && !HasOpen(b, t.topic)
    ensures AddsOnlyFirst(b, Put(b, id, t), topic)
  {
    PutPending(b, id, t, topic);
    if HasOpen(b, topic) {
      OpenElsewhere(b, id, t, topic);
    } else {
      NonePending(b, b.order, topic);
      assert OpenIn(Put(b, id, t), id);
    }
  }

  lemma FilingAdds(q: Queue, about: string, priority: real, web: bool, auto: bool, topic: string)
    requires Sound(q.book)
    ensures AddsOnlyFirst(q.book, Created(q, about, priority, web, auto, true).book, topic)
  {
    var b := q.book;
    FindOpenFinds(b.records, b.order, about);
    var existing := ByTopic(q, about);
    if existing.Some? {
      var t := b.records[existing.value];
      BumpAdds(b, existing.value, t.(priority := Round3(t.priority + 0.5)), topic);
    } else {
      assert forall id :: OpenIn(b, id) ==> id in b.order;
      OpeningAdds(b, NextId(b.order), NewTask(about, priority, web, web && !auto), topic);
    }
  }

  lemma FilingKeepsWithin(
    s: Circulation, topic: string, n: nat, about: string, priority: real, web: bool, auto: bool)
    requires Within(s, topic, n)
    ensures Within(FiledIn(s, about, priority, web, auto), topic, n)
  {
    CreatedKeepsLog(s.queue, about, priority, web, auto, true);
    QueueKeepsSane(s, Created(s.queue, about, priority, web, auto, true));
    FilingAdds(s.queue, about, priority, web, auto, topic);
  }

  lemma TaskRunKeepsWithin(s: Circulation, topic: string, n: nat, id: Id, o: Outcome)
    requires Within(s, topic, n) && Runnable(s, id)
    ensures Within(TaskRun(s, id, o), topic, n)
  {
    var b, b' := s.queue.book, TaskRun(s, id, o).queue.book;
    var own := b.records[id].topic;
    TaskRunKeepsSane(s, id, o);
    TaskRunBook(s, id, o);
    TaskRunLeaves(s, id, o);
    PutPending(b, id, b'.records[id], topic);
    PendingIsCounted(b, b.order, id, own);
    RunsAppend(s.results, Execution(id, own, o), topic);
    FailuresAreFruitless(s.results, own);
    assert CountExact(s, own);
    if own != topic && HasOpen(b, topic) {
      OpenElsewhere(b, id, b'.records[id], topic);
    }
    assert b'.records[id].status.Blocked? ==> OpenIn(b', id);
  }

  // The same as a property of states.
  ghost function WithinFor(topic: string, n: nat): Circulation -> bool {
    s => Within(s, topic, n)
  }

  lemma WithinIsInductive(topic: string, n: nat)
    ensures Inductive(WithinFor(topic, n))
  {
    var I := WithinFor(topic, n);
    forall s, s' | I(s) && Shifted(s, s') ensures I(s') {
      ShiftKeepsWithin(s, s', topic, n);
    }
    forall s, about, priority, web, auto | I(s) ensures I(FiledIn(s, about, priority, web, auto)) {
      FilingKeepsWithin(s, topic, n, about, priority, web, auto);
    }
    forall s, id, o | I(s) && Runnable(s, id) ensures I(TaskRun(s, id, o)) {
      TaskRunKeepsWithin(s, topic, n, id, o);
    }
  }

  // One task changed by hand.
  lemma HandlingAllowsOne(s: Circulation, topic: string, n: nat, id: Id, t: Task, s': Circulation)
    requires Within(s, topic, n) && Sane(s') && s'.results == s.results
    requires id in s.queue.book.records && s'.queue.book == Put(s.queue.book, id, t)
    requires t.topic == s.queue.book.records[id].topic
    ensures Within(s', topic, if t.topic == topic then n + 1 else n)
  {
    PutPending(s.queue.book, id, t, topic);
    if t.topic != topic && HasOpen(s.queue.book, topic) {
      OpenElsewhere(s.queue.book, id, t, topic);
    }
  }

  lemma ResolvingPending(s: Circulation, about: string, topic: string)
    requires Sane(s)
    ensures PendingOn(Resolved(s, about).queue.book, topic) <= PendingOn(s.queue.book, topic)
  {
    var b, b' := s.queue.book, Resolved(s, about).queue.book;
    CancelledKeepsLog(s.queue, OpenIds(b.records, b.order), about);
    forall i | 0 <= i < |b.order| && PendingIn(b'.records, b.order[i], topic)
      ensures PendingIn(b.records, b.order[i], topic)
    {
      ResolvedClosesTopic(s, about, b.order[i]);
    }
    FewerPending(b.records, b'.records, b.order, topic);
  }

  lemma ResolvingElsewhere(s: Circulation, about: string, topic: string)
    requires Sane(s) && about != topic && HasOpen(s.queue.book, topic)
    ensures HasOpen(Resolved(s, about).queue.book, topic)
  {
    var b, b' := s.queue.book, Resolved(s, about).queue.book;
    var id :| OpenIn(b, id) && b.records[id].topic == topic;
    ResolvedClosesTopic(s, about, id);
    assert OpenIn(b', id);
  }

  lemma ResolvingAllowsOne(s: Circulation, about: string, topic: string, n: nat)
    requires Within(s, topic, n) && Sane(Resolved(s, about))
    ensures Within(Resolved(s, about), topic, if about == topic then n + 1 else n)
  {
    ResolvingPending(s, about, topic);
    if about != topic && HasOpen(s.queue.book, topic) {
      ResolvingElsewhere(s, about, topic);
    }
  }

  lemma PerformKeepsWithin(s: Circulation, l: Limits, act: Act, topic: string, n: nat)
    requires Within(s, topic, n)
    ensures Within(Perform(s, l, act), topic, if Handles(s, act, topic) then n + 1 else n)
  {
    var s', b := Perform(s, l, act), s.queue.book;
    PerformKeepsSane(s, l, act);
    match act
    case Alone(op) =>
      WithinIsInductive(topic, n);
      DoKeeps(WithinFor(topic, n), s, l, op);
    case Freeze(_) =>
    case Relieve(_, _) =>
    case Resolve(about) => ResolvingAllowsOne(s, about, topic, n);
    case Move(id, status, result) =>
      if id in b.records {
        HandlingAllowsOne(s, topic, n, id, Moved(b.records[id], status, result), s');
      }
    case ApproveWeb(id) =>
      if id in b.records {
        HandlingAllowsOne(s, topic, n, id, b.records[id].(needsPermission := false, status := Pending), s');
      }
  }

  lemma {:induction false} AttendedIsWithin(l: Limits, acts: seq<Act>, topic: string)
    ensures Within(Attended(l, acts), topic, Handlings(l, acts, topic))
  {
    if acts == [] {
      AttendedIsSane(l, acts);
    } else {
      var n := |acts| - 1;
      AttendedIsWithin(l, acts[..n], topic);
      PerformKeepsWithin(Attended(l, acts[..n]), l, acts[n], topic, Handlings(l, acts[..n], topic));
    }
  }

  /** Failure is bounded by attention: however long the loop runs, and whatever its task runs return, at most two
  executions on a topic end in error, and one more for each time the operator has handled a task of that topic. */
  lemma FailureIsBounded(l: Limits, acts: seq<Act>, topic: string)
    ensures Failures(Attended(l, acts).results, topic) <= 2 + Handlings(l, acts, topic)
  {
    AttendedIsWithin(l, acts, topic);
  }

  // A run the operator has no part in.
  function Unaided(ops: seq<Op>): seq<Act> {
    seq(|ops|, i requires 0 <= i < |ops| => Alone(ops[i]))
  }

  lemma AttendedOn(l: Limits, acts: seq<Act>, act: Act, topic: string)
    ensures Attended(l, acts + [act]) == Perform(Attended(l, acts), l, act)
    ensures Handlings(l, acts + [act], topic) ==
      Handlings(l, acts, topic) + (if Handles(Attended(l, acts), act, topic) then 1 else 0)
  {
    assert (acts + [act])[..|acts|] == acts;
  }

  lemma UnaidedOn(ops: seq<Op>)
    requires ops != []
    ensures Unaided(ops) == Unaided(ops[..|ops| - 1]) + [Alone(ops[|ops| - 1])]
  {
  }

  lemma {:induction false} UnaidedIsLive(l: Limits, ops: seq<Op>, topic: string)
    ensures Attended(l, Unaided(ops)) == Live(l, ops) && Handlings(l, Unaided(ops), topic) == 0
  {
    if ops != [] {
      var n := |ops| - 1;
      UnaidedIsLive(l, ops[..n], topic);
      UnaidedOn(ops);
      AttendedOn(l, Unaided(ops[..n]), Alone(ops[n]), topic);
    }
  }

  /** Autonomous failure is bounded: left to itself the loop errs at most twice on any one topic, and every topic has at
  most one open task. */
  lemma AutonomousFailureIsBounded(l: Limits, ops: seq<Op>, topic: string)
    ensures Failures(Live(l, ops).results, topic) <= 2
    ensures OneOpenPerTopic(Live(l, ops).queue.book)
  {
    UnaidedIsLive(l, ops, topic);
    FailureIsBounded(l, Unaided(ops), topic);
    LiveIsHealthy(l, ops);
  }

  // Approving a blocked task that asked for nothing lets it be run again.
  lemma ApprovalWakes(s: Circulation, topic: string)
    requires Stuck(s, topic)
    ensures OnlyOpen(WebApproved(s.queue, 1).book, topic, Pending)
  {
    var t := s.queue.book.records[1];
    StillOnlyOpen(s.queue.book, topic, t.(needsPermission := false, status := Pending));
  }

  // An approval and another error.
  function OnceMore(acts: seq<Act>): seq<Act> {
    acts + [ApproveWeb(1)] + [Alone(TickReturning(ErrorResult))]
  }

  lemma OneMoreError(s: Circulation, l: Limits, topic: string)
    requires TopicsOk(s.topics) && Stuck(s, topic) && topic != SECRET_TOPIC && !Mentions(topic, "secret")
    ensures
      var s' := Do(Perform(s, l, ApproveWeb(1)), l, TickReturning(ErrorResult));
      Stuck(s', topic) && Failures(s'.results, topic) == Failures(s.results, topic) + 1
  {
    ApprovalWakes(s, topic);
    ErrorBlocksNext(s.(queue := WebApproved(s.queue, 1)), l, topic);
    RunsAppend(s.results, Execution(1, topic, ErrorResult), topic);
  }

  lemma OnceMoreCounts(l: Limits, acts: seq<Act>, topic: string)
    requires Stuck(Attended(l, acts), topic)
    ensures Attended(l, OnceMore(acts)) ==
      Do(Perform(Attended(l, acts), l, ApproveWeb(1)), l, TickReturning(ErrorResult))
    ensures Handlings(l, OnceMore(acts), topic) == Handlings(l, acts, topic) + 1
  {
    AttendedOn(l, acts, ApproveWeb(1), topic);
    AttendedOn(l, acts + [ApproveWeb(1)], Alone(TickReturning(ErrorResult)), topic);
  }

  // Two errors, and n times an approval and another error.
  function Insisting(topic: string, n: nat): seq<Act> {
    if n == 0 then Unaided(TwoRuns(topic, ErrorResult)) else OnceMore(Insisting(topic, n - 1))
  }

  // n handlings and 2 + n errors.
  ghost predicate Reaches(l: Limits, acts: seq<Act>, topic: string, n: nat) {
    && Stuck(Attended(l, acts), topic) && Handlings(l, acts, topic) == n
    && Failures(Attended(l, acts).results, topic) == 2 + n
  }

  lemma OnceMoreReaches(l: Limits, acts: seq<Act>, topic: string, n: nat)
    requires Reaches(l, acts, topic, n) && topic != SECRET_TOPIC && !Mentions(topic, "secret")
    ensures Reaches(l, OnceMore(acts), topic, n + 1)
  {
    AttendedIsSane(l, acts);
    OnceMoreCounts(l, acts, topic);
    OneMoreError(Attended(l, acts), l, topic);
  }

  lemma TwoRunsReach(l: Limits, topic: string)
    requires topic != SECRET_TOPIC && !Mentions(topic, "secret")
    ensures Reaches(l, Unaided(TwoRuns(topic, ErrorResult)), topic, 0)
  {
    UnaidedIsLive(l, TwoRuns(topic, ErrorResult), topic);
    TwoRunsStick(l, topic, ErrorResult);
  }

  /** The bound is reached for every number of handlings, on every topic that is no secret. */
  lemma {:induction false} BoundIsReached(l: Limits, topic: string, n: nat)
    requires topic != SECRET_TOPIC && !Mentions(topic, "secret")
    ensures Reaches(l, Insisting(topic, n), topic, n)
  {
    if n == 0 {
      TwoRunsReach(l, topic);
    } else {
      BoundIsReached(l, topic, n - 1);
      OnceMoreReaches(l, Insisting(topic, n - 1), topic, n - 1);
    }
  }

  // ---------------------------------------------------------------- resolving a topic

  lemma {:induction false} CancelledAt(q: Queue, ids: seq<Id>, topic: string, id: Id)
    ensures
      var records := CancelledOn(q, ids, topic).book.records;
      id in records <==> id in q.book.records
    ensures
      var records := CancelledOn(q, ids, topic).book.records;
      var hit := id in ids && id in q.book.records && q.book.records[id].topic == topic;
      id in q.book.records ==>
        records[id] == if hit then q.book.records[id].(status := Cancelled) else q.book.records[id]
  {
    if ids != [] {
      CancelledAt(q, ids[..|ids| - 1], topic, id);
      CancelledAt(q, ids[..|ids| - 1], topic, ids[|ids| - 1]);
      assert id in ids <==> id in ids[..|ids| - 1] || id == ids[|ids| - 1];
    }
  }

  lemma {:induction false} OpenIdsFind(records: map<Id, Task>, ids: seq<Id>, id: Id)
    ensures id in OpenIds(records, ids) <==> id in ids && id in records && IsOpen(records[id].status)
  {
    if ids != [] {
      OpenIdsFind(records, ids[..|ids| - 1], id);
      assert id in ids <==> id in ids[..|ids| - 1] || id == ids[|ids| - 1];
    }
  }

  /** Resolving a topic closes every open task of it and touches no other task. */
  lemma ResolvedClosesTopic(s: Circulation, topic: string, id: Id)
    requires Sound(s.queue.book) && id in s.queue.book.records
    ensures
      var t, b' := s.queue.book.records[id], Resolved(s, topic).queue.book;
      id in b'.records && b'.records[id] ==
        if t.status in {Pending, Running, Blocked} && t.topic == topic then t.(status := Cancelled) else t
  {
    CancelledAt(s.queue, OpenIds(s.queue.book.records, s.queue.book.order), topic, id);
    OpenIdsFind(s.queue.book.records, s.queue.book.order, id);
  }

  /** And it takes 999 from the pressure of that topic, at most down to nothing, and touches no other. */
  lemma ResolvedRelievesTopic(s: Circulation, topic: string, other: string)
    ensures
      var p := TopicOf(s.topics, topic).pressure;
      TopicOf(Resolved(s, topic).topics, topic).pressure == if p < 999000 then 0 else p - 999000
    ensures other != topic ==> TopicOf(Resolved(s, topic).topics, other) == TopicOf(s.topics, other)
  {
  }

  // ---------------------------------------------------------------- counters and rates

  ghost predicate TallyOk(t: Tally) {
    && t.known + t.unknown + t.provisional + t.disputed + t.refused <= t.interactions
    && t.repetitions <= t.interactions
    && t.unknownRate == ShareOf(t.unknown, t.interactions) && t.disputedRate == ShareOf(t.disputed, t.interactions)
  }

  lemma RateIsShare(count: nat, interactions: nat)
    requires count <= interactions
    ensures 0.0 <= ShareOf(count, interactions) <= 1.0
    ensures ShareOf(0, interactions) == 0.0
  {
    var n: nat := if interactions > 1 then interactions else 1;
    QuotientIsShare(count as real, n as real);
    assert ShareOf(count, interactions) == Round4(count as real / n as real);
    Round4Between(count as real / n as real);
    assert 0.0 / n as real == 0.0;
  }

  /** The counters add up in every run: no interaction is counted twice, and the two rates are the rounded shares of the
  interactions since the start, so they never leave 0..1. */
  lemma {:induction false} RatesAreShares(l: Limits, acts: seq<Act>)
    ensures TallyOk(Attended(l, acts).tally)
    ensures 0.0 <= Attended(l, acts).tally.unknownRate <= 1.0 && 0.0 <= Attended(l, acts).tally.disputedRate <= 1.0
  {
    var t := Attended(l, acts).tally;
    if acts != [] {
      var last := acts[|acts| - 1];
      RatesAreShares(l, acts[..|acts| - 1]);
      if last.Alone? {
        DoKeepsTally(Attended(l, acts[..|acts| - 1]), l, last.op);
      }
    }
    RateIsShare(t.unknown, t.interactions);
    RateIsShare(t.disputed, t.interactions);
  }

  lemma {:induction false} DrainKeepsTally(s: Circulation, ids: seq<Id>, budget: int, runner: Id -> Outcome)
    ensures DrainedFrom(s, ids, budget, runner).tally == s.tally
    decreases |ids|
  {
    if ids != [] && budget > 0 {
      DrainKeepsTally(Tried(s, ids[0], runner), ids[1..], if Runnable(s, ids[0]) then budget - 1 else budget, runner);
    }
  }

  lemma DoKeepsTally(s: Circulation, l: Limits, op: Op)
    requires TallyOk(s.tally)
    ensures TallyOk(Do(s, l, op).tally)
  {
    match op
    case Tick(w) =>
      var s1 := ConsolidatedBy(s, l, w.fce);
      var s2 := s1.(topics := Decayed(s1.topics, DECAY_RATE, w.now));
      DrainKeepsTally(s2, DrainOrder(s2), w.maxTasks, w.runner);
    case Restart => RateIsShare(0, 0);
    case _ =>
  }
}
