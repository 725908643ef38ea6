/** What the life loop keeps over every run of interactions, feedback, task filing, ticks and restarts. Runs in which
the operator acts too are in LifeLoopOperator. */
module LifeLoopTheorems {
  import opened Journal
  import opened Options
  import opened Pressure
  import opened ResearchTasks
  import opened Rounding
  import opened Sequences
  import opened StableSort
  import opened LifeLoopSpec

  // ---------------------------------------------------------------- pressure

  ghost predicate TopicsOk(b: Topics) {
    Sound(b) && NonNegative(b)
  }

  // Every topic's count of failed outcomes is what it was.
  ghost predicate FailsKept(b: Topics, b': Topics) {
    forall t :: TopicOf(b, t).fails == TopicOf(b', t).fails
  }

  lemma PutKeepsTopics(b: Topics, topic: string, t: Topic)
    requires TopicsOk(b) && t.pressure >= 0
    ensures TopicsOk(Put(b, topic, t))
    ensures TopicOf(b, topic).fails == t.fails ==> FailsKept(b, Put(b, topic, t))
  {
    PutKeepsSound(b, topic, t);
  }

  lemma TopicNonNegative(b: Topics, topic: string)
    requires NonNegative(b)
    ensures TopicOf(b, topic).pressure >= 0
  {
  }

  lemma ObservedKeeps(b: Topics, topic: string, a: Answer, stress: bool, secret: bool, now: real)
    requires TopicsOk(b)
    ensures TopicsOk(Observed(b, topic, a, stress, secret, now))
    ensures FailsKept(b, Observed(b, topic, a, stress, secret, now))
  {
    TopicNonNegative(b, topic);
    PutKeepsTopics(b, topic, TopicOf(Observed(b, topic, a, stress, secret, now), topic));
  }

  lemma FedBackKeeps(b: Topics, topic: string, r: Rating)
    requires TopicsOk(b)
    ensures TopicsOk(FedBack(b, topic, r)) && FailsKept(b, FedBack(b, topic, r))
  {
    TopicNonNegative(b, topic);
    PutKeepsTopics(b, topic, TopicOf(FedBack(b, topic, r), topic));
  }

  lemma CorrectedKeeps(b: Topics, topic: string)
    requires TopicsOk(b)
    ensures TopicsOk(Corrected(b, topic)) && FailsKept(b, Corrected(b, topic))
  {
    TopicNonNegative(b, topic);
    PutKeepsTopics(b, topic, TopicOf(Corrected(b, topic), topic));
  }

  lemma TaskReportedCounts(b: Topics, topic: string, success: bool, disputed: bool)
    requires TopicsOk(b)
    ensures TopicsOk(TaskReported(b, topic, success, disputed))
    ensures forall t ::
      TopicOf(TaskReported(b, topic, success, disputed), t).fails ==
      TopicOf(b, t).fails + (if t == topic && !success && !disputed then 1 else 0)
  {
    TopicNonNegative(b, topic);
    PutKeepsTopics(b, topic, TopicOf(TaskReported(b, topic, success, disputed), topic));
  }

  lemma FadedKeeps(t: Topic, rate: real, now: real)
    requires t.pressure >= 0
    ensures Faded(t, rate, now).pressure >= 0 && Faded(t, rate, now).fails == t.fails
  {
  }

  lemma DecayedKeeps(b: Topics, rate: real, now: real)
    requires TopicsOk(b)
    ensures TopicsOk(Decayed(b, rate, now)) && FailsKept(b, Decayed(b, rate, now))
  {
    forall t | t in b.records
      ensures Faded(b.records[t], rate, now).pressure >= 0 && Faded(b.records[t], rate, now).fails == b.records[t].fails
    {
      FadedKeeps(b.records[t], rate, now);
    }
  }

  lemma {:induction false} DrainedKeepsFails(records: map<string, Topic>, ids: seq<string>, remaining: int)
    ensures Drained(records, ids, remaining).Keys == records.Keys
    ensures forall t :: t in records ==> Drained(records, ids, remaining)[t].fails == records[t].fails
    decreases ids
  {
    if ids != [] && remaining > 0 {
      if ids[0] !in records {
        DrainedKeepsFails(records, ids[1..], remaining);
      } else {
        var t := records[ids[0]];
        var take := if t.pressure < remaining then t.pressure else remaining;
        DrainedKeepsFails(records[ids[0] := Advised(t.(pressure := t.pressure - take))], ids[1..], remaining - take);
      }
    }
  }

  lemma RelievedKeeps(b: Topics, amount: int)
    requires TopicsOk(b) && amount >= 0
    ensures TopicsOk(Relieved(b, amount)) && FailsKept(b, Relieved(b, amount))
  {
    ReliefIsExact(b, amount);
    DrainedKeepsFails(b.records, Ranking(b), amount);
  }

  // ---------------------------------------------------------------- what the result log counts

  function Failures(results: seq<Execution>, topic: string): nat {
    if results == [] then 0
    else
      var last := results[|results| - 1];
      Failures(results[..|results| - 1], topic) + (if last.topic == topic && last.outcome.ErrorResult? then 1 else 0)
  }

  // A run that neither succeeded nor came back disputed.
  predicate Fruitless(o: Outcome) {
    o in {UnknownResult, ErrorResult, OtherResult}
  }

  function FruitlessRuns(results: seq<Execution>, topic: string): nat {
    if results == [] then 0
    else
      var last := results[|results| - 1];
      FruitlessRuns(results[..|results| - 1], topic) + (if last.topic == topic && Fruitless(last.outcome) then 1 else 0)
  }

  lemma {:induction false} FailuresAreFruitless(results: seq<Execution>, topic: string)
    ensures Failures(results, topic) <= FruitlessRuns(results, topic)
  {
    if results != [] {
      FailuresAreFruitless(results[..|results| - 1], topic);
    }
  }

  lemma RunsAppend(results: seq<Execution>, e: Execution, topic: string)
    ensures Failures(results + [e], topic) ==
      Failures(results, topic) + (if e.topic == topic && e.outcome.ErrorResult? then 1 else 0)
    ensures FruitlessRuns(results + [e], topic) ==
      FruitlessRuns(results, topic) + (if e.topic == topic && Fruitless(e.outcome) then 1 else 0)
  {
    assert (results + [e])[..|results|] == results;
  }

  // ---------------------------------------------------------------- the steps everything is made of

  // Pressures and bookkeeping move; no count of failures, no task and no line of the log does.
  ghost predicate Shifted(s: Circulation, s': Circulation) {
    TopicsOk(s'.topics) && FailsKept(s.topics, s'.topics) && s'.queue == s.queue && s'.results == s.results
  }

  function FiledIn(s: Circulation, topic: string, priority: real, web: bool, auto: bool): Circulation {
    s.(queue := Created(s.queue, topic, priority, web, auto, true))
  }

  // The three steps keep I.
  ghost predicate Inductive(I: Circulation -> bool) {
    && (forall s :: I(s) ==> TopicsOk(s.topics))
    && (forall s, s' :: I(s) && Shifted(s, s') ==> I(s'))
    && (forall s, topic, priority, web, auto :: I(s) ==> I(FiledIn(s, topic, priority, web, auto)))
    && (forall s, id, o :: I(s) && Runnable(s, id) ==> I(TaskRun(s, id, o)))
  }

  lemma FailsKeptReflexive(b: Topics)
    ensures FailsKept(b, b)
  {
  }

  lemma TriedKeeps(I: Circulation -> bool, s: Circulation, id: Id, runner: Id -> Outcome)
    requires Inductive(I) && I(s)
    ensures I(Tried(s, id, runner))
  {
  }

  lemma {:induction false} DrainKeeps(
    I: Circulation -> bool, s: Circulation, ids: seq<Id>, budget: int, runner: Id -> Outcome)
    requires Inductive(I) && I(s)
    ensures I(DrainedFrom(s, ids, budget, runner))
    decreases |ids|
  {
    if ids != [] && budget > 0 {
      TriedKeeps(I, s, ids[0], runner);
      DrainKeeps(I, Tried(s, ids[0], runner), ids[1..], if Runnable(s, ids[0]) then budget - 1 else budget, runner);
    }
  }

  // One task further down the order.
  lemma DrainedOn(s: Circulation, ids: seq<Id>, i: nat, budget: int, runner: Id -> Outcome)
    requires i < |ids| && budget > 0
    ensures DrainedFrom(s, ids[i..], budget, runner) ==
      DrainedFrom(Tried(s, ids[i], runner), ids[i + 1..], if Runnable(s, ids[i]) then budget - 1 else budget, runner)
  {
    assert ids[i..][0] == ids[i] && ids[i..][1..] == ids[i + 1..];
  }

  lemma DrainedOut(s: Circulation, ids: seq<Id>, budget: int, runner: Id -> Outcome)
    requires ids == [] || budget <= 0
    ensures DrainedFrom(s, ids, budget, runner) == s
  {
  }

  // What a tick does before it drains.
  function BeforeDraining(s: Circulation, l: Limits, w: Weather): Circulation {
    var settled := ConsolidatedBy(s, l, w.fce);
    settled.(topics := Decayed(settled.topics, DECAY_RATE, w.now))
  }

  lemma BeforeDrainingShifts(s: Circulation, l: Limits, w: Weather)
    requires TopicsOk(s.topics)
    ensures Shifted(s, BeforeDraining(s, l, w))
  {
    RelievedKeeps(s.topics, RELIEF);
    DecayedKeeps(ConsolidatedBy(s, l, w.fce).topics, DECAY_RATE, w.now);
  }

  lemma TickKeeps(I: Circulation -> bool, s: Circulation, l: Limits, w: Weather)
    requires Inductive(I) && I(s)
    ensures I(BeforeDraining(s, l, w)) && I(Ticked(s, l, w))
  {
    var mid := BeforeDraining(s, l, w);
    BeforeDrainingShifts(s, l, w);
    if w.autorun {
      DrainKeeps(I, mid, DrainOrder(mid), w.maxTasks, w.runner);
    }
  }

  lemma InteractKeeps(I: Circulation -> bool, s: Circulation, i: Interaction)
    requires Inductive(I) && I(s)
    ensures I(Interacted(s, i))
  {
    var felt := Felt(Counted(s, i), i);
    ObservedKeeps(s.topics, StoredTopic(i), i.answer, i.stress, i.secret, i.at);
    assert Shifted(s, felt);
    var t := TopicOf(felt.topics, StoredTopic(i));
    if !i.secret && Unresolved(i.answer) && WantsResearch(t, Repeated(s.recent, i)) {
      assert Interacted(s, i) == FiledIn(felt, StoredTopic(i), FilingPriority(t), false, false);
    }
  }

  // What the three steps keep, every operation keeps.
  lemma DoKeeps(I: Circulation -> bool, s: Circulation, l: Limits, op: Op)
    requires Inductive(I) && I(s) && s.queue.book == Replay(s.queue.log)
    ensures I(Do(s, l, op))
  {
    FailsKeptReflexive(s.topics);
    match op
    case Interact(i) => InteractKeeps(I, s, i);
    case Rate(topic, r) =>
      FedBackKeeps(s.topics, topic, r);
      assert Shifted(s, Do(s, l, op));
    case Correct(topic) =>
      CorrectedKeeps(s.topics, topic);
      assert Shifted(s, Do(s, l, op));
    case Note => assert Shifted(s, Do(s, l, op));
    case File(topic, priority, web, auto) => assert Do(s, l, op) == FiledIn(s, topic, priority, web, auto);
    case Tick(w) => TickKeeps(I, s, l, w);
    case Restart => assert Shifted(s, Do(s, l, op));
  }

  // ---------------------------------------------------------------- what holds whatever the operator does

  ghost predicate CountExact(s: Circulation, topic: string) {
    TopicOf(s.topics, topic).fails == FruitlessRuns(s.results, topic)
  }

  ghost predicate Sane(s: Circulation) {
    TopicsOk(s.topics) && Sound(s.queue.book) && s.queue.book == Replay(s.queue.log) &&
    forall topic :: CountExact(s, topic)
  }

  lemma ShiftKeepsSane(s: Circulation, s': Circulation)
    requires Sane(s) && Shifted(s, s')
    ensures Sane(s')
  {
    forall topic ensures CountExact(s', topic) {
      assert CountExact(s, topic);
    }
  }

  // Changing tasks only.
  lemma QueueKeepsSane(s: Circulation, queue: Queue)
    requires Sane(s) && Sound(queue.book) && queue.book == Replay(queue.log)
    ensures Sane(s.(queue := queue))
  {
    forall topic ensures CountExact(s.(queue := queue), topic) {
      assert CountExact(s, topic);
    }
  }

  lemma CreatedKeepsLog(q: Queue, topic: string, priority: real, web: bool, auto: bool, triggered: bool)
    requires Sound(q.book) && q.book == Replay(q.log)
    ensures
      var q' := Created(q, topic, priority, web, auto, triggered);
      Sound(q'.book) && q'.book == Replay(q'.log)
  {
    var existing := ByTopic(q, topic);
    FindOpenFinds(q.book.records, q.book.order, topic);
    if existing.Some? {
      var t := q.book.records[existing.value];
      FiledKeepsLog(q, existing.value, t.(priority := Round3(t.priority + 0.5)));
    } else {
      FiledKeepsLog(q, NextId(q.book.order), NewTask(topic, priority, web, web && !auto));
    }
  }

  lemma StatusKeepsLog(q: Queue, id: Id, status: Status, result: Option<Result>)
    requires Sound(q.book) && q.book == Replay(q.log)
    ensures
      var q' := WithStatus(q, id, status, result);
      Sound(q'.book) && q'.book == Replay(q'.log)
  {
    if id in q.book.records {
      FiledKeepsLog(q, id, Moved(q.book.records[id], status, result));
    }
  }

  lemma TaskRunKeepsSane(s: Circulation, id: Id, o: Outcome)
    requires Sane(s) && id in s.queue.book.records
    ensures Sane(TaskRun(s, id, o))
  {
    var s', own := TaskRun(s, id, o), s.queue.book.records[id].topic;
    TaskReportedCounts(s.topics, own, IsSuccess(o), o.DisputedResult?);
    StatusKeepsLog(s.queue, id, Running, None);
    var fails := TopicOf(s'.topics, own).fails;
    StatusKeepsLog(WithStatus(s.queue, id, Running, None), id, FinalStatus(o, fails), Some(FinalResult(o, fails)));
    forall topic ensures CountExact(s', topic) {
      assert CountExact(s, topic);
      RunsAppend(s.results, Execution(id, own, o), topic);
    }
  }

  lemma SaneIsInductive()
    ensures Inductive(Sane)
  {
    forall s, s' | Sane(s) && Shifted(s, s') ensures Sane(s') {
      ShiftKeepsSane(s, s');
    }
    forall s, topic, priority, web, auto | Sane(s) ensures Sane(FiledIn(s, topic, priority, web, auto)) {
      CreatedKeepsLog(s.queue, topic, priority, web, auto, true);
      QueueKeepsSane(s, Created(s.queue, topic, priority, web, auto, true));
    }
    forall s, id, o | Sane(s) && Runnable(s, id) ensures Sane(TaskRun(s, id, o)) {
      TaskRunKeepsSane(s, id, o);
    }
  }

  // ---------------------------------------------------------------- one task run

  lemma TaskRunBook(s: Circulation, id: Id, o: Outcome)
    requires id in s.queue.book.records
    ensures
      var t, fails := s.queue.book.records[id], TopicOf(TaskRun(s, id, o).topics, s.queue.book.records[id].topic).fails;
      TaskRun(s, id, o).queue.book ==
      Put(s.queue.book, id, t.(status := FinalStatus(o, fails), result := Some(FinalResult(o, fails))))
  {
  }

  // Where a task run leaves its own task.
  lemma TaskRunLeaves(s: Circulation, id: Id, o: Outcome)
    requires TopicsOk(s.topics) && id in s.queue.book.records
    ensures
      var t := s.queue.book.records[id];
      var fails := TopicOf(s.topics, t.topic).fails + (if Fruitless(o) then 1 else 0);
      && TopicOf(TaskRun(s, id, o).topics, t.topic).fails == fails
      && id in TaskRun(s, id, o).queue.book.records
      && TaskRun(s, id, o).queue.book.records[id] ==
         t.(status := FinalStatus(o, fails), result := Some(FinalResult(o, fails)))
  {
    TaskReportedCounts(s.topics, s.queue.book.records[id].topic, IsSuccess(o), o.DisputedResult?);
  }

  /** From any state a drain passes through, in any run, an error blocks its task exactly when some earlier execution of
  the topic was fruitless, which need not have been an error; the first fruitless one only fails it. */
  lemma ErrorBlocksAtOnce(s: Circulation, id: Id)
    requires Sane(s) && id in s.queue.book.records
    ensures
      var t := s.queue.book.records[id];
      TaskRun(s, id, ErrorResult).queue.book.records[id] ==
        if FruitlessRuns(s.results, t.topic) >= 1 then t.(status := Blocked, result := Some(RepeatedFailure))
        else t.(status := Failed, result := Some(Returned(ErrorResult)))
  {
    assert CountExact(s, s.queue.book.records[id].topic);
    TaskRunLeaves(s, id, ErrorResult);
  }

  // ---------------------------------------------------------------- what holds while the operator stays away

  ghost predicate NoneRunning(b: Tasks) {
    forall id :: id in b.records ==> !b.records[id].status.Running?
  }

  // What is stored with a task fits its status.
  ghost predicate ResultOk(t: Task) {
    match t.status
    case Pending => t.result.None?
    case Running => true
    case Blocked => (t.needsPermission && t.result.None?) || t.result == Some(RepeatedFailure)
    case Done => t.result.Some? && t.result.value.Returned? && !t.result.value.outcome.ErrorResult?
    case Failed => t.result == Some(Returned(ErrorResult))
    case Cancelled => true
  }

  ghost predicate TasksOk(b: Tasks) {
    NoneRunning(b) && forall id :: id in b.records ==> ResultOk(b.records[id])
  }

  // The task asks for no source but the memory and no permission, and its topic is no secret and names none.
  ghost predicate Harmless(t: Task) {
    !t.web && !t.needsPermission && t.topic != "[secret]" && forall i: nat :: !SecretAt(t.topic, i)
  }

  predicate SecretAt(topic: string, i: nat) {
    i + 6 <= |topic| && topic[i..i + 6] == "secret"
  }

  lemma MemoryOnlyIsHarmless(t: Task)
    ensures MemoryOnly(t) <==> Harmless(t)
  {
    if Mentions(t.topic, "secret") {
      var i :| 0 <= i <= |t.topic| - |"secret"| && t.topic[i..][..|"secret"|] == "secret";
      assert t.topic[i..][..6] == t.topic[i..i + 6];
      assert SecretAt(t.topic, i);
    }
    if i: nat :| SecretAt(t.topic, i) {
      assert t.topic[i..][..6] == t.topic[i..i + 6];
      assert t.topic[i..][..|"secret"|] == "secret";
    }
  }

  // The task is closed as done with what it returned, or failed, or blocked if the topic has had a fruitless
  // run before.
  ghost predicate ClosedBy(t: Task, o: Outcome, earlier: nat) {
    if o != ErrorResult then t.status == Done && t.result == Some(Returned(o))
    else if earlier == 0 then t.status == Failed && t.result == Some(Returned(ErrorResult))
    else t.status == Blocked && t.result == Some(RepeatedFailure)
  }

  // The task of line i is a harmless one, and as its run left it.
  ghost predicate LineStands(results: seq<Execution>, b: Tasks, i: nat)
    requires i < |results|
  {
    var e := results[i];
    && e.task in b.records && b.records[e.task].topic == e.topic && Harmless(b.records[e.task])
    && ClosedBy(b.records[e.task], e.outcome, FruitlessRuns(results[..i], e.topic))
  }

  ghost predicate WasRun(results: seq<Execution>, id: Id) {
    exists i :: 0 <= i < |results| && results[i].task == id
  }

  function TasksRun(results: seq<Execution>): seq<Id> {
    seq(|results|, i requires 0 <= i < |results| => results[i].task)
  }

  // The log and the tasks tell one story: a line for each task that has a result, and no second.
  ghost predicate Explained(s: Circulation) {
    && (forall i :: 0 <= i < |s.results| ==> LineStands(s.results, s.queue.book, i))
    && Distinct(TasksRun(s.results))
    && (forall id :: id in s.queue.book.records && s.queue.book.records[id].result.Some? ==> WasRun(s.results, id))
  }

  ghost predicate Healthy(s: Circulation) {
    Sane(s) && OneOpenPerTopic(s.queue.book) && TasksOk(s.queue.book) && Explained(s)
  }

  // No task changes its topic, its sources or its result, and only pending ones their status.
  ghost predicate TasksKept(b: Tasks, b': Tasks) {
    && (forall id :: id in b.records ==>
         && id in b'.records
         && b'.records[id].topic == b.records[id].topic && b'.records[id].web == b.records[id].web
         && b'.records[id].needsPermission == b.records[id].needsPermission
         && b'.records[id].result == b.records[id].result
         && (!b.records[id].status.Pending? ==> b'.records[id].status == b.records[id].status))
    && (forall id :: id in b'.records && b'.records[id].result.Some? ==> id in b.records)
  }

  lemma LineIsKept(results: seq<Execution>, b: Tasks, b': Tasks, i: nat)
    requires i < |results| && LineStands(results, b, i) && TasksKept(b, b')
    ensures LineStands(results, b', i)
  {
    assert b'.records[results[i].task].topic == b.records[results[i].task].topic;
  }

  // A task added, or changed in its priority alone.
  lemma PutKeepsTasks(b: Tasks, id: Id, t: Task)
    requires TasksOk(b) && ResultOk(t) && !t.status.Running?
    requires if id in b.records then t == b.records[id].(priority := t.priority) else t.result.None?
    ensures TasksKept(b, Put(b, id, t)) && TasksOk(Put(b, id, t))
  {
  }

  lemma CreatedKeepsTasks(q: Queue, topic: string, priority: real, web: bool, auto: bool)
    requires Sound(q.book) && TasksOk(q.book)
    ensures TasksKept(q.book, Created(q, topic, priority, web, auto, true).book)
    ensures TasksOk(Created(q, topic, priority, web, auto, true).book)
  {
    var b, existing := q.book, ByTopic(q, topic);
    FindOpenFinds(b.records, b.order, topic);
    if existing.Some? {
      var t := b.records[existing.value];
      PutKeepsTasks(b, existing.value, t.(priority := Round3(t.priority + 0.5)));
    } else {
      PutKeepsTasks(b, NextId(b.order), NewTask(topic, priority, web, web && !auto));
    }
  }

  lemma ShiftKeepsHealthy(s: Circulation, s': Circulation)
    requires Healthy(s) && Shifted(s, s')
    ensures Healthy(s')
  {
    ShiftKeepsSane(s, s');
  }

  lemma FilingKeepsHealthy(s: Circulation, topic: string, priority: real, web: bool, auto: bool)
    requires Healthy(s)
    ensures Healthy(FiledIn(s, topic, priority, web, auto))
  {
    var s' := FiledIn(s, topic, priority, web, auto);
    CreatedKeepsOk(s.queue, topic, priority, web, auto, true);
    CreatedKeepsTasks(s.queue, topic, priority, web, auto);
    QueueKeepsSane(s, s'.queue);
    forall i | 0 <= i < |s.results| ensures LineStands(s.results, s'.queue.book, i) {
      LineIsKept(s.results, s.queue.book, s'.queue.book, i);
    }
  }

  lemma TaskRunQueueOk(s: Circulation, id: Id, o: Outcome)
    requires QueueOk(s.queue) && Runnable(s, id)
    ensures QueueOk(TaskRun(s, id, o).queue)
  {
    var fails := TopicOf(TaskRun(s, id, o).topics, s.queue.book.records[id].topic).fails;
    WithStatusKeepsOk(s.queue, id, Running, None);
    WithStatusKeepsOk(WithStatus(s.queue, id, Running, None), id, FinalStatus(o, fails), Some(FinalResult(o, fails)));
  }

  lemma TaskRunKeepsTasks(s: Circulation, id: Id, o: Outcome)
    requires TasksOk(s.queue.book) && Runnable(s, id)
    ensures TasksOk(TaskRun(s, id, o).queue.book)
  {
    TaskRunBook(s, id, o);
  }

  // A task that may be run has not been run.
  lemma RunnableIsNew(s: Circulation, id: Id)
    requires Explained(s) && Runnable(s, id)
    ensures !WasRun(s.results, id)
  {
    forall i | 0 <= i < |s.results| ensures s.results[i].task != id {
      assert LineStands(s.results, s.queue.book, i);
    }
  }

  lemma EarlierLineStands(s: Circulation, id: Id, o: Outcome, i: nat)
    requires Explained(s) && Runnable(s, id) && i < |s.results|
    ensures LineStands(TaskRun(s, id, o).results, TaskRun(s, id, o).queue.book, i)
  {
    var s' := TaskRun(s, id, o);
    TaskRunBook(s, id, o);
    RunnableIsNew(s, id);
    assert LineStands(s.results, s.queue.book, i);
    assert s'.results[..i] == s.results[..i] && s'.results[i] == s.results[i];
    assert s.results[i].task != id;
  }

  lemma LastLineStands(s: Circulation, id: Id, o: Outcome)
    requires Sane(s) && Runnable(s, id)
    ensures LineStands(TaskRun(s, id, o).results, TaskRun(s, id, o).queue.book, |s.results|)
  {
    var s', topic := TaskRun(s, id, o), s.queue.book.records[id].topic;
    assert CountExact(s, topic);
    TaskRunLeaves(s, id, o);
    MemoryOnlyIsHarmless(s.queue.book.records[id]);
    assert s'.results[..|s.results|] == s.results;
  }

  lemma StillRun(results: seq<Execution>, e: Execution, id: Id)
    requires WasRun(results, id) || e.task == id
    ensures WasRun(results + [e], id)
  {
    var all := results + [e];
    if WasRun(results, id) {
      var i :| 0 <= i < |results| && results[i].task == id;
      assert all[i] == results[i];
    } else {
      assert all[|results|] == e;
    }
  }

  lemma LinesStand(s: Circulation, id: Id, o: Outcome)
    requires Sane(s) && Explained(s) && Runnable(s, id)
    ensures
      var s' := TaskRun(s, id, o);
      forall i :: 0 <= i < |s'.results| ==> LineStands(s'.results, s'.queue.book, i)
  {
    var s' := TaskRun(s, id, o);
    forall i | 0 <= i < |s'.results| ensures LineStands(s'.results, s'.queue.book, i) {
      if i < |s.results| {
        EarlierLineStands(s, id, o, i);
      } else {
        LastLineStands(s, id, o);
      }
    }
  }

  lemma StillDistinct(results: seq<Execution>, e: Execution)
    requires Distinct(TasksRun(results)) && !WasRun(results, e.task)
    ensures Distinct(TasksRun(results + [e]))
  {
    assert TasksRun(results + [e]) == TasksRun(results) + [e.task];
  }

  lemma TaskRunExplained(s: Circulation, id: Id, o: Outcome)
    requires Sane(s) && Explained(s) && Runnable(s, id)
    ensures Explained(TaskRun(s, id, o))
  {
    var s', e := TaskRun(s, id, o), Execution(id, s.queue.book.records[id].topic, o);
    LinesStand(s, id, o);
    TaskRunBook(s, id, o);
    RunnableIsNew(s, id);
    StillDistinct(s.results, e);
    forall k | k in s'.queue.book.records && s'.queue.book.records[k].result.Some? ensures WasRun(s'.results, k) {
      StillRun(s.results, e, k);
    }
  }

  lemma TaskRunKeepsHealthy(s: Circulation, id: Id, o: Outcome)
    requires Healthy(s) && Runnable(s, id)
    ensures Healthy(TaskRun(s, id, o))
  {
    TaskRunKeepsSane(s, id, o);
    TaskRunQueueOk(s, id, o);
    TaskRunKeepsTasks(s, id, o);
    TaskRunExplained(s, id, o);
  }

  lemma HealthyIsInductive()
    ensures Inductive(Healthy)
  {
    forall s, s' | Healthy(s) && Shifted(s, s') ensures Healthy(s') {
      ShiftKeepsHealthy(s, s');
    }
    forall s, topic, priority, web, auto | Healthy(s) ensures Healthy(FiledIn(s, topic, priority, web, auto)) {
      FilingKeepsHealthy(s, topic, priority, web, auto);
    }
    forall s, id, o | Healthy(s) && Runnable(s, id) ensures Healthy(TaskRun(s, id, o)) {
      TaskRunKeepsHealthy(s, id, o);
    }
  }

  lemma {:induction false} LiveIsHealthy(l: Limits, ops: seq<Op>)
    ensures Healthy(Live(l, ops))
  {
    if ops == [] {
      assert Replay<Id, Task>([]) == Empty();
    } else {
      LiveIsHealthy(l, ops[..|ops| - 1]);
      HealthyIsInductive();
      DoKeeps(Healthy, Live(l, ops[..|ops| - 1]), l, ops[|ops| - 1]);
    }
  }

  // ---------------------------------------------------------------- draining

  lemma {:induction false} DrainIsBounded(s: Circulation, ids: seq<Id>, budget: int, runner: Id -> Outcome)
    ensures s.results <= DrainedFrom(s, ids, budget, runner).results
    ensures |DrainedFrom(s, ids, budget, runner).results| - |s.results| <= Floor0(budget)
    decreases |ids|
  {
    if ids != [] && budget > 0 {
      DrainIsBounded(Tried(s, ids[0], runner), ids[1..], if Runnable(s, ids[0]) then budget - 1 else budget, runner);
    }
  }

  /** Whatever the drained tasks return, the loop stays healthy: none left running, none of the bounds broken. */
  lemma DrainKeepsHealthy(s: Circulation, ids: seq<Id>, budget: int, runner: Id -> Outcome)
    requires Healthy(s)
    ensures Healthy(DrainedFrom(s, ids, budget, runner))
  {
    HealthyIsInductive();
    DrainKeeps(Healthy, s, ids, budget, runner);
  }

  // ---------------------------------------------------------------- whole runs

  /** The log explains the tasks. In every run no task is run twice, whatever has a result was run, and every line of
  the log stands: its task, a memory-only one, is as that run left it, given how many fruitless runs its topic had
  had by then. */
  lemma LogExplainsTasks(l: Limits, ops: seq<Op>)
    ensures Explained(Live(l, ops))
  {
    LiveIsHealthy(l, ops);
  }

  /** So every execution that ended in error, anywhere in the log, has left its task blocked exactly when some earlier
  line of its topic is fruitless, and failed otherwise. */
  lemma ErrorBlocksExactly(l: Limits, ops: seq<Op>, i: nat)
    requires i < |Live(l, ops).results| && Live(l, ops).results[i].outcome.ErrorResult?
    ensures
      var s := Live(l, ops);
      var e := s.results[i];
      && e.task in s.queue.book.records
      && (var t := s.queue.book.records[e.task];
          if FruitlessRuns(s.results[..i], e.topic) >= 1 then t.status.Blocked? && t.result == Some(RepeatedFailure)
          else t.status.Failed? && t.result == Some(Returned(ErrorResult)))
  {
    LogExplainsTasks(l, ops);
    assert LineStands(Live(l, ops).results, Live(l, ops).queue.book, i);
  }

  /** What is stored with a task always fits its status: a done task has a result that is no error, a failed one has the
  error, and a blocked one either waits for permission or says it failed repeatedly. */
  lemma StoredResultsFit(l: Limits, ops: seq<Op>)
    ensures
      var tasks := Live(l, ops).queue.book.records;
      forall id :: id in tasks ==> ResultOk(tasks[id])
  {
    LiveIsHealthy(l, ops);
  }

  /** Every tick runs at most its limit, leaves no task running, and never runs a web, permissioned or secret task. */
  lemma TicksAreBounded(l: Limits, ops: seq<Op>, w: Weather)
    ensures
      var s, s' := Live(l, ops), Ticked(Live(l, ops), l, w);
      && s.results <= s'.results && |s'.results| - |s.results| <= Floor0(w.maxTasks)
      && NoneRunning(s'.queue.book)
      && Explained(s')
  {
    var s := Live(l, ops);
    LiveIsHealthy(l, ops);
    HealthyIsInductive();
    TickKeeps(Healthy, s, l, w);
    var mid := BeforeDraining(s, l, w);
    DrainIsBounded(mid, DrainOrder(mid), w.maxTasks, w.runner);
  }

  // ---------------------------------------------------------------- blocked by a single error

  ghost predicate HasBlocked(b: Tasks, topic: string) {
    exists id :: id in b.records && b.records[id].status.Blocked? && b.records[id].topic == topic
  }

  // A tick at time 0 that runs at most one task, which returns o.
  function TickReturning(o: Outcome): Op {
    Tick(Weather(false, 0.0, true, 1, Always(o)))
  }

  function Always(o: Outcome): Id -> Outcome {
    _ => o
  }

  function Filing(topic: string): Op {
    File(topic, 1.0, false, false)
  }

  lemma DrainsOne(s: Circulation, id: Id, runner: Id -> Outcome)
    requires OpenIds(s.queue.book.records, s.queue.book.order) == [id] && Runnable(s, id)
    ensures Drain(s, 1, runner) == TaskRun(s, id, runner(id))
  {
    SortOne(id, ByPriority(s.queue.book.records));
    assert [id][1..] == [];
    assert DrainedFrom(s, [id], 1, runner) == DrainedFrom(Tried(s, id, runner), [], 0, runner);
  }

  // Such a tick drains a state that differs from s in pressures only.
  lemma TickDrains(s: Circulation, l: Limits, o: Outcome) returns (mid: Circulation)
    requires TopicsOk(s.topics)
    ensures mid.queue == s.queue && mid.results == s.results && TopicsOk(mid.topics) && FailsKept(s.topics, mid.topics)
    ensures Do(s, l, TickReturning(o)) == Drain(mid, 1, Always(o))
  {
    var settled := ConsolidatedBy(s, l, false);
    mid := settled.(topics := Decayed(settled.topics, DECAY_RATE, 0.0));
    DecayedKeeps(s.topics, DECAY_RATE, 0.0);
  }

  // With a single open task that may be run, it runs it.
  lemma TickRuns(s: Circulation, l: Limits, o: Outcome, id: Id) returns (mid: Circulation)
    requires TopicsOk(s.topics) && OpenIds(s.queue.book.records, s.queue.book.order) == [id] && Runnable(s, id)
    ensures mid.queue == s.queue && mid.results == s.results && TopicsOk(mid.topics) && FailsKept(s.topics, mid.topics)
    ensures Do(s, l, TickReturning(o)) == TaskRun(mid, id, o)
  {
    mid := TickDrains(s, l, o);
    DrainsOne(mid, id, Always(o));
  }

  // After that tick: the task as its run leaves it, and one more line in the log.
  lemma TickLeaves(s: Circulation, l: Limits, o: Outcome, id: Id)
    requires TopicsOk(s.topics) && OpenIds(s.queue.book.records, s.queue.book.order) == [id] && Runnable(s, id)
    ensures
      var s', t := Do(s, l, TickReturning(o)), s.queue.book.records[id];
      var fails := TopicOf(s.topics, t.topic).fails + (if Fruitless(o) then 1 else 0);
      && TopicOf(s'.topics, t.topic).fails == fails
      && s'.queue.book.order == s.queue.book.order
      && s'.queue.book.records == s.queue.book.records[
           id := t.(status := FinalStatus(o, fails), result := Some(FinalResult(o, fails)))]
      && s'.results == s.results + [Execution(id, t.topic, o)]
  {
    var mid := TickRuns(s, l, o, id);
    TaskRunLeaves(mid, id, o);
    TaskRunBook(mid, id, o);
  }

  lemma OpenIdsSnoc(records: map<Id, Task>, ids: seq<Id>, id: Id)
    ensures OpenIds(records, ids + [id]) ==
      OpenIds(records, ids) + (if id in records && IsOpen(records[id].status) then [id] else [])
  {
    assert (ids + [id])[..|ids|] == ids;
  }

  lemma LiveOn(l: Limits, ops: seq<Op>, op: Op)
    ensures Live(l, ops + [op]) == Do(Live(l, ops), l, op)
  {
    assert (ops + [op])[..|ops|] == ops;
  }

  lemma FirstFiling(l: Limits, topic: string)
    requires topic != SECRET_TOPIC && !Mentions(topic, "secret")
    ensures
      var s := Live(l, [Filing(topic)]);
      && TopicsOk(s.topics) && TopicOf(s.topics, topic).fails == 0 && s.results == []
      && s.queue.book == Book([0], map[0 := NewTask(topic, 1.0, false, false)])
      && OpenIds(s.queue.book.records, [0]) == [0] && Runnable(s, 0)
  {
    LiveOn(l, [], Filing(topic));
    assert [] + [Filing(topic)] == [Filing(topic)];
    OpenIdsSnoc(map[0 := NewTask(topic, 1.0, false, false)], [], 0);
    var none: seq<Id> := [];
    assert none + [0] == [0];
    assert Replay<Id, Task>([]) == Empty();
  }

  // A task on a topic not heard of, filed and run in vain once.
  lemma RunInVain(l: Limits, topic: string, o: Outcome)
    requires topic != SECRET_TOPIC && !Mentions(topic, "secret") && Fruitless(o)
    ensures
      var s := Live(l, [Filing(topic), TickReturning(o)]);
      && TopicOf(s.topics, topic).fails == 1 && s.results == [Execution(0, topic, o)]
      && s.queue.book.order == [0] && s.queue.book.records.Keys == {0} && !IsOpen(s.queue.book.records[0].status)
  {
    FirstFiling(l, topic);
    LiveOn(l, [Filing(topic)], TickReturning(o));
    assert [Filing(topic)] + [TickReturning(o)] == [Filing(topic), TickReturning(o)];
    TickLeaves(Live(l, [Filing(topic)]), l, o, 0);
  }

  // What a task is, but for its priority and result.
  function Outline(t: Task): Task {
    t.(priority := 0.0, result := None)
  }

  // The one open task is the second, a memory-only one of the topic.
  ghost predicate OnlyOpen(b: Tasks, topic: string, status: Status) {
    && OpenIds(b.records, b.order) == [1] && 1 in b.records
    && Outline(b.records[1]) == Task(topic, 0.0, false, false, status, None)
  }

  // Filing the topic again opens a second task, the first being closed.
  lemma FiledAgain(l: Limits, topic: string, o: Outcome)
    requires topic != SECRET_TOPIC && !Mentions(topic, "secret") && Fruitless(o)
    ensures
      var s := Live(l, [Filing(topic), TickReturning(o), Filing(topic)]);
      && TopicOf(s.topics, topic).fails == 1 && s.results == [Execution(0, topic, o)]
      && OnlyOpen(s.queue.book, topic, Pending)
  {
    var ops := [Filing(topic), TickReturning(o)];
    RunInVain(l, topic, o);
    LiveOn(l, ops, Filing(topic));
    assert ops + [Filing(topic)] == [Filing(topic), TickReturning(o), Filing(topic)];
    var q := Live(l, ops).queue;
    FindOpenFinds(q.book.records, [0], topic);
    assert NextId([0]) == 1 by {
      assert [0][..0] == [];
    }
    var b := Created(q, topic, 1.0, false, false, true).book;
    assert b == Book([0] + [1], q.book.records[1 := NewTask(topic, 1.0, false, false)]);
    OpenIdsSnoc(b.records, [0], 1);
    OpenIdsSnoc(b.records, [], 0);
    assert [] + [0] == [0];
  }

  lemma {:induction false} SameOpenIds(records: map<Id, Task>, records': map<Id, Task>, ids: seq<Id>)
    requires records'.Keys == records.Keys
    requires forall id :: id in records ==> IsOpen(records'[id].status) == IsOpen(records[id].status)
    ensures OpenIds(records', ids) == OpenIds(records, ids)
  {
    if ids != [] {
      SameOpenIds(records, records', ids[..|ids| - 1]);
    }
  }

  lemma StillOnlyOpen(b: Tasks, topic: string, t: Task)
    requires OpenIds(b.records, b.order) == [1] && 1 in b.records && IsOpen(b.records[1].status) && IsOpen(t.status)
    requires Outline(t) == Task(topic, 0.0, false, false, t.status, None)
    ensures OnlyOpen(Book(b.order, b.records[1 := t]), topic, t.status)
  {
    SameOpenIds(b.records, b.records[1 := t], b.order);
  }

  lemma DoKeepsSane(s: Circulation, l: Limits, op: Op)
    requires Sane(s)
    ensures Sane(Do(s, l, op))
  {
    SaneIsInductive();
    DoKeeps(Sane, s, l, op);
  }

  // A task of a topic that has failed before, run into an error.
  lemma ErrorBlocksNext(s: Circulation, l: Limits, topic: string)
    requires TopicsOk(s.topics) && TopicOf(s.topics, topic).fails >= 1 && OnlyOpen(s.queue.book, topic, Pending)
    requires topic != SECRET_TOPIC && !Mentions(topic, "secret")
    ensures
      var s' := Do(s, l, TickReturning(ErrorResult));
      && TopicOf(s'.topics, topic).fails >= 1 && OnlyOpen(s'.queue.book, topic, Blocked)
      && s'.results == s.results + [Execution(1, topic, ErrorResult)]
  {
    var t := s.queue.book.records[1];
    TickLeaves(s, l, ErrorResult, 1);
    StillOnlyOpen(s.queue.book, topic, t.(status := Blocked, result := Some(RepeatedFailure)));
  }

  lemma OneError(topic: string, o: Outcome)
    ensures Failures([Execution(0, topic, o)], topic) == if o.ErrorResult? then 1 else 0
  {
    RunsAppend([], Execution(0, topic, o), topic);
    assert [] + [Execution(0, topic, o)] == [Execution(0, topic, o)];
  }

  // A fruitless run and one that ends in error.
  function TwoRuns(topic: string, o: Outcome): seq<Op> {
    [Filing(topic), TickReturning(o), Filing(topic), TickReturning(ErrorResult)]
  }

  // The topic has failed, and its one open task is blocked.
  ghost predicate Stuck(s: Circulation, topic: string) {
    TopicOf(s.topics, topic).fails >= 1 && OnlyOpen(s.queue.book, topic, Blocked)
  }

  lemma TwoRunsStick(l: Limits, topic: string, o: Outcome)
    requires topic != SECRET_TOPIC && !Mentions(topic, "secret") && Fruitless(o)
    ensures Stuck(Live(l, TwoRuns(topic, o)), topic)
    ensures Failures(Live(l, TwoRuns(topic, o)).results, topic) == if o.ErrorResult? then 2 else 1
  {
    var ops := [Filing(topic), TickReturning(o), Filing(topic)];
    FiledAgain(l, topic, o);
    LiveIsHealthy(l, ops);
    LiveOn(l, ops, TickReturning(ErrorResult));
    assert ops + [TickReturning(ErrorResult)] == TwoRuns(topic, o);
    ErrorBlocksNext(Live(l, ops), l, topic);
    RunsAppend(Live(l, ops).results, Execution(1, topic, ErrorResult), topic);
    OneError(topic, o);
  }

  /** At most two errors per topic is not exactly two: on any topic that is no secret, a run that comes back UNKNOWN and
  one that ends in error block the topic after a single error. */
  lemma OneErrorCanBlock(l: Limits, topic: string)
    requires topic != SECRET_TOPIC && !Mentions(topic, "secret")
    ensures
      var s := Live(l, TwoRuns(topic, UnknownResult));
      Failures(s.results, topic) == 1 && HasBlocked(s.queue.book, topic)
  {
    TwoRunsStick(l, topic, UnknownResult);
  }
}
