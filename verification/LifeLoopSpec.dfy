/** Internal circulation as a value: interactions raise pressure and file tasks, ticks consolidate, let pressure
fade and drain a bounded number of memory-only tasks. What a task run returns is arbitrary. */
module LifeLoopSpec {
  import opened Journal
  import opened Options
  import opened Pressure
  import opened ResearchTasks
  import opened Rounding
  import opened StableSort

  const SECRET_TOPIC: string := "[secret]"
  const RECENT_MAX: nat := 50
  const RELIEF: int := 2000
  const DECAY_RATE: real := 500.0

  predicate IsSuccess(o: Outcome) {
    o.KnownResult? || o.ProvisionalResult? || o.ActionDone?
  }

  // One line of the task result log.
  datatype Execution = Execution(task: Id, topic: string, outcome: Outcome)

  // The counters of the state, and the two rates computed from them at every interaction.
  datatype Tally = Tally(
    interactions: nat, known: nat, unknown: nat, provisional: nat, disputed: nat, refused: nat, repetitions: nat,
    unknownRate: real, disputedRate: real)

  const NO_TALLY: Tally := Tally(0, 0, 0, 0, 0, 0, 0, 0.0, 0.0)

  datatype Circulation = Circulation(
    topics: Topics, queue: Queue, results: seq<Execution>,
    recent: seq<string>, reasons: nat, feedback: int, sinceConsolidation: nat, tally: Tally)

  datatype Limits = Limits(consolidateEvery: nat, pressureThreshold: int)

  // ---------------------------------------------------------------- interactions

  datatype Interaction = Interaction(norm: string, topic: string, answer: Answer, secret: bool, stress: bool, at: real)

  predicate Unresolved(a: Answer) {
    a.Unknown? || a.ProvisionalUnverified? || a.AskUser? || a.NeedsMoreTime?
  }

  function Remember(recent: seq<string>, norm: string): seq<string> {
    if norm == "" then recent
    else
      var all := recent + [norm];
      if |all| > RECENT_MAX then all[|all| - RECENT_MAX..] else all
  }

  predicate WantsResearch(t: Topic, repeated: bool) {
    repeated || t.unknown >= 2 || t.provisional >= 2 || t.advice.ScheduleResearch?
  }

  function StoredTopic(i: Interaction): string {
    if i.secret then SECRET_TOPIC else i.topic
  }

  predicate Repeated(recent: seq<string>, i: Interaction) {
    i.norm != "" && i.norm in recent && !i.secret
  }

  function FilingPriority(t: Topic): real {
    1.0 + t.pressure as real / 10000.0
  }

  // A repeated or accumulated unresolved answer files a memory-only task.
  function MaybeFiled(s: Circulation, i: Interaction, repeated: bool): Circulation {
    var t := TopicOf(s.topics, StoredTopic(i));
    if !i.secret && Unresolved(i.answer) && WantsResearch(t, repeated)
    then s.(queue := Created(s.queue, StoredTopic(i), FilingPriority(t), false, false, true))
    else s
  }

  function ShareOf(count: nat, interactions: nat): real {
    Round4(count as real / (if interactions > 1 then interactions else 1) as real)
  }

  function Tallied(t: Tally, a: Answer, repeated: bool): Tally {
    var interactions := t.interactions + 1;
    var unknown := if a.Unknown? then t.unknown + 1 else t.unknown;
    var disputed := if a.DisputedAnswer? then t.disputed + 1 else t.disputed;
    Tally(interactions,
          if a.Known? then t.known + 1 else t.known,
          unknown,
          if IsProvisional(a) then t.provisional + 1 else t.provisional,
          disputed,
          if a.Refused? then t.refused + 1 else t.refused,
          if repeated then t.repetitions + 1 else t.repetitions,
          ShareOf(unknown, interactions), ShareOf(disputed, interactions))
  }

  function Counted(s: Circulation, i: Interaction): Circulation {
    s.(tally := Tallied(s.tally, i.answer, Repeated(s.recent, i)),
       recent := Remember(s.recent, i.norm),
       reasons := if i.answer.DisputedAnswer? then s.reasons + 1 else s.reasons,
       sinceConsolidation := s.sinceConsolidation + 1)
  }

  function Felt(s: Circulation, i: Interaction): Circulation {
    s.(topics := Observed(s.topics, StoredTopic(i), i.answer, i.stress, i.secret, i.at))
  }

  function Interacted(s: Circulation, i: Interaction): Circulation {
    MaybeFiled(Felt(Counted(s, i), i), i, Repeated(s.recent, i))
  }

  function FeedbackGiven(s: Circulation, topic: string, r: Rating): Circulation {
    s.(topics := FedBack(s.topics, topic, r),
       feedback := match r
                   case Negative => s.feedback + 1500
                   case Positive => Floor0(s.feedback - 500)
                   case OtherRating => s.feedback,
       reasons := if r.Negative? then s.reasons + 1 else s.reasons)
  }

  function CorrectionRecorded(s: Circulation, topic: string): Circulation {
    s.(topics := Corrected(s.topics, topic), reasons := s.reasons + 1)
  }

  // ---------------------------------------------------------------- draining tasks

  predicate Mentions(topic: string, word: string) {
    exists i :: 0 <= i <= |topic| - |word| && topic[i..][..|word|] == word
  }

  predicate MemoryOnly(t: Task) {
    !t.web && !t.needsPermission && t.topic != SECRET_TOPIC && !Mentions(t.topic, "secret")
  }

  function ByPriority(records: map<Id, Task>): Id -> real {
    id => if id in records then records[id].priority else 0.0
  }

  function FinalStatus(o: Outcome, fails: nat): Status {
    if o.ErrorResult? then (if fails >= 2 then Blocked else Failed) else Done
  }

  function FinalResult(o: Outcome, fails: nat): Result {
    if o.ErrorResult? && fails >= 2 then RepeatedFailure else Returned(o)
  }

  // One task run from start to finish.
  function TaskRun(s: Circulation, id: Id, o: Outcome): Circulation
    requires id in s.queue.book.records
  {
    var topic := s.queue.book.records[id].topic;
    var topics := TaskReported(s.topics, topic, IsSuccess(o), o.DisputedResult?);
    var fails := TopicOf(topics, topic).fails;
    s.(topics := topics,
       queue := WithStatus(WithStatus(s.queue, id, Running, None),
                           id, FinalStatus(o, fails), Some(FinalResult(o, fails))),
       results := s.results + [Execution(id, topic, o)])
  }

  predicate Runnable(s: Circulation, id: Id) {
    id in s.queue.book.records && s.queue.book.records[id].status.Pending? && MemoryOnly(s.queue.book.records[id])
  }

  function Tried(s: Circulation, id: Id, runner: Id -> Outcome): Circulation {
    if Runnable(s, id) then TaskRun(s, id, runner(id)) else s
  }

  function DrainedFrom(s: Circulation, ids: seq<Id>, budget: int, runner: Id -> Outcome): Circulation
    decreases |ids|
  {
    if ids == [] || budget <= 0 then s
    else DrainedFrom(Tried(s, ids[0], runner), ids[1..], if Runnable(s, ids[0]) then budget - 1 else budget, runner)
  }

  function DrainOrder(s: Circulation): seq<Id> {
    SortDesc(OpenIds(s.queue.book.records, s.queue.book.order), ByPriority(s.queue.book.records))
  }

  function Drain(s: Circulation, maxTasks: int, runner: Id -> Outcome): Circulation {
    DrainedFrom(s, DrainOrder(s), maxTasks, runner)
  }

  // ---------------------------------------------------------------- ticks

  predicate ShouldConsolidate(s: Circulation, l: Limits) {
    s.sinceConsolidation >= l.consolidateEvery || s.feedback >= l.pressureThreshold ||
    Total(s.topics) >= l.pressureThreshold || s.reasons > 0
  }

  // What a tick meets: whether consolidation succeeds, the clock, and how each task would come out.
  datatype Weather = Weather(fce: bool, now: real, autorun: bool, maxTasks: int, runner: Id -> Outcome)

  function ConsolidatedBy(s: Circulation, l: Limits, fce: bool): Circulation {
    if !ShouldConsolidate(s, l) then s
    else
      s.(topics := if fce then Relieved(s.topics, RELIEF) else s.topics,
         sinceConsolidation := 0, feedback := Floor0(s.feedback - l.pressureThreshold), reasons := 0)
  }

  function Ticked(s: Circulation, l: Limits, w: Weather): Circulation {
    var s1 := ConsolidatedBy(s, l, w.fce);
    var s2 := s1.(topics := Decayed(s1.topics, DECAY_RATE, w.now));
    if w.autorun then Drain(s2, w.maxTasks, w.runner) else s2
  }

  // ---------------------------------------------------------------- runs without operator actions

  datatype Op =
    | Interact(i: Interaction)
    | Rate(topic: string, r: Rating)
    | Correct(topic: string)
    | Note
    | File(topic: string, priority: real, web: bool, autonomousWeb: bool)
    | Tick(w: Weather)
    | Restart

  // A loop just started on the pressures, the task log and the result log that are on disk.
  function Started(topics: Topics, log: seq<Saved<Id, Task>>, results: seq<Execution>): Circulation {
    Circulation(topics, Queue(Replay(log), log), results, [], 0, 0, 0, NO_TALLY)
  }

  function Do(s: Circulation, l: Limits, op: Op): Circulation {
    match op
    case Interact(i) => Interacted(s, i)
    case Rate(topic, r) => FeedbackGiven(s, topic, r)
    case Correct(topic) => CorrectionRecorded(s, topic)
    case Note => s.(reasons := s.reasons + 1)
    case File(topic, priority, web, auto) => s.(queue := Created(s.queue, topic, priority, web, auto, true))
    case Tick(w) => Ticked(s, l, w)
    case Restart => Started(s.topics, s.queue.log, s.results)
  }

  const BEGINNING: Circulation := Started(Empty(), [], [])

  function Live(l: Limits, ops: seq<Op>): Circulation {
    if ops == [] then BEGINNING else Do(Live(l, ops[..|ops| - 1]), l, ops[|ops| - 1])
  }

  // ---------------------------------------------------------------- the operator

  function CancelledOn(q: Queue, ids: seq<Id>, topic: string): Queue {
    if ids == [] then q
    else
      var n := |ids| - 1;
      var before := CancelledOn(q, ids[..n], topic);
      if ids[n] in q.book.records && q.book.records[ids[n]].topic == topic
      then WithStatus(before, ids[n], Cancelled, None)
      else before
  }

  // The operator marks a topic resolved.
  function Resolved(s: Circulation, topic: string): Circulation {
    s.(topics := TopicRelieved(s.topics, topic, 999000),
       queue := CancelledOn(s.queue, OpenIds(s.queue.book.records, s.queue.book.order), topic))
  }

  // Everything that can happen: what the loop does by itself, and what the operator does to topics and tasks.
  // Cancelling a task is moving it to cancelled.
  datatype Act =
    | Alone(op: Op)
    | Freeze(topic: string)
    | Relieve(topic: string, amount: int)
    | Resolve(topic: string)
    | Move(id: Id, status: Status, result: Option<Result>)
    | ApproveWeb(id: Id)

  function Perform(s: Circulation, l: Limits, act: Act): Circulation {
    match act
    case Alone(op) => Do(s, l, op)
    case Freeze(topic) => s.(topics := Frozen(s.topics, topic))
    case Relieve(topic, amount) => s.(topics := TopicRelieved(s.topics, topic, amount))
    case Resolve(topic) => Resolved(s, topic)
    case Move(id, status, result) => s.(queue := WithStatus(s.queue, id, status, result))
    case ApproveWeb(id) => s.(queue := WebApproved(s.queue, id))
  }

  function Attended(l: Limits, acts: seq<Act>): Circulation {
    if acts == [] then BEGINNING else Perform(Attended(l, acts[..|acts| - 1]), l, acts[|acts| - 1])
  }

  // The operator's hand on the tasks of a topic.
  predicate Handles(s: Circulation, act: Act, topic: string) {
    match act
    case Resolve(t) => t == topic
    case Move(id, _, _) => id in s.queue.book.records && s.queue.book.records[id].topic == topic
    case ApproveWeb(id) => id in s.queue.book.records && s.queue.book.records[id].topic == topic
    case _ => false
  }

  // How often the operator has handled the tasks of a topic.
  function Handlings(l: Limits, acts: seq<Act>, topic: string): nat {
    if acts == [] then 0
    else
      var n := |acts| - 1;
      Handlings(l, acts[..n], topic) + (if Handles(Attended(l, acts[..n]), acts[n], topic) then 1 else 0)
  }
}
