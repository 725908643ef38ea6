/** The life loop object over its pressure model and task queue. */
module LifeLoop {
  import opened Journal
  import opened Options
  import opened Rounding
  import opened Pressure
  import opened ResearchTasks
  import opened StableSort
  import opened LifeLoopSpec
  import opened LifeLoopTheorems
  import opened LifeLoopOperator

  class ByonLifeLoop {
    const limits: Limits
    const pressure: PressureModel
    const tasks: ResearchTaskQueue
    var results: seq<Execution>
    var recent: seq<string>
    var pendingReasons: nat
    var feedbackPressure: int
    var sinceConsolidation: nat
    var tally: Tally

    ghost function Contents(): Circulation
      reads this, pressure, tasks
    {
      Circulation(pressure.Contents(), tasks.Contents(), results, recent, pendingReasons, feedbackPressure,
                  sinceConsolidation, tally)
    }

    ghost predicate Valid()
      reads pressure
    {
      Sound(pressure.Contents())
    }

    // Starts on the pressure file, the task log and the result log, each of which may be empty.
    constructor (l: Limits, topics: Topics, safety: nat, log: seq<Saved<Id, Task>>, results: seq<Execution>)
      requires Sound(topics)
      ensures Valid() && limits == l && fresh(pressure) && fresh(tasks)
      ensures Contents() == Started(topics, log, results) && pressure.safetyCounter == safety
    {
      limits := l;
      pressure := new PressureModel(topics, safety);
      tasks := new ResearchTaskQueue(log);
      this.results := results;
      recent, pendingReasons, feedbackPressure, sinceConsolidation, tally := [], 0, 0, 0, NO_TALLY;
    }

    // The process goes down and another one comes up on the same files.
    method Restarted() returns (loop: ByonLifeLoop)
      requires Valid()
      ensures fresh(loop) && loop.Valid() && loop.limits == limits
      ensures loop.Contents() == Do(Contents(), limits, Restart)
      ensures loop.pressure.safetyCounter == pressure.safetyCounter
    {
      var topics := Book(pressure.order, pressure.topics);
      loop := new ByonLifeLoop(limits, topics, pressure.safetyCounter, tasks.log, results);
    }

    method RecordInteraction(i: Interaction)
      requires Valid()
      modifies this, pressure, tasks
      ensures Valid()
      ensures Contents() == Interacted(old(Contents()), i)
    {
      var topic := StoredTopic(i);
      var repeated := i.norm != "" && i.norm in recent && !i.secret;
      CountInteraction(i, repeated);
      var delta := pressure.Observe(topic, i.answer, i.stress, i.secret, i.at);
      FileIfUnresolved(i, repeated);
    }

    method CountInteraction(i: Interaction, repeated: bool)
      requires repeated == Repeated(recent, i)
      modifies this
      ensures Contents() == Counted(old(Contents()), i)
    {
      sinceConsolidation := sinceConsolidation + 1;
      CountAnswer(i.answer, repeated);
      if i.answer.DisputedAnswer? {
        pendingReasons := pendingReasons + 1;
      }
      RememberQuestion(i.norm);
    }

    method RememberQuestion(norm: string)
      modifies this`recent
      ensures recent == Remember(old(recent), norm)
    {
      if norm != "" {
        recent := recent + [norm];
        if |recent| > RECENT_MAX {
          recent := recent[|recent| - RECENT_MAX..];
        }
      }
    }

    // The state counters and rates.
    method CountAnswer(a: Answer, repeated: bool)
      modifies this`tally
      ensures tally == Tallied(old(tally), a, repeated)
    {
      tally := tally.(interactions := tally.interactions + 1);
      if a.Known? {
        tally := tally.(known := tally.known + 1);
      } else if a.Unknown? {
        tally := tally.(unknown := tally.unknown + 1);
      } else if IsProvisional(a) {
        tally := tally.(provisional := tally.provisional + 1);
      } else if a.DisputedAnswer? {
        tally := tally.(disputed := tally.disputed + 1);
      } else if a.Refused? {
        tally := tally.(refused := tally.refused + 1);
      }
      var total := if tally.interactions > 1 then tally.interactions else 1;
      tally := tally.(unknownRate := Round4(tally.unknown as real / total as real));
      tally := tally.(disputedRate := Round4(tally.disputed as real / total as real));
      if repeated {
        tally := tally.(repetitions := tally.repetitions + 1);
      }
    }

    method FileIfUnresolved(i: Interaction, repeated: bool)
      modifies tasks
      ensures Contents() == MaybeFiled(old(Contents()), i, repeated)
    {
      var topic := StoredTopic(i);
      var t := TopicOf(Book(pressure.order, pressure.topics), topic);
      if !i.secret && Unresolved(i.answer) {
        if repeated || t.unknown >= 2 || t.provisional >= 2 || t.advice.ScheduleResearch? {
          var id := tasks.Create(topic, FilingPriority(t), false, false, true, false);
        }
      }
    }

    method RecordFeedback(topic: string, r: Rating)
      requires Valid()
      modifies this, pressure
      ensures Valid()
      ensures Contents() == FeedbackGiven(old(Contents()), topic, r)
    {
      var delta := pressure.Feedback(topic, r);
      if delta > 0 {
        feedbackPressure := feedbackPressure + 1500;
        pendingReasons := pendingReasons + 1;
      } else if delta < 0 {
        feedbackPressure := Floor0(feedbackPressure - 500);
      }
    }

    method RecordCorrection(topic: string)
      requires Valid()
      modifies this, pressure
      ensures Valid()
      ensures Contents() == CorrectionRecorded(old(Contents()), topic)
    {
      pressure.Correction(topic);
      pendingReasons := pendingReasons + 1;
    }

    // Runs one task: marked running, run, its outcome reported, and closed, failed, or blocked for the user.
    method RunTask(id: Id, runner: Id -> Outcome)
      requires id in tasks.tasks
      requires Valid()
      modifies this`results, pressure, tasks
      ensures Valid()
      ensures Contents() == TaskRun(old(Contents()), id, runner(id))
      ensures |results| == |old(results)| + 1
    {
      var topic := tasks.tasks[id].topic;
      tasks.SetStatus(id, Running, None);
      var outcome := runner(id);
      results := results + [Execution(id, topic, outcome)];
      pressure.TaskOutcome(topic, IsSuccess(outcome), outcome.DisputedResult?);
      if outcome.ErrorResult? {
        var t := TopicOf(Book(pressure.order, pressure.topics), topic);
        if t.fails >= 2 {
          tasks.SetStatus(id, Blocked, Some(RepeatedFailure));
        } else {
          tasks.SetStatus(id, Failed, Some(Returned(outcome)));
        }
      } else {
        tasks.SetStatus(id, Done, Some(Returned(outcome)));
      }
    }

    // Runs a task if it is pending and memory-only; any other is skipped.
    method TryTask(id: Id, runner: Id -> Outcome) returns (ran: bool)
      requires Valid()
      modifies this`results, pressure, tasks
      ensures Valid()
      ensures Contents() == Tried(old(Contents()), id, runner) && ran == Runnable(old(Contents()), id)
      ensures |results| == |old(results)| + (if ran then 1 else 0)
    {
      ran := id in tasks.tasks && tasks.tasks[id].status.Pending? && MemoryOnly(tasks.tasks[id]);
      if ran {
        RunTask(id, runner);
      }
    }

    // What is left of a drain of `ids` that began in s brings the loop where the whole drain would.
    ghost predicate DrainsTo(
      s: Circulation, ids: seq<Id>, i: nat, ran: nat, maxTasks: int, runner: Id -> Outcome)
      reads this, pressure, tasks
    {
      i <= |ids| && DrainedFrom(Contents(), ids[i..], maxTasks - ran, runner) == DrainedFrom(s, ids, maxTasks, runner)
    }

    method TryNext(ghost s: Circulation, ids: seq<Id>, i: nat, ran: nat, maxTasks: int, runner: Id -> Outcome)
      returns (ran': nat)
      requires Valid() && i < |ids| && ran < maxTasks && DrainsTo(s, ids, i, ran, maxTasks, runner)
      modifies this`results, pressure, tasks
      ensures Valid() && DrainsTo(s, ids, i + 1, ran', maxTasks, runner)
      ensures ran' <= maxTasks && |results| - |old(results)| == ran' - ran
    {
      DrainedOn(Contents(), ids, i, maxTasks - ran, runner);
      var done := TryTask(ids[i], runner);
      ran' := if done then ran + 1 else ran;
    }

    method DrainTasks(maxTasks: int, runner: Id -> Outcome) returns (ran: nat)
      requires Valid()
      modifies this`results, pressure, tasks
      ensures Valid()
      ensures Contents() == Drain(old(Contents()), maxTasks, runner)
      ensures ran == |results| - |old(results)| && ran <= Floor0(maxTasks)
    {
      ghost var s := Contents();
      ran := 0;
      var open := tasks.Open();
      var ids := SortDesc(open, ByPriority(tasks.tasks));
      var i := 0;
      assert ids[0..] == ids;
      while i < |ids|
        invariant 0 <= i <= |ids| && ran <= Floor0(maxTasks) && Valid()
        invariant |results| == |old(results)| + ran
        invariant DrainsTo(s, ids, i, ran, maxTasks, runner)
      {
        if ran >= maxTasks {
          break;
        }
        ran := TryNext(s, ids, i, ran, maxTasks, runner);
        i := i + 1;
      }
      DrainedOut(Contents(), ids[i..], maxTasks - ran, runner);
    }

    method Tick(w: Weather) returns (ran: nat)
      requires Valid()
      modifies this, pressure, tasks
      ensures Valid()
      ensures Contents() == Ticked(old(Contents()), limits, w)
      ensures ran <= Floor0(w.maxTasks)
    {
      ran := 0;
      ConsolidateIfDue(w.fce);
      pressure.Decay(DECAY_RATE, w.now);
      if w.autorun {
        ran := DrainTasks(w.maxTasks, w.runner);
      }
    }

    // The operator marks a topic resolved.
    method MarkResolved(topic: string)
      requires Valid()
      modifies pressure, tasks
      ensures Valid()
      ensures Contents() == Resolved(old(Contents()), topic)
    {
      pressure.RelieveTopic(topic, 999000);
      ghost var q := tasks.Contents();
      var open := tasks.Open();
      var i := 0;
      while i < |open|
        invariant 0 <= i <= |open|
        invariant tasks.Contents() == CancelledOn(q, open[..i], topic)
        modifies tasks
      {
        assert open[..i + 1][..i] == open[..i];
        CancelledAt(q, open[..i], topic, open[i]);
        if open[i] in tasks.tasks && tasks.tasks[open[i]].topic == topic {
          tasks.Cancel(open[i]);
        }
        i := i + 1;
      }
      assert open[..i] == open;
    }

    method ConsolidateIfDue(fce: bool)
      requires Valid()
      modifies this, pressure
      ensures Valid()
      ensures Contents() == ConsolidatedBy(old(Contents()), limits, fce)
    {
      var total := pressure.TotalPressure();
      if sinceConsolidation >= limits.consolidateEvery || feedbackPressure >= limits.pressureThreshold ||
         total >= limits.pressureThreshold || pendingReasons > 0 {
        if fce {
          var removed := pressure.Relieve(RELIEF);
        }
        sinceConsolidation := 0;
        feedbackPressure := Floor0(feedbackPressure - limits.pressureThreshold);
        pendingReasons := 0;
      }
    }
  }
}
