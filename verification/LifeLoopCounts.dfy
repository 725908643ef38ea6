/** What the life loop counts over whole runs, the operator taking part, and what follows from the counts: the
tally, the questions remembered, the unknowns of a topic, and when a task is filed or consolidation due. */
module LifeLoopCounts {
  import opened Journal
  import opened Pressure
  import opened ResearchTasks
  import opened Rounding
  import opened LifeLoopSpec
  import opened LifeLoopTheorems
  import opened LifeLoopOperator

  // ---------------------------------------------------------------- the tally and the questions remembered

  // The interactions since the process last came up.
  function Since(acts: seq<Act>): seq<Interaction> {
    if acts == [] then [] else SinceNow(Since(acts[..|acts| - 1]), acts[|acts| - 1])
  }

  function SinceNow(before: seq<Interaction>, last: Act): seq<Interaction> {
    if !last.Alone? then before
    else
      match last.op
      case Interact(i) => before + [i]
      case Restart => []
      case _ => before
  }

  // How many answers are among `answers`.
  function Answers(xs: seq<Interaction>, answers: set<Answer>): nat {
    if xs == [] then 0 else Answers(xs[..|xs| - 1], answers) + (if xs[|xs| - 1].answer in answers then 1 else 0)
  }

  lemma AnswersSnoc(xs: seq<Interaction>, i: Interaction, answers: set<Answer>)
    ensures Answers(xs + [i], answers) == Answers(xs, answers) + (if i.answer in answers then 1 else 0)
  {
    assert (xs + [i])[..|xs|] == xs;
  }

  // The normal forms that are not blank, in order.
  function Norms(xs: seq<Interaction>): seq<string> {
    if xs == [] then []
    else Norms(xs[..|xs| - 1]) + (if xs[|xs| - 1].norm == "" then [] else [xs[|xs| - 1].norm])
  }

  // The last fifty of them.
  function LastFifty(norms: seq<string>): seq<string> {
    if |norms| <= 50 then norms else norms[|norms| - 50..]
  }

  // It asks again one of the last fifty questions before it, and is no secret.
  predicate AsksAgain(before: seq<Interaction>, i: Interaction) {
    !i.secret && i.norm != "" && i.norm in LastFifty(Norms(before))
  }

  function Repetitions(xs: seq<Interaction>): nat {
    if xs == [] then 0
    else Repetitions(xs[..|xs| - 1]) + (if AsksAgain(xs[..|xs| - 1], xs[|xs| - 1]) then 1 else 0)
  }

  // The counters and rates these interactions make.
  ghost predicate Tallies(t: Tally, xs: seq<Interaction>) {
    && t.interactions == |xs|
    && t.known == Answers(xs, {Known}) && t.unknown == Answers(xs, {Unknown})
    && t.provisional == Answers(xs, {ProvisionalUnverified, OtherProvisional})
    && t.disputed == Answers(xs, {DisputedAnswer}) && t.refused == Answers(xs, {Refused})
    && t.repetitions == Repetitions(xs)
    && (xs != [] ==> t.unknownRate == Round4(Answers(xs, {Unknown}) as real / |xs| as real) &&
                     t.disputedRate == Round4(Answers(xs, {DisputedAnswer}) as real / |xs| as real))
  }

  lemma TallySnoc(t: Tally, xs: seq<Interaction>, i: Interaction, repeated: bool)
    requires Tallies(t, xs) && repeated == AsksAgain(xs, i)
    ensures Tallies(Tallied(t, i.answer, repeated), xs + [i])
  {
    assert (xs + [i])[..|xs|] == xs;
    AnswersSnoc(xs, i, {Known});
    AnswersSnoc(xs, i, {Unknown});
    AnswersSnoc(xs, i, {ProvisionalUnverified, OtherProvisional});
    AnswersSnoc(xs, i, {DisputedAnswer});
    AnswersSnoc(xs, i, {Refused});
  }

  lemma RememberSnoc(xs: seq<Interaction>, i: Interaction)
    ensures Remember(LastFifty(Norms(xs)), i.norm) == LastFifty(Norms(xs + [i]))
  {
    assert (xs + [i])[..|xs|] == xs;
    var norms := Norms(xs);
    if i.norm != "" {
      assert Norms(xs + [i]) == norms + [i.norm];
      if |norms| >= 50 {
        assert LastFifty(norms) + [i.norm] == (norms + [i.norm])[|norms| - 50..];
      }
    } else {
      assert norms + [] == norms;
    }
  }

  lemma DrainKeepsMemory(s: Circulation, ids: seq<Id>, budget: int, runner: Id -> Outcome)
    ensures DrainedFrom(s, ids, budget, runner).tally == s.tally
    ensures DrainedFrom(s, ids, budget, runner).recent == s.recent
    ensures DrainedFrom(s, ids, budget, runner).sinceConsolidation == s.sinceConsolidation
    ensures DrainedFrom(s, ids, budget, runner).reasons == s.reasons
    ensures DrainedFrom(s, ids, budget, runner).feedback == s.feedback
    decreases |ids|
  {
    if ids != [] && budget > 0 {
      DrainKeepsMemory(Tried(s, ids[0], runner), ids[1..], if Runnable(s, ids[0]) then budget - 1 else budget, runner);
    }
  }

  lemma TickKeepsMemory(s: Circulation, l: Limits, w: Weather)
    ensures Ticked(s, l, w).tally == s.tally && Ticked(s, l, w).recent == s.recent
  {
    var s1 := ConsolidatedBy(s, l, w.fce);
    var s2 := s1.(topics := Decayed(s1.topics, DECAY_RATE, w.now));
    DrainKeepsMemory(s2, DrainOrder(s2), w.maxTasks, w.runner);
  }

  // What is remembered of the interactions since the process came up.
  ghost predicate Remembers(s: Circulation, xs: seq<Interaction>) {
    Tallies(s.tally, xs) && s.recent == LastFifty(Norms(xs))
  }

  lemma InteractionIsRemembered(s: Circulation, xs: seq<Interaction>, i: Interaction)
    requires Remembers(s, xs)
    ensures Remembers(Interacted(s, i), xs + [i])
  {
    TallySnoc(s.tally, xs, i, Repeated(s.recent, i));
    RememberSnoc(xs, i);
  }

  lemma OpIsRemembered(s: Circulation, l: Limits, xs: seq<Interaction>, op: Op)
    requires Remembers(s, xs) && !op.Interact? && !op.Restart?
    ensures Remembers(Do(s, l, op), xs)
  {
    if op.Tick? {
      TickKeepsMemory(s, l, op.w);
    }
  }

  lemma ActIsRemembered(s: Circulation, l: Limits, xs: seq<Interaction>, act: Act)
    requires Remembers(s, xs)
    ensures Remembers(Perform(s, l, act), SinceNow(xs, act))
  {
    if act.Alone? && act.op.Interact? {
      InteractionIsRemembered(s, xs, act.op.i);
    } else if act.Alone? && !act.op.Restart? {
      OpIsRemembered(s, l, xs, act.op);
    }
  }

  /** Every counter is the number of such answers since the process came up, that of repetitions the number of
  questions asked again within fifty, the two rates are the rounded shares,
  and the questions remembered are the last fifty that were not blank. */
  lemma {:induction false} TallyCounts(l: Limits, acts: seq<Act>)
    ensures Remembers(Attended(l, acts), Since(acts))
  {
    if acts != [] {
      TallyCounts(l, acts[..|acts| - 1]);
      ActIsRemembered(Attended(l, acts[..|acts| - 1]), l, Since(acts[..|acts| - 1]), acts[|acts| - 1]);
    }
  }

  // ---------------------------------------------------------------- the unknowns of a topic

  // What answers have been counted against a topic.
  ghost predicate AnsweredAlike(b: Topics, b': Topics) {
    forall t ::
      TopicOf(b', t).unknown == TopicOf(b, t).unknown && TopicOf(b', t).provisional == TopicOf(b, t).provisional
  }

  lemma {:induction false} DrainedAlike(records: map<string, Topic>, ids: seq<string>, remaining: int)
    ensures Drained(records, ids, remaining).Keys == records.Keys
    ensures forall t :: t in records ==>
      Drained(records, ids, remaining)[t].unknown == records[t].unknown &&
      Drained(records, ids, remaining)[t].provisional == records[t].provisional
    decreases ids
  {
    if ids != [] && remaining > 0 {
      if ids[0] !in records {
        DrainedAlike(records, ids[1..], remaining);
      } else {
        var t := records[ids[0]];
        var take := if t.pressure < remaining then t.pressure else remaining;
        DrainedAlike(records[ids[0] := Advised(t.(pressure := t.pressure - take))], ids[1..], remaining - take);
      }
    }
  }

  lemma {:induction false} DrainAlike(s: Circulation, ids: seq<Id>, budget: int, runner: Id -> Outcome)
    ensures AnsweredAlike(s.topics, DrainedFrom(s, ids, budget, runner).topics)
    decreases |ids|
  {
    if ids != [] && budget > 0 {
      var next := Tried(s, ids[0], runner);
      DrainAlike(next, ids[1..], if Runnable(s, ids[0]) then budget - 1 else budget, runner);
    }
  }

  lemma TickAlike(s: Circulation, l: Limits, w: Weather)
    ensures AnsweredAlike(s.topics, Ticked(s, l, w).topics)
  {
    DrainedAlike(s.topics.records, Ranking(s.topics), RELIEF);
    var s1 := ConsolidatedBy(s, l, w.fce);
    var s2 := s1.(topics := Decayed(s1.topics, DECAY_RATE, w.now));
    assert AnsweredAlike(s.topics, s1.topics) && AnsweredAlike(s1.topics, s2.topics);
    DrainAlike(s2, DrainOrder(s2), w.maxTasks, w.runner);
  }

  // How often a question about the topic, not a secret one, was answered with one of `answers`.
  function AnsweredOn(acts: seq<Act>, topic: string, answers: set<Answer>): nat {
    if acts == [] then 0
    else
      var last := acts[|acts| - 1];
      AnsweredOn(acts[..|acts| - 1], topic, answers) +
      (if last.Alone? && last.op.Interact? && !last.op.i.secret && last.op.i.topic == topic &&
          last.op.i.answer in answers then 1 else 0)
  }

  lemma InteractionCounts(s: Circulation, i: Interaction, topic: string)
    ensures
      var t, t' := TopicOf(s.topics, topic), TopicOf(Interacted(s, i).topics, topic);
      var counts := !i.secret && i.topic == topic;
      && t'.unknown == t.unknown + (if counts && i.answer in {Unknown} then 1 else 0)
      && t'.provisional ==
         t.provisional + (if counts && i.answer in {ProvisionalUnverified, OtherProvisional} then 1 else 0)
  {
  }

  lemma OpAlike(s: Circulation, l: Limits, op: Op)
    requires !op.Interact?
    ensures AnsweredAlike(s.topics, Do(s, l, op).topics)
  {
    if op.Tick? {
      TickAlike(s, l, op.w);
    }
  }

  lemma ActAlike(s: Circulation, l: Limits, act: Act)
    requires !act.Alone?
    ensures AnsweredAlike(s.topics, Perform(s, l, act).topics)
  {
  }

  /** A topic's count of UNKNOWN and of provisional answers is that of the whole run: nothing but such an answer
  moves it, no relief, restart or act of the operator. */
  lemma {:induction false} UnknownsAreCounted(l: Limits, acts: seq<Act>, topic: string)
    ensures TopicOf(Attended(l, acts).topics, topic).unknown == AnsweredOn(acts, topic, {Unknown})
    ensures TopicOf(Attended(l, acts).topics, topic).provisional ==
      AnsweredOn(acts, topic, {ProvisionalUnverified, OtherProvisional})
  {
    if acts != [] {
      var n := |acts| - 1;
      var s := Attended(l, acts[..n]);
      UnknownsAreCounted(l, acts[..n], topic);
      if !acts[n].Alone? {
        ActAlike(s, l, acts[n]);
      } else if acts[n].op.Interact? {
        InteractionCounts(s, acts[n].op.i, topic);
      } else {
        OpAlike(s, l, acts[n].op);
      }
    }
  }

  // ---------------------------------------------------------------- when a task is filed

  // The answer leaves the question open.
  predicate LeavesOpen(a: Answer) {
    a in {Unknown, ProvisionalUnverified, AskUser, NeedsMoreTime}
  }

  lemma ObservedCounts(b: Topics, i: Interaction)
    requires !i.secret
    ensures
      var t, t' := TopicOf(b, i.topic), TopicOf(Observed(b, i.topic, i.answer, i.stress, false, i.at), i.topic);
      && t'.unknown == t.unknown + (if i.answer.Unknown? then 1 else 0)
      && t'.provisional == t.provisional + (if i.answer in {ProvisionalUnverified, OtherProvisional} then 1 else 0)
      && (i.answer in {Unknown, ProvisionalUnverified, AskUser, NeedsMoreTime} && t'.advice.ScheduleResearch? ==>
            t'.unknown >= 2 || t'.provisional >= 2)
  {
  }

  // Among the tasks after an interaction: a filing with a priority that grows with the topic's pressure, or no change.
  ghost predicate FiledIf(due: bool, s: Circulation, s': Circulation, topic: string) {
    s'.queue ==
    if due then Created(s.queue, topic, 1.0 + TopicOf(s'.topics, topic).pressure as real / 10000.0, false, false, true)
    else s.queue
  }

  lemma FilesByCounts(s: Circulation, i: Interaction)
    ensures
      var s' := Interacted(s, i);
      var t' := TopicOf(s'.topics, i.topic);
      FiledIf(!i.secret && LeavesOpen(i.answer) &&
              ((i.norm != "" && i.norm in s.recent) || t'.unknown >= 2 || t'.provisional >= 2), s, s', i.topic)
  {
    if !i.secret {
      ObservedCounts(s.topics, i);
    }
  }

  /** An interaction files a research task exactly when it is no secret, leaves its question open, and either
  repeats one of the last fifty questions or is at least the second UNKNOWN or the second provisional answer on its
  topic in the whole run. Nothing else of it touches the tasks. */
  lemma FilesExactlyWhenDue(l: Limits, acts: seq<Act>, i: Interaction)
    ensures
      var s, all := Attended(l, acts), acts + [Alone(Interact(i))];
      var due := !i.secret && LeavesOpen(i.answer) &&
        ((i.norm != "" && i.norm in LastFifty(Norms(Since(acts)))) ||
         AnsweredOn(all, i.topic, {Unknown}) >= 2 ||
         AnsweredOn(all, i.topic, {ProvisionalUnverified, OtherProvisional}) >= 2);
      Attended(l, all) == Interacted(s, i) && FiledIf(due, s, Attended(l, all), i.topic)
  {
    var all := acts + [Alone(Interact(i))];
    AttendedOn(l, acts, Alone(Interact(i)), i.topic);
    TallyCounts(l, acts);
    UnknownsAreCounted(l, all, i.topic);
    FilesByCounts(Attended(l, acts), i);
  }

  /** So a second UNKNOWN on a topic that is no secret always leaves it an open task, while the operator stays away. */
  lemma SecondUnknownIsResearched(l: Limits, ops: seq<Op>, i: Interaction)
    requires !i.secret && i.answer.Unknown? && TopicOf(Live(l, ops).topics, i.topic).unknown >= 1
    ensures HasOpen(Interacted(Live(l, ops), i).queue.book, i.topic)
  {
    LiveIsHealthy(l, ops);
    var s := Live(l, ops);
    var t := TopicOf(Felt(Counted(s, i), i).topics, i.topic);
    CreatedKeepsOk(s.queue, i.topic, FilingPriority(t), false, false, true);
  }

  // ---------------------------------------------------------------- when consolidation is due

  // Enough interactions, enough feedback, enough pressure, or any reason at all.
  ghost predicate Due(s: Circulation, l: Limits) {
    s.reasons > 0 || s.sinceConsolidation >= l.consolidateEvery || s.feedback >= l.pressureThreshold ||
    Total(s.topics) >= l.pressureThreshold
  }

  /** A tick consolidates exactly when that is due as it finds things, before anything fades: then the reasons and
  the interactions are counted anew and the feedback falls by the threshold, at most to zero; and otherwise all
  three stay. */
  lemma TickConsolidatesWhenDue(s: Circulation, l: Limits, w: Weather)
    ensures
      var s' := Ticked(s, l, w);
      if Due(s, l) then
        s'.reasons == 0 && s'.sinceConsolidation == 0 &&
        s'.feedback == (if s.feedback < l.pressureThreshold then 0 else s.feedback - l.pressureThreshold)
      else s'.reasons == s.reasons && s'.sinceConsolidation == s.sinceConsolidation && s'.feedback == s.feedback
  {
    var s1 := ConsolidatedBy(s, l, w.fce);
    var s2 := s1.(topics := Decayed(s1.topics, DECAY_RATE, w.now));
    DrainKeepsMemory(s2, DrainOrder(s2), w.maxTasks, w.runner);
  }

  /** The pressure it relieves is 2 or all there is, and only if the consolidation succeeded. */
  lemma ConsolidationRelieves(s: Circulation, l: Limits, fce: bool)
    requires TopicsOk(s.topics)
    ensures Total(ConsolidatedBy(s, l, fce).topics) ==
      if Due(s, l) && fce then (if Total(s.topics) < 2000 then 0 else Total(s.topics) - 2000) else Total(s.topics)
  {
    ReliefIsExact(s.topics, RELIEF);
  }

  /** What follows is that the tick runs the tasks of the state so consolidated and faded, if it runs any. */
  lemma TickRunsAfterFading(s: Circulation, l: Limits, w: Weather)
    ensures
      var settled := ConsolidatedBy(s, l, w.fce);
      var faded := settled.(topics := Decayed(settled.topics, 500.0, w.now));
      Ticked(s, l, w) == if w.autorun then Drain(faded, w.maxTasks, w.runner) else faded
  {
  }

  /** Every interaction counts towards consolidation, and a disputed answer, like any event noted, is a reason for
  it. */
  lemma InteractionsAreNoted(s: Circulation, l: Limits, i: Interaction)
    ensures Interacted(s, i).sinceConsolidation == s.sinceConsolidation + 1
    ensures Interacted(s, i).reasons == s.reasons + (if i.answer.DisputedAnswer? then 1 else 0)
    ensures Interacted(s, i).feedback == s.feedback && Do(s, l, Note).reasons == s.reasons + 1
  {
  }

  /** A secret leaves no trace on any topic but the one all secrets share, files nothing and is not run. */
  lemma SecretsLeaveNoTrace(s: Circulation, i: Interaction, topic: string)
    requires i.secret && topic != "[secret]"
    ensures
      var s' := Interacted(s, i);
      s'.queue == s.queue && s'.results == s.results && TopicOf(s'.topics, topic) == TopicOf(s.topics, topic)
  {
  }

  /** A restart keeps what is on disk, the topics, the results and the tasks of the log, and forgets the rest. */
  lemma RestartForgets(s: Circulation, l: Limits)
    ensures
      var s' := Do(s, l, Restart);
      && s'.topics == s.topics && s'.results == s.results && s'.queue.log == s.queue.log
      && s'.queue.book == Replay(s.queue.log)
      && s'.recent == [] && s'.reasons == 0 && s'.feedback == 0 && s'.sinceConsolidation == 0
      && s'.tally.interactions == 0
  {
  }

  /** A bad rating is felt as 1.5 and gives a reason to consolidate, a good one takes 0.5 back, at most to zero; a
  correction gives a reason. */
  lemma RatingsAreFelt(s: Circulation, topic: string, r: Rating)
    ensures
      var s' := FeedbackGiven(s, topic, r);
      && s'.feedback ==
         (match r
          case Negative => s.feedback + 1500
          case Positive => if s.feedback < 500 then 0 else s.feedback - 500
          case OtherRating => s.feedback)
      && s'.reasons == s.reasons + (if r.Negative? then 1 else 0)
      && CorrectionRecorded(s, topic).reasons == s.reasons + 1
  {
  }
}
