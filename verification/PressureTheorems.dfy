/** What a topic's pressure is made of, how it fades, and what is advised about it. */
module PressureTheorems {
  import opened Rounding
  import opened Pressure

  // ---------------------------------------------------------------- what pressure is made of

  // What happens to a topic.
  datatype Touch =
    | Answered(answer: Answer, stress: bool, secret: bool, at: real)
    | Rated(rating: Rating)
    | Disproved
    | Researched(success: bool, disputed: bool)

  function Touched(b: Topics, topic: string, touch: Touch): Topics {
    match touch
    case Answered(answer, stress, secret, at) => Observed(b, topic, answer, stress, secret, at)
    case Rated(rating) => FedBack(b, topic, rating)
    case Disproved => Corrected(b, topic)
    case Researched(success, disputed) => TaskReported(b, topic, success, disputed)
  }

  function TouchedBy(b: Topics, topic: string, touches: seq<Touch>): Topics {
    if touches == [] then b
    else Touched(TouchedBy(b, topic, touches[..|touches| - 1]), topic, touches[|touches| - 1])
  }

  // An answer that counts: a secret and a refusal are for the safety counter alone.
  predicate Counts(t: Touch) {
    t.Answered? && !t.secret && !t.answer.Refused?
  }

  // How many of the touches are what.
  datatype Sums = Sums(unknown: nat, provisional: nat, disputed: nat, stressed: nat, negative: nat, positive: nat,
                       disproved: nat, succeeded: nat, failed: nat, contested: nat)

  function One(so: bool): nat {
    if so then 1 else 0
  }

  function SumsOf(touches: seq<Touch>): Sums {
    if touches == [] then Sums(0, 0, 0, 0, 0, 0, 0, 0, 0, 0)
    else
      var n, t := SumsOf(touches[..|touches| - 1]), touches[|touches| - 1];
      Sums(n.unknown + One(Counts(t) && t.answer.Unknown?),
           n.provisional + One(Counts(t) && (t.answer.ProvisionalUnverified? || t.answer.OtherProvisional?)),
           n.disputed + One(Counts(t) && t.answer.DisputedAnswer?),
           n.stressed + One(Counts(t) && t.stress),
           n.negative + One(t.Rated? && t.rating.Negative?),
           n.positive + One(t.Rated? && t.rating.Positive?),
           n.disproved + One(t.Disproved?),
           n.succeeded + One(t.Researched? && t.success && !t.disputed),
           n.failed + One(t.Researched? && !t.success && !t.disputed),
           n.contested + One(t.Researched? && t.disputed))
  }

  /** The counts of a topic are those of what happened to it, whatever else did in between. */
  lemma {:induction false} CountsAreSums(b: Topics, topic: string, touches: seq<Touch>)
    requires topic !in b.records
    ensures
      var t, n := TopicOf(TouchedBy(b, topic, touches), topic), SumsOf(touches);
      && t.unknown == n.unknown && t.provisional == n.provisional && t.disputed == n.disputed + n.contested
      && t.corrections == n.negative + n.disproved && t.successes == n.succeeded && t.fails == n.failed
  {
    if touches != [] {
      CountsAreSums(b, topic, touches[..|touches| - 1]);
    }
  }

  // What one touch adds, if it does not relieve.
  function Added(t: Touch, unknownBefore: nat): int {
    match t
    case Rated(rating) => if rating.Negative? then 3000 else 0
    case Disproved => 2000
    case Researched(success, disputed) => if success || disputed then 0 else 1000
    case Answered(a, stress, _, _) =>
      if !Counts(t) then 0
      else
        (if stress then 1000 else 0) +
        (if a.Unknown? then (if unknownBefore > 0 then 3000 else 1000)
         else if a.ProvisionalUnverified? || a.OtherProvisional? then 500
         else if a.DisputedAnswer? then 2000
         else 0)
  }

  lemma OneTouchAdds(b: Topics, topic: string, t: Touch)
    requires TopicOf(b, topic).pressure >= 0
    requires !(t.Rated? && t.rating.Positive?) && !(t.Researched? && t.success && !t.disputed)
    ensures TopicOf(Touched(b, topic, t), topic).pressure ==
      TopicOf(b, topic).pressure + Added(t, TopicOf(b, topic).unknown)
  {
  }

  /** And its pressure is their sum, so long as nothing relieves it: 1 for each UNKNOWN and 2 more for each but the
  first, 0.5 for each provisional answer, 2 for each disputed one, 1 for each under stress, 3 for each bad rating, 2
  for each correction, 1 for each failed task. */
  lemma {:induction false} PressureIsSum(b: Topics, topic: string, touches: seq<Touch>)
    requires topic !in b.records
    requires SumsOf(touches).positive == 0 && SumsOf(touches).succeeded == 0
    ensures
      var t, n := TopicOf(TouchedBy(b, topic, touches), topic), SumsOf(touches);
      t.pressure == 1000 * n.unknown + (if n.unknown > 1 then 2000 * (n.unknown - 1) else 0) + 500 * n.provisional +
        2000 * n.disputed + 1000 * n.stressed + 3000 * n.negative + 2000 * n.disproved + 1000 * n.failed
  {
    if touches != [] {
      var before, last := touches[..|touches| - 1], touches[|touches| - 1];
      PressureIsSum(b, topic, before);
      CountsAreSums(b, topic, before);
      OneTouchAdds(TouchedBy(b, topic, before), topic, last);
    }
  }

  /** What relieves takes 1 at most: a good rating, and a task that succeeds. Nothing of either touches another
  topic. */
  lemma ReliefOfOne(b: Topics, topic: string, other: string)
    ensures
      var before := TopicOf(b, topic);
      var left := if before.pressure < 1000 then 0 else before.pressure - 1000;
      && TopicOf(FedBack(b, topic, Positive), topic).pressure == left
      && TopicOf(TaskReported(b, topic, true, false), topic).pressure == left
    ensures other != topic ==>
      TopicOf(FedBack(b, topic, Positive), other) == TopicOf(b, other) &&
      TopicOf(TaskReported(b, topic, true, false), other) == TopicOf(b, other)
  {
  }

  /** A topic is only ever touched by what happens to it. */
  lemma {:induction false} OtherTopicsStay(b: Topics, topic: string, touches: seq<Touch>, other: string)
    requires other != topic
    ensures TopicOf(TouchedBy(b, topic, touches), other) == TopicOf(b, other)
  {
    if touches != [] {
      OtherTopicsStay(b, topic, touches[..|touches| - 1], other);
    }
  }

  // When the topic was last seen: at the last answer that counts.
  function LastSeen(touches: seq<Touch>): real {
    if touches == [] then 0.0
    else
      var last := touches[|touches| - 1];
      if Counts(last) then last.at else LastSeen(touches[..|touches| - 1])
  }

  /** A topic is last seen at the last answer that counts; nothing else is a sight of it. */
  lemma {:induction false} SeenWhenAnswered(b: Topics, topic: string, touches: seq<Touch>)
    requires topic !in b.records
    ensures TopicOf(TouchedBy(b, topic, touches), topic).lastSeen == LastSeen(touches)
  {
    if touches != [] {
      SeenWhenAnswered(b, topic, touches[..|touches| - 1]);
    }
  }

  /** Relieving a topic by hand takes the amount, at most down to nothing, from it alone, and does nothing to a
  topic not heard of; freezing marks it alone. */
  lemma HandsOnOneTopic(b: Topics, topic: string, amount: int, other: string)
    requires topic in b.records
    ensures
      var t, relieved := b.records[topic], TopicRelieved(b, topic, amount);
      relieved.order == b.order && topic in relieved.records && relieved.records[topic] ==
        t.(pressure := if t.pressure < amount then 0 else t.pressure - amount)
    ensures TopicOf(Frozen(b, topic), topic) == TopicOf(b, topic).(frozen := true)
    ensures other != topic ==>
      TopicOf(TopicRelieved(b, topic, amount), other) == TopicOf(b, other) == TopicOf(Frozen(b, topic), other)
    ensures other !in b.records ==> TopicRelieved(b, other, amount) == b
  {
  }

  lemma {:induction false} DrainedTouches(records: map<string, Topic>, ids: seq<string>, remaining: int, t: string)
    requires t in records
    ensures
      var after := Drained(records, ids, remaining);
      t in after && after[t].(pressure := 0, advice := NoAction) == records[t].(pressure := 0, advice := NoAction)
    decreases |ids|
  {
    if ids != [] && remaining > 0 {
      if ids[0] !in records {
        DrainedTouches(records, ids[1..], remaining, t);
      } else {
        var first := records[ids[0]];
        var take := if first.pressure < remaining then first.pressure else remaining;
        DrainedTouches(records[ids[0] := Advised(first.(pressure := first.pressure - take))], ids[1..],
                       remaining - take, t);
      }
    }
  }

  /** Relief and fading keep every topic, and change nothing of it but its pressure and, on relief, the advice. */
  lemma OnlyPressureMoves(b: Topics, amount: int, rate: real, now: real, t: string)
    requires t in b.records
    ensures
      var after := Relieved(b, amount);
      after.order == b.order && t in after.records &&
      after.records[t].(pressure := 0, advice := NoAction) == b.records[t].(pressure := 0, advice := NoAction)
    ensures
      var after := Decayed(b, rate, now);
      after.order == b.order && t in after.records && after.records[t] == Faded(b.records[t], rate, now) &&
      after.records[t].(pressure := 0) == b.records[t].(pressure := 0)
  {
    DrainedTouches(b.records, Ranking(b), amount, t);
  }

  // ---------------------------------------------------------------- what is advised

  // What has been counted that bears on the advice.
  predicate Fits(advice: Advice, disputed: nat, corrections: nat, unknown: nat, provisional: nat) {
    match advice
    case MarkDisputed => disputed > 0
    case Consolidate => disputed == 0 && corrections > 0
    case ScheduleResearch => disputed == 0 && corrections == 0 && (unknown >= 2 || provisional >= 2)
    case AskUserForSource => disputed == 0 && corrections == 0 && unknown == 1 && provisional < 2
    case NoAction => disputed == 0 && corrections == 0 && unknown == 0 && provisional < 2
    case IgnoreSafeSecret => false
  }

  /** The advice on a topic follows from what happened to it: dispute comes before correction, correction before
  research, and research before asking the user; and only a topic with none of these needs nothing. A secret is to
  be ignored. */
  lemma AdviceFits(b: Topics, topic: string, touches: seq<Touch>, last: Touch)
    requires topic !in b.records
    ensures
      var t, n := TopicOf(TouchedBy(b, topic, touches + [last]), topic), SumsOf(touches + [last]);
      if last.Answered? && last.secret then t.advice == IgnoreSafeSecret
      else if last.Answered? && last.answer.Refused? then
        t.advice == TopicOf(TouchedBy(b, topic, touches), topic).advice
      else Fits(t.advice, n.disputed + n.contested, n.negative + n.disproved, n.unknown, n.provisional)
  {
    CountsAreSums(b, topic, touches + [last]);
    assert (touches + [last])[..|touches|] == touches;
  }

  // ---------------------------------------------------------------- fading

  // What is left of a pressure after so many thousandths have faded.
  function Left(pressure: int, faded: real): real {
    if pressure as real < faded then 0.0 else pressure as real - faded
  }

  predicate CanFade(t: Topic, now: real) {
    !t.frozen && t.pressure > 0 && now > t.lastSeen
  }

  lemma FadedTo(t: Topic, rate: real, now: real)
    requires CanFade(t, now)
    ensures Faded(t, rate, now) == t.(pressure := Nearest(Left(t.pressure, HourlyFade(rate, now - t.lastSeen))))
  {
  }

  lemma LeftRounds(pressure: int, faded: real)
    requires pressure >= 0 && faded >= 0.0
    ensures
      var n := Nearest(Left(pressure, faded));
      n as real - 0.5 <= Left(pressure, faded) <= n as real + 0.5 && 0 <= n <= pressure
  {
    NearestIsMonotone(Left(pressure, faded), 0);
    NearestAtMost(Left(pressure, faded), pressure);
  }

  lemma FadeIsPositive(rate: real, seconds: real)
    requires rate >= 0.0 && seconds > 0.0
    ensures HourlyFade(rate, seconds) >= 0.0
  {
    QuotientPositive(seconds);
    ProductNonNegative(rate, seconds / 3600.0);
  }

  // n is x to the nearest integer.
  predicate Rounds(n: int, x: real) {
    n as real - 0.5 <= x <= n as real + 0.5
  }

  /** Only an unfrozen topic under pressure fades, and only by the time since it was last seen: to the nearest
  thousandth of what that time leaves of it, and nothing else of it changes. */
  lemma FadesByTime(t: Topic, rate: real, now: real)
    requires rate >= 0.0
    ensures
      var t' := Faded(t, rate, now);
      && t' == t.(pressure := t'.pressure)
      && (t.frozen || t.pressure <= 0 || now <= t.lastSeen ==> t' == t)
      && (!t.frozen && t.pressure > 0 && now > t.lastSeen ==>
            Rounds(t'.pressure, Left(t.pressure, rate * ((now - t.lastSeen) / 3600.0))) &&
            0 <= t'.pressure <= t.pressure)
  {
    if CanFade(t, now) {
      FadedTo(t, rate, now);
      FadeIsPositive(rate, now - t.lastSeen);
      LeftRounds(t.pressure, HourlyFade(rate, now - t.lastSeen));
    }
  }

  lemma QuotientPositive(seconds: real)
    requires seconds > 0.0
    ensures seconds / 3600.0 > 0.0
  {
  }

  lemma ProductNonNegative(x: real, y: real)
    requires x >= 0.0 && y >= 0.0
    ensures x * y >= 0.0
  {
  }

  lemma NearestKeepsOrder(x: real, y: real)
    requires x <= y - 2.0
    ensures Nearest(x) < Nearest(y)
  {
  }

  lemma NearestMonotone(x: real, y: real)
    requires x <= y
    ensures Nearest(x) <= Nearest(y)
  {
    assert x.Floor <= y.Floor;
  }

  /** Time since it was last seen is counted again at every fading. Fading at one time and again at another leaves
  no more than fading at the later time alone, and less whenever the first took two thousandths or more and the
  second leaves anything: pressure fades by the tick and not by the hour. */
  lemma FadingCompounds(t: Topic, rate: real, first: real, second: real)
    requires rate >= 0.0 && t.lastSeen <= first <= second
    ensures
      var once, twice := Faded(t, rate, second), Faded(Faded(t, rate, first), rate, second);
      && (t.pressure >= 0 ==> twice.pressure <= once.pressure)
      && (t.pressure - Faded(t, rate, first).pressure >= 2 && once.pressure > 0 ==> twice.pressure < once.pressure)
  {
    var between := Faded(t, rate, first);
    FadesByTime(t, rate, first);
    if CanFade(t, second) {
      var faded := HourlyFade(rate, second - t.lastSeen);
      FadedTo(t, rate, second);
      FadeIsPositive(rate, second - t.lastSeen);
      LeftRounds(t.pressure, faded);
      if CanFade(between, second) {
        FadedTo(between, rate, second);
        FadedTwice(between.pressure, t.pressure, faded);
      }
    }
  }

  lemma FadedTwice(p: int, q: int, faded: real)
    requires p <= q
    ensures Nearest(Left(p, faded)) <= Nearest(Left(q, faded))
    ensures q - p >= 2 && Nearest(Left(q, faded)) > 0 ==> Nearest(Left(p, faded)) < Nearest(Left(q, faded))
  {
    LeftMonotone(p, q, faded);
    NearestMonotone(Left(p, faded), Left(q, faded));
    if q - p >= 2 && Nearest(Left(q, faded)) > 0 {
      LeftStrict(p, q, faded);
    }
  }

  lemma LeftMonotone(p: int, q: int, faded: real)
    requires p <= q
    ensures Left(p, faded) <= Left(q, faded)
  {
  }

  lemma LeftStrict(p: int, q: int, faded: real)
    requires p <= q - 2 && Nearest(Left(q, faded)) > 0
    ensures Nearest(Left(p, faded)) < Nearest(Left(q, faded))
  {
    if Left(p, faded) > 0.0 {
      NearestKeepsOrder(Left(p, faded), Left(q, faded));
    }
  }

  /** At the rate of 0.5 an hour a pressure of 3, unseen for two hours, is 2 if it fades once, and 1.5 if it fades
  every hour. */
  lemma FadesByTheTick(t: Topic)
    requires t == FRESH_TOPIC.(pressure := 3000)
    ensures Faded(t, 500.0, 7200.0).pressure == 2000
    ensures Faded(Faded(t, 500.0, 3600.0), 500.0, 7200.0).pressure == 1500
  {
    assert 500.0 * (7200.0 / 3600.0) == 1000.0 && 500.0 * (3600.0 / 3600.0) == 500.0;
    NearestExactly(2000.0, 2000);
    NearestExactly(2500.0, 2500);
    NearestExactly(1500.0, 1500);
  }
}
