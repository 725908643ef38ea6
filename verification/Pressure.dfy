/** Per-topic pressure: how much an area of memory is unresolved or contested. Pressures are integer thousandths,
the grid every operation rounds to. */
module Pressure {
  import opened Journal
  import opened Rounding
  import opened Sequences
  import opened StableSort

  datatype Advice = Consolidate | AskUserForSource | ScheduleResearch | MarkDisputed | IgnoreSafeSecret | NoAction

  datatype Answer =
    | Known | Unknown | ProvisionalUnverified | OtherProvisional | DisputedAnswer | Refused
    | AskUser | NeedsMoreTime | OtherAnswer

  datatype Rating = Negative | Positive | OtherRating

  datatype Topic = Topic(
    pressure: int, unknown: nat, provisional: nat, disputed: nat, corrections: nat,
    successes: nat, fails: nat, frozen: bool, lastSeen: real, advice: Advice)

  type Topics = Book<string, Topic>

  const FRESH_TOPIC: Topic := Topic(0, 0, 0, 0, 0, 0, 0, false, 0.0, NoAction)

  function TopicOf(b: Topics, topic: string): Topic {
    if topic in b.records then b.records[topic] else FRESH_TOPIC
  }

  function Recommend(t: Topic): Advice {
    if t.disputed > 0 then MarkDisputed
    else if t.corrections > 0 then Consolidate
    else if t.unknown >= 2 then ScheduleResearch
    else if t.provisional >= 2 then ScheduleResearch
    else if t.unknown == 1 then AskUserForSource
    else NoAction
  }

  function Advised(t: Topic): Topic {
    t.(advice := Recommend(t))
  }

  function Floor0(x: int): int {
    if x < 0 then 0 else x
  }

  // ---------------------------------------------------------------- observations

  predicate IsProvisional(a: Answer) {
    a.ProvisionalUnverified? || a.OtherProvisional?
  }

  function ObserveDelta(t: Topic, a: Answer, stress: bool): int {
    (if a.Unknown? then (if t.unknown >= 1 then 3000 else 1000)
     else if IsProvisional(a) then 500
     else if a.DisputedAnswer? then 2000
     else 0)
    + (if stress then 1000 else 0)
  }

  function Observed(b: Topics, topic: string, a: Answer, stress: bool, secret: bool, now: real): Topics {
    var t := TopicOf(b, topic);
    if secret || a.Refused? then
      Put(b, topic, if secret then t.(advice := IgnoreSafeSecret) else t)
    else
      Put(b, topic, Advised(t.(
        pressure := t.pressure + ObserveDelta(t, a, stress),
        unknown := if a.Unknown? then t.unknown + 1 else t.unknown,
        provisional := if IsProvisional(a) then t.provisional + 1 else t.provisional,
        disputed := if a.DisputedAnswer? then t.disputed + 1 else t.disputed,
        lastSeen := now)))
  }

  function FedBack(b: Topics, topic: string, r: Rating): Topics {
    var t := TopicOf(b, topic);
    var delta := match r case Negative => 3000 case Positive => -1000 case OtherRating => 0;
    Put(b, topic, Advised(t.(pressure := Floor0(t.pressure + delta),
                             corrections := if r.Negative? then t.corrections + 1 else t.corrections)))
  }

  function Corrected(b: Topics, topic: string): Topics {
    var t := TopicOf(b, topic);
    Put(b, topic, Advised(t.(pressure := t.pressure + 2000, corrections := t.corrections + 1)))
  }

  function TaskReported(b: Topics, topic: string, success: bool, disputed: bool): Topics {
    var t := TopicOf(b, topic);
    Put(b, topic, Advised(
      if disputed then t.(disputed := t.disputed + 1)
      else if success then t.(successes := t.successes + 1, pressure := Floor0(t.pressure - 1000))
      else t.(fails := t.fails + 1, pressure := t.pressure + 1000)))
  }

  function Frozen(b: Topics, topic: string): Topics {
    Put(b, topic, TopicOf(b, topic).(frozen := true))
  }

  function TopicRelieved(b: Topics, topic: string, amount: int): Topics {
    if topic in b.records
    then Put(b, topic, b.records[topic].(pressure := Floor0(b.records[topic].pressure - amount)))
    else b
  }

  function HourlyFade(rate: real, seconds: real): real {
    rate * (seconds / 3600.0)
  }

  // Time-based decay of one unattended topic at `rate` thousandths an hour.
  function Faded(t: Topic, rate: real, now: real): Topic {
    var dt := now - t.lastSeen;
    if t.frozen || t.pressure <= 0 || dt <= 0.0 then t
    else
      var left := t.pressure as real - HourlyFade(rate, dt);
      t.(pressure := Nearest(if left < 0.0 then 0.0 else left))
  }

  function Decayed(b: Topics, rate: real, now: real): Topics {
    Book(b.order, map id | id in b.records :: Faded(b.records[id], rate, now))
  }

  // The topics of `ids` have faded, the others not yet.
  function FadedFirst(records: map<string, Topic>, ids: seq<string>, rate: real, now: real): map<string, Topic> {
    if ids == [] then records
    else
      var n := |ids| - 1;
      var m := FadedFirst(records, ids[..n], rate, now);
      if ids[n] in records then m[ids[n] := Faded(records[ids[n]], rate, now)] else m
  }

  lemma {:induction false} FadedFirstAt(records: map<string, Topic>, ids: seq<string>, rate: real, now: real, t: string)
    ensures t in FadedFirst(records, ids, rate, now) <==> t in records
    ensures t in records ==>
      FadedFirst(records, ids, rate, now)[t] == if t in ids then Faded(records[t], rate, now) else records[t]
  {
    if ids != [] {
      FadedFirstAt(records, ids[..|ids| - 1], rate, now, t);
      assert t in ids <==> t in ids[..|ids| - 1] || t == ids[|ids| - 1];
    }
  }

  lemma FadedFirstIsAll(b: Topics, rate: real, now: real)
    requires Sound(b)
    ensures FadedFirst(b.records, b.order, rate, now) == Decayed(b, rate, now).records
  {
    forall t ensures t in FadedFirst(b.records, b.order, rate, now) <==> t in b.records {
      FadedFirstAt(b.records, b.order, rate, now, t);
    }
    forall t | t in b.records
      ensures FadedFirst(b.records, b.order, rate, now)[t] == Faded(b.records[t], rate, now)
    {
      FadedFirstAt(b.records, b.order, rate, now, t);
    }
  }

  // ---------------------------------------------------------------- relief

  function PressureOf(b: Topics): string -> int {
    t => if t in b.records then b.records[t].pressure else 0
  }

  function ByPressure(b: Topics): string -> real {
    t => if t in b.records then b.records[t].pressure as real else 0.0
  }

  // The topics by pressure, largest first, ties in order of first appearance.
  function Ranking(b: Topics): seq<string> {
    SortDesc(b.order, ByPressure(b))
  }

  // Relief spends what remains on one topic after another.
  function Drained(records: map<string, Topic>, ids: seq<string>, remaining: int): map<string, Topic> {
    if ids == [] || remaining <= 0 then records
    else if ids[0] !in records then Drained(records, ids[1..], remaining)
    else
      var t := records[ids[0]];
      var take := if t.pressure < remaining then t.pressure else remaining;
      Drained(records[ids[0] := Advised(t.(pressure := t.pressure - take))], ids[1..], remaining - take)
  }

  function PressuresAt(records: map<string, Topic>, ids: seq<string>): (ps: seq<int>)
    ensures |ps| == |ids|
    ensures forall i :: 0 <= i < |ids| ==> ps[i] == if ids[i] in records then records[ids[i]].pressure else 0
  {
    if ids == [] then []
    else [if ids[0] in records then records[ids[0]].pressure else 0] + PressuresAt(records, ids[1..])
  }

  // What each of the pressures ps gives up to an amount, first come first served.
  function Takes(ps: seq<int>, amount: int): (ts: seq<int>)
    ensures |ts| == |ps|
  {
    if ps == [] then []
    else if amount <= 0 then [0] + Takes(ps[1..], amount)
    else
      var take := if ps[0] < amount then ps[0] else amount;
      [take] + Takes(ps[1..], amount - take)
  }

  function Sum(xs: seq<int>): int {
    if xs == [] then 0 else xs[0] + Sum(xs[1..])
  }

  // What relief removes in all.
  function Spent(b: Topics, amount: int): int {
    Sum(Takes(PressuresAt(b.records, Ranking(b)), amount))
  }

  function Relieved(b: Topics, amount: int): Topics {
    Book(b.order, Drained(b.records, Ranking(b), amount))
  }

  function SumBy(ids: seq<string>, w: string -> int): int {
    if ids == [] then 0 else w(ids[0]) + SumBy(ids[1..], w)
  }

  function Total(b: Topics): int {
    SumBy(b.order, PressureOf(b))
  }

  lemma SoundIfPut(b: Topics, topic: string, b': Topics)
    requires b' == b || b' == Put(b, topic, TopicOf(b', topic))
    ensures Sound(b) ==> Sound(b')
  {
    if Sound(b) {
      PutKeepsSound(b, topic, TopicOf(b', topic));
    }
  }

  // ---------------------------------------------------------------- the object

  class PressureModel {
    var order: seq<string>
    var topics: map<string, Topic>
    var safetyCounter: nat

    ghost function Contents(): Topics
      reads this
    {
      Book(order, topics)
    }

    // Starts from the state file, which may be empty.
    constructor (saved: Topics, safety: nat)
      ensures Contents() == saved && safetyCounter == safety
    {
      order, topics, safetyCounter := saved.order, saved.records, safety;
    }

    // The record of a topic, created on first use.
    method Touch(topic: string) returns (t: Topic)
      modifies this`order, this`topics
      ensures t == TopicOf(old(Contents()), topic) && topic in topics && topics[topic] == t
      ensures Contents() == Put(old(Contents()), topic, t)
    {
      if topic !in topics {
        order := order + [topic];
        topics := topics[topic := FRESH_TOPIC];
      }
      t := topics[topic];
      assert topics == topics[topic := t];
    }

    method Observe(topic: string, a: Answer, stress: bool, secret: bool, now: real) returns (delta: int)
      modifies this
      ensures Contents() == Observed(old(Contents()), topic, a, stress, secret, now)
      ensures delta == (if secret || a.Refused? then 0 else ObserveDelta(TopicOf(old(Contents()), topic), a, stress))
      ensures safetyCounter == old(safetyCounter) + (if secret || a.Refused? then 1 else 0)
      ensures old(Sound(Contents())) ==> Sound(Contents())
    {
      SoundIfPut(Contents(), topic, Observed(Contents(), topic, a, stress, secret, now));
      var t := Touch(topic);
      delta := 0;
      if secret || a.Refused? {
        safetyCounter := safetyCounter + 1;
        if secret {
          topics := topics[topic := t.(advice := IgnoreSafeSecret)];
        }
        return;
      }
      t, delta := Count(t, a);
      if stress {
        delta := delta + 1000;
      }
      t := t.(pressure := t.pressure + delta);
      t := t.(lastSeen := now);
      t := t.(advice := Recommend(t));
      topics := topics[topic := t];
    }

    // What the answer itself counts and adds; a repeated UNKNOWN weighs more.
    static method Count(t: Topic, a: Answer) returns (r: Topic, delta: int)
      ensures r == t.(unknown := if a.Unknown? then t.unknown + 1 else t.unknown,
                      provisional := if IsProvisional(a) then t.provisional + 1 else t.provisional,
                      disputed := if a.DisputedAnswer? then t.disputed + 1 else t.disputed)
      ensures delta == ObserveDelta(t, a, false)
    {
      r, delta := t, 0;
      if a.Unknown? {
        r := r.(unknown := r.unknown + 1);
        delta := delta + 1000;
        if r.unknown >= 2 {
          delta := delta + 2000;
        }
      } else if IsProvisional(a) {
        r := r.(provisional := r.provisional + 1);
        delta := delta + 500;
      } else if a.DisputedAnswer? {
        r := r.(disputed := r.disputed + 1);
        delta := delta + 2000;
      }
    }

    method Feedback(topic: string, r: Rating) returns (delta: int)
      modifies this`order, this`topics
      ensures Contents() == FedBack(old(Contents()), topic, r)
      ensures delta == match r case Negative => 3000 case Positive => -1000 case OtherRating => 0
      ensures old(Sound(Contents())) ==> Sound(Contents())
    {
      SoundIfPut(Contents(), topic, FedBack(Contents(), topic, r));
      var t := Touch(topic);
      delta := 0;
      if r.Negative? {
        delta := 3000;
        t := t.(corrections := t.corrections + 1);
      } else if r.Positive? {
        delta := -1000;
      }
      t := t.(pressure := Floor0(t.pressure + delta));
      t := t.(advice := Recommend(t));
      topics := topics[topic := t];
    }

    method Correction(topic: string)
      modifies this`order, this`topics
      ensures Contents() == Corrected(old(Contents()), topic)
      ensures old(Sound(Contents())) ==> Sound(Contents())
    {
      SoundIfPut(Contents(), topic, Corrected(Contents(), topic));
      var t := Touch(topic);
      t := t.(corrections := t.corrections + 1);
      t := t.(pressure := t.pressure + 2000);
      t := t.(advice := Recommend(t));
      topics := topics[topic := t];
    }

    method TaskOutcome(topic: string, success: bool, disputed: bool)
      modifies this`order, this`topics
      ensures Contents() == TaskReported(old(Contents()), topic, success, disputed)
      ensures old(Sound(Contents())) ==> Sound(Contents())
    {
      SoundIfPut(Contents(), topic, TaskReported(Contents(), topic, success, disputed));
      var t := Touch(topic);
      if disputed {
        t := t.(disputed := t.disputed + 1);
      } else if success {
        t := t.(successes := t.successes + 1);
        t := t.(pressure := Floor0(t.pressure - 1000));
      } else {
        t := t.(fails := t.fails + 1);
        t := t.(pressure := t.pressure + 1000);
      }
      t := t.(advice := Recommend(t));
      topics := topics[topic := t];
    }

    method Freeze(topic: string)
      modifies this`order, this`topics
      ensures Contents() == Frozen(old(Contents()), topic)
      ensures old(Sound(Contents())) ==> Sound(Contents())
    {
      SoundIfPut(Contents(), topic, Frozen(Contents(), topic));
      var t := Touch(topic);
      topics := topics[topic := t.(frozen := true)];
    }

    method RelieveTopic(topic: string, amount: int)
      modifies this`order, this`topics
      ensures Contents() == TopicRelieved(old(Contents()), topic, amount)
      ensures old(Sound(Contents())) ==> Sound(Contents())
    {
      SoundIfPut(Contents(), topic, TopicRelieved(Contents(), topic, amount));
      if topic in topics {
        topics := topics[topic := topics[topic].(pressure := Floor0(topics[topic].pressure - amount))];
      }
    }

    method TotalPressure() returns (total: int)
      ensures total == Total(Contents())
    {
      total := 0;
      var i := 0;
      while i < |order|
        invariant 0 <= i <= |order|
        invariant Total(Contents()) == total + SumBy(order[i..], PressureOf(Contents()))
      {
        assert order[i..][1..] == order[i + 1..];
        total := total + PressureOf(Book(order, topics))(order[i]);
        i := i + 1;
      }
    }

    method FadeOne(topic: string, rate: real, now: real)
      requires topic in topics
      modifies this`topics
      ensures topics == old(topics)[topic := Faded(old(topics)[topic], rate, now)]
    {
      var t := topics[topic];
      var dt := now - t.lastSeen;
      if !(t.frozen || t.pressure <= 0) && dt > 0.0 {
        var left := t.pressure as real - HourlyFade(rate, dt);
        t := t.(pressure := Nearest(if left < 0.0 then 0.0 else left));
      }
      topics := topics[topic := t];
    }

    method Decay(rate: real, now: real)
      requires Sound(Contents())
      modifies this`topics
      ensures Contents() == Decayed(old(Contents()), rate, now) && Sound(Contents())
    {
      ghost var was := topics;
      var i := 0;
      while i < |order|
        invariant 0 <= i <= |order| && order == old(order)
        invariant topics == FadedFirst(was, order[..i], rate, now)
      {
        assert order[..i + 1][..i] == order[..i];
        assert order[i] !in order[..i];
        FadedFirstAt(was, order[..i], rate, now, order[i]);
        FadeOne(order[i], rate, now);
        i := i + 1;
      }
      assert order[..i] == order;
      FadedFirstIsAll(Book(order, was), rate, now);
    }

    // Relief of the highest-pressure topics first; returns what was removed.
    method Relieve(amount: int) returns (removed: int)
      requires Sound(Contents())
      modifies this`topics
      ensures Contents() == Relieved(old(Contents()), amount) && Sound(Contents())
      ensures removed == Spent(old(Contents()), amount)
    {
      var ranking := Ranking(Book(order, topics));
      RelievedIsSound(Contents(), amount);
      RankingIsOrder(Contents());
      LeftIsUnspent(topics, ranking, amount);
      var left := Spend(ranking, amount);
      removed := amount - left;
    }

    // Spends the amount on one topic after another; returns what is left.
    method Spend(ranking: seq<string>, amount: int) returns (remaining: int)
      requires forall i :: 0 <= i < |ranking| ==> ranking[i] in topics
      modifies this`topics
      ensures topics == Drained(old(topics), ranking, amount)
      ensures remaining == Left(old(topics), ranking, amount)
    {
      remaining := amount;
      var i := 0;
      while i < |ranking|
        invariant 0 <= i <= |ranking| && topics.Keys == old(topics.Keys)
        invariant Drained(topics, ranking[i..], remaining) == Drained(old(topics), ranking, amount)
        invariant Left(topics, ranking[i..], remaining) == Left(old(topics), ranking, amount)
      {
        if remaining <= 0 {
          break;
        }
        assert ranking[i..][1..] == ranking[i + 1..];
        remaining := TakeFrom(ranking[i], remaining);
        i := i + 1;
      }
    }

    // Spends what it can of the amount on one topic; returns what is left. What the topic gives the caller saves, and
    // one of the two is used up.
    method TakeFrom(topic: string, amount: int) returns (left: int)
      requires topic in topics
      modifies this`topics
      ensures topic in topics && topics[topic].pressure >= 0 && left >= 0
      ensures old(topics)[topic].pressure - topics[topic].pressure == amount - left
      ensures topics[topic].pressure == 0 || left == 0
      ensures topics == old(topics)[topic := Advised(old(topics)[topic].(pressure := topics[topic].pressure))]
    {
      var t := topics[topic];
      var take := if t.pressure < amount then t.pressure else amount;
      t := t.(pressure := t.pressure - take);
      t := t.(advice := Recommend(t));
      topics := topics[topic := t];
      left := amount - take;
    }
  }

  ghost predicate NonNegative(b: Topics) {
    forall id :: id in b.records ==> b.records[id].pressure >= 0
  }

  function Min(x: int, y: int): int {
    if x < y then x else y
  }

  lemma RankingIsOrder(b: Topics)
    requires Sound(b)
    ensures |Ranking(b)| == |b.order| && forall i :: 0 <= i < |Ranking(b)| ==> Ranking(b)[i] in b.records
    ensures Distinct(Ranking(b))
  {
    var r := Ranking(b);
    SortDescSorts(b.order, ByPressure(b));
    forall i | 0 <= i < |r| ensures r[i] in b.records {
      assert r[i] in multiset(r);
    }
    NoDuplicates(b.order);
    assert forall x :: multiset(r)[x] <= 1;
    forall i, j | 0 <= i < j < |r| ensures r[i] != r[j] {
      if r[i] == r[j] {
        TwiceIn(r, i, j);
      }
    }
  }

  lemma {:induction false} NoDuplicates(ids: seq<string>)
    requires Distinct(ids)
    ensures forall x :: multiset(ids)[x] <= 1
  {
    if ids != [] {
      NoDuplicates(ids[1..]);
      assert ids == [ids[0]] + ids[1..];
      assert ids[0] !in ids[1..];
    }
  }

  lemma TwiceIn(ids: seq<string>, i: nat, j: nat)
    requires i < j < |ids| && ids[i] == ids[j]
    ensures multiset(ids)[ids[i]] >= 2
  {
    assert ids == ids[..j] + [ids[j]] + ids[j + 1..];
    assert ids[i] in ids[..j];
  }

  lemma {:induction false} NothingToTake(ps: seq<int>, amount: int)
    requires amount <= 0
    ensures Sum(Takes(ps, amount)) == 0
    ensures forall i :: 0 <= i < |ps| ==> Takes(ps, amount)[i] == 0
  {
    if ps != [] {
      NothingToTake(ps[1..], amount);
    }
  }

  // What relief leaves unspent of the amount.
  function Left(records: map<string, Topic>, ids: seq<string>, remaining: int): int {
    if ids == [] || remaining <= 0 then remaining
    else if ids[0] !in records then Left(records, ids[1..], remaining)
    else
      var t := records[ids[0]];
      var take := if t.pressure < remaining then t.pressure else remaining;
      Left(records[ids[0] := Advised(t.(pressure := t.pressure - take))], ids[1..], remaining - take)
  }

  lemma {:induction false} LeftIsUnspent(records: map<string, Topic>, ids: seq<string>, remaining: int)
    requires forall j :: 0 <= j < |ids| ==> ids[j] in records
    requires Distinct(ids)
    ensures Left(records, ids, remaining) == remaining - Sum(Takes(PressuresAt(records, ids), remaining))
  {
    if ids == [] {
    } else if remaining <= 0 {
      NothingToTake(PressuresAt(records, ids), remaining);
    } else {
      var t := records[ids[0]];
      var take := if t.pressure < remaining then t.pressure else remaining;
      var t' := Advised(t.(pressure := t.pressure - take));
      assert ids[0] !in ids[1..];
      PressuresAfterFirst(records, ids, t');
      LeftIsUnspent(records[ids[0] := t'], ids[1..], remaining - take);
    }
  }

  // ---------------------------------------------------------------- relief is exact

  lemma {:induction false} SumInsert(x: string, ys: seq<string>, key: string -> real, w: string -> int)
    ensures SumBy(InsertDesc(x, ys, key), w) == w(x) + SumBy(ys, w)
  {
    if ys != [] && key(x) < key(ys[0]) {
      SumInsert(x, ys[1..], key, w);
    } else {
      assert ([x] + ys)[1..] == ys;
    }
  }

  lemma {:induction false} SumSort(xs: seq<string>, key: string -> real, w: string -> int)
    ensures SumBy(SortDesc(xs, key), w) == SumBy(xs, w)
  {
    if xs != [] {
      SumSort(xs[1..], key, w);
      SumInsert(xs[0], SortDesc(xs[1..], key), key, w);
    }
  }

  // The weights along a list of topics.
  function Along(ids: seq<string>, w: string -> int): seq<int> {
    seq(|ids|, i requires 0 <= i < |ids| => w(ids[i]))
  }

  lemma {:induction false} SumAlong(ids: seq<string>, w: string -> int)
    ensures Sum(Along(ids, w)) == SumBy(ids, w)
  {
    if ids != [] {
      assert Along(ids, w)[1..] == Along(ids[1..], w);
      SumAlong(ids[1..], w);
    }
  }

  lemma {:induction false} TakesBounds(ps: seq<int>, amount: int)
    requires forall i :: 0 <= i < |ps| ==> ps[i] >= 0
    ensures forall i :: 0 <= i < |ps| ==> 0 <= Takes(ps, amount)[i] <= ps[i]
    ensures 0 <= Sum(ps)
    ensures Sum(Takes(ps, amount)) == Min(Floor0(amount), Sum(ps))
  {
    if ps != [] {
      var take := if ps[0] < amount then ps[0] else amount;
      TakesBounds(ps[1..], if amount <= 0 then amount else amount - take);
      assert forall i :: 1 <= i < |ps| ==> ps[i] == ps[1..][i - 1];
    }
  }

  lemma {:induction false} TakesArePrefix(ps: seq<int>, amount: int) returns (n: nat)
    requires forall i :: 0 <= i < |ps| ==> ps[i] >= 0
    ensures n <= |ps|
    ensures forall i :: 0 <= i < n ==> Takes(ps, amount)[i] == ps[i]
    ensures forall i :: n < i < |ps| ==> Takes(ps, amount)[i] == 0
  {
    if ps == [] || amount <= 0 {
      n := 0;
      if amount <= 0 {
        NothingToTake(ps, amount);
      }
    } else if ps[0] < amount {
      var m := TakesArePrefix(ps[1..], amount - ps[0]);
      n := m + 1;
    } else {
      n := 0;
      NothingToTake(ps[1..], 0);
    }
  }

  lemma {:induction false} DrainedKeys(records: map<string, Topic>, ids: seq<string>, remaining: int)
    ensures Drained(records, ids, remaining).Keys == records.Keys
    ensures forall id :: id in records && id !in ids ==> Drained(records, ids, remaining)[id] == records[id]
  {
    if ids != [] && remaining > 0 {
      if ids[0] !in records {
        DrainedKeys(records, ids[1..], remaining);
      } else {
        var t := records[ids[0]];
        var take := if t.pressure < remaining then t.pressure else remaining;
        DrainedKeys(records[ids[0] := Advised(t.(pressure := t.pressure - take))], ids[1..], remaining - take);
      }
    }
  }

  lemma RelievedIsSound(b: Topics, amount: int)
    requires Sound(b)
    ensures Sound(Relieved(b, amount))
  {
    DrainedKeys(b.records, Ranking(b), amount);
  }

  lemma PressuresAfterFirst(records: map<string, Topic>, ids: seq<string>, t: Topic)
    requires ids != [] && ids[0] !in ids[1..]
    ensures PressuresAt(records[ids[0] := t], ids[1..]) == PressuresAt(records, ids[1..])
  {
  }

  // The first topic of a ranking, and what relief goes on with after it.
  lemma DrainedFirst(records: map<string, Topic>, ids: seq<string>, remaining: int)
    requires ids != [] && ids[0] in records && ids[0] !in ids[1..] && remaining > 0
    ensures
      var t, ps := records[ids[0]], PressuresAt(records, ids);
      var take := if t.pressure < remaining then t.pressure else remaining;
      var next := records[ids[0] := Advised(t.(pressure := t.pressure - take))];
      && Drained(records, ids, remaining) == Drained(next, ids[1..], remaining - take)
      && Takes(ps, remaining) == [take] + Takes(PressuresAt(next, ids[1..]), remaining - take)
  {
    var t := records[ids[0]];
    var take := if t.pressure < remaining then t.pressure else remaining;
    PressuresAfterFirst(records, ids, Advised(t.(pressure := t.pressure - take)));
  }

  lemma FirstDrainedAt(records: map<string, Topic>, ids: seq<string>, remaining: int)
    requires ids != [] && ids[0] in records && ids[0] !in ids[1..] && remaining > 0
    ensures ids[0] in Drained(records, ids, remaining)
    ensures Drained(records, ids, remaining)[ids[0]].pressure ==
      records[ids[0]].pressure - Takes(PressuresAt(records, ids), remaining)[0]
  {
    var t := records[ids[0]];
    var take := if t.pressure < remaining then t.pressure else remaining;
    var t' := Advised(t.(pressure := t.pressure - take));
    assert Drained(records, ids, remaining) == Drained(records[ids[0] := t'], ids[1..], remaining - take);
    assert Takes(PressuresAt(records, ids), remaining)[0] == take;
    DrainedKeys(records[ids[0] := t'], ids[1..], remaining - take);
  }

  // A topic further down: relief reaches it in what is left of the ranking.
  lemma LaterDrainedAt(records: map<string, Topic>, ids: seq<string>, remaining: int, t: Topic, take: int, i: nat)
    requires ids != [] && ids[0] in records && ids[0] !in ids[1..] && remaining > 0
    requires take == if records[ids[0]].pressure < remaining then records[ids[0]].pressure else remaining
    requires t == Advised(records[ids[0]].(pressure := records[ids[0]].pressure - take))
    requires 0 < i < |ids| && ids[i] in records && ids[i] != ids[0]
    requires ids[i] in Drained(records[ids[0] := t], ids[1..], remaining - take)
    requires Drained(records[ids[0] := t], ids[1..], remaining - take)[ids[i]].pressure ==
      records[ids[i]].pressure - Takes(PressuresAt(records[ids[0] := t], ids[1..]), remaining - take)[i - 1]
    ensures ids[i] in Drained(records, ids, remaining)
    ensures Drained(records, ids, remaining)[ids[i]].pressure ==
      records[ids[i]].pressure - Takes(PressuresAt(records, ids), remaining)[i]
  {
    var rest := Takes(PressuresAt(records[ids[0] := t], ids[1..]), remaining - take);
    assert Drained(records, ids, remaining) == Drained(records[ids[0] := t], ids[1..], remaining - take);
    assert Takes(PressuresAt(records, ids), remaining) == [take] + rest by {
      DrainedFirst(records, ids, remaining);
    }
    assert ([take] + rest)[i] == rest[i - 1];
  }

  /** Relief moves each topic by exactly what it is asked to give. */
  lemma {:induction false} DrainedAt(records: map<string, Topic>, ids: seq<string>, remaining: int, i: nat)
    requires forall j :: 0 <= j < |ids| ==> ids[j] in records
    requires Distinct(ids)
    requires i < |ids|
    ensures ids[i] in Drained(records, ids, remaining)
    ensures Drained(records, ids, remaining)[ids[i]].pressure ==
      records[ids[i]].pressure - Takes(PressuresAt(records, ids), remaining)[i]
  {
    if remaining <= 0 {
      NothingToTake(PressuresAt(records, ids), remaining);
    } else if i == 0 {
      FirstDrainedAt(records, ids, remaining);
    } else {
      var take := if records[ids[0]].pressure < remaining then records[ids[0]].pressure else remaining;
      var t := Advised(records[ids[0]].(pressure := records[ids[0]].pressure - take));
      DrainedAt(records[ids[0] := t], ids[1..], remaining - take, i - 1);
      LaterDrainedAt(records, ids, remaining, t, take, i);
    }
  }

  function TakenAt(b: Topics, amount: int, topic: string): int {
    PressureOf(b)(topic) - PressureOf(Relieved(b, amount))(topic)
  }

  // What relief takes from each topic.
  function TakenFrom(b: Topics, amount: int): string -> int {
    t => TakenAt(b, amount, t)
  }

  lemma TakenAlongRanking(b: Topics, amount: int)
    requires Sound(b)
    ensures Along(Ranking(b), TakenFrom(b, amount)) == Takes(PressuresAt(b.records, Ranking(b)), amount)
    ensures Along(Ranking(b), PressureOf(b)) == PressuresAt(b.records, Ranking(b))
  {
    var r := Ranking(b);
    RankingIsOrder(b);
    forall i | 0 <= i < |r|
      ensures Along(r, TakenFrom(b, amount))[i] == Takes(PressuresAt(b.records, r), amount)[i]
    {
      DrainedAt(b.records, r, amount, i);
      assert TakenFrom(b, amount)(r[i]) == TakenAt(b, amount, r[i]);
    }
  }

  lemma {:induction false} SumByDifference(ids: seq<string>, u: string -> int, v: string -> int, w: string -> int)
    requires forall t :: w(t) == u(t) - v(t)
    ensures SumBy(ids, w) == SumBy(ids, u) - SumBy(ids, v)
  {
    if ids != [] {
      SumByDifference(ids[1..], u, v, w);
    }
  }

  lemma PressuresNonNegative(b: Topics)
    requires NonNegative(b)
    ensures forall i :: 0 <= i < |Ranking(b)| ==> PressuresAt(b.records, Ranking(b))[i] >= 0
  {
  }

  lemma ReliefTotals(b: Topics, amount: int)
    requires Sound(b) && NonNegative(b)
    ensures Spent(b, amount) == Min(Floor0(amount), Total(b))
    ensures Total(Relieved(b, amount)) == Total(b) - Spent(b, amount)
  {
    var r := Ranking(b);
    TakenAlongRanking(b, amount);
    PressuresNonNegative(b);
    TakesBounds(PressuresAt(b.records, r), amount);
    SumAlong(r, PressureOf(b));
    SumAlong(r, TakenFrom(b, amount));
    SumSort(b.order, ByPressure(b), PressureOf(b));
    SumSort(b.order, ByPressure(b), TakenFrom(b, amount));
    SumByDifference(b.order, PressureOf(b), PressureOf(Relieved(b, amount)), TakenFrom(b, amount));
  }

  lemma RankOf(b: Topics, t: string) returns (i: nat)
    requires Sound(b) && t in b.records
    ensures i < |Ranking(b)| && Ranking(b)[i] == t
  {
    SortDescSorts(b.order, ByPressure(b));
    assert t in multiset(b.order) && t in multiset(Ranking(b));
    i :| 0 <= i < |Ranking(b)| && Ranking(b)[i] == t;
  }

  lemma ReliefBounds(b: Topics, amount: int, t: string)
    requires Sound(b) && NonNegative(b) && t in b.records
    ensures t in Relieved(b, amount).records
    ensures 0 <= Relieved(b, amount).records[t].pressure <= b.records[t].pressure
  {
    var r := Ranking(b);
    RankingIsOrder(b);
    PressuresNonNegative(b);
    var i := RankOf(b, t);
    DrainedAt(b.records, r, amount, i);
    TakesBounds(PressuresAt(b.records, r), amount);
  }

  /** Relief lowers the total by exactly min(amount, total), and that is what it reports; no topic goes below zero
  or up. */
  lemma ReliefIsExact(b: Topics, amount: int)
    requires Sound(b) && NonNegative(b) && amount >= 0
    ensures Spent(b, amount) == Min(amount, Total(b))
    ensures Total(Relieved(b, amount)) == Total(b) - Spent(b, amount)
    ensures forall t :: t in b.records ==>
      t in Relieved(b, amount).records && 0 <= Relieved(b, amount).records[t].pressure <= b.records[t].pressure
  {
    ReliefTotals(b, amount);
    forall t | t in b.records
      ensures t in Relieved(b, amount).records && 0 <= Relieved(b, amount).records[t].pressure <= b.records[t].pressure
    {
      ReliefBounds(b, amount, t);
    }
  }

  /** Relief drains a prefix of the ranking, at most one topic partly, and leaves the rest alone. */
  lemma ReliefDrainsPrefix(b: Topics, amount: int) returns (n: nat)
    requires Sound(b) && NonNegative(b)
    ensures n <= |Ranking(b)|
    ensures forall i :: 0 <= i < n ==> PressureOf(Relieved(b, amount))(Ranking(b)[i]) == 0
    ensures forall i :: n < i < |Ranking(b)| ==>
      PressureOf(Relieved(b, amount))(Ranking(b)[i]) == PressureOf(b)(Ranking(b)[i])
  {
    var r := Ranking(b);
    RankingIsOrder(b);
    PressuresNonNegative(b);
    n := TakesArePrefix(PressuresAt(b.records, r), amount);
    forall i | 0 <= i < |r|
      ensures PressureOf(Relieved(b, amount))(r[i]) ==
        PressureOf(b)(r[i]) - Takes(PressuresAt(b.records, r), amount)[i]
    {
      DrainedAt(b.records, r, amount, i);
    }
  }

  // ---------------------------------------------------------------- relief is greedy-optimal

  function CountPositive(xs: seq<int>): nat {
    if xs == [] then 0 else (if xs[0] > 0 then 1 else 0) + CountPositive(xs[1..])
  }

  ghost predicate Sorted(ps: seq<int>) {
    forall i, j :: 0 <= i < j < |ps| ==> ps[i] >= ps[j]
  }

  lemma {:induction false} SumTakeStep(ps: seq<int>, k: nat)
    requires k < |ps|
    ensures Sum(ps[..k + 1]) == Sum(ps[..k]) + ps[k]
  {
    if k > 0 {
      SumTakeStep(ps[1..], k - 1);
      assert ps[..k + 1][1..] == ps[1..][..k];
      assert ps[..k][1..] == ps[1..][..k - 1];
    } else {
      assert ps[..1][1..] == [];
    }
  }

  // Dropping the largest and taking k is no more than taking k.
  lemma {:induction false} ShiftedSum(ps: seq<int>, k: nat)
    requires Sorted(ps) && k < |ps|
    ensures Sum(ps[1..][..k]) <= Sum(ps[..k])
  {
    if k > 0 {
      ShiftedSum(ps, k - 1);
      SumTakeStep(ps[1..], k - 1);
      SumTakeStep(ps, k - 1);
    }
  }

  // k topics cannot give more than the k largest hold.
  lemma {:induction false} TopHoldsMost(ps: seq<int>, rs: seq<int>, k: nat)
    requires |rs| == |ps| && k <= |ps| && Sorted(ps)
    requires forall i :: 0 <= i < |ps| ==> 0 <= rs[i] <= ps[i]
    requires CountPositive(rs) <= k
    ensures Sum(rs) <= Sum(ps[..k])
  {
    if ps == [] {
      assert ps[..k] == [];
    } else if rs[0] > 0 {
      assert ps[..k][1..] == ps[1..][..k - 1];
      TopHoldsMost(ps[1..], rs[1..], k - 1);
    } else if k == |ps| {
      assert ps[..k] == ps;
      TopHoldsMost(ps[1..], rs[1..], k - 1) by { CountAtMost(rs[1..]); }
      assert ps[1..][..k - 1] == ps[1..];
    } else {
      TopHoldsMost(ps[1..], rs[1..], k);
      ShiftedSum(ps, k);
    }
  }

  lemma {:induction false} CountAtMost(rs: seq<int>)
    ensures CountPositive(rs) <= |rs|
  {
    if rs != [] {
      CountAtMost(rs[1..]);
    }
  }

  // All but the last topic relief touches would not have been enough.
  lemma {:induction false} GreedyNeedsAll(ps: seq<int>, amount: int)
    requires Sorted(ps) && (forall i :: 0 <= i < |ps| ==> ps[i] >= 0)
    ensures CountPositive(Takes(ps, amount)) <= |ps|
    ensures CountPositive(Takes(ps, amount)) > 0 ==>
      Sum(ps[..CountPositive(Takes(ps, amount)) - 1]) < Sum(Takes(ps, amount))
  {
    CountAtMost(Takes(ps, amount));
    if ps == [] || amount <= 0 {
      if amount <= 0 {
        NothingToTake(ps, amount);
      }
      NoneCounted(Takes(ps, amount));
    } else if ps[0] >= amount {
      NothingToTake(ps[1..], 0);
      NoneCounted(Takes(ps[1..], 0));
      assert ps[..0] == [];
    } else {
      GreedyNeedsAll(ps[1..], amount - ps[0]);
      var n := CountPositive(Takes(ps[1..], amount - ps[0]));
      if ps[0] > 0 && n > 0 {
        assert ps[..n][1..] == ps[1..][..n - 1];
      } else if ps[0] > 0 {
        assert ps[..0] == [];
        TakesBounds(ps[1..], amount - ps[0]);
      } else {
        AllZero(ps[1..], amount - ps[0]);
      }
    }
  }

  lemma {:induction false} NoneCounted(rs: seq<int>)
    requires forall i :: 0 <= i < |rs| ==> rs[i] == 0
    ensures CountPositive(rs) == 0
  {
    if rs != [] {
      NoneCounted(rs[1..]);
    }
  }

  lemma AllZero(ps: seq<int>, amount: int)
    requires forall i :: 0 <= i < |ps| ==> ps[i] == 0
    ensures CountPositive(Takes(ps, amount)) == 0
  {
    TakesBounds(ps, amount);
    NoneCounted(Takes(ps, amount));
  }

  // How many topics a scheme takes something from.
  function Touches(w: string -> int): string -> int {
    t => if w(t) > 0 then 1 else 0
  }

  lemma {:induction false} CountAlong(ids: seq<string>, w: string -> int)
    ensures CountPositive(Along(ids, w)) == SumBy(ids, Touches(w))
  {
    if ids != [] {
      assert Along(ids, w)[1..] == Along(ids[1..], w);
      CountAlong(ids[1..], w);
    }
  }

  lemma RankingIsSorted(b: Topics)
    requires Sound(b)
    ensures Sorted(PressuresAt(b.records, Ranking(b)))
  {
    var r, ps := Ranking(b), PressuresAt(b.records, Ranking(b));
    RankingIsOrder(b);
    SortDescSorts(b.order, ByPressure(b));
    forall i, j | 0 <= i < j < |ps| ensures ps[i] >= ps[j] {
      assert ByPressure(b)(r[i]) >= ByPressure(b)(r[j]);
    }
  }

  lemma FewestAlong(ps: seq<int>, amount: int, rs: seq<int>)
    requires Sorted(ps) && |rs| == |ps| && (forall i :: 0 <= i < |ps| ==> 0 <= rs[i] <= ps[i])
    requires Sum(rs) >= Sum(Takes(ps, amount))
    ensures CountPositive(rs) >= CountPositive(Takes(ps, amount))
  {
    GreedyNeedsAll(ps, amount);
    if CountPositive(rs) < CountPositive(Takes(ps, amount)) {
      TopHoldsMost(ps, rs, CountPositive(Takes(ps, amount)) - 1);
    }
  }

  lemma SchemeAlong(b: Topics, w: string -> int)
    ensures Sum(Along(Ranking(b), w)) == SumBy(b.order, w)
    ensures CountPositive(Along(Ranking(b), w)) == SumBy(b.order, Touches(w))
  {
    SumAlong(Ranking(b), w);
    CountAlong(Ranking(b), w);
    SumSort(b.order, ByPressure(b), w);
    SumSort(b.order, ByPressure(b), Touches(w));
  }

  /** No scheme that removes as much or more touches fewer topics than relief does. */
  lemma ReliefTouchesFewest(b: Topics, amount: int, scheme: string -> int)
    requires Sound(b)
    requires forall t :: t in b.records ==> 0 <= scheme(t) <= b.records[t].pressure
    requires SumBy(b.order, scheme) >= Spent(b, amount)
    ensures SumBy(b.order, Touches(scheme)) >= SumBy(b.order, Touches(TakenFrom(b, amount)))
  {
    RankingIsOrder(b);
    RankingIsSorted(b);
    TakenAlongRanking(b, amount);
    SchemeAlong(b, scheme);
    SchemeAlong(b, TakenFrom(b, amount));
    FewestAlong(PressuresAt(b.records, Ranking(b)), amount, Along(Ranking(b), scheme));
  }
}
