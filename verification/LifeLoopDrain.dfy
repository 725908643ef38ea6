/** Which tasks a tick runs: the best of those that may be run, as many as it is allowed. */
module LifeLoopDrain {
  import opened Journal
  import opened Pressure
  import opened ResearchTasks
  import opened Sequences
  import opened StableSort
  import opened LifeLoopSpec
  import opened LifeLoopTheorems

  // The tasks of `ids` that may be run, in order.
  function RunnableOf(s: Circulation, ids: seq<Id>): seq<Id> {
    if ids == [] then []
    else (if Runnable(s, ids[0]) then [ids[0]] else []) + RunnableOf(s, ids[1..])
  }

  lemma {:induction false} RunnableIsAmong(s: Circulation, ids: seq<Id>)
    ensures forall id :: id in RunnableOf(s, ids) <==> id in ids && Runnable(s, id)
    ensures Distinct(ids) ==> Distinct(RunnableOf(s, ids))
  {
    if ids != [] {
      RunnableIsAmong(s, ids[1..]);
      assert forall id :: id in ids <==> id == ids[0] || id in ids[1..];
      if Distinct(ids) {
        assert ids[0] !in ids[1..];
      }
    }
  }

  lemma {:induction false} SameRunnable(s: Circulation, s': Circulation, ids: seq<Id>)
    requires forall id :: id in ids ==> Runnable(s', id) == Runnable(s, id)
    ensures RunnableOf(s', ids) == RunnableOf(s, ids)
  {
    if ids != [] {
      SameRunnable(s, s', ids[1..]);
    }
  }

  // Running one task changes no other.
  lemma OthersStayRunnable(s: Circulation, id: Id, o: Outcome, ids: seq<Id>)
    requires id in s.queue.book.records && id !in ids
    ensures RunnableOf(TaskRun(s, id, o), ids) == RunnableOf(s, ids)
  {
    TaskRunBook(s, id, o);
    SameRunnable(s, TaskRun(s, id, o), ids);
  }

  function Least(x: int, y: int): int {
    if x < y then x else y
  }

  lemma TasksRunSnoc(results: seq<Execution>, e: Execution)
    ensures TasksRun(results + [e]) == TasksRun(results) + [e.task]
  {
  }

  // A drain runs the first of what may be run, as many as its budget.
  lemma {:induction false} DrainRunsFirst(s: Circulation, ids: seq<Id>, budget: int, runner: Id -> Outcome)
    requires Distinct(ids)
    ensures TasksRun(DrainedFrom(s, ids, budget, runner).results) ==
      TasksRun(s.results) + RunnableOf(s, ids)[..Least(Floor0(budget), |RunnableOf(s, ids)|)]
    decreases |ids|
  {
    if ids == [] || budget <= 0 {
      assert RunnableOf(s, ids)[..0] == [];
    } else {
      var id, rest := ids[0], ids[1..];
      assert id !in rest;
      if Runnable(s, id) {
        var s' := TaskRun(s, id, runner(id));
        DrainRunsFirst(s', rest, budget - 1, runner);
        OthersStayRunnable(s, id, runner(id), rest);
        TasksRunSnoc(s.results, Execution(id, s.queue.book.records[id].topic, runner(id)));
        HeadAndFirst(TasksRun(s.results), id, RunnableOf(s, rest), budget - 1);
      } else {
        DrainRunsFirst(s, rest, budget, runner);
        assert [] + RunnableOf(s, rest) == RunnableOf(s, rest);
      }
    }
  }

  lemma HeadAndFirst(before: seq<Id>, id: Id, more: seq<Id>, budget: int)
    requires budget >= 0
    ensures (before + [id]) + more[..Least(budget, |more|)] ==
      before + ([id] + more)[..Least(budget + 1, |more| + 1)]
  {
  }

  // The tasks a drain adds to the log, in the order they were run.
  function RunBy(s: Circulation, s': Circulation): seq<Id>
    requires s.results <= s'.results
  {
    TasksRun(s'.results[|s.results|..])
  }

  lemma RunByDrain(s: Circulation, maxTasks: int, runner: Id -> Outcome)
    requires Sound(s.queue.book)
    ensures s.results <= Drain(s, maxTasks, runner).results
    ensures
      var mayRun := RunnableOf(s, DrainOrder(s));
      RunBy(s, Drain(s, maxTasks, runner)) == mayRun[..Least(Floor0(maxTasks), |mayRun|)]
  {
    var s' := Drain(s, maxTasks, runner);
    DrainIsBounded(s, DrainOrder(s), maxTasks, runner);
    DrainOrderIsOpen(s);
    DrainRunsFirst(s, DrainOrder(s), maxTasks, runner);
    assert TasksRun(s'.results) == TasksRun(s.results) + RunBy(s, s');
    assert TasksRun(s'.results)[|s.results|..] == RunBy(s, s');
  }

  lemma {:induction false} OpenIdsAre(records: map<Id, Task>, ids: seq<Id>)
    requires Distinct(ids)
    ensures Distinct(OpenIds(records, ids))
    ensures forall id :: id in OpenIds(records, ids) <==> id in ids && id in records && IsOpen(records[id].status)
  {
    if ids != [] {
      var n := |ids| - 1;
      OpenIdsAre(records, ids[..n]);
      assert forall id :: id in ids <==> id in ids[..n] || id == ids[n];
      assert ids[n] !in ids[..n];
    }
  }

  lemma BeforeInPrefix(ids: seq<Id>, n: nat, x: Id, y: Id)
    requires n <= |ids| && Before(ids[..n], x, y)
    ensures Before(ids, x, y)
  {
    var i, j :| 0 <= i < j < n && ids[..n][i] == x && ids[..n][j] == y;
    assert ids[i] == x && ids[j] == y;
  }

  lemma BeforeLast(ids: seq<Id>, x: Id, y: Id)
    requires x in ids
    ensures Before(ids + [y], x, y)
  {
    var i :| 0 <= i < |ids| && ids[i] == x;
    assert (ids + [y])[i] == x && (ids + [y])[|ids|] == y;
  }

  lemma BeforeSplits(ids: seq<Id>, x: Id, y: Id)
    requires Before(ids, x, y)
    ensures
      var n := |ids| - 1;
      Before(ids[..n], x, y) || (x in ids[..n] && ids[n] == y)
  {
    var n := |ids| - 1;
    var i, j :| 0 <= i < j < |ids| && ids[i] == x && ids[j] == y;
    assert ids[..n][i] == x;
    if j < n {
      assert ids[..n][j] == y;
    }
  }

  lemma {:induction false} OpenIdsKeepOrder(records: map<Id, Task>, ids: seq<Id>, x: Id, y: Id)
    requires Before(ids, x, y) && OpenNow(records, x) && OpenNow(records, y) && Distinct(ids)
    ensures Before(OpenIds(records, ids), x, y)
  {
    var n := |ids| - 1;
    var before := OpenIds(records, ids[..n]);
    BeforeSplits(ids, x, y);
    if Before(ids[..n], x, y) {
      OpenIdsKeepOrder(records, ids[..n], x, y);
      assert OpenIds(records, ids)[..|before|] == before;
      BeforeInPrefix(OpenIds(records, ids), |before|, x, y);
    } else {
      OpenIdsAre(records, ids[..n]);
      BeforeLast(before, x, y);
    }
  }

  predicate OpenNow(records: map<Id, Task>, id: Id) {
    id in records && IsOpen(records[id].status)
  }

  lemma DrainOrderIsOpen(s: Circulation)
    requires Sound(s.queue.book)
    ensures Distinct(DrainOrder(s))
    ensures forall id :: Runnable(s, id) ==> id in DrainOrder(s)
  {
    var records, order := s.queue.book.records, s.queue.book.order;
    var open := OpenIds(records, order);
    OpenIdsAre(records, order);
    SortDescSorts(open, ByPriority(records));
    SortIsDistinct(open, ByPriority(records));
    forall id | Runnable(s, id) ensures id in DrainOrder(s) {
      assert id in open && id in multiset(open);
      assert id in multiset(DrainOrder(s));
    }
  }

  lemma {:induction false} SortIsDistinct(ids: seq<Id>, key: Id -> real)
    requires Distinct(ids)
    ensures Distinct(SortDesc(ids, key))
  {
    if ids != [] {
      assert ids[0] !in ids[1..];
      SortIsDistinct(ids[1..], key);
      SortDescSorts(ids[1..], key);
      assert forall id :: id in ids[1..] <==> id in multiset(SortDesc(ids[1..], key));
      InsertIsDistinct(ids[0], SortDesc(ids[1..], key), key);
    }
  }

  lemma {:induction false} InsertIsDistinct(id: Id, ids: seq<Id>, key: Id -> real)
    requires Distinct(ids) && id !in ids
    ensures Distinct(InsertDesc(id, ids, key))
  {
    if ids != [] && key(id) < key(ids[0]) {
      assert ids[0] !in ids[1..];
      InsertIsDistinct(id, ids[1..], key);
      InsertHas(id, ids[1..], key, ids[0]);
    }
  }

  lemma {:induction false} RunnableKeepsOrder(s: Circulation, ids: seq<Id>, x: Id, y: Id)
    requires Before(ids, x, y) && Runnable(s, x) && Runnable(s, y)
    ensures Before(RunnableOf(s, ids), x, y)
  {
    BeforeTail(ids, x, y);
    RunnableIsAmong(s, ids[1..]);
    var rest := RunnableOf(s, ids[1..]);
    if Before(ids[1..], x, y) {
      RunnableKeepsOrder(s, ids[1..], x, y);
    }
    if Runnable(s, ids[0]) {
      BeforeCons(ids[0], rest, x, y);
    } else {
      assert [] + rest == rest;
    }
  }

  // a goes before b: it has the higher priority, or the same and the earlier place in the queue.
  ghost predicate Preferred(s: Circulation, a: Id, b: Id)
    requires a in s.queue.book.records && b in s.queue.book.records
  {
    var pa, pb := s.queue.book.records[a].priority, s.queue.book.records[b].priority;
    pa > pb || (pa == pb && Before(s.queue.book.order, a, b))
  }

  lemma PreferredGoesFirst(s: Circulation, a: Id, b: Id)
    requires Sound(s.queue.book) && Runnable(s, a) && Runnable(s, b) && Preferred(s, a, b)
    ensures Before(RunnableOf(s, DrainOrder(s)), a, b)
  {
    var records, order := s.queue.book.records, s.queue.book.order;
    var open, key := OpenIds(records, order), ByPriority(records);
    OpenIdsAre(records, order);
    if key(a) == key(b) {
      OpenIdsKeepOrder(records, order, a, b);
    }
    SortPutsBefore(open, key, a, b);
    RunnableKeepsOrder(s, DrainOrder(s), a, b);
  }

  lemma FirstOnes(ids: seq<Id>, n: nat, a: Id, b: Id)
    requires Distinct(ids) && n <= |ids| && Before(ids, a, b) && b in ids[..n]
    ensures Before(ids[..n], a, b)
  {
    var i, j :| 0 <= i < j < |ids| && ids[i] == a && ids[j] == b;
    var k :| 0 <= k < n && ids[..n][k] == b;
    assert ids[k] == b && k == j;
    assert ids[..n][i] == a && ids[..n][j] == b;
  }

  /** A drain takes the best. From any state, whatever its limit, if it runs a task then it runs every task before
  it that may be run and has a higher priority, or the same and an earlier place in the queue; and it runs them in
  that order. */
  lemma DrainTakesTheBest(s: Circulation, maxTasks: int, runner: Id -> Outcome, a: Id, b: Id)
    requires Sound(s.queue.book) && Runnable(s, a) && Runnable(s, b) && Preferred(s, a, b)
    ensures s.results <= Drain(s, maxTasks, runner).results
    ensures b in RunBy(s, Drain(s, maxTasks, runner)) ==> Before(RunBy(s, Drain(s, maxTasks, runner)), a, b)
  {
    var mayRun := RunnableOf(s, DrainOrder(s));
    RunByDrain(s, maxTasks, runner);
    PreferredGoesFirst(s, a, b);
    DrainOrderIsOpen(s);
    RunnableIsAmong(s, DrainOrder(s));
    if b in RunBy(s, Drain(s, maxTasks, runner)) {
      FirstOnes(mayRun, Least(Floor0(maxTasks), |mayRun|), a, b);
    }
  }

  // The tasks that may be run.
  ghost function MayRun(s: Circulation): set<Id> {
    set id | id in s.queue.book.records && s.queue.book.records[id].status == Pending &&
             Harmless(s.queue.book.records[id])
  }

  lemma {:induction false} DistinctSize(ids: seq<Id>, all: set<Id>)
    requires Distinct(ids) && forall id :: id in ids <==> id in all
    ensures |ids| == |all|
  {
    if ids == [] {
      assert all == {};
    } else {
      var n := |ids| - 1;
      assert ids[n] !in ids[..n];
      assert forall id :: id in ids[..n] <==> id in all - {ids[n]} by {
        assert forall id :: id in ids <==> id in ids[..n] || id == ids[n];
      }
      DistinctSize(ids[..n], all - {ids[n]});
    }
  }

  /** And it takes as many as it can: exactly its limit, floored at zero, or all that may be run if those are fewer;
  each once, and nothing else. */
  lemma DrainTakesAsMany(s: Circulation, maxTasks: int, runner: Id -> Outcome)
    requires Sound(s.queue.book)
    ensures s.results <= Drain(s, maxTasks, runner).results
    ensures
      var ran := RunBy(s, Drain(s, maxTasks, runner));
      && |ran| == (if maxTasks < 0 then 0 else if maxTasks < |MayRun(s)| then maxTasks else |MayRun(s)|)
      && Distinct(ran) && (forall id :: id in ran ==> id in MayRun(s))
  {
    var mayRun := RunnableOf(s, DrainOrder(s));
    RunByDrain(s, maxTasks, runner);
    DrainOrderIsOpen(s);
    RunnableIsAmong(s, DrainOrder(s));
    forall id ensures id in mayRun <==> id in MayRun(s) {
      if id in s.queue.book.records {
        MemoryOnlyIsHarmless(s.queue.book.records[id]);
      }
    }
    DistinctSize(mayRun, MayRun(s));
  }
}
