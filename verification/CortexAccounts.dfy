/** The rest of what the addressable memory accounts for: relations, confirmations, the counters of a report, every
register and every bias. */
module CortexAccounts {
  import opened CortexSpec
  import opened CortexTheorems

  // ---------------------------------------------------------------- relations

  // Where the reliable relations announced for key k lead, in order.
  ghost function ReliableRelations(sh: Shape, trust: seq<int>, es: seq<Event>, k: nat): seq<int>
    requires |trust| == sh.sources && AllInRange(sh, es)
  {
    if es == [] then []
    else
      var n := |es| - 1;
      ReliableRelations(sh, trust, es[..n], k) +
      (if es[n].key == k && es[n].kind.Relate? && ReliableAt(trust, es, n) then [es[n].rel % sh.keys] else [])
  }

  /** Every key, committed or not, leads where its latest reliable relation says, else where it led before. */
  lemma {:induction false} RelationHoldsLatest(sh: Shape, m: Memory, es: seq<Event>, k: nat)
    requires Fits(sh, m) && AllInRange(sh, es) && k < sh.keys
    ensures
      var c, rs := Run(sh, m, es).cells[k], ReliableRelations(sh, m.trust, es, k);
      if rs == [] then c.relation == m.cells[k].relation && c.hasRelation == m.cells[k].hasRelation
      else c.relation == rs[|rs| - 1] && c.hasRelation
  {
    if es != [] {
      RelationHoldsLatest(sh, m, es[..|es| - 1], k);
      ReliableAtIsReliable(sh, m, es);
    }
  }

  // ---------------------------------------------------------------- confirmations

  // How many of the values are v.
  function Times(ws: seq<int>, v: int): nat {
    if ws == [] then 0 else Times(ws[..|ws| - 1], v) + (if ws[|ws| - 1] == v then 1 else 0)
  }

  lemma TimesSnoc(ws: seq<int>, w: int, v: int)
    ensures Times(ws + [w], v) == Times(ws, v) + (if w == v then 1 else 0)
  {
    assert (ws + [w])[..|ws|] == ws;
  }

  lemma ConfirmedBy(c: Cell, w: int)
    requires c.committed && c.known
    ensures WriteCell(c, w).commitCount == c.commitCount + (if w == c.current then 1 else 0)
  {
  }

  // The confirmations of a cell after the reliable writes ws to it.
  ghost predicate ConfirmedTimes(before: Cell, after: Cell, ws: seq<int>) {
    && after.committed && after.known && after.current == before.current
    && after.commitCount == before.commitCount + Times(ws, before.current)
  }

  lemma ConfirmStep(before: Cell, c: Cell, ws: seq<int>, w: int)
    requires ConfirmedTimes(before, c, ws)
    ensures ConfirmedTimes(before, WriteCell(c, w), ws + [w])
  {
    TimesSnoc(ws, w, before.current);
    ConfirmedBy(c, w);
  }

  lemma {:induction false} ConfirmationsRun(sh: Shape, m: Memory, es: seq<Event>, k: nat)
    requires Fits(sh, m) && AllInRange(sh, es) && k < sh.keys && m.cells[k].committed && m.cells[k].known
    ensures ConfirmedTimes(m.cells[k], Run(sh, m, es).cells[k], ReliableWrites(sh, m.trust, es, k))
  {
    if es != [] {
      var n := |es| - 1;
      var ws, s := ReliableWrites(sh, m.trust, es[..n], k), Run(sh, m, es[..n]);
      ConfirmationsRun(sh, m, es[..n], k);
      ReliableAtIsReliable(sh, m, es);
      if es[n].key == k && IsWrite(es[n].kind) && ReliableAt(m.trust, es, n) {
        ConfirmStep(m.cells[k], s.cells[k], ws, es[n].value % sh.values);
      } else {
        assert ReliableWrites(sh, m.trust, es, k) == ws;
      }
    }
  }

  /** A committed value is confirmed once more by each reliable write that repeats it, and by nothing else. */
  lemma ConfirmationsCount(sh: Shape, m: Memory, es: seq<Event>, k: nat)
    requires Fits(sh, m) && AllInRange(sh, es) && k < sh.keys && m.cells[k].committed && m.cells[k].known
    ensures Run(sh, m, es).cells[k].commitCount ==
      m.cells[k].commitCount + Times(ReliableWrites(sh, m.trust, es, k), m.cells[k].current)
  {
    ConfirmationsRun(sh, m, es, k);
  }

  /** A sleep commits exactly the known keys and clears every challenge to them. A replaced value starts with the
  confirmations its challenger had gathered; any other keeps its own. What is known and where keys lead stay. */
  lemma SleepCommits(sh: Shape, m: Memory, cycles: int, k: nat)
    requires MemoryOk(sh, m) && k < sh.keys
    ensures
      var before, after := m.cells[k], Sleep(sh, m, cycles).cells[k];
      && after.known == before.known && after.relation == before.relation && after.hasRelation == before.hasRelation
      && (after.committed <==> before.known)
      && (before.known ==> after.challengerCount == 0)
      && after.commitCount ==
         (if after.current != before.current then before.challengerCount else before.commitCount)
      && (after.current != before.current ==> after.current == before.challenger && before.challengerCount >= 2)
  {
    assert CellOk(sh, m.cells[k]);
  }

  // ---------------------------------------------------------------- the counters of a report

  predicate TellsValue(kind: EventKind) {
    kind.Observe? || kind.Correct? || kind.SourceFlip?
  }

  // The last event is a reliable write that a committed value of the start stands against.
  ghost predicate ResistedLast(sh: Shape, m: Memory, es: seq<Event>)
    requires Fits(sh, m) && AllInRange(sh, es) && es != []
  {
    var n := |es| - 1;
    TellsValue(es[n].kind) && ReliableAt(m.trust, es, n) &&
    m.cells[es[n].key].committed && m.cells[es[n].key].current != es[n].value % sh.values
  }

  // The last event is a reliable write of another value than its key, not committed at the start, then held.
  ghost predicate DisplacesLast(sh: Shape, m: Memory, es: seq<Event>)
    requires Fits(sh, m) && AllInRange(sh, es) && es != []
  {
    var n := |es| - 1;
    var ws, c := ReliableWrites(sh, m.trust, es[..n], es[n].key), m.cells[es[n].key];
    TellsValue(es[n].kind) && ReliableAt(m.trust, es, n) && !c.committed && (ws != [] || c.known) &&
    es[n].value % sh.values != (if ws != [] then ws[|ws| - 1] else c.current)
  }

  // What there is to count in a batch.
  ghost function Counted(sh: Shape, m: Memory, es: seq<Event>): Report
    requires Fits(sh, m) && AllInRange(sh, es)
  {
    if es == [] then Report(0, 0, 0, 0, 0)
    else
      var n := |es| - 1;
      var before, kind, reliable := Counted(sh, m, es[..n]), es[n].kind, ReliableAt(m.trust, es, n);
      Report(before.writes + (if TellsValue(kind) && reliable && !ResistedLast(sh, m, es) then 1 else 0),
             before.relations + (if kind.Relate? && reliable then 1 else 0),
             before.archives + (if DisplacesLast(sh, m, es) then 1 else 0),
             before.conflicts + (if kind.Conflict? || kind.RuleFlip? then 1 else 0),
             before.resisted + (if ResistedLast(sh, m, es) then 1 else 0))
  }

  // A key not committed at the start holds its latest reliable write, else what it held.
  lemma {:induction false} UncommittedHolds(sh: Shape, m: Memory, es: seq<Event>, k: nat)
    requires Fits(sh, m) && AllInRange(sh, es) && k < sh.keys && !m.cells[k].committed
    ensures
      var c, ws := Run(sh, m, es).cells[k], ReliableWrites(sh, m.trust, es, k);
      && !c.committed && c.known == (ws != [] || m.cells[k].known)
      && c.current == (if ws != [] then ws[|ws| - 1] else m.cells[k].current)
  {
    if es != [] {
      UncommittedHolds(sh, m, es[..|es| - 1], k);
      ReliableAtIsReliable(sh, m, es);
    }
  }

  lemma ReportStepCounts(sh: Shape, m: Memory, es: seq<Event>)
    requires Fits(sh, m) && AllInRange(sh, es) && es != []
    ensures AllInRange(sh, es[..|es| - 1])
    ensures
      var n := |es| - 1;
      var s := Run(sh, m, es[..n]);
      var c, reliable := s.cells[es[n].key], Reliable(s.trust, es[n]);
      var resists := c.committed && c.current != es[n].value % sh.values;
      && (reliable <==> ReliableAt(m.trust, es, n))
      && (ResistedLast(sh, m, es) <==> TellsValue(es[n].kind) && reliable && resists)
      && (DisplacesLast(sh, m, es) <==>
            TellsValue(es[n].kind) && reliable && !resists && c.known && c.current != es[n].value % sh.values)
  {
    var n := |es| - 1;
    ReliableAtIsReliable(sh, m, es);
    CommittedAtStart(sh, m, es[..n], es[n].key);
    if !m.cells[es[n].key].committed {
      UncommittedHolds(sh, m, es[..n], es[n].key);
    }
  }

  /** The counters of a report count events of the batch. Conflicts are the conflicts and rule flips announced,
  reliable or not; relations the reliable relations; resisted the reliable writes that differ from a value committed
  before the call; writes all other reliable writes; and archives those that displace another value. */
  lemma {:induction false} ReportCounts(sh: Shape, m: Memory, es: seq<Event>)
    requires Fits(sh, m) && AllInRange(sh, es)
    ensures ReportOf(sh, m, es) == Counted(sh, m, es)
  {
    if es != [] {
      ReportCounts(sh, m, es[..|es| - 1]);
      ReportStepCounts(sh, m, es);
    }
  }

  // Awake, what is committed is what was, and holds what it held.
  lemma {:induction false} CommittedAtStart(sh: Shape, m: Memory, es: seq<Event>, k: nat)
    requires Fits(sh, m) && AllInRange(sh, es) && k < sh.keys
    ensures
      var c := Run(sh, m, es).cells[k];
      c.committed == m.cells[k].committed && (c.committed ==> c.current == m.cells[k].current)
  {
    if es != [] {
      CommittedAtStart(sh, m, es[..|es| - 1], k);
    }
  }

  // ---------------------------------------------------------------- the other registers

  // How many source flips were announced, and how many reliable corrections not resisted.
  function Flips(es: seq<Event>): nat {
    if es == [] then 0 else Flips(es[..|es| - 1]) + (if es[|es| - 1].kind.SourceFlip? then 1 else 0)
  }

  ghost function Corrections(sh: Shape, m: Memory, es: seq<Event>): nat
    requires Fits(sh, m) && AllInRange(sh, es)
  {
    if es == [] then 0
    else
      var n := |es| - 1;
      Corrections(sh, m, es[..n]) +
      (if es[n].kind.Correct? && ReliableAt(m.trust, es, n) && !ResistedLast(sh, m, es) then 1 else 0)
  }

  lemma TensionElsewhere(sh: Shape, z: seq<Account>, e: Event, reliable: bool, c: Cell)
    requires |z| == REGISTERS
    ensures
      var z' := TensionStep(sh, z, e, reliable, c);
      var flips := if e.kind.SourceFlip? then 1.0 else 0.0;
      var stored := e.kind.Correct? && reliable && !(c.committed && c.current != e.value % sh.values);
      && z'[PROVENANCE] == Account(z[PROVENANCE].total + 0.12 * flips, z[PROVENANCE].active + 0.12 * flips,
                                   z[PROVENANCE].resolved, z[PROVENANCE].archived)
      && z'[STATE] == if stored then Account(z[STATE].total + 0.07, z[STATE].active + 0.03,
                                             z[STATE].resolved + 0.04, z[STATE].archived)
                      else z[STATE]
  {
  }

  /** The two registers the counters do not speak of: provenance is charged 0.12 for each source flip, reliable or
  not, and state 0.07 for each reliable correction that was stored, 0.04 of it resolved at once. */
  lemma {:induction false} FlipsAndCorrectionsCharge(sh: Shape, m: Memory, es: seq<Event>)
    requires Fits(sh, m) && AllInRange(sh, es)
    ensures
      var z, flips, stored := Run(sh, m, es).z, Flips(es) as real, Corrections(sh, m, es) as real;
      && z[PROVENANCE] == Account(m.z[PROVENANCE].total + 0.12 * flips, m.z[PROVENANCE].active + 0.12 * flips,
                                  m.z[PROVENANCE].resolved, m.z[PROVENANCE].archived)
      && z[STATE] == Account(m.z[STATE].total + 0.07 * stored, m.z[STATE].active + 0.03 * stored,
                             m.z[STATE].resolved + 0.04 * stored, m.z[STATE].archived)
  {
    if es != [] {
      var n := |es| - 1;
      var s := Run(sh, m, es[..n]);
      FlipsAndCorrectionsCharge(sh, m, es[..n]);
      ReliableAtIsReliable(sh, m, es);
      CommittedAtStart(sh, m, es[..n], es[n].key);
      TensionElsewhere(sh, s.z, es[n], Reliable(s.trust, es[n]), s.cells[es[n].key]);
    }
  }

  // ---------------------------------------------------------------- the other biases

  // The biases events strengthen.
  predicate Strengthened(i: nat, j: nat) {
    (i == WORKING && j == PROVENANCE) || (i == PROVENANCE && j == WORKING) ||
    (i == RELATION && j == WORKING) || (i == WORKING && j == RELATION)
  }

  /** No event touches any other bias. */
  lemma {:induction false} OtherBiasesStay(sh: Shape, m: Memory, es: seq<Event>, i: nat, j: nat)
    requires Fits(sh, m) && AllInRange(sh, es) && i < REGISTERS && j < REGISTERS && !Strengthened(i, j)
    ensures Run(sh, m, es).prior[i][j] == m.prior[i][j]
  {
    if es != [] {
      OtherBiasesStay(sh, m, es[..|es| - 1], i, j);
    }
  }

  // Any number of sleeps in a row.
  function SleepAll(sh: Shape, m: Memory, cycles: seq<int>): (r: Memory)
    requires Fits(sh, m)
    ensures Fits(sh, r)
  {
    if cycles == [] then m else Sleep(sh, SleepAll(sh, m, cycles[..|cycles| - 1]), cycles[|cycles| - 1])
  }

  lemma ShrinkStays(x: real, p: real)
    requires -1.5 <= x <= 1.5 && 0.0 <= p <= 1.0
    ensures -1.5 <= p * x <= 1.5
  {
    if x >= 0.0 {
      assert p * x <= x by { Scale(p, 1.0, x); }
    } else {
      assert p * -x <= -x by { Scale(p, 1.0, -x); }
      assert p * -x == -(p * x);
    }
  }

  lemma Scale(a: real, b: real, x: real)
    requires a <= b && x >= 0.0
    ensures a * x <= b * x
  {
  }

  /** Sleep keeps 92 parts in a hundred of every bias: after n sleeps 0.92^n of it is left. */
  lemma {:induction false} SleepsFadeBias(sh: Shape, m: Memory, cycles: seq<int>, i: nat, j: nat)
    requires MemoryOk(sh, m) && i < REGISTERS && j < REGISTERS
    ensures SleepAll(sh, m, cycles).prior[i][j] == Power(0.92, |cycles|) * m.prior[i][j]
    ensures 0.0 <= Power(0.92, |cycles|) <= 1.0
  {
    if cycles != [] {
      var n := |cycles| - 1;
      SleepsFadeBias(sh, m, cycles[..n], i, j);
      var p, x := Power(0.92, n), m.prior[i][j];
      ShrinkStays(x, p);
      ShrinkStays(p * x, 0.92);
      assert 0.92 * (p * x) == (0.92 * p) * x;
    }
  }

  // ---------------------------------------------------------------- bounds and the cleared memory

  /** Trust outside 0..2 counts as the nearer bound, and a bias outside -1.5..1.5 too. */
  lemma BoundsClamp(trust: seq<int>, s: nat, x: real)
    requires s < |trust|
    ensures trust[s] < 0 ==> ClampTrust(trust)[s] == 0
    ensures 0 <= trust[s] <= 2 ==> ClampTrust(trust)[s] == trust[s]
    ensures trust[s] > 2 ==> ClampTrust(trust)[s] == 2
    ensures -1.5 <= Clamp(x) <= 1.5 && (-1.5 <= x <= 1.5 ==> Clamp(x) == x)
    ensures x > 1.5 ==> Clamp(x) == 1.5
    ensures x < -1.5 ==> Clamp(x) == -1.5
  {
  }

  /** A cleared memory knows nothing, trusts no one in particular, leads every key to itself, and feels nothing. */
  lemma ClearedKnowsNothing(sh: Shape, ops: seq<Op>)
    requires OpsInRange(sh, ops)
    ensures OpsInRange(sh, ops + [Clear])
    ensures
      var m := Live(sh, EmptyMemory(sh), ops + [Clear]);
      && (forall k: nat :: k < sh.keys ==>
            var c := m.cells[k];
            !c.known && !c.archiveKnown && !c.committed && !c.hasRelation && c.relation == k && c.challengerCount == 0)
      && (forall s: nat :: s < sh.sources ==> m.trust[s] == 1)
      && (forall r: nat :: r < REGISTERS ==> m.z[r] == Account(0.0, 0.0, 0.0, 0.0))
      && (forall i: nat, j: nat :: i < REGISTERS && j < REGISTERS ==> m.prior[i][j] == 0.0)
  {
    assert (ops + [Clear])[..|ops|] == ops;
  }
}
