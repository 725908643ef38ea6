/** What the addressable memory keeps over whole runs of clear, ingest and sleep, and what the
sleep-gated arbitration amounts to. */
module CortexTheorems {
  import opened CortexSpec

  // ---------------------------------------------------------------- the state invariant

  ghost predicate CellOk(sh: Shape, c: Cell) {
    && (c.committed ==> c.known)
    && (c.archiveKnown ==> c.known)
    && (c.challengerCount > 0 ==> c.committed && c.challenger != c.current)
    && 0 <= c.current < sh.values
    && 0 <= c.archive < sh.values
    && 0 <= c.challenger < sh.values
    && 0 <= c.relation < sh.keys
    && 0 <= c.commitCount && 0 <= c.challengerCount
  }

  ghost predicate Conserved(a: Account) {
    a.total == a.active + a.resolved + a.archived && a.active >= 0.0 && a.resolved >= 0.0 && a.archived >= 0.0
  }

  ghost predicate PriorOk(p: seq<seq<real>>) {
    && IsSquare(p)
    && (forall i, j :: 0 <= i < REGISTERS && 0 <= j < REGISTERS ==> -PRIOR_BOUND <= p[i][j] <= PRIOR_BOUND)
    && (forall i :: 0 <= i < REGISTERS ==> p[i][i] == 0.0)
  }

  ghost predicate CellsOk(sh: Shape, cells: seq<Cell>) {
    forall k :: 0 <= k < |cells| ==> CellOk(sh, cells[k])
  }

  ghost predicate TrustOk(trust: seq<int>) {
    forall s :: 0 <= s < |trust| ==> 0 <= trust[s] <= 2
  }

  ghost predicate AllConserved(z: seq<Account>) {
    forall r :: 0 <= r < |z| ==> Conserved(z[r])
  }

  ghost predicate MemoryOk(sh: Shape, m: Memory) {
    Fits(sh, m) && CellsOk(sh, m.cells) && TrustOk(m.trust) && AllConserved(m.z) && PriorOk(m.prior)
  }

  // The part of the invariant that survives inside an ingest call, where the prior is not yet clamped.
  ghost predicate WakingOk(sh: Shape, m: Memory) {
    Fits(sh, m) && CellsOk(sh, m.cells) && TrustOk(m.trust) && AllConserved(m.z)
  }

  lemma TensionStepConserves(sh: Shape, z: seq<Account>, e: Event, reliable: bool, c: Cell)
    requires |z| == REGISTERS && AllConserved(z)
    ensures AllConserved(TensionStep(sh, z, e, reliable, c))
  {
    assert AllConserved(AlarmTension(z, e.kind));
  }

  lemma StepKeepsWakingOk(sh: Shape, m: Memory, e: Event)
    requires WakingOk(sh, m) && InRange(sh, e)
    ensures WakingOk(sh, Step(sh, m, e))
  {
    var c, reliable := m.cells[e.key], Reliable(m.trust, e);
    assert CellOk(sh, CellStep(sh, c, e, reliable));
    TensionStepConserves(sh, m.z, e, reliable, c);
  }

  lemma {:induction false} RunKeepsWakingOk(sh: Shape, m: Memory, es: seq<Event>)
    requires WakingOk(sh, m) && AllInRange(sh, es)
    ensures WakingOk(sh, Run(sh, m, es))
  {
    if es != [] {
      RunKeepsWakingOk(sh, m, es[..|es| - 1]);
      StepKeepsWakingOk(sh, Run(sh, m, es[..|es| - 1]), es[|es| - 1]);
    }
  }

  lemma IngestKeepsOk(sh: Shape, m: Memory, rows: seq<seq<Event>>)
    requires MemoryOk(sh, m) && RowsInRange(sh, rows)
    ensures MemoryOk(sh, Ingest(sh, m, rows))
  {
    FlattenInRange(sh, rows);
    var start := m.(trust := ClampTrust(m.trust));
    RunKeepsWakingOk(sh, start, Flatten(rows));
  }

  lemma {:induction false} CyclesConserve(z: seq<Account>, cycles: nat)
    requires AllConserved(z)
    ensures AllConserved(DigestCycles(z, cycles))
  {
    if cycles > 0 {
      CyclesConserve(z, cycles - 1);
      var before := DigestCycles(z, cycles - 1);
      forall r | 0 <= r < |before| ensures Conserved(DigestAll(before)[r]) {
      }
    }
  }

  lemma SleepKeepsOk(sh: Shape, m: Memory, cycles: int)
    requires MemoryOk(sh, m)
    ensures MemoryOk(sh, Sleep(sh, m, cycles))
  {
    forall k | 0 <= k < |m.cells| ensures CellOk(sh, SleepCell(m.cells[k])) {
      assert CellOk(sh, m.cells[k]);
    }
    CyclesConserve(m.z, if cycles > 1 then cycles else 1);
  }

  /** Every run of clear, ingest and sleep keeps the invariant: committed or archived keys are known, a
  pending challenger only exists against a committed value and differs from it, every stored
  index is in range, trust stays in 0..2, Z is conserved, and the prior is bounded with a zero diagonal. */
  lemma {:induction false} LiveKeepsOk(sh: Shape, m: Memory, ops: seq<Op>)
    requires MemoryOk(sh, m) && OpsInRange(sh, ops)
    ensures MemoryOk(sh, Live(sh, m, ops))
  {
    if ops != [] {
      var before, op := ops[..|ops| - 1], ops[|ops| - 1];
      assert OpsInRange(sh, before);
      LiveKeepsOk(sh, m, before);
      match op
      case Clear =>
      case Wake(rows) =>
        assert OpInRange(sh, op);
        IngestKeepsOk(sh, Live(sh, m, before), rows);
      case Rest(cycles) => SleepKeepsOk(sh, Live(sh, m, before), cycles);
    }
  }

  lemma ReachableIsOk(sh: Shape, ops: seq<Op>)
    requires OpsInRange(sh, ops)
    ensures MemoryOk(sh, Live(sh, EmptyMemory(sh), ops))
  {
    LiveKeepsOk(sh, EmptyMemory(sh), ops);
  }

  // ---------------------------------------------------------------- batch boundaries

  lemma {:induction false} RunConcat(sh: Shape, m: Memory, a: seq<Event>, b: seq<Event>)
    requires Fits(sh, m) && AllInRange(sh, a) && AllInRange(sh, b)
    ensures AllInRange(sh, a + b)
    ensures Run(sh, m, a + b) == Run(sh, Run(sh, m, a), b)
  {
    if b == [] {
      assert a + b == a;
    } else {
      assert (a + b)[..|a + b| - 1] == a + b[..|b| - 1];
      RunConcat(sh, m, a, b[..|b| - 1]);
    }
  }

  lemma {:induction false} FlattenConcat(x: seq<seq<Event>>, y: seq<seq<Event>>)
    ensures Flatten(x + y) == Flatten(x) + Flatten(y)
  {
    if y == [] {
      assert x + y == x;
    } else {
      assert (x + y)[..|x + y| - 1] == x + y[..|y| - 1];
      FlattenConcat(x, y[..|y| - 1]);
    }
  }

  function Settle(m: Memory): Memory
    requires IsSquare(m.prior)
  {
    m.(prior := SettlePrior(m.prior))
  }

  // Ingest only ever adds to the prior, off the diagonal.
  ghost predicate PriorFloor(p: seq<seq<real>>) {
    && IsSquare(p)
    && (forall i, j :: 0 <= i < REGISTERS && 0 <= j < REGISTERS ==> -PRIOR_BOUND <= p[i][j])
    && (forall i :: 0 <= i < REGISTERS ==> p[i][i] == 0.0)
  }

  lemma BumpSettles(p: seq<seq<real>>, q: seq<seq<real>>, i: nat, j: nat, d: real)
    requires PriorFloor(p) && PriorFloor(q) && SettlePrior(p) == SettlePrior(q)
    requires i < REGISTERS && j < REGISTERS && i != j && d >= 0.0
    ensures PriorFloor(Bump(p, i, j, d)) && PriorFloor(Bump(q, i, j, d))
    ensures SettlePrior(Bump(p, i, j, d)) == SettlePrior(Bump(q, i, j, d))
  {
    assert forall a, b :: 0 <= a < REGISTERS && 0 <= b < REGISTERS ==>
      SettlePrior(p)[a][b] == SettlePrior(q)[a][b];
    var p', q' := SettlePrior(Bump(p, i, j, d)), SettlePrior(Bump(q, i, j, d));
    forall a | 0 <= a < REGISTERS ensures p'[a] == q'[a] {
      forall b | 0 <= b < REGISTERS ensures p'[a][b] == q'[a][b] {
        assert SettlePrior(p)[a][b] == SettlePrior(q)[a][b];
      }
    }
  }

  lemma PriorStepSettles(sh: Shape, p: seq<seq<real>>, q: seq<seq<real>>, e: Event, reliable: bool, c: Cell)
    requires PriorFloor(p) && PriorFloor(q) && SettlePrior(p) == SettlePrior(q)
    ensures PriorFloor(PriorStep(sh, p, e, reliable, c)) && PriorFloor(PriorStep(sh, q, e, reliable, c))
    ensures SettlePrior(PriorStep(sh, p, e, reliable, c)) == SettlePrior(PriorStep(sh, q, e, reliable, c))
  {
    BumpSettles(p, q, RELATION, WORKING, 0.02);
    BumpSettles(Bump(p, RELATION, WORKING, 0.02), Bump(q, RELATION, WORKING, 0.02), WORKING, RELATION, 0.02);
    BumpSettles(p, q, WORKING, PROVENANCE, 0.01);
    BumpSettles(Bump(p, WORKING, PROVENANCE, 0.01), Bump(q, WORKING, PROVENANCE, 0.01), PROVENANCE, WORKING, 0.01);
  }

  lemma {:induction false} RunSettles(sh: Shape, m: Memory, n: Memory, es: seq<Event>)
    requires Fits(sh, m) && Fits(sh, n) && AllInRange(sh, es)
    requires PriorFloor(m.prior) && PriorFloor(n.prior) && Settle(m) == Settle(n)
    ensures Settle(Run(sh, m, es)) == Settle(Run(sh, n, es))
    ensures PriorFloor(Run(sh, m, es).prior) && PriorFloor(Run(sh, n, es).prior)
  {
    if es != [] {
      var before, e := es[..|es| - 1], es[|es| - 1];
      RunSettles(sh, m, n, before);
      var a, b := Run(sh, m, before), Run(sh, n, before);
      PriorStepSettles(sh, a.prior, b.prior, e, Reliable(a.trust, e), a.cells[e.key]);
    }
  }

  lemma SettleIsIdempotent(p: seq<seq<real>>)
    requires IsSquare(p)
    ensures SettlePrior(SettlePrior(p)) == SettlePrior(p)
  {
    var q := SettlePrior(p);
    forall i | 0 <= i < REGISTERS ensures SettlePrior(q)[i] == q[i] {
      assert forall j :: 0 <= j < REGISTERS ==> SettlePrior(q)[i][j] == q[i][j];
    }
  }

  /** Splitting a batch over two ingest calls changes nothing, the per-call clamp of the plastic prior included. */
  lemma BatchBoundariesInvisible(sh: Shape, m: Memory, x: seq<seq<Event>>, y: seq<seq<Event>>)
    requires MemoryOk(sh, m) && RowsInRange(sh, x) && RowsInRange(sh, y)
    ensures RowsInRange(sh, x + y)
    ensures Ingest(sh, Ingest(sh, m, x), y) == Ingest(sh, m, x + y)
  {
    FlattenInRange(sh, x);
    FlattenInRange(sh, y);
    FlattenConcat(x, y);
    IngestKeepsOk(sh, m, x);
    var once := Ingest(sh, m, x);
    var raw := Run(sh, m, Flatten(x));
    assert m.(trust := ClampTrust(m.trust)) == m;
    assert once == Settle(raw);
    RunSettles(sh, m, m, Flatten(x));
    SettleIsIdempotent(raw.prior);
    RunSettles(sh, once, raw, Flatten(y));
    RunConcat(sh, m, Flatten(x), Flatten(y));
    assert once.(trust := ClampTrust(once.trust)) == once;
  }

  function Joined(batches: seq<seq<seq<Event>>>): seq<seq<Event>> {
    if batches == [] then [] else Joined(batches[..|batches| - 1]) + batches[|batches| - 1]
  }

  ghost predicate BatchesInRange(sh: Shape, batches: seq<seq<seq<Event>>>) {
    forall i :: 0 <= i < |batches| ==> RowsInRange(sh, batches[i])
  }

  // Any number of ingest calls in a row.
  function IngestAll(sh: Shape, m: Memory, batches: seq<seq<seq<Event>>>): (r: Memory)
    requires Fits(sh, m) && (forall i :: 0 <= i < |batches| ==> RowsInRange(sh, batches[i]))
    ensures Fits(sh, r)
  {
    if batches == [] then m
    else Ingest(sh, IngestAll(sh, m, batches[..|batches| - 1]), batches[|batches| - 1])
  }

  lemma IngestNothing(sh: Shape, m: Memory)
    requires MemoryOk(sh, m)
    ensures Ingest(sh, m, []) == m
  {
    assert m.(trust := ClampTrust(m.trust)) == m;
    forall i | 0 <= i < REGISTERS ensures SettlePrior(m.prior)[i] == m.prior[i] {
      assert forall j :: 0 <= j < REGISTERS ==> SettlePrior(m.prior)[i][j] == m.prior[i][j];
    }
    assert SettlePrior(m.prior) == m.prior;
  }

  lemma {:induction false} IngestAllIsOneIngest(sh: Shape, m: Memory, batches: seq<seq<seq<Event>>>)
    requires MemoryOk(sh, m) && BatchesInRange(sh, batches)
    ensures RowsInRange(sh, Joined(batches))
    ensures IngestAll(sh, m, batches) == Ingest(sh, m, Joined(batches))
  {
    if batches == [] {
      IngestNothing(sh, m);
    } else {
      var before, last := batches[..|batches| - 1], batches[|batches| - 1];
      IngestAllIsOneIngest(sh, m, before);
      BatchBoundariesInvisible(sh, m, Joined(before), last);
    }
  }

  // ---------------------------------------------------------------- what counts as reliable

  // Some event before position n is a source flip of `source` carrying the trusting hint.
  ghost predicate RaisedBefore(es: seq<Event>, n: nat, source: nat) {
    exists i :: 0 <= i < n && i < |es| && es[i].kind.SourceFlip? && es[i].hint == 2 && es[i].source == source
  }

  ghost predicate ReliableAt(trust: seq<int>, es: seq<Event>, n: nat)
    requires n < |es| && es[n].source < |trust|
  {
    es[n].hint == 2 || trust[es[n].source] == 2 || RaisedBefore(es, n, es[n].source)
  }

  lemma {:induction false} TrustAfterRun(sh: Shape, m: Memory, es: seq<Event>, source: nat)
    requires Fits(sh, m) && AllInRange(sh, es) && source < sh.sources
    ensures Run(sh, m, es).trust[source] == (if RaisedBefore(es, |es|, source) then 2 else m.trust[source])
  {
    if es != [] {
      var before, e := es[..|es| - 1], es[|es| - 1];
      TrustAfterRun(sh, m, before, source);
      assert RaisedBefore(es, |es|, source) <==>
        RaisedBefore(before, |before|, source) || (e.kind.SourceFlip? && e.hint == 2 && e.source == source)
      by {
        if RaisedBefore(before, |before|, source) {
          var i :| 0 <= i < |before| && before[i].kind.SourceFlip? && before[i].hint == 2 && before[i].source == source;
          assert es[i] == before[i];
        }
        if RaisedBefore(es, |es|, source) {
          var i :| 0 <= i < |es| && es[i].kind.SourceFlip? && es[i].hint == 2 && es[i].source == source;
          assert i == |es| - 1 || before[i] == es[i];
        }
      }
    }
  }

  lemma ReliableAtIsReliable(sh: Shape, m: Memory, es: seq<Event>)
    requires Fits(sh, m) && AllInRange(sh, es) && es != []
    ensures AllInRange(sh, es[..|es| - 1])
    ensures Reliable(Run(sh, m, es[..|es| - 1]).trust, es[|es| - 1]) <==> ReliableAt(m.trust, es, |es| - 1)
  {
    var before, e := es[..|es| - 1], es[|es| - 1];
    TrustAfterRun(sh, m, before, e.source);
    assert RaisedBefore(before, |before|, e.source) <==> RaisedBefore(es, |es| - 1, e.source) by {
      assert forall i :: 0 <= i < |before| ==> before[i] == es[i];
    }
  }

  // The normalised values of the reliable writes to key k, in order.
  ghost function ReliableWrites(sh: Shape, trust: seq<int>, es: seq<Event>, k: nat): seq<int>
    requires |trust| == sh.sources && AllInRange(sh, es)
  {
    if es == [] then []
    else
      var n := |es| - 1;
      ReliableWrites(sh, trust, es[..n], k) +
      (if es[n].key == k && IsWrite(es[n].kind) && ReliableAt(trust, es, n) then [es[n].value % sh.values] else [])
  }

  // ---------------------------------------------------------------- sleep-gated arbitration

  // Length of the longest suffix of equal values.
  function TrailingRun(ws: seq<int>): nat {
    var n := |ws|;
    if n == 0 then 0
    else if n == 1 || ws[n - 1] != ws[n - 2] then 1
    else TrailingRun(ws[..n - 1]) + 1
  }

  lemma {:induction false} TrailingRunIsMaximal(ws: seq<int>)
    ensures TrailingRun(ws) <= |ws|
    ensures forall i :: |ws| - TrailingRun(ws) <= i < |ws| ==> ws[i] == ws[|ws| - 1]
    ensures 0 < TrailingRun(ws) < |ws| ==> ws[|ws| - TrailingRun(ws) - 1] != ws[|ws| - 1]
    ensures ws != [] ==> TrailingRun(ws) > 0
  {
    var n := |ws|;
    if n > 1 && ws[n - 1] == ws[n - 2] {
      TrailingRunIsMaximal(ws[..n - 1]);
    }
  }

  // The cell a committed cell has become after the reliable writes ws: only the challenge moves.
  ghost predicate ChallengedBy(before: Cell, after: Cell, ws: seq<int>) {
    && after.committed && after.known
    && after.current == before.current
    && after.archive == before.archive && after.archiveKnown == before.archiveKnown
    && (if ws == [] || ws[|ws| - 1] == before.current then after.challengerCount == 0
        else after.challengerCount == TrailingRun(ws) && after.challenger == ws[|ws| - 1])
    && (ws == [] ==> after.challenger == before.challenger)
  }

  lemma ChallengeStep(before: Cell, c: Cell, ws: seq<int>, v: int)
    requires ChallengedBy(before, c, ws) && c.challengerCount >= 0
    ensures ChallengedBy(before, WriteCell(c, v), ws + [v])
  {
    var ws' := ws + [v];
    assert ws'[..|ws'| - 1] == ws;
  }

  /** While awake, a committed value does not move: after any events the pending challenge is exactly the
  trailing run of equal reliable writes, if that run is against the committed value. */
  lemma {:induction false} WakingOnlyChallenges(sh: Shape, m: Memory, es: seq<Event>, k: nat)
    requires Fits(sh, m) && AllInRange(sh, es) && k < sh.keys
    requires m.cells[k].committed && m.cells[k].known && m.cells[k].challengerCount == 0
    ensures ChallengedBy(m.cells[k], Run(sh, m, es).cells[k], ReliableWrites(sh, m.trust, es, k))
  {
    if es != [] {
      var n := |es| - 1;
      var before, e := es[..n], es[n];
      WakingOnlyChallenges(sh, m, before, k);
      ReliableAtIsReliable(sh, m, es);
      var s := Run(sh, m, before);
      var ws := ReliableWrites(sh, m.trust, before, k);
      if e.key == k && IsWrite(e.kind) && ReliableAt(m.trust, es, n) {
        ChallengeStep(m.cells[k], s.cells[k], ws, e.value % sh.values);
      } else {
        assert ReliableWrites(sh, m.trust, es, k) == ws;
      }
    }
  }

  /** Sleep-gated arbitration against its suffix specification. For a key known at one sleep, whatever
  is ingested, over however many calls, before the next sleep, that next sleep replaces the current value exactly
  when the trailing run of equal values among the reliable writes to the key is against it and is
  at least M long; the replaced value is then archived, and otherwise current and archive are as they were. */
  lemma SleepArbitratesTrailingRun(sh: Shape, m: Memory, c1: int, batches: seq<seq<seq<Event>>>, c2: int, k: nat)
    requires MemoryOk(sh, m) && BatchesInRange(sh, batches) && k < sh.keys && m.cells[k].known
    ensures RowsInRange(sh, Joined(batches)) && AllInRange(sh, Flatten(Joined(batches)))
    ensures
      var rested := Sleep(sh, m, c1);
      var after := Sleep(sh, IngestAll(sh, rested, batches), c2).cells[k];
      var before := rested.cells[k];
      var ws := ReliableWrites(sh, m.trust, Flatten(Joined(batches)), k);
      if ws != [] && ws[|ws| - 1] != before.current && TrailingRun(ws) >= COMMIT_RETROGRADE_M
      then after.current == ws[|ws| - 1] && after.archive == before.current && after.archiveKnown
      else after.current == before.current && after.archive == before.archive
           && after.archiveKnown == before.archiveKnown
  {
    var rested := Sleep(sh, m, c1);
    SleepKeepsOk(sh, m, c1);
    IngestAllIsOneIngest(sh, rested, batches);
    FlattenInRange(sh, Joined(batches));
    assert rested.(trust := ClampTrust(rested.trust)) == rested;
    WakingOnlyChallenges(sh, rested, Flatten(Joined(batches)), k);
  }

  /** No number of ingest calls moves the current value of a committed key, or takes its commitment away. */
  lemma WakingNeverOverwritesCommitted(sh: Shape, m: Memory, batches: seq<seq<seq<Event>>>, k: nat)
    requires MemoryOk(sh, m) && BatchesInRange(sh, batches) && k < sh.keys && m.cells[k].committed
    ensures
      var c := IngestAll(sh, m, batches).cells[k];
      c.committed && c.current == m.cells[k].current && c.archive == m.cells[k].archive
  {
    IngestAllIsOneIngest(sh, m, batches);
    FlattenInRange(sh, Joined(batches));
    assert m.(trust := ClampTrust(m.trust)) == m;
    RunKeepsCommitted(sh, m, Flatten(Joined(batches)), k);
  }

  lemma {:induction false} RunKeepsCommitted(sh: Shape, m: Memory, es: seq<Event>, k: nat)
    requires Fits(sh, m) && AllInRange(sh, es) && k < sh.keys && m.cells[k].committed && m.cells[k].known
    ensures
      var c := Run(sh, m, es).cells[k];
      c.committed && c.known && c.current == m.cells[k].current && c.archive == m.cells[k].archive
  {
    if es != [] {
      RunKeepsCommitted(sh, m, es[..|es| - 1], k);
    }
  }

  /** A second sleep straight after a first changes no addressable field and no source's trust. */
  lemma SecondSleepIsIdle(sh: Shape, m: Memory, c1: int, c2: int)
    requires Fits(sh, m)
    ensures Sleep(sh, Sleep(sh, m, c1), c2).cells == Sleep(sh, m, c1).cells
    ensures Sleep(sh, Sleep(sh, m, c1), c2).trust == m.trust
  {
    forall k | 0 <= k < |m.cells| ensures SleepCell(SleepCell(m.cells[k])) == SleepCell(m.cells[k]) {
    }
  }

  /** Before commitment the last write wins: a key first learned in a run holds its last reliable write, and its
  confirmation count is the trailing run of that value. */
  lemma {:induction false} UncommittedHoldsLastWrite(sh: Shape, m: Memory, es: seq<Event>, k: nat)
    requires Fits(sh, m) && AllInRange(sh, es) && k < sh.keys
    requires !m.cells[k].known && !m.cells[k].committed
    ensures
      var c, ws := Run(sh, m, es).cells[k], ReliableWrites(sh, m.trust, es, k);
      && !c.committed && c.known == (ws != [])
      && (ws != [] ==> c.current == ws[|ws| - 1] && c.commitCount == TrailingRun(ws))
  {
    if es != [] {
      var n := |es| - 1;
      var before, e := es[..n], es[n];
      UncommittedHoldsLastWrite(sh, m, before, k);
      ReliableAtIsReliable(sh, m, es);
      var ws := ReliableWrites(sh, m.trust, before, k);
      if e.key == k && IsWrite(e.kind) && ReliableAt(m.trust, es, n) {
        var v := e.value % sh.values;
        assert (ws + [v])[..|ws|] == ws;
        assert Run(sh, m, es).cells[k] == WriteCell(Run(sh, m, before).cells[k], v);
      } else {
        assert ReliableWrites(sh, m.trust, es, k) == ws;
      }
    }
  }

  // ---------------------------------------------------------------- what the ingest report accounts for

  // The account `after` grew out of `before` by what the counts are charged at.
  ghost predicate Charged(before: Account, after: Account, active: real, archived: real) {
    && after.active == before.active + active
    && after.archived == before.archived + archived
    && after.resolved == before.resolved
    && after.total == before.total + active + archived
  }

  ghost predicate TensionIsReported(z: seq<Account>, z': seq<Account>, n: Report)
    requires |z| == |z'| == REGISTERS
  {
    && Charged(z[WORKING], z'[WORKING], 0.07 * n.writes as real, 0.0)
    && Charged(z[RELATION], z'[RELATION], 0.10 * n.relations as real, 0.0)
    && Charged(z[ARCHIVE], z'[ARCHIVE], 0.04 * n.archives as real, 0.06 * n.archives as real)
    && Charged(z[CONFLICT], z'[CONFLICT], 0.18 * n.conflicts as real + 0.12 * n.resisted as real, 0.0)
    && Charged(z[PRESSURE], z'[PRESSURE], 0.14 * n.conflicts as real + 0.10 * n.resisted as real, 0.0)
  }

  // Structural bias: writes strengthen working and provenance, relations working and relation, both ways.
  ghost predicate BiasIsReported(p: seq<seq<real>>, p': seq<seq<real>>, n: Report)
    requires IsSquare(p) && IsSquare(p')
  {
    && p'[WORKING][PROVENANCE] == p[WORKING][PROVENANCE] + 0.01 * n.writes as real
    && p'[PROVENANCE][WORKING] == p[PROVENANCE][WORKING] + 0.01 * n.writes as real
    && p'[RELATION][WORKING] == p[RELATION][WORKING] + 0.02 * n.relations as real
    && p'[WORKING][RELATION] == p[WORKING][RELATION] + 0.02 * n.relations as real
  }

  lemma WriteTensionIsReported(z0: seq<Account>, z: seq<Account>, n: Report, kind: EventKind, c: Cell, v: int)
    requires |z0| == |z| == REGISTERS && TensionIsReported(z0, z, n)
    ensures TensionIsReported(z0, WriteTension(z, kind, c, v), WriteReport(n, c, v))
  {
  }

  lemma AlarmIsReported(z0: seq<Account>, z: seq<Account>, n: Report, kind: EventKind)
    requires |z0| == |z| == REGISTERS && TensionIsReported(z0, z, n)
    ensures TensionIsReported(
      z0, AlarmTension(z, kind), if IsConflict(kind) then n.(conflicts := n.conflicts + 1) else n)
  {
  }

  lemma RelationIsReported(z0: seq<Account>, z: seq<Account>, n: Report)
    requires |z0| == |z| == REGISTERS && TensionIsReported(z0, z, n)
    ensures TensionIsReported(
      z0, Deposit(z, RELATION, 0.10, 0.10, 0.0, 0.0), n.(relations := n.relations + 1))
  {
  }

  lemma TensionStepIsReported(sh: Shape, z0: seq<Account>, z: seq<Account>, n: Report, e: Event, reliable: bool,
                              c: Cell)
    requires |z0| == |z| == REGISTERS && TensionIsReported(z0, z, n)
    ensures TensionIsReported(z0, TensionStep(sh, z, e, reliable, c), ReportStep(sh, n, e, reliable, c))
  {
    var z1, n1 := AlarmTension(z, e.kind), if IsConflict(e.kind) then n.(conflicts := n.conflicts + 1) else n;
    AlarmIsReported(z0, z, n, e.kind);
    if e.kind.Relate? && reliable {
      RelationIsReported(z0, z1, n1);
    } else if IsWrite(e.kind) && reliable {
      WriteTensionIsReported(z0, z1, n1, e.kind, c, e.value % sh.values);
    }
  }

  lemma BiasStepIsReported(sh: Shape, p0: seq<seq<real>>, p: seq<seq<real>>, n: Report, e: Event, reliable: bool,
                           c: Cell)
    requires IsSquare(p0) && IsSquare(p) && BiasIsReported(p0, p, n)
    ensures BiasIsReported(p0, PriorStep(sh, p, e, reliable, c), ReportStep(sh, n, e, reliable, c))
  {
  }

  lemma {:induction false} RunIsReported(sh: Shape, m: Memory, es: seq<Event>)
    requires Fits(sh, m) && AllInRange(sh, es)
    ensures TensionIsReported(m.z, Run(sh, m, es).z, ReportOf(sh, m, es))
    ensures BiasIsReported(m.prior, Run(sh, m, es).prior, ReportOf(sh, m, es))
  {
    if es != [] {
      var n := |es| - 1;
      var before, e := es[..n], es[n];
      RunIsReported(sh, m, before);
      var s := Run(sh, m, before);
      TensionStepIsReported(sh, m.z, s.z, ReportOf(sh, m, before), e, Reliable(s.trust, e), s.cells[e.key]);
      BiasStepIsReported(sh, m.prior, s.prior, ReportOf(sh, m, before), e, Reliable(s.trust, e), s.cells[e.key]);
    }
  }

  /** The ingest report is a receipt: from its five counters alone follow the tension the call deposited in five
  registers, channel by channel, and the four structural biases it strengthened, each up to the clamp. */
  lemma IngestReportIsReceipt(sh: Shape, m: Memory, rows: seq<seq<Event>>)
    requires MemoryOk(sh, m) && RowsInRange(sh, rows)
    ensures TensionIsReported(m.z, Ingest(sh, m, rows).z, IngestReport(sh, m, rows))
    ensures
      var n, p := IngestReport(sh, m, rows), Ingest(sh, m, rows).prior;
      && p[WORKING][PROVENANCE] == Clamp(m.prior[WORKING][PROVENANCE] + 0.01 * n.writes as real)
      && p[PROVENANCE][WORKING] == Clamp(m.prior[PROVENANCE][WORKING] + 0.01 * n.writes as real)
      && p[RELATION][WORKING] == Clamp(m.prior[RELATION][WORKING] + 0.02 * n.relations as real)
      && p[WORKING][RELATION] == Clamp(m.prior[WORKING][RELATION] + 0.02 * n.relations as real)
  {
    FlattenInRange(sh, rows);
    RunIsReported(sh, m.(trust := ClampTrust(m.trust)), Flatten(rows));
  }

  // ---------------------------------------------------------------- Z

  function Power(x: real, n: nat): real {
    if n == 0 then 1.0 else x * Power(x, n - 1)
  }

  lemma {:induction false} PowerNonNegative(n: nat)
    ensures 0.0 <= Power(0.65, n)
  {
    if n > 0 {
      PowerNonNegative(n - 1);
    }
  }

  // The share p of what was active still is; the rest went to the resolved and archived channels 65 : 35.
  ghost predicate Digested(before: Account, after: Account, p: real) {
    && after.total == before.total
    && after.active == before.active * p
    && after.resolved == before.resolved + 0.65 * (before.active - after.active)
    && after.archived == before.archived + 0.35 * (before.active - after.active)
  }

  /** After c cycles exactly active * 0.65^c is still active, and what left it went to the
  resolved and archived channels 65 : 35, the total untouched. */
  lemma {:induction false} CyclesClosedForm(z: seq<Account>, cycles: nat, r: nat)
    requires r < |z| && z[r].active >= 0.0
    ensures Digested(z[r], DigestCycles(z, cycles)[r], Power(0.65, cycles))
  {
    if cycles > 0 {
      CyclesClosedForm(z, cycles - 1, r);
      PowerNonNegative(cycles - 1);
      var p := Power(0.65, cycles - 1);
      assert DigestCycles(z, cycles - 1)[r].active == z[r].active * p >= 0.0;
      assert z[r].active * (0.65 * p) == 0.65 * (z[r].active * p);
    }
  }

  // ---------------------------------------------------------------- what the sleep report accounts for

  lemma {:induction false} CountsAgree(a: seq<Cell>, b: seq<Cell>, p: Cell -> bool, q: Cell -> bool)
    requires |a| == |b| && forall k :: 0 <= k < |a| ==> p(a[k]) == q(b[k])
    ensures Count(a, p) == Count(b, q)
  {
    if a != [] {
      CountsAgree(a[..|a| - 1], b[..|b| - 1], p, q);
    }
  }

  lemma {:induction false} SumsAfterCycles(z: seq<Account>, z': seq<Account>, p: real)
    requires |z'| == |z| && forall r :: 0 <= r < |z| ==> Digested(z[r], z'[r], p)
    ensures SumsDigested(z, z', p)
  {
    if z != [] {
      var n := |z| - 1;
      SumsAfterCycles(z[..n], z'[..n], p);
      assert Digested(z[n], z'[n], p);
      assert (ActiveSum(z[..n]) + z[n].active) * p == ActiveSum(z[..n]) * p + z[n].active * p;
    }
  }

  predicate ValueMoved(before: Cell, after: Cell) {
    after.current != before.current
  }

  lemma CommitsAreKnown(sh: Shape, m: Memory, cycles: int)
    requires Fits(sh, m) && CellsOk(sh, m.cells)
    ensures Count(m.cells, Known()) == Count(Sleep(sh, m, cycles).cells, IsCommitted())
  {
    var after := Sleep(sh, m, cycles).cells;
    forall k | 0 <= k < |m.cells| ensures Known()(m.cells[k]) == IsCommitted()(after[k]) {
      assert CellOk(sh, m.cells[k]);
    }
    CountsAgree(m.cells, after, Known(), IsCommitted());
  }

  lemma CyclesDigest(z: seq<Account>, cycles: nat)
    requires AllConserved(z)
    ensures forall r :: 0 <= r < |z| ==> Digested(z[r], DigestCycles(z, cycles)[r], Power(0.65, cycles))
  {
    forall r | 0 <= r < |z| ensures Digested(z[r], DigestCycles(z, cycles)[r], Power(0.65, cycles)) {
      CyclesClosedForm(z, cycles, r);
    }
  }

  lemma ValuesMoveAsCounted(sh: Shape, m: Memory, cycles: int)
    requires MemoryOk(sh, m)
    ensures forall k :: 0 <= k < sh.keys ==>
      (ValueMoved(m.cells[k], Sleep(sh, m, cycles).cells[k]) <==> Replaced()(m.cells[k]))
  {
    forall k | 0 <= k < sh.keys
      ensures ValueMoved(m.cells[k], Sleep(sh, m, cycles).cells[k]) <==> Replaced()(m.cells[k])
    {
      assert CellOk(sh, m.cells[k]);
    }
  }

  // Account for account what `Digested` says, of the sums: the share p of the active one is left.
  ghost predicate SumsDigested(z: seq<Account>, z': seq<Account>, p: real) {
    && ActiveSum(z') == ActiveSum(z) * p
    && ResolvedSum(z') == ResolvedSum(z) + 0.65 * (ActiveSum(z) - ActiveSum(z'))
    && ArchivedSum(z') == ArchivedSum(z) + 0.35 * (ActiveSum(z) - ActiveSum(z'))
  }

  lemma CyclesDigestSums(z: seq<Account>, cycles: nat)
    requires AllConserved(z)
    ensures SumsDigested(z, DigestCycles(z, cycles), Power(0.65, cycles))
  {
    CyclesDigest(z, cycles);
    SumsAfterCycles(z, DigestCycles(z, cycles), Power(0.65, cycles));
  }

  lemma SleepDigestsSums(sh: Shape, m: Memory, cycles: int)
    requires Fits(sh, m) && AllConserved(m.z)
    ensures SumsDigested(m.z, Sleep(sh, m, cycles).z, Power(0.65, if cycles > 1 then cycles else 1))
  {
    CyclesDigestSums(m.z, if cycles > 1 then cycles else 1);
  }

  /** The sleep report is a receipt too: it counts as commits the keys that are committed afterwards, as retrogrades
  the keys whose value the sleep replaced, and gives the sums of the tension, of which c cycles leave the share 0.65^c
  active, the rest gone to the resolved and archived sums 65 : 35. */
  lemma SleepReportIsReceipt(sh: Shape, m: Memory, cycles: int)
    requires MemoryOk(sh, m)
    ensures
      var n, after := SleepReportOf(sh, m, cycles), Sleep(sh, m, cycles);
      && n.commits == Count(after.cells, IsCommitted())
      && (forall k :: 0 <= k < sh.keys ==> (ValueMoved(m.cells[k], after.cells[k]) <==> Replaced()(m.cells[k])))
      && n.retrogrades == Count(m.cells, Replaced())
      && n.activeBefore == ActiveSum(m.z) && n.activeAfter == ActiveSum(after.z)
      && n.resolvedAfter == ResolvedSum(after.z) && n.archivedAfter == ArchivedSum(after.z)
      && n.reduction == n.activeBefore - n.activeAfter
      && SumsDigested(m.z, after.z, Power(0.65, if cycles > 1 then cycles else 1))
  {
    CommitsAreKnown(sh, m, cycles);
    ValuesMoveAsCounted(sh, m, cycles);
    SleepDigestsSums(sh, m, cycles);
  }

  // How much active tension one forward step may resolve, and the share of it that is archived.
  function ResolveLimit(gate: real, kind: EventKind): real {
    0.35 * gate * ((if kind.Correct? || kind.ArchiveQuery? then 1.0 else 0.0) + 0.10)
  }

  function ArchiveRate(kind: EventKind): real {
    (if kind.ArchiveQuery? then 0.70 else 0.0) + 0.15
  }

  // One register's Z in one forward step. `gate` is the sigmoid resolve gate, `contrib` the softplus contribution.
  function ForwardZ(a: Account, gate: real, contrib: real, kind: EventKind): Account {
    var limit := ResolveLimit(gate, kind);
    var effective := if a.active < limit then a.active else limit;
    var archiveShare := effective * ArchiveRate(kind);
    var resolveShare := effective - archiveShare;
    var active := a.active + contrib - effective;
    Account(a.total + contrib, if active < 0.0 then 0.0 else active,
            a.resolved + resolveShare, a.archived + archiveShare)
  }

  // What the forward pass feeds a register's account over a session: gate, contribution, event.
  datatype Feed = Feed(gate: real, contrib: real, kind: EventKind)

  function ForwardRun(a: Account, feeds: seq<Feed>): Account {
    if feeds == [] then a
    else
      var f := feeds[|feeds| - 1];
      ForwardZ(ForwardRun(a, feeds[..|feeds| - 1]), f.gate, f.contrib, f.kind)
  }

  lemma ForwardConserves(a: Account, gate: real, contrib: real, kind: EventKind)
    requires Conserved(a) && 0.0 <= gate <= 1.0 && contrib >= 0.0
    ensures Conserved(ForwardZ(a, gate, contrib, kind))
    ensures
      var r := ForwardZ(a, gate, contrib, kind);
      var moved := a.active + contrib - r.active;
      && r.total == a.total + contrib
      && moved == (if a.active < ResolveLimit(gate, kind) then a.active else ResolveLimit(gate, kind))
      && r.archived == a.archived + moved * (if kind.ArchiveQuery? then 0.85 else 0.15)
      && r.resolved == a.resolved + moved * (if kind.ArchiveQuery? then 0.15 else 0.85)
  {
  }

  /** The conservation term |active + resolved + archived - total| is zero for every register after any life of
  clears, ingests and sleeps followed by any forward pass seeded from the persistent Z. */
  lemma {:induction false} ConservationLossIsZero(sh: Shape, ops: seq<Op>, r: nat, feeds: seq<Feed>)
    requires OpsInRange(sh, ops) && r < REGISTERS
    requires forall i :: 0 <= i < |feeds| ==> 0.0 <= feeds[i].gate <= 1.0 && feeds[i].contrib >= 0.0
    ensures Conserved(ForwardRun(Live(sh, EmptyMemory(sh), ops).z[r], feeds))
  {
    if feeds == [] {
      ReachableIsOk(sh, ops);
    } else {
      var f := feeds[|feeds| - 1];
      ConservationLossIsZero(sh, ops, r, feeds[..|feeds| - 1]);
      var before := ForwardRun(Live(sh, EmptyMemory(sh), ops).z[r], feeds[..|feeds| - 1]);
      ForwardConserves(before, f.gate, f.contrib, f.kind);
    }
  }
}
