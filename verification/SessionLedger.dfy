/** The session ledger: a second, separately written reading of the same events. It starts from the
persistent memory, keeps one row of state per batch row, fixes source trust for the whole session,
and answers queries. Default flags: nothing ablated, plasticity and consolidation allowed. */
module SessionLedger {
  import opened Arithmetic
  import opened CortexSpec
  import opened CortexTheorems
  import opened CortexStore

  // The entries of one batch row at one key, across the ledger tensors.
  datatype Slot = Slot(
    current: int, archive: int, known: bool, archiveKnown: bool, route: int, hasRoute: bool, conflictSeen: bool)

  datatype Row = Row(slots: seq<Slot>, pressure: int)

  datatype Action = Commit | Inhibit | Revise | Recover | RelateAction | Ignore

  // The argmax of the decision and action logits; decision n_values is UNKNOWN.
  datatype Answer = Answer(decision: int, action: Action)

  const STATES: int := 5

  // The functional symbols of the seven registers.
  datatype Symbols = Symbols(
    working: int, state: int, conflict: int, relation: int, pressure: int, provenance: int, archive: int)

  datatype Output = Output(answer: Answer, symbols: Symbols)

  predicate RowFits(sh: Shape, r: Row) {
    |r.slots| == sh.keys && forall k :: 0 <= k < sh.keys ==> 0 <= r.slots[k].route < sh.keys
  }

  // The persistent state a session can start from.
  predicate CanSeed(sh: Shape, m: Memory) {
    Fits(sh, m) && forall k :: 0 <= k < sh.keys ==> 0 <= m.cells[k].relation < sh.keys
  }

  function Clip(x: int, top: int): int {
    if x < 0 then 0 else if x > top then top else x
  }

  function SeedSlot(c: Cell): Slot {
    Slot(c.current, c.archive, c.known, c.archiveKnown, c.relation, c.hasRelation, false)
  }

  function Seed(sh: Shape, m: Memory): (r: Row)
    requires CanSeed(sh, m)
    ensures RowFits(sh, r)
  {
    Row(seq(sh.keys, k requires 0 <= k < sh.keys => SeedSlot(m.cells[k])), 0)
  }

  // Trust does not move during a session.
  predicate Trusted(trust: seq<int>, e: Event)
    requires e.source < |trust|
  {
    e.hint == 2 || Clip(trust[e.source], 2) == 2
  }

  // The entries at the event's key after one event.
  function SlotStep(sh: Shape, s: Slot, e: Event, trusted: bool): Slot {
    if IsConflict(e.kind) then s.(conflictSeen := true)
    else if !trusted then s
    else if e.kind.Relate? then s.(route := Clip(e.rel, sh.keys - 1), hasRoute := true)
    else if IsWrite(e.kind) then
      var displaced := s.known && s.current != e.value;
      s.(archive := if displaced then s.current else s.archive,
         archiveKnown := s.archiveKnown || displaced,
         current := Clip(e.value, sh.values - 1), known := true)
    else s
  }

  function PressureStep(pressure: int, kind: EventKind): int {
    if IsConflict(kind) || kind.SourceFlip? || kind.Delay? then 1
    else if kind.Correct? || kind.ArchiveQuery? then 0
    else pressure
  }

  // The ledger state after one event.
  function Advanced(sh: Shape, trust: seq<int>, r: Row, e: Event): (r': Row)
    requires RowFits(sh, r) && |trust| == sh.sources && InRange(sh, e)
    ensures RowFits(sh, r')
  {
    Row(r.slots[e.key := SlotStep(sh, r.slots[e.key], e, Trusted(trust, e))], PressureStep(r.pressure, e.kind))
  }

  function EffectiveKey(sh: Shape, r: Row, e: Event): (k: nat)
    requires RowFits(sh, r) && InRange(sh, e)
    ensures k < sh.keys
  {
    var s := r.slots[e.key];
    if e.kind.Query? && e.rel != e.key && s.hasRoute then s.route else e.key
  }

  // The answer read off the ledger state once the event itself has been applied.
  function Label(sh: Shape, trust: seq<int>, r: Row, e: Event): Answer
    requires RowFits(sh, r) && |trust| == sh.sources && InRange(sh, e)
  {
    var s := r.slots[e.key];
    match e.kind
    case Query =>
      var grounding := r.slots[EffectiveKey(sh, r, e)];
      if !grounding.known then Answer(sh.values, Inhibit)
      else Answer(Clip(grounding.current, sh.values),
                  if s.conflictSeen && !Trusted(trust, e) then Inhibit else Commit)
    case ArchiveQuery =>
      if !s.archiveKnown && !s.known then Answer(sh.values, Inhibit)
      else Answer(Clip(if s.archiveKnown then s.archive else s.current, sh.values), Recover)
    case Correct => Answer(Clip(e.value, sh.values - 1), Revise)
    case Relate => Answer(Clip(r.slots[s.route].current, sh.values), RelateAction)
    case Conflict => Answer(Clip(s.current, sh.values), if Trusted(trust, e) then Ignore else Inhibit)
    case RuleFlip => Answer(Clip(s.current, sh.values), if Trusted(trust, e) then Ignore else Inhibit)
    case _ => Answer(Clip(s.current, sh.values), Ignore)
  }

  // Key and content in one number; 0 is kept for none.
  function Pair(k: int, width: int, content: int): int {
    k * width + content + 1
  }

  // The register symbols read off the same state.
  function SymbolsOf(sh: Shape, trust: seq<int>, r: Row, e: Event): Symbols
    requires RowFits(sh, r) && |trust| == sh.sources && InRange(sh, e)
  {
    var s := r.slots[e.key];
    var recalled := if s.archiveKnown then s.archive else s.current;
    Symbols(
      Clip(if s.known then Pair(e.key, sh.values, s.current) else 0, sh.keys * sh.values),
      Clip(e.phase, STATES - 1),
      if s.conflictSeen || IsConflict(e.kind) then 1 else 0,
      Clip(if s.hasRoute then Pair(e.key, sh.keys, s.route) else 0, sh.keys * sh.keys),
      Clip(r.pressure, 1),
      if Trusted(trust, e) then e.source + 1 else 0,
      Clip(if s.archiveKnown || s.known then Pair(e.key, sh.values, recalled) else 0, sh.keys * sh.values))
  }

  function OutputOf(sh: Shape, trust: seq<int>, r: Row, e: Event): Output
    requires RowFits(sh, r) && |trust| == sh.sources && InRange(sh, e)
  {
    Output(Label(sh, trust, r, e), SymbolsOf(sh, trust, r, e))
  }

  function After(sh: Shape, trust: seq<int>, r: Row, es: seq<Event>): (r': Row)
    requires RowFits(sh, r) && |trust| == sh.sources && AllInRange(sh, es)
    ensures RowFits(sh, r')
  {
    if es == [] then r
    else
      assert AllInRange(sh, es[..|es| - 1]);
      Advanced(sh, trust, After(sh, trust, r, es[..|es| - 1]), es[|es| - 1])
  }

  // What a session seeded from m puts out at step t of the row es, which is all it depends on.
  function OutputAt(sh: Shape, m: Memory, es: seq<Event>, t: nat): Output
    requires CanSeed(sh, m) && AllInRange(sh, es) && t < |es|
  {
    assert AllInRange(sh, es[..t + 1]);
    OutputOf(sh, m.trust, After(sh, m.trust, Seed(sh, m), es[..t + 1]), es[t])
  }

  function AnswerAt(sh: Shape, m: Memory, es: seq<Event>, t: nat): Answer
    requires CanSeed(sh, m) && AllInRange(sh, es) && t < |es|
  {
    OutputAt(sh, m, es, t).answer
  }

  // ---------------------------------------------------------------- the ledger in place

  /** One session over a batch: a row of tensors per batch row, advanced one time step at a time. */
  class Session {
    const sh: Shape
    const trust: seq<int>
    var rows: seq<Row>

    ghost predicate Valid()
      reads this
    {
      |trust| == sh.sources && forall b :: 0 <= b < |rows| ==> RowFits(sh, rows[b])
    }

    constructor (store: CortexMemory, batch: nat)
      requires store.Valid() && CanSeed(store.sh, store.Contents())
      ensures Valid() && sh == store.sh && trust == store.Contents().trust
      ensures |rows| == batch && forall b :: 0 <= b < batch ==> rows[b] == Seed(store.sh, store.Contents())
    {
      sh := store.sh;
      var w := store.Clone();
      trust := w.trust;
      var row := Row(seq(store.sh.keys, k requires 0 <= k < store.sh.keys && w.KeyBuffersFit(store.sh) =>
                       Slot(w.current[k], w.archive[k], w.known[k], w.archiveKnown[k],
                            w.relation[k], w.hasRelation[k], false)),
                     0);
      assert row.slots == Seed(store.sh, store.Contents()).slots;
      rows := seq(batch, _ => row);
    }

    // The masked updates of one row, in the order in which the tensors are written.
    method Update(b: nat, e: Event)
      requires Valid() && b < |rows| && InRange(sh, e)
      modifies this`rows
      ensures Valid() && rows == old(rows)[b := Advanced(sh, trust, old(rows[b]), e)]
    {
      var s, pressure := rows[b].slots[e.key], rows[b].pressure;
      var reliable := e.hint == 2 || Clip(trust[e.source], 2) == 2;
      if IsConflict(e.kind) || e.kind.SourceFlip? || e.kind.Delay? {
        pressure := 1;
      }
      if e.kind.Correct? || e.kind.ArchiveQuery? {
        pressure := 0;
      }
      if IsConflict(e.kind) {
        s := s.(conflictSeen := true);
      }
      if e.kind.Relate? && reliable {
        s := s.(route := Clip(e.rel, sh.keys - 1));
        s := s.(hasRoute := true);
      }
      if IsWrite(e.kind) && reliable {
        if s.known && s.current != e.value {
          s := s.(archive := s.current);
          s := s.(archiveKnown := true);
        }
        s := s.(current := Clip(e.value, sh.values - 1));
        s := s.(known := true);
      }
      rows := rows[b := Row(rows[b].slots[e.key := s], pressure)];
    }

    // The chain of overrides that turns the ledger state into labels.
    method Read(b: nat, e: Event) returns (answer: Answer)
      requires Valid() && b < |rows| && InRange(sh, e)
      ensures answer == Label(sh, trust, rows[b], e)
    {
      var r, k := rows[b], e.key;
      var s := r.slots[k];
      var reliable := e.hint == 2 || Clip(trust[e.source], 2) == 2;
      var eff := if s.hasRoute && e.kind.Query? && e.rel != k then s.route else k;
      var flagged := s.conflictSeen || IsConflict(e.kind);
      var decision, action := s.current, Ignore;
      if e.kind.Query? {
        decision := r.slots[eff].current;
        action := if !flagged || reliable then Commit else Inhibit;
      }
      if e.kind.ArchiveQuery? {
        decision := if s.archiveKnown then s.archive else s.current;
        action := Recover;
      }
      if e.kind.Correct? {
        decision, action := Clip(e.value, sh.values - 1), Revise;
      }
      if IsConflict(e.kind) && !reliable {
        decision, action := s.current, Inhibit;
      }
      if e.kind.Relate? {
        decision, action := r.slots[s.route].current, RelateAction;
      }
      if (e.kind.Query? && !r.slots[eff].known) || (e.kind.ArchiveQuery? && !(s.archiveKnown || s.known)) {
        decision, action := sh.values, Inhibit;
      }
      answer := Answer(Clip(decision, sh.values), action);
    }

    // The functional register symbols, from the same ledger state.
    method ReadSymbols(b: nat, e: Event) returns (symbols: Symbols)
      requires Valid() && b < |rows| && InRange(sh, e)
      ensures symbols == SymbolsOf(sh, trust, rows[b], e)
    {
      var r, k := rows[b], e.key;
      var s := r.slots[k];
      var flagged := s.conflictSeen || IsConflict(e.kind);
      var trusted := e.hint == 2 || Clip(trust[e.source], 2) == 2;
      var recalled := if s.archiveKnown then s.archive else s.current;
      var working, archive, relation := 0, 0, 0;
      if s.known {
        working := k * sh.values + s.current + 1;
      }
      if s.archiveKnown || s.known {
        archive := k * sh.values + recalled + 1;
      }
      if s.hasRoute {
        relation := k * sh.keys + s.route + 1;
      }
      symbols := Symbols(
        Clip(working, sh.keys * sh.values), Clip(e.phase, STATES - 1), if flagged then 1 else 0,
        Clip(relation, sh.keys * sh.keys), Clip(r.pressure, 1), if trusted then e.source + 1 else 0,
        Clip(archive, sh.keys * sh.values));
    }

    // One time step of the whole batch.
    method Advance(slice: seq<Event>) returns (outputs: seq<Output>)
      requires Valid() && |slice| == |rows| && AllInRange(sh, slice)
      modifies this`rows
      ensures Valid() && |rows| == |slice| && |outputs| == |slice|
      ensures forall b :: 0 <= b < |slice| ==> rows[b] == Advanced(sh, trust, old(rows[b]), slice[b])
      ensures forall b :: 0 <= b < |slice| ==> outputs[b] == OutputOf(sh, trust, rows[b], slice[b])
    {
      outputs := [];
      var b := 0;
      while b < |slice|
        invariant 0 <= b <= |slice| == |rows| && |outputs| == b
        invariant Valid()
        invariant forall i :: 0 <= i < b ==> rows[i] == Advanced(sh, trust, old(rows[i]), slice[i])
        invariant forall i :: b <= i < |rows| ==> rows[i] == old(rows[i])
        invariant forall i :: 0 <= i < b ==> outputs[i] == OutputOf(sh, trust, rows[i], slice[i])
      {
        Update(b, slice[b]);
        var answer := Read(b, slice[b]);
        var symbols := ReadSymbols(b, slice[b]);
        outputs := outputs + [Output(answer, symbols)];
        b := b + 1;
      }
    }
  }

  predicate Rectangular(x: seq<seq<Event>>, steps: nat) {
    forall b :: 0 <= b < |x| ==> |x[b]| == steps
  }

  // Every row of the session has run its own first t events, and only those.
  ghost predicate RunTo(sh: Shape, m: Memory, x: seq<seq<Event>>, rows: seq<Row>, t: nat)
    requires CanSeed(sh, m) && RowsInRange(sh, x)
  {
    |rows| == |x| && forall b :: 0 <= b < |x| ==> HasRun(sh, m, x[b], rows[b], t)
  }

  ghost predicate HasRun(sh: Shape, m: Memory, es: seq<Event>, r: Row, t: nat)
    requires CanSeed(sh, m) && AllInRange(sh, es)
  {
    t <= |es| && AllInRange(sh, es[..t]) && r == After(sh, m.trust, Seed(sh, m), es[..t])
  }

  ghost predicate PutOut(sh: Shape, m: Memory, x: seq<seq<Event>>, outputs: seq<Output>, t: nat)
    requires CanSeed(sh, m) && RowsInRange(sh, x)
  {
    |outputs| == |x| && forall b :: 0 <= b < |x| ==> t < |x[b]| && outputs[b] == OutputAt(sh, m, x[b], t)
  }

  lemma RunsOn(sh: Shape, m: Memory, es: seq<Event>, r: Row, t: nat)
    requires CanSeed(sh, m) && AllInRange(sh, es) && HasRun(sh, m, es, r, t) && t < |es|
    ensures HasRun(sh, m, es, Advanced(sh, m.trust, r, es[t]), t + 1)
    ensures OutputOf(sh, m.trust, Advanced(sh, m.trust, r, es[t]), es[t]) == OutputAt(sh, m, es, t)
  {
    assert es[..t + 1][..t] == es[..t];
  }

  // The loop over time steps, on a session just seeded from m.
  method Serve(session: Session, ghost m: Memory, x: seq<seq<Event>>, steps: nat) returns (outputs: seq<seq<Output>>)
    requires session.Valid() && CanSeed(session.sh, m) && session.trust == m.trust
    requires Rectangular(x, steps) && RowsInRange(session.sh, x) && RunTo(session.sh, m, x, session.rows, 0)
    modifies session
    ensures |outputs| == steps
    ensures forall t :: 0 <= t < steps ==> PutOut(session.sh, m, x, outputs[t], t)
  {
    ghost var sh := session.sh;
    outputs := [];
    var t := 0;
    while t < steps
      invariant 0 <= t <= steps && |outputs| == t
      invariant session.Valid()
      invariant RunTo(sh, m, x, session.rows, t)
      invariant forall i :: 0 <= i < t ==> PutOut(sh, m, x, outputs[i], i)
    {
      var slice := seq(|x|, b requires 0 <= b < |x| => x[b][t]);
      ghost var before := session.rows;
      var output := session.Advance(slice);
      forall b | 0 <= b < |x|
        ensures HasRun(sh, m, x[b], session.rows[b], t + 1) && output[b] == OutputAt(sh, m, x[b], t)
      {
        RunsOn(sh, m, x[b], before[b], t);
      }
      outputs := outputs + [output];
      t := t + 1;
    }
  }

  /** A forward pass over a batch. Each row is answered as if it were alone: no other row, and no earlier
  session, enters the outputs of row b. */
  method Forward(store: CortexMemory, x: seq<seq<Event>>, steps: nat) returns (outputs: seq<seq<Output>>)
    requires store.Valid() && CanSeed(store.sh, store.Contents())
    requires Rectangular(x, steps) && RowsInRange(store.sh, x)
    ensures |outputs| == steps
    ensures forall t :: 0 <= t < steps ==> PutOut(store.sh, store.Contents(), x, outputs[t], t)
  {
    ghost var m := store.Contents();
    var session := new Session(store, |x|);
    outputs := Serve(session, m, x, steps);
  }

  // ---------------------------------------------------------------- grounding

  predicate WritesTo(trust: seq<int>, e: Event, k: nat)
    requires e.source < |trust|
  {
    e.key == k && (e.kind.Observe? || e.kind.Correct? || e.kind.SourceFlip?) && Trusted(trust, e)
  }

  predicate RoutesFrom(trust: seq<int>, e: Event, k: nat)
    requires e.source < |trust|
  {
    e.key == k && e.kind.Relate? && Trusted(trust, e)
  }

  // Position of the latest reliable write to k, or -1.
  function LatestWrite(sh: Shape, trust: seq<int>, es: seq<Event>, k: nat): (i: int)
    requires |trust| == sh.sources && AllInRange(sh, es)
    ensures -1 <= i < |es|
    ensures i >= 0 ==> WritesTo(trust, es[i], k)
    ensures forall j :: i < j < |es| ==> !WritesTo(trust, es[j], k)
  {
    var n := |es| - 1;
    if n < 0 then -1 else if WritesTo(trust, es[n], k) then n else LatestWrite(sh, trust, es[..n], k)
  }

  // Position of the latest reliable relation announced for k, or -1.
  function LatestRoute(sh: Shape, trust: seq<int>, es: seq<Event>, k: nat): (i: int)
    requires |trust| == sh.sources && AllInRange(sh, es)
    ensures -1 <= i < |es|
    ensures i >= 0 ==> RoutesFrom(trust, es[i], k)
    ensures forall j :: i < j < |es| ==> !RoutesFrom(trust, es[j], k)
  {
    var n := |es| - 1;
    if n < 0 then -1 else if RoutesFrom(trust, es[n], k) then n else LatestRoute(sh, trust, es[..n], k)
  }

  // Some conflict or rule flip has been announced for k.
  predicate ConflictOn(es: seq<Event>, k: nat) {
    exists i :: 0 <= i < |es| && es[i].key == k && (es[i].kind.Conflict? || es[i].kind.RuleFlip?)
  }

  lemma ConflictOnSnoc(es: seq<Event>, e: Event, k: nat)
    ensures ConflictOn(es + [e], k) <==> ConflictOn(es, k) || (e.key == k && IsConflict(e.kind))
  {
    var es' := es + [e];
    if ConflictOn(es, k) {
      var i :| 0 <= i < |es| && es[i].key == k && (es[i].kind.Conflict? || es[i].kind.RuleFlip?);
      assert es'[i] == es[i];
    }
    assert es'[|es|] == e;
  }

  // What a slot says when the latest reliable write and relation are at w and p.
  ghost predicate Holds(sh: Shape, s: Slot, c: Cell, es: seq<Event>, w: int, p: int)
    requires w < |es| && p < |es|
  {
    && s.known == (w >= 0 || c.known)
    && s.current == (if w >= 0 then Clip(es[w].value, sh.values - 1) else c.current)
    && s.hasRoute == (p >= 0 || c.hasRelation)
    && s.route == (if p >= 0 then Clip(es[p].rel, sh.keys - 1) else c.relation)
  }

  ghost predicate ConflictIsSeen(s: Slot, es: seq<Event>, k: nat) {
    s.conflictSeen <==> ConflictOn(es, k)
  }

  lemma {:induction false} RowHoldsLatest(sh: Shape, m: Memory, es: seq<Event>, k: nat)
    requires CanSeed(sh, m) && AllInRange(sh, es) && k < sh.keys
    ensures Holds(sh, After(sh, m.trust, Seed(sh, m), es).slots[k], m.cells[k], es,
                  LatestWrite(sh, m.trust, es, k), LatestRoute(sh, m.trust, es, k))
  {
    if es != [] {
      var before, e := es[..|es| - 1], es[|es| - 1];
      RowHoldsLatest(sh, m, before, k);
      var r := After(sh, m.trust, Seed(sh, m), before);
      assert After(sh, m.trust, Seed(sh, m), es).slots[k] ==
        if e.key == k then SlotStep(sh, r.slots[k], e, Trusted(m.trust, e)) else r.slots[k];
    }
  }

  lemma {:induction false} RowSeesConflicts(sh: Shape, m: Memory, es: seq<Event>, k: nat)
    requires CanSeed(sh, m) && AllInRange(sh, es) && k < sh.keys
    ensures ConflictIsSeen(After(sh, m.trust, Seed(sh, m), es).slots[k], es, k)
  {
    if es != [] {
      var before, e := es[..|es| - 1], es[|es| - 1];
      RowSeesConflicts(sh, m, before, k);
      ConflictOnSnoc(before, e, k);
      assert es == before + [e];
    }
  }

  // The key a query is grounded in: the latest reliable relation, asked for by a rel field other than the key itself.
  function GroundingKey(sh: Shape, m: Memory, es: seq<Event>, q: Event): (k: nat)
    requires CanSeed(sh, m) && AllInRange(sh, es) && InRange(sh, q)
    ensures k < sh.keys
  {
    var p := LatestRoute(sh, m.trust, es, q.key);
    if q.rel == q.key then q.key
    else if p >= 0 then Clip(es[p].rel, sh.keys - 1)
    else if m.cells[q.key].hasRelation then m.cells[q.key].relation
    else q.key
  }

  /** Answers are grounded: a query is answered with the latest earlier reliable write of its own row to the
  grounding key, else with the persistent value if that key is known, else with UNKNOWN and inhibition. A grounded
  answer is committed to exactly when the query is trusted or no conflict on its key came earlier in the row. */
  lemma QueriesAreGrounded(sh: Shape, m: Memory, es: seq<Event>, t: nat)
    requires CanSeed(sh, m) && CellsOk(sh, m.cells) && AllInRange(sh, es) && t < |es| && es[t].kind.Query?
    ensures AllInRange(sh, es[..t])
    ensures
      var k := GroundingKey(sh, m, es[..t], es[t]);
      var w := LatestWrite(sh, m.trust, es[..t], k);
      var answer := AnswerAt(sh, m, es, t);
      var action := if Trusted(m.trust, es[t]) || !ConflictOn(es[..t], es[t].key) then Commit else Inhibit;
      if w >= 0 then answer == Answer(Clip(es[w].value, sh.values - 1), action)
      else if m.cells[k].known then answer == Answer(m.cells[k].current, action) && answer.decision < sh.values
      else answer == Answer(sh.values, Inhibit)
  {
    var before, upTo := es[..t], es[..t + 1];
    assert AllInRange(sh, upTo);
    assert upTo[..|upTo| - 1] == before;
    var r, r' := After(sh, m.trust, Seed(sh, m), before), After(sh, m.trust, Seed(sh, m), upTo);
    assert r' == Advanced(sh, m.trust, r, es[t]);
    assert r'.slots == r.slots;
    RowHoldsLatest(sh, m, before, es[t].key);
    RowHoldsLatest(sh, m, before, GroundingKey(sh, m, before, es[t]));
    RowSeesConflicts(sh, m, before, es[t].key);
  }

  // ---------------------------------------------------------------- what every other step answers

  // The value the row has for a key: its latest reliable write, else the persistent one.
  function ValueOf(sh: Shape, m: Memory, es: seq<Event>, k: nat): int
    requires CanSeed(sh, m) && AllInRange(sh, es) && k < sh.keys
  {
    var w := LatestWrite(sh, m.trust, es, k);
    if w >= 0 then Clip(es[w].value, sh.values - 1) else m.cells[k].current
  }

  // The key related to a key: by its latest reliable relation, else by the persistent one.
  function RelatedKey(sh: Shape, m: Memory, es: seq<Event>, k: nat): (r: nat)
    requires CanSeed(sh, m) && AllInRange(sh, es) && k < sh.keys
    ensures r < sh.keys
  {
    var p := LatestRoute(sh, m.trust, es, k);
    if p >= 0 then Clip(es[p].rel, sh.keys - 1) else m.cells[k].relation
  }

  lemma SlotHasValue(sh: Shape, m: Memory, es: seq<Event>, k: nat)
    requires CanSeed(sh, m) && CellsOk(sh, m.cells) && AllInRange(sh, es) && k < sh.keys
    ensures
      var s := After(sh, m.trust, Seed(sh, m), es).slots[k];
      s.current == Clip(s.current, sh.values) == ValueOf(sh, m, es, k) && s.route == RelatedKey(sh, m, es, k)
  {
    RowHoldsLatest(sh, m, es, k);
    assert CellOk(sh, m.cells[k]);
  }

  /** What is no question is answered from the row's own events, the step itself included. A relation is answered with
  the value of the key related to its key, a correction with the value it announces, trusted or not, and everything
  else with the value of its own key; an untrusted conflict or rule flip is inhibited. */
  lemma StepsAreAnswered(sh: Shape, m: Memory, es: seq<Event>, t: nat)
    requires CanSeed(sh, m) && CellsOk(sh, m.cells) && AllInRange(sh, es) && t < |es|
    ensures AllInRange(sh, es[..t + 1])
    ensures
      var e, upTo, answer := es[t], es[..t + 1], AnswerAt(sh, m, es, t);
      var value := ValueOf(sh, m, upTo, e.key);
      match e.kind
      case Query => true
      case ArchiveQuery => true
      case Relate => answer == Answer(ValueOf(sh, m, upTo, RelatedKey(sh, m, upTo, e.key)), RelateAction)
      case Correct => answer == Answer(Clip(e.value, sh.values - 1), Revise)
      case Conflict => answer == Answer(value, if Trusted(m.trust, e) then Ignore else Inhibit)
      case RuleFlip => answer == Answer(value, if Trusted(m.trust, e) then Ignore else Inhibit)
      case Observe => answer == Answer(value, Ignore)
      case SourceFlip => answer == Answer(value, Ignore)
      case Delay => answer == Answer(value, Ignore)
      case Distractor => answer == Answer(value, Ignore)
  {
    var e, upTo := es[t], es[..t + 1];
    assert AllInRange(sh, upTo);
    SlotHasValue(sh, m, upTo, e.key);
    SlotHasValue(sh, m, upTo, RelatedKey(sh, m, upTo, e.key));
  }

  // ---------------------------------------------------------------- what the register symbols reveal

  // Something has raised the pressure, and nothing after it has let it off.
  predicate UnderPressure(es: seq<Event>) {
    exists i :: 0 <= i < |es| && Raises(es[i].kind) && forall j :: i < j < |es| ==> !LetsOff(es[j].kind)
  }

  predicate Raises(kind: EventKind) {
    kind.Conflict? || kind.RuleFlip? || kind.SourceFlip? || kind.Delay?
  }

  predicate LetsOff(kind: EventKind) {
    kind.Correct? || kind.ArchiveQuery?
  }

  lemma UnderPressureSnoc(es: seq<Event>, e: Event)
    ensures UnderPressure(es + [e]) <==> Raises(e.kind) || (UnderPressure(es) && !LetsOff(e.kind))
  {
    var es' := es + [e];
    if Raises(e.kind) {
      assert Raises(es'[|es|].kind);
    }
    if UnderPressure(es) && !LetsOff(e.kind) {
      var i :| 0 <= i < |es| && Raises(es[i].kind) && forall j :: i < j < |es| ==> !LetsOff(es[j].kind);
      assert Raises(es'[i].kind);
    }
    if UnderPressure(es') && !Raises(e.kind) {
      var i :| 0 <= i < |es'| && Raises(es'[i].kind) && forall j :: i < j < |es'| ==> !LetsOff(es'[j].kind);
      assert !LetsOff(es'[|es|].kind);
      assert Raises(es[i].kind) && forall j :: i < j < |es| ==> es'[j] == es[j];
    }
  }

  lemma {:induction false} RowFeelsPressure(sh: Shape, m: Memory, es: seq<Event>)
    requires CanSeed(sh, m) && AllInRange(sh, es)
    ensures After(sh, m.trust, Seed(sh, m), es).pressure == if UnderPressure(es) then 1 else 0
  {
    if es != [] {
      var before, e := es[..|es| - 1], es[|es| - 1];
      RowFeelsPressure(sh, m, before);
      UnderPressureSnoc(before, e);
      assert es == before + [e];
    }
  }

  ghost predicate ContentsInRange(sh: Shape, s: Slot) {
    0 <= s.current < sh.values && 0 <= s.archive < sh.values
  }

  lemma {:induction false} ContentsStayInRange(sh: Shape, m: Memory, es: seq<Event>, k: nat)
    requires CanSeed(sh, m) && CellsOk(sh, m.cells) && AllInRange(sh, es) && k < sh.keys
    ensures ContentsInRange(sh, After(sh, m.trust, Seed(sh, m), es).slots[k])
  {
    if es == [] {
      assert CellOk(sh, m.cells[k]);
    } else {
      ContentsStayInRange(sh, m, es[..|es| - 1], k);
    }
  }

  lemma PairDecodes(k: nat, width: Positive, content: int, keys: int)
    requires 0 <= content < width && k < keys
    ensures 0 < Pair(k, width, content) <= keys * width
    ensures (Pair(k, width, content) - 1) / width == k && (Pair(k, width, content) - 1) % width == content
  {
    DivisionUndoes(k, width, content);
    KeyFits(k, keys, width);
    assert Pair(k, width, content) - 1 == k * width + content;
  }

  // A symbol says nothing, or which content belongs to which key.
  predicate Reveals(symbol: int, width: Positive, given: bool, k: int, content: int) {
    if given then symbol > 0 && (symbol - 1) / width == k && (symbol - 1) % width == content else symbol == 0
  }

  /** The symbols lose nothing: at every step of every session the working, archive and relation symbols can be read
  back into key and content, and are 0 exactly when the ledger has none; provenance names the trusted source or is
  0; conflict, pressure and state are read off the row's own events. */
  lemma SymbolsReveal(sh: Shape, m: Memory, es: seq<Event>, t: nat)
    requires CanSeed(sh, m) && CellsOk(sh, m.cells) && AllInRange(sh, es) && t < |es|
    ensures AllInRange(sh, es[..t + 1])
    ensures
      var e, symbols := es[t], OutputAt(sh, m, es, t).symbols;
      var s := After(sh, m.trust, Seed(sh, m), es[..t + 1]).slots[e.key];
      && Reveals(symbols.working, sh.values, s.known, e.key, s.current)
      && Reveals(symbols.archive, sh.values, s.archiveKnown || s.known, e.key,
                 if s.archiveKnown then s.archive else s.current)
      && Reveals(symbols.relation, sh.keys, s.hasRoute, e.key, s.route)
      && symbols.provenance == (if Trusted(m.trust, e) then e.source + 1 else 0)
      && symbols.conflict == (if ConflictOn(es[..t + 1], e.key) then 1 else 0)
      && symbols.pressure == (if UnderPressure(es[..t + 1]) then 1 else 0)
      && symbols.state == (if e.phase < 0 then 0 else if e.phase >= 5 then 4 else e.phase)
  {
    var upTo, e := es[..t + 1], es[t];
    assert AllInRange(sh, upTo);
    var s := After(sh, m.trust, Seed(sh, m), upTo).slots[e.key];
    ContentsStayInRange(sh, m, upTo, e.key);
    PairDecodes(e.key, sh.values, s.current, sh.keys);
    PairDecodes(e.key, sh.values, s.archive, sh.keys);
    PairDecodes(e.key, sh.keys, s.route, sh.keys);
    RowSeesConflicts(sh, m, upTo, e.key);
    RowFeelsPressure(sh, m, upTo);
    assert upTo[t] == e;
  }

  // ---------------------------------------------------------------- what an archive query recalls

  // The values announced for key k, oldest first, as far as the session knows.
  ghost function History(sh: Shape, m: Memory, es: seq<Event>, k: nat): seq<int>
    requires CanSeed(sh, m) && AllInRange(sh, es) && k < sh.keys
  {
    if es == [] then (if m.cells[k].known then [m.cells[k].current] else [])
    else
      var n := |es| - 1;
      History(sh, m, es[..n], k) + (if WritesTo(m.trust, es[n], k) then [es[n].value] else [])
  }

  // The value at j was displaced: what is stored of it differs from the next value as announced.
  predicate DisplacedAt(sh: Shape, h: seq<int>, j: nat)
    requires j + 1 < |h|
  {
    Clip(h[j], sh.values - 1) != h[j + 1]
  }

  // The last position whose value was displaced, or -1.
  function LastDisplaced(sh: Shape, h: seq<int>): (j: int)
    ensures -1 <= j && (j >= 0 ==> j + 1 < |h| && DisplacedAt(sh, h, j))
    ensures forall i: nat :: j < i && i + 1 < |h| ==> !DisplacedAt(sh, h, i)
  {
    var n := |h|;
    if n < 2 then -1
    else if DisplacedAt(sh, h, n - 2) then n - 2
    else
      var j := LastDisplaced(sh, h[..n - 1]);
      assert forall i: nat :: i + 2 < n ==> DisplacedAt(sh, h, i) == DisplacedAt(sh, h[..n - 1], i);
      j
  }

  // What a slot says when the key has held the values h.
  ghost predicate Recalls(sh: Shape, s: Slot, c: Cell, h: seq<int>) {
    var j := LastDisplaced(sh, h);
    && s.known == (h != [])
    && (h != [] ==> s.current == Clip(h[|h| - 1], sh.values - 1))
    && s.archiveKnown == (j >= 0 || c.archiveKnown)
    && s.archive == (if j >= 0 then Clip(h[j], sh.values - 1) else c.archive)
  }

  lemma RecallStep(sh: Shape, s: Slot, c: Cell, h: seq<int>, e: Event)
    requires Recalls(sh, s, c, h) && IsWrite(e.kind)
    ensures Recalls(sh, SlotStep(sh, s, e, true), c, h + [e.value])
  {
    var h' := h + [e.value];
    assert h'[..|h|] == h;
    assert h != [] ==> (DisplacedAt(sh, h', |h| - 1) <==> s.current != e.value);
    assert LastDisplaced(sh, h') ==
      if h != [] && DisplacedAt(sh, h', |h| - 1) then |h| - 1 else LastDisplaced(sh, h);
  }

  lemma RecallKeeps(sh: Shape, s: Slot, c: Cell, h: seq<int>, e: Event, trusted: bool)
    requires Recalls(sh, s, c, h) && !(IsWrite(e.kind) && trusted)
    ensures Recalls(sh, SlotStep(sh, s, e, trusted), c, h)
  {
  }

  lemma {:induction false} ArchiveHoldsDisplaced(sh: Shape, m: Memory, es: seq<Event>, k: nat)
    requires CanSeed(sh, m) && CellsOk(sh, m.cells) && AllInRange(sh, es) && k < sh.keys
    ensures Recalls(sh, After(sh, m.trust, Seed(sh, m), es).slots[k], m.cells[k], History(sh, m, es, k))
  {
    if es != [] {
      var n := |es| - 1;
      ArchiveHoldsDisplaced(sh, m, es[..n], k);
      var h := History(sh, m, es[..n], k);
      var r := After(sh, m.trust, Seed(sh, m), es[..n]);
      assert After(sh, m.trust, Seed(sh, m), es) == Advanced(sh, m.trust, r, es[n]);
      if WritesTo(m.trust, es[n], k) {
        RecallStep(sh, r.slots[k], m.cells[k], h, es[n]);
      } else {
        if es[n].key == k {
          RecallKeeps(sh, r.slots[k], m.cells[k], h, es[n], Trusted(m.trust, es[n]));
        }
        assert History(sh, m, es, k) == h;
      }
    }
  }

  /** An archive query recalls the value last displaced by a different reliable one, else the persistent archive,
  else the only value ever held, else UNKNOWN. */
  lemma ArchiveQueriesRecallDisplaced(sh: Shape, m: Memory, es: seq<Event>, t: nat)
    requires CanSeed(sh, m) && CellsOk(sh, m.cells) && AllInRange(sh, es)
    requires t < |es| && es[t].kind.ArchiveQuery?
    ensures AllInRange(sh, es[..t])
    ensures
      var k, answer := es[t].key, AnswerAt(sh, m, es, t);
      var h := History(sh, m, es[..t], k);
      var j := LastDisplaced(sh, h);
      if j >= 0 then answer == Answer(Clip(h[j], sh.values - 1), Recover)
      else if m.cells[k].archiveKnown then answer == Answer(m.cells[k].archive, Recover)
      else if h != [] then answer == Answer(Clip(h[|h| - 1], sh.values - 1), Recover)
      else answer == Answer(sh.values, Inhibit)
  {
    var before, upTo := es[..t], es[..t + 1];
    assert AllInRange(sh, upTo);
    assert upTo[..|upTo| - 1] == before;
    ArchiveHoldsDisplaced(sh, m, before, es[t].key);
  }

  predicate ValuesInRange(sh: Shape, es: seq<Event>) {
    forall i :: 0 <= i < |es| ==> 0 <= es[i].value < sh.values && 0 <= es[i].rel < sh.keys
  }

  // ---------------------------------------------------------------- agreement of the two memories

  // No write or relation owes its reliability to a source flip seen earlier in the same row.
  ghost predicate NothingLeansOnAFlip(trust: seq<int>, es: seq<Event>) {
    forall n :: 0 <= n < |es| && es[n].source < |trust| ==>
      (IsWrite(es[n].kind) || es[n].kind.Relate?) && RaisedBefore(es, n, es[n].source) ==>
      es[n].hint == 2 || trust[es[n].source] == 2
  }

  // The ledger entries of a key say what its persistent cell says.
  ghost predicate Agree(s: Slot, c: Cell) {
    && s.current == c.current && s.known == c.known
    && s.archive == c.archive && s.archiveKnown == c.archiveKnown
    && s.route == c.relation && s.hasRoute == c.hasRelation
  }

  lemma NothingLeansBefore(trust: seq<int>, es: seq<Event>)
    requires NothingLeansOnAFlip(trust, es) && es != []
    ensures NothingLeansOnAFlip(trust, es[..|es| - 1])
  {
    var before := es[..|es| - 1];
    forall i | 0 <= i < |before|
      ensures RaisedBefore(before, i, before[i].source) ==> RaisedBefore(es, i, es[i].source)
    {
      if RaisedBefore(before, i, before[i].source) {
        var j :| 0 <= j < i && before[j].kind.SourceFlip? && before[j].hint == 2 &&
          before[j].source == before[i].source;
        assert es[j] == before[j] && es[i] == before[i];
      }
    }
  }

  // Both memories then judge the last write or relation alike.
  lemma TrustedIsReliable(sh: Shape, m: Memory, es: seq<Event>)
    requires Fits(sh, m) && TrustOk(m.trust) && AllInRange(sh, es) && es != [] && NothingLeansOnAFlip(m.trust, es)
    ensures AllInRange(sh, es[..|es| - 1])
    ensures
      var e := es[|es| - 1];
      IsWrite(e.kind) || e.kind.Relate? ==>
        (Trusted(m.trust, e) <==> Reliable(Run(sh, m, es[..|es| - 1]).trust, e))
  {
    ReliableAtIsReliable(sh, m, es);
  }

  /** The two memory implementations agree: from the same start, over one row of in-range events in which nothing leans
  on a trust raised mid-row, the session ledger and the persistent store hold the same current, known, archive,
  archive-known and relation entries at every key that is not yet committed. */
  lemma {:induction false} LedgerAgreesWithStore(sh: Shape, m: Memory, es: seq<Event>, k: nat)
    requires CanSeed(sh, m) && TrustOk(m.trust) && AllInRange(sh, es) && ValuesInRange(sh, es) && k < sh.keys
    requires NothingLeansOnAFlip(m.trust, es) && !m.cells[k].committed
    ensures
      && !Run(sh, m, es).cells[k].committed
      && Agree(After(sh, m.trust, Seed(sh, m), es).slots[k], Run(sh, m, es).cells[k])
  {
    if es != [] {
      var before, e := es[..|es| - 1], es[|es| - 1];
      NothingLeansBefore(m.trust, es);
      LedgerAgreesWithStore(sh, m, before, k);
      TrustedIsReliable(sh, m, es);
      if e.key == k {
        AgreeStep(sh, After(sh, m.trust, Seed(sh, m), before).slots[k], Run(sh, m, before).cells[k], e,
                  Trusted(m.trust, e), Reliable(Run(sh, m, before).trust, e));
      }
    }
  }

  lemma AgreeStep(sh: Shape, s: Slot, c: Cell, e: Event, trusted: bool, reliable: bool)
    requires Agree(s, c) && !c.committed
    requires 0 <= e.value < sh.values && 0 <= e.rel < sh.keys
    requires IsWrite(e.kind) || e.kind.Relate? ==> trusted == reliable
    ensures Agree(SlotStep(sh, s, e, trusted), CellStep(sh, c, e, reliable)) && !CellStep(sh, c, e, reliable).committed
  {
  }

  lemma OneRowIsOneRun(sh: Shape, m: Memory, es: seq<Event>)
    requires MemoryOk(sh, m) && AllInRange(sh, es)
    ensures Flatten([es]) == es && Ingest(sh, m, [es]).cells == Run(sh, m, es).cells
  {
    assert [es][..0] == [];
    assert Flatten([]) + es == es;
    assert m.(trust := ClampTrust(m.trust)) == m;
  }

  /** The same agreement, stated for what ingest leaves behind. */
  lemma SessionAgreesWithIngest(sh: Shape, m: Memory, es: seq<Event>, k: nat)
    requires MemoryOk(sh, m) && AllInRange(sh, es) && ValuesInRange(sh, es) && k < sh.keys
    requires NothingLeansOnAFlip(m.trust, es) && !m.cells[k].committed
    ensures CanSeed(sh, m)
    ensures Agree(After(sh, m.trust, Seed(sh, m), es).slots[k], Ingest(sh, m, [es]).cells[k])
  {
    assert CanSeed(sh, m) by {
      forall i | 0 <= i < sh.keys ensures 0 <= m.cells[i].relation < sh.keys {
        assert CellOk(sh, m.cells[i]);
      }
    }
    OneRowIsOneRun(sh, m, es);
    LedgerAgreesWithStore(sh, m, es, k);
  }

  // What the ledger would have to hold already for an event it does not trust to make no difference.
  predicate Repeats(s: Slot, e: Event) {
    if e.kind.Relate? then s.hasRoute && s.route == e.rel else s.known && s.current == e.value
  }

  lemma TakenByStoreOnly(sh: Shape, s: Slot, c: Cell, e: Event)
    requires Agree(s, c) && !c.committed && (IsWrite(e.kind) || e.kind.Relate?)
    requires 0 <= e.value < sh.values && 0 <= e.rel < sh.keys
    ensures Agree(SlotStep(sh, s, e, false), CellStep(sh, c, e, true)) <==> Repeats(s, e)
  {
  }

  lemma RaisedIsReliable(sh: Shape, m: Memory, es: seq<Event>, e: Event)
    requires Fits(sh, m) && AllInRange(sh, es) && InRange(sh, e) && RaisedBefore(es, |es|, e.source)
    ensures AllInRange(sh, es + [e])
    ensures Run(sh, m, es + [e]).cells[e.key] == CellStep(sh, Run(sh, m, es).cells[e.key], e, true)
  {
    TrustAfterRun(sh, m, es, e.source);
    assert (es + [e])[..|es|] == es;
  }

  lemma OneMoreSlot(sh: Shape, m: Memory, es: seq<Event>, e: Event)
    requires CanSeed(sh, m) && AllInRange(sh, es) && InRange(sh, e)
    ensures AllInRange(sh, es + [e])
    ensures
      After(sh, m.trust, Seed(sh, m), es + [e]).slots[e.key] ==
      SlotStep(sh, After(sh, m.trust, Seed(sh, m), es).slots[e.key], e, Trusted(m.trust, e))
  {
    assert (es + [e])[..|es|] == es;
  }

  /** Each condition is needed. The first write or relation that leans on a raised trust, after a row in which nothing
  did, is taken by the store and not by the ledger: it leaves the two agreeing exactly when it repeats what the ledger
  holds. */
  lemma LeaningSeparates(sh: Shape, m: Memory, es: seq<Event>, e: Event)
    requires CanSeed(sh, m) && TrustOk(m.trust) && AllInRange(sh, es) && ValuesInRange(sh, es)
    requires NothingLeansOnAFlip(m.trust, es) && InRange(sh, e) && !m.cells[e.key].committed
    requires 0 <= e.value < sh.values && 0 <= e.rel < sh.keys && (IsWrite(e.kind) || e.kind.Relate?)
    requires RaisedBefore(es, |es|, e.source) && !Trusted(m.trust, e)
    ensures AllInRange(sh, es + [e])
    ensures
      var s := After(sh, m.trust, Seed(sh, m), es).slots[e.key];
      var s' := After(sh, m.trust, Seed(sh, m), es + [e]).slots[e.key];
      Agree(s', Run(sh, m, es + [e]).cells[e.key]) <==> Repeats(s, e)
  {
    LedgerAgreesWithStore(sh, m, es, e.key);
    RaisedIsReliable(sh, m, es, e);
    OneMoreSlot(sh, m, es, e);
    TakenByStoreOnly(sh, After(sh, m.trust, Seed(sh, m), es).slots[e.key], Run(sh, m, es).cells[e.key], e);
  }

  // Values are wrapped by the store and clamped by the ledger, which also compares them before clamping.
  predicate StoredAlike(sh: Shape, s: Slot, v: int) {
    && Clip(v, sh.values - 1) == v % sh.values
    && (s.known && s.current == v % sh.values && s.current != v ==> s.archiveKnown && s.archive == s.current)
  }

  /** One trusted write or relation of any value leaves agreeing entries in agreement exactly when clamping and
  wrapping store it alike, which every value in range is. */
  lemma RangeSeparates(sh: Shape, s: Slot, c: Cell, e: Event)
    requires Agree(s, c) && !c.committed && 0 <= c.current < sh.values
    ensures IsWrite(e.kind) ==>
      (Agree(SlotStep(sh, s, e, true), CellStep(sh, c, e, true)) <==> StoredAlike(sh, s, e.value))
    ensures e.kind.Relate? ==>
      (Agree(SlotStep(sh, s, e, true), CellStep(sh, c, e, true)) <==> Clip(e.rel, sh.keys - 1) == e.rel % sh.keys)
    ensures 0 <= e.value < sh.values ==> StoredAlike(sh, s, e.value)
  {
  }

  /** The value just above the range is one the two store differently. */
  lemma OutOfRangeSeparates(sh: Shape)
    requires sh.values >= 2
    ensures
      var m, e := EmptyMemory(sh), Event(Observe, 0, sh.values, 0, 0, 0, 2);
      && CanSeed(sh, m) && AllInRange(sh, [e])
      && Run(sh, m, [e]).cells[0].current == 0
      && After(sh, m.trust, Seed(sh, m), [e]).slots[0].current == sh.values - 1
  {
    var m, e := EmptyMemory(sh), Event(Observe, 0, sh.values, 0, 0, 0, 2);
    assert [e][..0] == [];
    assert Run(sh, m, [e]) == Step(sh, m, e);
    assert After(sh, m.trust, Seed(sh, m), [e]) == Advanced(sh, m.trust, Seed(sh, m), e);
  }

  /** A flip that raises trust, then a hintless observation of the same source. */
  lemma RaisedTrustSeparates(sh: Shape)
    requires sh.values >= 2
    ensures
      var m := EmptyMemory(sh);
      var es := [Event(SourceFlip, 0, 0, 0, 0, 0, 2), Event(Observe, 0, 1, 0, 0, 0, 0)];
      && CanSeed(sh, m) && AllInRange(sh, es)
      && Run(sh, m, es).cells[0].current == 1
      && After(sh, m.trust, Seed(sh, m), es).slots[0].current == 0
  {
    var m := EmptyMemory(sh);
    var flip, see := Event(SourceFlip, 0, 0, 0, 0, 0, 2), Event(Observe, 0, 1, 0, 0, 0, 0);
    var es := [flip, see];
    assert es[..1] == [flip];
    assert [flip][..0] == [];
    assert Run(sh, m, [flip]) == Step(sh, m, flip);
    assert After(sh, m.trust, Seed(sh, m), [flip]) == Advanced(sh, m.trust, Seed(sh, m), flip);
  }

  /** And on a committed key any differing reliable write separates them: the store resists it, the ledger takes it. */
  lemma CommitmentSeparates(sh: Shape, m: Memory, e: Event)
    requires MemoryOk(sh, m) && CanSeed(sh, m) && InRange(sh, e) && 0 <= e.value < sh.values
    requires IsWrite(e.kind) && e.hint == 2 && m.cells[e.key].committed && m.cells[e.key].current != e.value
    ensures AllInRange(sh, [e])
    ensures Run(sh, m, [e]).cells[e.key].current == m.cells[e.key].current
    ensures After(sh, m.trust, Seed(sh, m), [e]).slots[e.key].current == e.value
  {
    assert [e][..0] == [];
    assert Run(sh, m, [e]) == Step(sh, m, e);
    assert After(sh, m.trust, Seed(sh, m), [e]) == Advanced(sh, m.trust, Seed(sh, m), e);
  }
}
