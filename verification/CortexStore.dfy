/** The persistent buffers as fixed-size arrays, and the three operations that write them. As in the
cortex itself, ingest and sleep work on clones of the buffers and copy the clones back at the end. */
module CortexStore {
  import opened CortexSpec

  ghost function CellsOf(
    current: seq<int>, archive: seq<int>, known: seq<bool>, archiveKnown: seq<bool>,
    relation: seq<int>, hasRelation: seq<bool>,
    commitCount: seq<int>, committed: seq<bool>, challenger: seq<int>, challengerCount: seq<int>): (cells: seq<Cell>)
    requires |current| == |archive| == |known| == |archiveKnown| == |relation| == |hasRelation|
    requires |current| == |commitCount| == |committed| == |challenger| == |challengerCount|
    ensures |cells| == |current|
  {
    seq(|current|, k requires 0 <= k < |current| =>
      Cell(current[k], archive[k], known[k], archiveKnown[k], relation[k], hasRelation[k],
           commitCount[k], committed[k], challenger[k], challengerCount[k]))
  }

  /** The clones an operation works on: local copies of every buffer. */
  datatype Clones = Clones(
    current: seq<int>, archive: seq<int>, known: seq<bool>, archiveKnown: seq<bool>,
    relation: seq<int>, hasRelation: seq<bool>,
    commitCount: seq<int>, committed: seq<bool>, challenger: seq<int>, challengerCount: seq<int>,
    trust: seq<int>, z: seq<Account>, prior: seq<seq<real>>)
  {
    ghost predicate KeyBuffersFit(sh: Shape) {
      && |current| == sh.keys && |archive| == sh.keys && |known| == sh.keys && |archiveKnown| == sh.keys
      && |relation| == sh.keys && |hasRelation| == sh.keys
      && |commitCount| == sh.keys && |committed| == sh.keys && |challenger| == sh.keys && |challengerCount| == sh.keys
    }

    ghost predicate Valid(sh: Shape) {
      KeyBuffersFit(sh) && |trust| == sh.sources && |z| == REGISTERS && IsSquare(prior)
    }

    ghost function CellAt(sh: Shape, k: nat): Cell
      requires KeyBuffersFit(sh) && k < sh.keys
    {
      Cell(current[k], archive[k], known[k], archiveKnown[k], relation[k], hasRelation[k],
           commitCount[k], committed[k], challenger[k], challengerCount[k])
    }

    ghost function Cells(sh: Shape): (cells: seq<Cell>)
      requires KeyBuffersFit(sh)
      ensures |cells| == sh.keys
      ensures forall k: nat :: k < sh.keys ==> cells[k] == CellAt(sh, k)
    {
      CellsOf(current, archive, known, archiveKnown, relation, hasRelation,
              commitCount, committed, challenger, challengerCount)
    }

    ghost function Contents(sh: Shape): (m: Memory)
      requires Valid(sh)
      ensures Fits(sh, m)
    {
      Memory(Cells(sh), trust, z, prior)
    }

    // The per-key buffers are those of `before` except at key k, where they hold `cell`.
    ghost predicate MovedTo(sh: Shape, before: Clones, k: nat, cell: Cell)
      requires before.KeyBuffersFit(sh) && k < sh.keys
    {
      && KeyBuffersFit(sh)
      && (forall j: nat :: j < sh.keys && j != k ==> CellAt(sh, j) == before.CellAt(sh, j))
      && CellAt(sh, k) == cell
    }
  }

  // A write against a committed value: only the challenge is recorded.
  method Resist(sh: Shape, w: Clones, k: nat, v: int) returns (r: Clones)
    requires w.KeyBuffersFit(sh) && k < sh.keys && w.committed[k] && w.current[k] != v
    ensures r.MovedTo(sh, w, k, WriteCell(w.CellAt(sh, k), v))
    ensures r.trust == w.trust && r.z == w.z && r.prior == w.prior
  {
    r := w;
    if r.challenger[k] == v {
      r := r.(challengerCount := r.challengerCount[k := r.challengerCount[k] + 1]);
    } else {
      r := r.(challenger := r.challenger[k := v]);
      r := r.(challengerCount := r.challengerCount[k := 1]);
    }
  }

  // The current value moves to the archive before another one takes its place.
  method Displace(sh: Shape, w: Clones, k: nat) returns (r: Clones)
    requires w.Valid(sh) && k < sh.keys
    ensures r.Valid(sh) && r.trust == w.trust && r.prior == w.prior
    ensures r.MovedTo(sh, w, k, w.CellAt(sh, k).(archive := w.current[k], archiveKnown := true, commitCount := 0))
    ensures r.z == Deposit(w.z, ARCHIVE, 0.10, 0.04, 0.0, 0.06)
  {
    r := w.(archive := w.archive[k := w.current[k]]);
    r := r.(archiveKnown := r.archiveKnown[k := true]);
    r := r.(z := Deposit(r.z, ARCHIVE, 0.10, 0.04, 0.0, 0.06));
    r := r.(commitCount := r.commitCount[k := 0]);
  }

  // The value is stored, or confirmed, and any challenge to it dropped.
  method Record(sh: Shape, w: Clones, k: nat, v: int) returns (r: Clones)
    requires w.KeyBuffersFit(sh) && k < sh.keys
    ensures r.trust == w.trust && r.prior == w.prior && r.z == w.z
    ensures r.MovedTo(sh, w, k, w.CellAt(sh, k).(
      commitCount := if w.current[k] == v && w.known[k] then w.commitCount[k] + 1 else 1,
      current := v, known := true, challengerCount := 0))
  {
    r := w;
    if r.current[k] == v && r.known[k] {
      r := r.(commitCount := r.commitCount[k := r.commitCount[k] + 1]);
    } else {
      r := r.(commitCount := r.commitCount[k := 1]);
    }
    r := r.(current := r.current[k := v]);
    r := r.(known := r.known[k := true]);
    r := r.(challengerCount := r.challengerCount[k := 0]);
  }

  // Last write wins on an unknown, uncommitted or confirmed key.
  method Overwrite(sh: Shape, w: Clones, k: nat, v: int, kind: EventKind) returns (r: Clones)
    requires w.Valid(sh) && k < sh.keys && !(w.committed[k] && w.current[k] != v)
    ensures r.Valid(sh) && r.MovedTo(sh, w, k, WriteCell(w.CellAt(sh, k), v))
    ensures r.trust == w.trust && r.prior == w.prior
    ensures r.z == WriteTension(w.z, kind, w.CellAt(sh, k), v)
  {
    r := w;
    if r.known[k] && r.current[k] != v {
      r := Displace(sh, r, k);
    }
    r := Record(sh, r, k, v);
    r := r.(z := Deposit(r.z, WORKING, 0.07, 0.07, 0.0, 0.0));
    if kind.Correct? {
      r := r.(z := Deposit(r.z, STATE, 0.07, 0.03, 0.04, 0.0));
    }
  }

  // A reliable observation, correction or source flip.
  method Write(sh: Shape, w: Clones, e: Event, n: Report) returns (r: Clones, n': Report)
    requires w.Valid(sh) && InRange(sh, e) && IsWrite(e.kind)
    ensures n' == WriteReport(n, w.CellAt(sh, e.key), e.value % sh.values)
    ensures r.Valid(sh) && r.trust == w.trust
    ensures r.MovedTo(sh, w, e.key, WriteCell(w.CellAt(sh, e.key), e.value % sh.values))
    ensures r.z == WriteTension(w.z, e.kind, w.CellAt(sh, e.key), e.value % sh.values)
    ensures r.prior == PriorStep(sh, w.prior, e, true, w.CellAt(sh, e.key))
  {
    var k, v := e.key, e.value % sh.values;
    n' := n;
    if w.committed[k] && w.current[k] != v {
      r := Resist(sh, w, k, v);
      n' := n'.(resisted := n'.resisted + 1);
      r := r.(z := Deposit(r.z, CONFLICT, 0.12, 0.12, 0.0, 0.0));
      r := r.(z := Deposit(r.z, PRESSURE, 0.10, 0.10, 0.0, 0.0));
    } else {
      if w.known[k] && w.current[k] != v {
        n' := n'.(archives := n'.archives + 1);
      }
      r := Overwrite(sh, w, k, v, e.kind);
      n' := n'.(writes := n'.writes + 1);
      r := r.(prior := Bump(r.prior, WORKING, PROVENANCE, 0.01));
      r := r.(prior := Bump(r.prior, PROVENANCE, WORKING, 0.01));
    }
  }

  // A relation announced by a reliable source.
  method Route(sh: Shape, w: Clones, e: Event) returns (r: Clones)
    requires w.Valid(sh) && InRange(sh, e) && e.kind.Relate?
    ensures r.Valid(sh) && r.trust == w.trust
    ensures r.MovedTo(sh, w, e.key, CellStep(sh, w.CellAt(sh, e.key), e, true))
    ensures r.z == Deposit(w.z, RELATION, 0.10, 0.10, 0.0, 0.0)
    ensures r.prior == PriorStep(sh, w.prior, e, true, w.CellAt(sh, e.key))
  {
    r := w.(relation := w.relation[e.key := e.rel % sh.keys]);
    r := r.(hasRelation := r.hasRelation[e.key := true]);
    r := r.(z := Deposit(r.z, RELATION, 0.10, 0.10, 0.0, 0.0));
    r := r.(prior := Bump(r.prior, RELATION, WORKING, 0.02));
    r := r.(prior := Bump(r.prior, WORKING, RELATION, 0.02));
  }

  // Source flips and conflicts are felt whether reliable or not; only a trusting flip moves trust.
  method Alarm(sh: Shape, w: Clones, e: Event, n: Report) returns (r: Clones, n': Report)
    requires w.Valid(sh) && InRange(sh, e)
    ensures r == w.(trust := TrustStep(w.trust, e), z := AlarmTension(w.z, e.kind))
    ensures n' == if IsConflict(e.kind) then n.(conflicts := n.conflicts + 1) else n
  {
    r, n' := w, n;
    if e.kind.SourceFlip? {
      if e.hint == 2 {
        r := r.(trust := r.trust[e.source := 2]);
      }
      r := r.(z := Deposit(r.z, PROVENANCE, 0.12, 0.12, 0.0, 0.0));
    }
    if IsConflict(e.kind) {
      n' := n'.(conflicts := n'.conflicts + 1);
      r := r.(z := Deposit(r.z, CONFLICT, 0.18, 0.18, 0.0, 0.0));
      r := r.(z := Deposit(r.z, PRESSURE, 0.14, 0.14, 0.0, 0.0));
    }
  }

  // The body of the double loop over rows and steps.
  method Observe(sh: Shape, w: Clones, e: Event, n: Report) returns (r: Clones, n': Report)
    requires w.Valid(sh) && InRange(sh, e)
    ensures r.Valid(sh) && r.Contents(sh) == Step(sh, w.Contents(sh), e)
    ensures n' == ReportStep(sh, n, e, Reliable(w.trust, e), w.CellAt(sh, e.key))
  {
    ghost var cell := w.CellAt(sh, e.key);
    var reliable := e.hint == 2 || w.trust[e.source] == 2;
    r, n' := Alarm(sh, w, e, n);
    assert r.MovedTo(sh, w, e.key, cell);
    if e.kind.Relate? && reliable {
      r := Route(sh, r, e);
      n' := n'.(relations := n'.relations + 1);
    }
    if IsWrite(e.kind) && reliable {
      r, n' := Write(sh, r, e, n');
    }
    assert r.Cells(sh) == w.Cells(sh)[e.key := CellStep(sh, cell, e, reliable)];
  }

  // The clones and the report after the events `es` of a call that began with w.
  ghost predicate Observed(sh: Shape, w: Clones, es: seq<Event>, r: Clones, n: Report)
    requires w.Valid(sh)
  {
    AllInRange(sh, es) && r.Valid(sh) &&
    r.Contents(sh) == Run(sh, w.Contents(sh), es) && n == ReportOf(sh, w.Contents(sh), es)
  }

  method ObserveNext(sh: Shape, ghost w: Clones, ghost es: seq<Event>, r: Clones, n: Report, e: Event)
    returns (r': Clones, n': Report)
    requires w.Valid(sh) && Observed(sh, w, es, r, n) && InRange(sh, e)
    ensures Observed(sh, w, es + [e], r', n')
  {
    assert (es + [e])[..|es|] == es;
    r', n' := Observe(sh, r, e, n);
  }

  lemma OneMore(es: seq<Event>, row: seq<Event>, t: nat)
    requires t < |row|
    ensures es + row[..t + 1] == (es + row[..t]) + [row[t]]
  {
  }

  method ObserveRow(sh: Shape, ghost w: Clones, ghost es: seq<Event>, r: Clones, n: Report, row: seq<Event>)
    returns (r': Clones, n': Report)
    requires w.Valid(sh) && Observed(sh, w, es, r, n) && AllInRange(sh, row)
    ensures Observed(sh, w, es + row, r', n')
  {
    r', n' := r, n;
    var t := 0;
    assert es + row[..0] == es;
    while t < |row|
      invariant 0 <= t <= |row|
      invariant Observed(sh, w, es + row[..t], r', n')
    {
      OneMore(es, row, t);
      r', n' := ObserveNext(sh, w, es + row[..t], r', n', row[t]);
      t := t + 1;
    }
    assert row[..t] == row;
  }

  method ObserveAll(sh: Shape, w: Clones, rows: seq<seq<Event>>) returns (r: Clones, n: Report)
    requires w.Valid(sh) && RowsInRange(sh, rows)
    ensures Observed(sh, w, Flatten(rows), r, n)
  {
    r, n := w, NOTHING_YET;
    var b := 0;
    while b < |rows|
      invariant 0 <= b <= |rows|
      invariant Observed(sh, w, Flatten(rows[..b]), r, n)
    {
      assert rows[..b + 1][..b] == rows[..b];
      r, n := ObserveRow(sh, w, Flatten(rows[..b]), r, n, rows[b]);
      b := b + 1;
    }
    assert rows[..b] == rows;
  }

  method IngestClones(sh: Shape, w: Clones, rows: seq<seq<Event>>) returns (r: Clones, n: Report)
    requires w.Valid(sh) && RowsInRange(sh, rows)
    ensures r.Valid(sh) && r.Contents(sh) == Ingest(sh, w.Contents(sh), rows)
    ensures n == IngestReport(sh, w.Contents(sh), rows)
  {
    r := w.(trust := ClampTrust(w.trust));
    r, n := ObserveAll(sh, r, rows);
    r := r.(prior := SettlePrior(r.prior));
  }

  method CountKnown(known: seq<bool>, ghost cells: seq<Cell>) returns (n: nat)
    requires |known| == |cells| && forall k :: 0 <= k < |known| ==> known[k] == cells[k].known
    ensures n == Count(cells, Known())
  {
    n := 0;
    var k := 0;
    while k < |known|
      invariant 0 <= k <= |known| && n == Count(cells[..k], Known())
    {
      assert cells[..k + 1][..k] == cells[..k];
      if known[k] {
        n := n + 1;
      }
      k := k + 1;
    }
    assert cells[..k] == cells;
  }

  // Arbitration and commitment of one key; says whether it was committed, and whether its value was replaced.
  method SettleKey(sh: Shape, w: Clones, k: nat) returns (r: Clones, committed: bool, replaced: bool)
    requires w.KeyBuffersFit(sh) && k < sh.keys
    ensures r.MovedTo(sh, w, k, SleepCell(w.CellAt(sh, k)))
    ensures r.trust == w.trust && r.z == w.z && r.prior == w.prior
    ensures committed == w.known[k] && replaced == Overturned(w.CellAt(sh, k))
  {
    r, committed, replaced := w, false, false;
    if r.known[k] {
      if r.challengerCount[k] >= COMMIT_RETROGRADE_M && r.challenger[k] != r.current[k] {
        r := r.(archive := r.archive[k := r.current[k]]);
        r := r.(archiveKnown := r.archiveKnown[k := true]);
        r := r.(current := r.current[k := r.challenger[k]]);
        r := r.(commitCount := r.commitCount[k := if r.challengerCount[k] > 1 then r.challengerCount[k] else 1]);
        replaced := true;
      }
      r := r.(committed := r.committed[k := true]);
      r := r.(challengerCount := r.challengerCount[k := 0]);
      r := r.(challenger := r.challenger[k := r.current[k]]);
      committed := true;
    }
  }

  // The keys below k are settled and counted, the others as they were.
  ghost predicate SettledTo(sh: Shape, w: Clones, r: Clones, k: nat, commits: nat, retrogrades: nat)
    requires w.Valid(sh) && k <= sh.keys
  {
    && r.Valid(sh) && r.trust == w.trust && r.z == w.z && r.prior == w.prior
    && (forall i: nat :: i < k ==> r.CellAt(sh, i) == SleepCell(w.CellAt(sh, i)))
    && (forall i: nat :: k <= i < sh.keys ==> r.CellAt(sh, i) == w.CellAt(sh, i))
    && commits == Count(w.Cells(sh)[..k], Known()) && retrogrades == Count(w.Cells(sh)[..k], Replaced())
  }

  method SettleKeys(sh: Shape, w: Clones) returns (r: Clones, commits: nat, retrogrades: nat)
    requires w.Valid(sh)
    ensures SettledTo(sh, w, r, sh.keys, commits, retrogrades)
  {
    r, commits, retrogrades := w, 0, 0;
    var k := 0;
    while k < sh.keys
      invariant 0 <= k <= sh.keys
      invariant SettledTo(sh, w, r, k, commits, retrogrades)
    {
      assert w.Cells(sh)[..k + 1][..k] == w.Cells(sh)[..k];
      var committed, replaced;
      r, committed, replaced := SettleKey(sh, r, k);
      if committed {
        commits := commits + 1;
      }
      if replaced {
        retrogrades := retrogrades + 1;
      }
      k := k + 1;
    }
  }

  method SleepClones(sh: Shape, w: Clones, cycles: int) returns (r: Clones, n: SleepReport)
    requires w.Valid(sh)
    ensures r.Valid(sh) && r.Contents(sh) == Sleep(sh, w.Contents(sh), cycles)
    ensures n == SleepReportOf(sh, w.Contents(sh), cycles)
  {
    var commits, retrogrades;
    r, commits, retrogrades := SettleKeys(sh, w);
    assert r.Cells(sh) == SleepCells(w.Cells(sh));
    assert w.Cells(sh)[..sh.keys] == w.Cells(sh);
    var z := r.z;
    var rounds := if cycles > 1 then cycles else 1;
    var c := 0;
    while c < rounds
      invariant 0 <= c <= rounds
      invariant z == DigestCycles(w.z, c)
    {
      z := DigestAll(z);
      c := c + 1;
    }
    r := r.(z := z, prior := FadePrior(r.prior));
    n := SleepReport(commits, retrogrades, ActiveSum(w.z), ActiveSum(z), ResolvedSum(z), ArchivedSum(z),
                     ActiveSum(w.z) - ActiveSum(z));
  }

  method CopyInto<T>(buffer: array<T>, clone: seq<T>)
    requires buffer.Length == |clone|
    modifies buffer
    ensures buffer[..] == clone
  {
    var i := 0;
    while i < buffer.Length
      invariant 0 <= i <= buffer.Length
      invariant buffer[..i] == clone[..i]
    {
      buffer[i] := clone[i];
      i := i + 1;
    }
  }

  method Fill<T>(buffer: array<T>, v: T)
    modifies buffer
    ensures buffer[..] == seq(buffer.Length, _ => v)
  {
    forall i | 0 <= i < buffer.Length {
      buffer[i] := v;
    }
  }

  /** The persistent buffers of one cortex. */
  class CortexMemory {
    const sh: Shape
    const current: array<int>
    const archive: array<int>
    const known: array<bool>
    const archiveKnown: array<bool>
    const relation: array<int>
    const hasRelation: array<bool>
    const commitCount: array<int>
    const committed: array<bool>
    const challenger: array<int>
    const challengerCount: array<int>
    const trust: array<int>
    const z: array<Account>
    const prior: array2<real>

    // Sizes, and no buffer shared between two fields; neither can change.
    ghost predicate Valid() {
      && current.Length == archive.Length == known.Length == archiveKnown.Length == sh.keys
      && relation.Length == hasRelation.Length == commitCount.Length == committed.Length == sh.keys
      && challenger.Length == challengerCount.Length == sh.keys
      && trust.Length == sh.sources
      && z.Length == REGISTERS
      && prior.Length0 == prior.Length1 == REGISTERS
      && current !in {archive, relation, commitCount, challenger, challengerCount, trust}
      && archive !in {relation, commitCount, challenger, challengerCount, trust}
      && relation !in {commitCount, challenger, challengerCount, trust}
      && commitCount !in {challenger, challengerCount, trust}
      && challenger !in {challengerCount, trust}
      && challengerCount != trust
      && known !in {archiveKnown, hasRelation, committed}
      && archiveKnown !in {hasRelation, committed}
      && hasRelation != committed
    }

    ghost function Buffers(): set<object> {
      {current as object, archive, known, archiveKnown, relation, hasRelation, commitCount, committed,
       challenger, challengerCount, trust, z, prior}
    }

    ghost function Prior(): (p: seq<seq<real>>)
      reads prior
      requires prior.Length0 == prior.Length1 == REGISTERS
      ensures IsSquare(p)
    {
      seq(REGISTERS, i requires 0 <= i < REGISTERS && prior.Length0 == prior.Length1 == REGISTERS reads prior =>
        seq(REGISTERS, j requires 0 <= j < REGISTERS && prior.Length0 == prior.Length1 == REGISTERS reads prior =>
          prior[i, j]))
    }

    ghost function Contents(): (m: Memory)
      reads Buffers()
      requires Valid()
      ensures Fits(sh, m)
    {
      Memory(CellsOf(current[..], archive[..], known[..], archiveKnown[..], relation[..], hasRelation[..],
                     commitCount[..], committed[..], challenger[..], challengerCount[..]),
             trust[..], z[..], Prior())
    }

    constructor (shape: Shape)
      ensures Valid() && sh == shape && fresh(Buffers())
      ensures Contents() == EmptyMemory(shape)
    {
      sh := shape;
      current, archive, relation := new int[shape.keys], new int[shape.keys], new int[shape.keys];
      commitCount, challenger, challengerCount := new int[shape.keys], new int[shape.keys], new int[shape.keys];
      known, archiveKnown := new bool[shape.keys], new bool[shape.keys];
      hasRelation, committed := new bool[shape.keys], new bool[shape.keys];
      trust := new int[shape.sources];
      z := new Account[REGISTERS];
      prior := new real[REGISTERS, REGISTERS];
      new;
      assert fresh(Buffers());
      Clear();
    }

    method Clone() returns (w: Clones)
      requires Valid()
      ensures w.Valid(sh) && w.Contents(sh) == Contents()
    {
      var p :=
        seq(REGISTERS, i requires 0 <= i < REGISTERS && prior.Length0 == prior.Length1 == REGISTERS reads prior =>
          seq(REGISTERS, j requires 0 <= j < REGISTERS && prior.Length0 == prior.Length1 == REGISTERS reads prior =>
            prior[i, j]));
      w := Clones(current[..], archive[..], known[..], archiveKnown[..], relation[..], hasRelation[..],
                  commitCount[..], committed[..], challenger[..], challengerCount[..], trust[..], z[..], p);
    }

    method CopyPrior(clone: seq<seq<real>>)
      requires prior.Length0 == prior.Length1 == REGISTERS && IsSquare(clone)
      modifies prior
      ensures Prior() == clone
    {
      forall i, j | 0 <= i < REGISTERS && 0 <= j < REGISTERS {
        prior[i, j] := clone[i][j];
      }
      forall i | 0 <= i < REGISTERS ensures Prior()[i] == clone[i] {
      }
    }

    method CopyNumbers(w: Clones)
      requires Valid() && w.Valid(sh)
      modifies current, archive, relation, commitCount, challenger, challengerCount, trust
      ensures current[..] == w.current && archive[..] == w.archive && relation[..] == w.relation
      ensures commitCount[..] == w.commitCount && challenger[..] == w.challenger
      ensures challengerCount[..] == w.challengerCount && trust[..] == w.trust
    {
      CopyInto(current, w.current);
      CopyInto(archive, w.archive);
      CopyInto(relation, w.relation);
      CopyInto(commitCount, w.commitCount);
      CopyInto(challenger, w.challenger);
      CopyInto(challengerCount, w.challengerCount);
      CopyInto(trust, w.trust);
    }

    method CopyFlags(w: Clones)
      requires Valid() && w.Valid(sh)
      modifies known, archiveKnown, hasRelation, committed
      ensures known[..] == w.known && archiveKnown[..] == w.archiveKnown
      ensures hasRelation[..] == w.hasRelation && committed[..] == w.committed
    {
      CopyInto(known, w.known);
      CopyInto(archiveKnown, w.archiveKnown);
      CopyInto(hasRelation, w.hasRelation);
      CopyInto(committed, w.committed);
    }

    method CopyBack(w: Clones)
      requires Valid() && w.Valid(sh)
      modifies Buffers()
      ensures Contents() == w.Contents(sh)
    {
      CopyNumbers(w);
      CopyFlags(w);
      CopyInto(z, w.z);
      CopyPrior(w.prior);
    }

    method Ingest(rows: seq<seq<Event>>) returns (n: Report, knownKeys: nat)
      requires Valid() && RowsInRange(sh, rows)
      modifies Buffers()
      ensures Contents() == CortexSpec.Ingest(sh, old(Contents()), rows)
      ensures n == IngestReport(sh, old(Contents()), rows) && knownKeys == Count(Contents().cells, Known())
    {
      var w := Clone();
      w, n := IngestClones(sh, w, rows);
      knownKeys := CountKnown(w.known, w.Cells(sh));
      CopyBack(w);
    }

    method Sleep(cycles: int) returns (n: SleepReport)
      requires Valid()
      modifies Buffers()
      ensures Contents() == CortexSpec.Sleep(sh, old(Contents()), cycles)
      ensures n == SleepReportOf(sh, old(Contents()), cycles)
    {
      var w := Clone();
      w, n := SleepClones(sh, w, cycles);
      CopyBack(w);
    }

    method ClearNumbers()
      requires Valid()
      modifies current, archive, relation, commitCount, challenger, challengerCount, trust
      ensures current[..] == seq(sh.keys, _ => 0) && archive[..] == seq(sh.keys, _ => 0)
      ensures relation[..] == seq(sh.keys, k => k) && commitCount[..] == seq(sh.keys, _ => 0)
      ensures challenger[..] == seq(sh.keys, _ => 0) && challengerCount[..] == seq(sh.keys, _ => 0)
      ensures trust[..] == seq(sh.sources, _ => 1)
    {
      Fill(current, 0);
      Fill(archive, 0);
      CopyInto(relation, seq(sh.keys, k => k));
      Fill(trust, 1);
      Fill(commitCount, 0);
      Fill(challenger, 0);
      Fill(challengerCount, 0);
    }

    method ClearFlags()
      requires Valid()
      modifies known, archiveKnown, hasRelation, committed
      ensures known[..] == seq(sh.keys, _ => false) && archiveKnown[..] == seq(sh.keys, _ => false)
      ensures hasRelation[..] == seq(sh.keys, _ => false) && committed[..] == seq(sh.keys, _ => false)
    {
      Fill(known, false);
      Fill(archiveKnown, false);
      Fill(hasRelation, false);
      Fill(committed, false);
    }

    method Clear()
      requires Valid()
      modifies Buffers()
      ensures Contents() == EmptyMemory(sh)
    {
      ClearNumbers();
      ClearFlags();
      Fill(z, Account(0.0, 0.0, 0.0, 0.0));
      CopyPrior(seq(REGISTERS, _ => seq(REGISTERS, _ => 0.0)));
    }
  }
}
