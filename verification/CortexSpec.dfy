/** The addressable memory of the cortex as a value, one step per event.

The persistent buffers are indexed by key, so everything the buffers hold about one key is
gathered into a `Cell`; source trust, the per-register tension accounts Z and the plastic prior
are kept beside the cells. Floats are reals. */
module CortexSpec {

  datatype EventKind =
    | Observe | Conflict | Correct | RuleFlip | SourceFlip
    | Relate | Delay | ArchiveQuery | Query | Distractor

  // One row of the event packet x[b, t, :].
  datatype Event = Event(kind: EventKind, key: nat, value: int, source: nat, rel: int, phase: int, hint: int)

  type Positive = n: int | 0 < n witness 1

  // n_keys, n_values and n_sources of the configuration.
  datatype Shape = Shape(keys: Positive, values: Positive, sources: Positive)

  datatype Cell = Cell(
    current: int, archive: int, known: bool, archiveKnown: bool,
    relation: int, hasRelation: bool,
    commitCount: int, committed: bool, challenger: int, challengerCount: int)

  // One row of the 7 x 4 tensor Z.
  datatype Account = Account(total: real, active: real, resolved: real, archived: real)

  datatype Memory = Memory(cells: seq<Cell>, trust: seq<int>, z: seq<Account>, prior: seq<seq<real>>)

  // Challenger evidence required at sleep before a committed value is replaced.
  const COMMIT_RETROGRADE_M: nat := 2

  const REGISTERS: nat := 7
  const WORKING: nat := 0
  const STATE: nat := 1
  const CONFLICT: nat := 2
  const RELATION: nat := 3
  const PRESSURE: nat := 4
  const PROVENANCE: nat := 5
  const ARCHIVE: nat := 6

  const PRIOR_BOUND: real := 1.5

  // ---------------------------------------------------------------- shapes

  predicate InRange(sh: Shape, e: Event) {
    e.key < sh.keys && e.source < sh.sources
  }

  predicate AllInRange(sh: Shape, es: seq<Event>) {
    forall i :: 0 <= i < |es| ==> InRange(sh, es[i])
  }

  predicate RowsInRange(sh: Shape, rows: seq<seq<Event>>) {
    forall b :: 0 <= b < |rows| ==> AllInRange(sh, rows[b])
  }

  predicate IsSquare(p: seq<seq<real>>) {
    |p| == REGISTERS && forall i :: 0 <= i < REGISTERS ==> |p[i]| == REGISTERS
  }

  predicate Fits(sh: Shape, m: Memory) {
    && |m.cells| == sh.keys
    && |m.trust| == sh.sources
    && |m.z| == REGISTERS
    && IsSquare(m.prior)
  }

  // ---------------------------------------------------------------- waking ingest

  predicate IsWrite(kind: EventKind) {
    kind.Observe? || kind.Correct? || kind.SourceFlip?
  }

  predicate IsConflict(kind: EventKind) {
    kind.Conflict? || kind.RuleFlip?
  }

  predicate Reliable(trust: seq<int>, e: Event)
    requires e.source < |trust|
  {
    e.hint == 2 || trust[e.source] == 2
  }

  // A reliable write of the normalised value v.
  function WriteCell(c: Cell, v: int): Cell {
    if c.committed && c.current != v then
      c.(challenger := v,
         challengerCount := if c.challenger == v then c.challengerCount + 1 else 1)
    else
      c.(archive := if c.known && c.current != v then c.current else c.archive,
         archiveKnown := c.archiveKnown || (c.known && c.current != v),
         commitCount := if c.known && c.current == v then c.commitCount + 1 else 1,
         current := v, known := true, challengerCount := 0)
  }

  function CellStep(sh: Shape, c: Cell, e: Event, reliable: bool): Cell {
    if !reliable then c
    else if e.kind.Relate? then c.(relation := e.rel % sh.keys, hasRelation := true)
    else if IsWrite(e.kind) then WriteCell(c, e.value % sh.values)
    else c
  }

  function TrustStep(trust: seq<int>, e: Event): seq<int>
    requires e.source < |trust|
  {
    if e.kind.SourceFlip? && e.hint == 2 then trust[e.source := 2] else trust
  }

  function Deposit(z: seq<Account>, reg: nat, total: real, active: real, resolved: real, archived: real): seq<Account>
    requires reg < |z|
  {
    z[reg := Account(z[reg].total + total, z[reg].active + active,
                     z[reg].resolved + resolved, z[reg].archived + archived)]
  }

  // The tension recorded for a reliable write of v into cell c.
  function WriteTension(z: seq<Account>, kind: EventKind, c: Cell, v: int): seq<Account>
    requires |z| == REGISTERS
  {
    if c.committed && c.current != v then
      Deposit(Deposit(z, CONFLICT, 0.12, 0.12, 0.0, 0.0), PRESSURE, 0.10, 0.10, 0.0, 0.0)
    else
      var z1 := if c.known && c.current != v then Deposit(z, ARCHIVE, 0.10, 0.04, 0.0, 0.06) else z;
      var z2 := Deposit(z1, WORKING, 0.07, 0.07, 0.0, 0.0);
      if kind.Correct? then Deposit(z2, STATE, 0.07, 0.03, 0.04, 0.0) else z2
  }

  // The tension of a source flip or a conflict, reliable or not.
  function AlarmTension(z: seq<Account>, kind: EventKind): (r: seq<Account>)
    requires |z| == REGISTERS
    ensures |r| == REGISTERS
  {
    if kind.SourceFlip? then Deposit(z, PROVENANCE, 0.12, 0.12, 0.0, 0.0)
    else if IsConflict(kind) then
      Deposit(Deposit(z, CONFLICT, 0.18, 0.18, 0.0, 0.0), PRESSURE, 0.14, 0.14, 0.0, 0.0)
    else z
  }

  function TensionStep(sh: Shape, z: seq<Account>, e: Event, reliable: bool, c: Cell): seq<Account>
    requires |z| == REGISTERS
  {
    var z1 := AlarmTension(z, e.kind);
    if !reliable then z1
    else if e.kind.Relate? then Deposit(z1, RELATION, 0.10, 0.10, 0.0, 0.0)
    else if IsWrite(e.kind) then WriteTension(z1, e.kind, c, e.value % sh.values)
    else z1
  }

  function Bump(p: seq<seq<real>>, i: nat, j: nat, d: real): seq<seq<real>>
    requires IsSquare(p) && i < REGISTERS && j < REGISTERS
  {
    p[i := p[i][j := p[i][j] + d]]
  }

  function PriorStep(sh: Shape, p: seq<seq<real>>, e: Event, reliable: bool, c: Cell): seq<seq<real>>
    requires IsSquare(p)
  {
    if !reliable then p
    else if e.kind.Relate? then Bump(Bump(p, RELATION, WORKING, 0.02), WORKING, RELATION, 0.02)
    else if IsWrite(e.kind) && !(c.committed && c.current != e.value % sh.values) then
      Bump(Bump(p, WORKING, PROVENANCE, 0.01), PROVENANCE, WORKING, 0.01)
    else p
  }

  function Step(sh: Shape, m: Memory, e: Event): (r: Memory)
    requires Fits(sh, m) && InRange(sh, e)
    ensures Fits(sh, r)
  {
    var c := m.cells[e.key];
    var reliable := Reliable(m.trust, e);
    Memory(m.cells[e.key := CellStep(sh, c, e, reliable)],
           TrustStep(m.trust, e),
           TensionStep(sh, m.z, e, reliable, c),
           PriorStep(sh, m.prior, e, reliable, c))
  }

  function Run(sh: Shape, m: Memory, es: seq<Event>): (r: Memory)
    requires Fits(sh, m) && AllInRange(sh, es)
    ensures Fits(sh, r)
  {
    if es == [] then m
    else
      assert AllInRange(sh, es[..|es| - 1]);
      Step(sh, Run(sh, m, es[..|es| - 1]), es[|es| - 1])
  }

  // The counters an ingest call reports.
  datatype Report = Report(writes: nat, relations: nat, archives: nat, conflicts: nat, resisted: nat)

  const NOTHING_YET: Report := Report(0, 0, 0, 0, 0)

  function WriteReport(n: Report, c: Cell, v: int): Report {
    if c.committed && c.current != v then n.(resisted := n.resisted + 1)
    else
      n.(writes := n.writes + 1, archives := if c.known && c.current != v then n.archives + 1 else n.archives)
  }

  function ReportStep(sh: Shape, n: Report, e: Event, reliable: bool, c: Cell): Report {
    var n1 := if IsConflict(e.kind) then n.(conflicts := n.conflicts + 1) else n;
    if !reliable then n1
    else if e.kind.Relate? then n1.(relations := n1.relations + 1)
    else if IsWrite(e.kind) then WriteReport(n1, c, e.value % sh.values)
    else n1
  }

  function ReportOf(sh: Shape, m: Memory, es: seq<Event>): Report
    requires Fits(sh, m) && AllInRange(sh, es)
  {
    if es == [] then NOTHING_YET
    else
      var n := |es| - 1;
      assert AllInRange(sh, es[..n]);
      var s := Run(sh, m, es[..n]);
      ReportStep(sh, ReportOf(sh, m, es[..n]), es[n], Reliable(s.trust, es[n]), s.cells[es[n].key])
  }

  function Flatten(rows: seq<seq<Event>>): seq<Event> {
    if rows == [] then [] else Flatten(rows[..|rows| - 1]) + rows[|rows| - 1]
  }

  lemma FlattenInRange(sh: Shape, rows: seq<seq<Event>>)
    requires RowsInRange(sh, rows)
    ensures AllInRange(sh, Flatten(rows))
  {
    if rows != [] {
      FlattenInRange(sh, rows[..|rows| - 1]);
    }
  }

  function ClampTrust(trust: seq<int>): seq<int> {
    seq(|trust|, i requires 0 <= i < |trust| => if trust[i] < 0 then 0 else if trust[i] > 2 then 2 else trust[i])
  }

  function Clamp(x: real): real {
    if x < -PRIOR_BOUND then -PRIOR_BOUND else if x > PRIOR_BOUND then PRIOR_BOUND else x
  }

  // The clamp and zeroed diagonal at the end of one ingest call.
  function SettlePrior(p: seq<seq<real>>): (r: seq<seq<real>>)
    requires IsSquare(p)
    ensures IsSquare(r)
  {
    seq(REGISTERS, i requires 0 <= i < REGISTERS =>
      seq(REGISTERS, j requires 0 <= j < REGISTERS => if i == j then 0.0 else Clamp(p[i][j])))
  }

  // One call of ingest on a batch of rows.
  function Ingest(sh: Shape, m: Memory, rows: seq<seq<Event>>): (r: Memory)
    requires Fits(sh, m) && RowsInRange(sh, rows)
    ensures Fits(sh, r)
  {
    FlattenInRange(sh, rows);
    var raw := Run(sh, m.(trust := ClampTrust(m.trust)), Flatten(rows));
    raw.(prior := SettlePrior(raw.prior))
  }

  // What that call reports.
  function IngestReport(sh: Shape, m: Memory, rows: seq<seq<Event>>): Report
    requires Fits(sh, m) && RowsInRange(sh, rows)
  {
    FlattenInRange(sh, rows);
    ReportOf(sh, m.(trust := ClampTrust(m.trust)), Flatten(rows))
  }

  // ---------------------------------------------------------------- sleep

  // The challenger has gathered evidence enough to replace the value.
  predicate Overturned(c: Cell) {
    c.known && c.challengerCount >= COMMIT_RETROGRADE_M && c.challenger != c.current
  }

  function SleepCell(c: Cell): Cell {
    if !c.known then c
    else
      var wins := Overturned(c);
      var next := if wins then c.challenger else c.current;
      c.(archive := if wins then c.current else c.archive,
         archiveKnown := c.archiveKnown || wins,
         commitCount := if wins then (if c.challengerCount > 1 then c.challengerCount else 1) else c.commitCount,
         current := next, committed := true, challenger := next, challengerCount := 0)
  }

  function SleepCells(cells: seq<Cell>): seq<Cell> {
    seq(|cells|, k requires 0 <= k < |cells| => SleepCell(cells[k]))
  }

  function Digest(a: Account): Account {
    var move := a.active * 0.35;
    Account(a.total, if a.active - move < 0.0 then 0.0 else a.active - move,
            a.resolved + move * 0.65, a.archived + move * 0.35)
  }

  function DigestAll(z: seq<Account>): seq<Account> {
    seq(|z|, i requires 0 <= i < |z| => Digest(z[i]))
  }

  function DigestCycles(z: seq<Account>, cycles: nat): (r: seq<Account>)
    ensures |r| == |z|
  {
    if cycles == 0 then z else DigestAll(DigestCycles(z, cycles - 1))
  }

  function FadePrior(p: seq<seq<real>>): (r: seq<seq<real>>)
    requires IsSquare(p)
    ensures IsSquare(r)
  {
    seq(REGISTERS, i requires 0 <= i < REGISTERS =>
      seq(REGISTERS, j requires 0 <= j < REGISTERS => Clamp(0.92 * p[i][j])))
  }

  // One sleep; `cycles` is persistent_sleep_cycles, of which at least one is run.
  function Sleep(sh: Shape, m: Memory, cycles: int): (r: Memory)
    requires Fits(sh, m)
    ensures Fits(sh, r)
  {
    Memory(SleepCells(m.cells), m.trust, DigestCycles(m.z, if cycles > 1 then cycles else 1), FadePrior(m.prior))
  }

  // What a sleep reports: counts over keys, and tension summed over the registers.
  datatype SleepReport = SleepReport(
    commits: nat, retrogrades: nat,
    activeBefore: real, activeAfter: real, resolvedAfter: real, archivedAfter: real, reduction: real)

  function Count(cells: seq<Cell>, p: Cell -> bool): (n: nat)
    ensures n <= |cells|
  {
    if cells == [] then 0 else Count(cells[..|cells| - 1], p) + (if p(cells[|cells| - 1]) then 1 else 0)
  }

  function Known(): Cell -> bool {
    (c: Cell) => c.known
  }

  function IsCommitted(): Cell -> bool {
    (c: Cell) => c.committed
  }

  function Replaced(): Cell -> bool {
    (c: Cell) => Overturned(c)
  }

  function ActiveSum(z: seq<Account>): real {
    if z == [] then 0.0 else ActiveSum(z[..|z| - 1]) + z[|z| - 1].active
  }

  function ResolvedSum(z: seq<Account>): real {
    if z == [] then 0.0 else ResolvedSum(z[..|z| - 1]) + z[|z| - 1].resolved
  }

  function ArchivedSum(z: seq<Account>): real {
    if z == [] then 0.0 else ArchivedSum(z[..|z| - 1]) + z[|z| - 1].archived
  }

  function SleepReportOf(sh: Shape, m: Memory, cycles: int): SleepReport
    requires Fits(sh, m)
  {
    var z := Sleep(sh, m, cycles).z;
    SleepReport(Count(m.cells, Known()), Count(m.cells, Replaced()),
                ActiveSum(m.z), ActiveSum(z), ResolvedSum(z), ArchivedSum(z), ActiveSum(m.z) - ActiveSum(z))
  }

  // ---------------------------------------------------------------- clear, and whole runs

  function EmptyMemory(sh: Shape): (r: Memory)
    ensures Fits(sh, r)
  {
    Memory(seq(sh.keys, k requires 0 <= k < sh.keys => Cell(0, 0, false, false, k, false, 0, false, 0, 0)),
           seq(sh.sources, _ => 1),
           seq(REGISTERS, _ => Account(0.0, 0.0, 0.0, 0.0)),
           seq(REGISTERS, _ => seq(REGISTERS, _ => 0.0)))
  }

  datatype Op = Clear | Wake(rows: seq<seq<Event>>) | Rest(cycles: int)

  predicate OpInRange(sh: Shape, op: Op) {
    op.Wake? ==> RowsInRange(sh, op.rows)
  }

  predicate OpsInRange(sh: Shape, ops: seq<Op>) {
    forall i :: 0 <= i < |ops| ==> OpInRange(sh, ops[i])
  }

  function Do(sh: Shape, m: Memory, op: Op): (r: Memory)
    requires Fits(sh, m) && OpInRange(sh, op)
    ensures Fits(sh, r)
  {
    match op
    case Clear => EmptyMemory(sh)
    case Wake(rows) => Ingest(sh, m, rows)
    case Rest(cycles) => Sleep(sh, m, cycles)
  }

  function Live(sh: Shape, m: Memory, ops: seq<Op>): (r: Memory)
    requires Fits(sh, m) && OpsInRange(sh, ops)
    ensures Fits(sh, r)
  {
    if ops == [] then m
    else
      assert OpsInRange(sh, ops[..|ops| - 1]);
      assert OpInRange(sh, ops[|ops| - 1]);
      Do(sh, Live(sh, m, ops[..|ops| - 1]), ops[|ops| - 1])
  }
}
