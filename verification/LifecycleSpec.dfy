/** The candidate-to-commit lifecycle as a value: what each operation writes, record by record, and the ledger it
leaves. Thresholds are the defaults. Ids are opaque; a new candidate gets one not in use. */
module LifecycleSpec {
  import opened Journal
  import opened Evidence
  import opened Options

  datatype Status = Candidate | Reinforced | Committed | Disputed | Archived

  datatype Tier = UserTier | VerifiedTier

  // The source key string: class, task, and the sources sorted, so that their order does not matter.
  datatype SourceKey = SourceKey(cls: SourceClass, task: string, sources: multiset<string>)

  datatype Rec = Rec(
    topic: string, claim: string, claimKey: string, cls: SourceClass, createdTs: real,
    sourceKeys: seq<SourceKey>, sourcesUsed: set<string>, eventIds: seq<string>,
    evidence: int, contradictions: int, webSources: int,
    confidence: real, relation: Option<Relation>, semantic: real, how: Method,
    related: seq<Id>, status: Status, challengerOf: Option<Id>, tier: Option<Tier>,
    important: bool, evidenceRequested: bool,
    priority: int, quality: int, lastEval: int)

  const COMMIT_EVIDENCE: int := 2
  const DISPUTE_CONTRADICTIONS: int := 1
  const STALE_SECONDS: real := 1209600.0
  const COMMIT_QUALITY: int := 700
  const MIN_WEB_SOURCES: int := 2

  // Text handling, taken as given: the classifier's lexicon, the claim key and the blank test.
  datatype Reader = Reader(lexicon: Lexicon, keyOf: string -> string, blank: string -> bool)

  predicate IsActive(s: Status) {
    s.Candidate? || s.Reinforced?
  }

  predicate IsCanonical(c: SourceClass) {
    c.SystemCanonical? || c.VerifiedProjectFact?
  }

  predicate IsUser(c: SourceClass) {
    c.UserMemoryGrounded? || c.ExtractedUserClaim? || c.UserPreference?
  }

  predicate IsVerified(c: SourceClass) {
    c.DomainVerified? || c.VerifiedProjectFact?
  }

  // The tier a class commits as; None when it cannot be committed.
  function CommitTrust(c: SourceClass): Option<Tier> {
    if IsUser(c) then Some(UserTier)
    else if c.DomainVerified? || c.ProvisionalWeb? then Some(VerifiedTier)
    else None
  }

  // ---------------------------------------------------------------- evaluation

  function Classes(keys: seq<SourceKey>): set<SourceClass> {
    set i | 0 <= i < |keys| :: keys[i].cls
  }

  predicate IsStale(r: Rec, now: real) {
    now - r.createdTs >= STALE_SECONDS
  }

  // The quality score in thousandths.
  function Quality(r: Rec, now: real): int {
    var classes := Classes(r.sourceKeys);
    var verified := (exists c :: c in classes && IsVerified(c)) || IsVerified(r.cls);
    var unverifiedWeb := r.cls.ProvisionalWeb? && r.webSources < MIN_WEB_SOURCES;
    var q := 500 + 150 * (if r.evidence < 3 then r.evidence else 3)
             + (if |classes| >= 2 then 100 else 0)
             + (if verified then 200 else 0)
             + (if r.important then 100 else 0)
             - (if r.contradictions > 0 then 300 else 0)
             - (if unverifiedWeb then 200 else 0)
             - (if IsStale(r, now) then 100 else 0)
             - (if r.semantic < 0.5 then 100 else 0);
    if q < 0 then 0 else if q > 1000 then 1000 else q
  }

  datatype Action = Reinforce | Commit | Dispute | Archive | Keep

  datatype Decision = Decision(id: Id, action: Action, evidence: int, contradictions: int, priority: int, quality: int)

  function Evaluate(r: Rec, contested: bool, now: real): Action {
    var verifiedWeb := r.cls.ProvisionalWeb? && r.webSources >= MIN_WEB_SOURCES;
    var committable := CommitTrust(r.cls).Some? && (r.cls.ProvisionalWeb? ==> verifiedWeb);
    var ready := r.evidence >= COMMIT_EVIDENCE && r.contradictions == 0 && committable;
    if r.contradictions >= DISPUTE_CONTRADICTIONS || r.cls.DisputedOrUnsafe? then Dispute
    else if IsCanonical(r.cls) then Keep
    else if ready && Quality(r, now) >= COMMIT_QUALITY then Commit
    else if ready then Keep
    else if r.cls.ProvisionalWeb? && r.evidence >= COMMIT_EVIDENCE && !verifiedWeb then Keep
    else if IsStale(r, now) && r.evidence < COMMIT_EVIDENCE && r.confidence <= 0.5 then Archive
    else if r.evidence > r.lastEval then Reinforce
    else Keep
  }

  function Priority(r: Rec, contested: bool): int {
    r.evidence + 2 * r.contradictions + (if contested then 1 else 0)
  }

  function Decide(id: Id, r: Rec, contested: bool, now: real): Decision {
    Decision(id, Evaluate(r, contested, now), r.evidence, r.contradictions, Priority(r, contested), Quality(r, now))
  }

  // ---------------------------------------------------------------- edits

  // A record written to the dictionary, and to the ledger too if saved.
  datatype Edit = Edit(id: Id, record: Rec, saved: bool)

  datatype State = State(book: Book<Id, Rec>, ledger: seq<Saved<Id, Rec>>)

  function Apply(s: State, e: Edit): State {
    State(Put(s.book, e.id, e.record), if e.saved then s.ledger + [Saved(e.id, e.record)] else s.ledger)
  }

  function ApplyAll(s: State, edits: seq<Edit>): State {
    if edits == [] then s else Apply(ApplyAll(s, edits[..|edits| - 1]), edits[|edits| - 1])
  }

  // What one task result brings.
  datatype Finding = Finding(
    topic: string, claim: string, task: string, sources: seq<string>, eventIds: seq<string>,
    disputed: bool, cls: SourceClass, secret: bool)

  function Cut(claim: string): string {
    if |claim| <= 300 then claim else claim[..300]
  }

  function FindTopic(b: Book<Id, Rec>, topic: string): seq<Id> {
    Active(b.records, topic, b.order)
  }

  function Active(records: map<Id, Rec>, topic: string, ids: seq<Id>): seq<Id> {
    if ids == [] then []
    else
      var n := |ids| - 1;
      Active(records, topic, ids[..n]) +
      (if ids[n] in records && records[ids[n]].topic == topic && IsActive(records[ids[n]].status) then [ids[n]] else [])
  }

  function VerdictOn(rd: Reader, f: Finding, r: Rec): Verdict {
    Classify(rd.lexicon, f.claim, r.claim, Context(f.secret, f.cls, r.cls))
  }

  datatype Kind = Conflicting | Merging | Linking | Neutral

  function KindOf(v: Relation): Kind {
    match v
    case Contradicts => Conflicting
    case CanonicalConflict => Conflicting
    case Same => Merging
    case Supports => Merging
    case Narrows => Linking
    case Broadens => Linking
    case Unrelated => Neutral
  }

  // The ids among `ids` whose claim stands in a relation of kind `kind` to the finding, in order.
  function OfKind(rd: Reader, f: Finding, records: map<Id, Rec>, ids: seq<Id>, kind: Kind): seq<Id> {
    if ids == [] then []
    else
      var n := |ids| - 1;
      OfKind(rd, f, records, ids[..n], kind) +
      (if ids[n] in records && KindOf(VerdictOn(rd, f, records[ids[n]]).relation) == kind then [ids[n]] else [])
  }

  function KeyOfFinding(f: Finding): SourceKey {
    SourceKey(f.cls, f.task, multiset(f.sources))
  }

  function SetOf(xs: seq<string>): set<string> {
    set x | x in xs
  }

  function NewRec(rd: Reader, f: Finding, now: real, status: Status, challengerOf: Option<Id>,
                  relation: Option<Relation>, semantic: real, how: Method, contradictions: int, related: seq<Id>): Rec {
    Rec(f.topic, Cut(f.claim), rd.keyOf(f.claim), f.cls, now, [KeyOfFinding(f)], SetOf(f.sources), f.eventIds, 1,
        contradictions,
        if f.cls.ProvisionalWeb? then 1 else 0, 0.5, relation, semantic, how, related, status, challengerOf,
        None, false, false, 0, 0, -1)
  }

  // A source key not seen before: independent evidence.
  function WithKey(r: Rec, f: Finding): Rec {
    var evidence := r.evidence + 1;
    var confidence := 0.4 + 0.2 * evidence as real;
    r.(sourceKeys := r.sourceKeys + [KeyOfFinding(f)], evidence := evidence,
       sourcesUsed := r.sourcesUsed + SetOf(f.sources), eventIds := r.eventIds + f.eventIds,
       confidence := if confidence > 0.95 then 0.95 else confidence,
       webSources := if f.cls.ProvisionalWeb? then r.webSources + 1 else r.webSources)
  }

  function Related(r: Rec, v: Verdict): Rec {
    r.(relation := Some(v.relation), semantic := v.confidence, how := v.how)
  }

  function Merged(r: Rec, f: Finding, v: Verdict): Rec {
    Related(if KeyOfFinding(f) in r.sourceKeys then r else WithKey(r, f), v)
  }

  function Linked(r: Rec, id: Id): Rec {
    if id in r.related then r else r.(related := r.related + [id])
  }

  // Back-links from the related candidates to the new one.
  function LinkEdits(records: map<Id, Rec>, ids: seq<Id>, id: Id): seq<Edit> {
    if ids == [] then []
    else
      var n := |ids| - 1;
      LinkEdits(records, ids[..n], id) +
      (if ids[n] in records && id !in records[ids[n]].related
       then [Edit(ids[n], Linked(records[ids[n]], id), true)] else [])
  }

  predicate Refused(rd: Reader, f: Finding) {
    f.secret || f.cls.DisputedOrUnsafe? || rd.blank(f.claim)
  }

  function DisputeEdits(rd: Reader, b: Book<Id, Rec>, f: Finding, now: real, incumbent: Option<Id>,
                        v: Verdict): seq<Edit> {
    var id := NextId(b.order);
    [Edit(id, NewRec(rd, f, now, Disputed, incumbent, Some(v.relation), v.confidence, v.how, 1, []), true)] +
    (if incumbent.Some? && incumbent.value in b.records then
       var r := b.records[incumbent.value];
       [Edit(incumbent.value, Linked(r.(contradictions := r.contradictions + 1), id), true)]
     else [])
  }

  function FreshEdits(rd: Reader, b: Book<Id, Rec>, f: Finding, now: real, related: seq<Id>): seq<Edit> {
    var id := NextId(b.order);
    var first :=
      if related != [] && related[0] in b.records then Some(VerdictOn(rd, f, b.records[related[0]])) else None;
    var r := if first.Some?
             then NewRec(rd, f, now, Candidate, None, Some(first.value.relation), first.value.confidence,
                         first.value.how, 0, related)
             else NewRec(rd, f, now, Candidate, None, None, 1.0, NewClaim, 0, related);
    [Edit(id, r, true)] + LinkEdits(b.records, related, id)
  }

  // How a finding is to be taken.
  datatype Plan =
    | Refuse
    | Contest(incumbent: Option<Id>, verdict: Verdict)
    | MergeInto(id: Id, verdict: Verdict)
    | Open(related: seq<Id>)

  function PlanFor(rd: Reader, b: Book<Id, Rec>, f: Finding): Plan {
    var existing := FindTopic(b, f.topic);
    var conflicting := OfKind(rd, f, b.records, existing, Conflicting);
    var merging := OfKind(rd, f, b.records, existing, Merging);
    if Refused(rd, f) then Refuse
    else if conflicting != [] && conflicting[0] in b.records then
      Contest(Some(conflicting[0]), VerdictOn(rd, f, b.records[conflicting[0]]))
    else if f.disputed then
      Contest(if existing != [] then Some(existing[0]) else None, Verdict(Contradicts, 0.5, TaskStatus))
    else if merging != [] && merging[0] in b.records then
      MergeInto(merging[0], VerdictOn(rd, f, b.records[merging[0]]))
    else Open(OfKind(rd, f, b.records, existing, Linking))
  }

  function PlanEdits(rd: Reader, b: Book<Id, Rec>, f: Finding, now: real, plan: Plan): seq<Edit> {
    match plan
    case Refuse => []
    case Contest(incumbent, v) => DisputeEdits(rd, b, f, now, incumbent, v)
    case MergeInto(id, v) => if id in b.records then [Edit(id, Merged(b.records[id], f, v), true)] else []
    case Open(related) => FreshEdits(rd, b, f, now, related)
  }

  function IngestEdits(rd: Reader, b: Book<Id, Rec>, f: Finding, now: real): seq<Edit> {
    PlanEdits(rd, b, f, now, PlanFor(rd, b, f))
  }

  // ---------------------------------------------------------------- the dispute file

  datatype NextStep = CanonicalOverrides | AskUserForSource | SearchVerifiedSource | RequestOperator

  datatype DisputeLine = DisputeLine(
    incumbent: Id, challenger: Id, relation: Relation, evidenceA: string, evidenceB: string,
    classA: SourceClass, classB: SourceClass, step: NextStep)

  function StepFor(relation: Relation, challenger: SourceClass, incumbent: SourceClass): NextStep {
    if relation.CanonicalConflict? || IsCanonical(incumbent) then CanonicalOverrides
    else if IsUser(challenger) || IsUser(incumbent) then AskUserForSource
    else if challenger.ProvisionalWeb? || incumbent.ProvisionalWeb? then SearchVerifiedSource
    else RequestOperator
  }

  function Head(claim: string): string {
    if |claim| <= 200 then claim else claim[..200]
  }

  function DisputeLineOf(b: Book<Id, Rec>, f: Finding, incumbent: Id, v: Verdict): DisputeLine
    requires incumbent in b.records
  {
    var r := b.records[incumbent];
    DisputeLine(incumbent, NextId(b.order), v.relation, Head(r.claim), Head(Cut(f.claim)), r.cls, f.cls,
                StepFor(v.relation, f.cls, r.cls))
  }

  // What taking a finding adds to the dispute file.
  function DisputeLines(b: Book<Id, Rec>, f: Finding, plan: Plan): seq<DisputeLine> {
    if plan.Contest? && plan.incumbent.Some? && plan.incumbent.value in b.records
    then [DisputeLineOf(b, f, plan.incumbent.value, plan.verdict)]
    else []
  }

  // ---------------------------------------------------------------- consolidation

  function Marked(r: Rec, contested: bool, now: real): Rec {
    r.(priority := Priority(r, contested), quality := Quality(r, now), lastEval := r.evidence)
  }

  function AsCommitted(r: Rec): Rec {
    r.(status := Committed, tier := CommitTrust(r.cls))
  }

  function ConsolidateEdit(id: Id, r: Rec, contested: bool, now: real): Edit {
    var m := Marked(r, contested, now);
    match Evaluate(r, contested, now)
    case Commit => Edit(id, AsCommitted(m), true)
    case Dispute => Edit(id, m.(status := Disputed), true)
    case Archive => Edit(id, m.(status := Archived), true)
    case Reinforce => Edit(id, m.(status := Reinforced), true)
    case Keep => Edit(id, m, false)
  }

  function ConsolidateEdits(records: map<Id, Rec>, ids: seq<Id>, contested: bool, now: real): seq<Edit> {
    if ids == [] then []
    else
      var n := |ids| - 1;
      ConsolidateEdits(records, ids[..n], contested, now) +
      (if ids[n] in records && IsActive(records[ids[n]].status)
       then [ConsolidateEdit(ids[n], records[ids[n]], contested, now)] else [])
  }

  function Decisions(records: map<Id, Rec>, ids: seq<Id>, contested: bool, now: real): seq<Decision> {
    if ids == [] then []
    else
      var n := |ids| - 1;
      Decisions(records, ids[..n], contested, now) +
      (if ids[n] in records && IsActive(records[ids[n]].status)
       then [Decide(ids[n], records[ids[n]], contested, now)] else [])
  }

  // ---------------------------------------------------------------- manual operations

  datatype Manual = MarkFalse | MarkImportant | RequestMore | Approve | ToArchive

  function Raised(confidence: real): real {
    if confidence + 0.2 > 0.95 then 0.95 else confidence + 0.2
  }

  predicate Approvable(r: Rec) {
    !IsCanonical(r.cls) && !r.status.Disputed? && r.contradictions <= 0 && IsUser(r.cls)
  }

  function ManualEdits(b: Book<Id, Rec>, id: Id, what: Manual): seq<Edit> {
    if id !in b.records then []
    else
      var r := b.records[id];
      match what
      case MarkFalse => [Edit(id, r.(status := Disputed, contradictions := r.contradictions + 1), true)]
      case MarkImportant =>
        [Edit(id, r.(confidence := Raised(r.confidence), important := true), true)]
      case RequestMore => [Edit(id, r.(evidenceRequested := true), true)]
      case Approve => if Approvable(r) then [Edit(id, AsCommitted(r), true)] else []
      case ToArchive => [Edit(id, r.(status := Archived), true)]
  }

  predicate Revivable(r: Rec, topic: string, key: string) {
    r.topic == topic && r.claimKey == key && r.status.Archived?
  }

  // The first archived record of that topic and claim key.
  function FindArchived(records: map<Id, Rec>, ids: seq<Id>, topic: string, key: string): Option<Id> {
    if ids == [] then None
    else if ids[0] in records && Revivable(records[ids[0]], topic, key) then Some(ids[0])
    else FindArchived(records, ids[1..], topic, key)
  }

  function ReviveEdits(rd: Reader, b: Book<Id, Rec>, topic: string, claim: string): seq<Edit> {
    var hit := FindArchived(b.records, b.order, topic, rd.keyOf(claim));
    if hit.Some? && hit.value in b.records then
      var r := b.records[hit.value];
      [Edit(hit.value, r.(status := Candidate, evidence := r.evidence + 1), true)]
    else []
  }

  // ---------------------------------------------------------------- operations and runs

  datatype Op =
    | Ingest(f: Finding, at: real)
    | ByHand(id: Id, what: Manual)
    | Revive(topic: string, claim: string)
    | Consolidate(contested: bool, now: real)
    | Reload

  function EditsOf(rd: Reader, b: Book<Id, Rec>, op: Op): seq<Edit>
    requires !op.Reload?
  {
    match op
    case Ingest(f, at) => IngestEdits(rd, b, f, at)
    case ByHand(id, what) => ManualEdits(b, id, what)
    case Revive(topic, claim) => ReviveEdits(rd, b, topic, claim)
    case Consolidate(contested, now) => ConsolidateEdits(b.records, b.order, contested, now)
  }

  function Do(rd: Reader, s: State, op: Op): State {
    if op.Reload? then State(Replay(s.ledger), s.ledger) else ApplyAll(s, EditsOf(rd, s.book, op))
  }

  function DecisionsOf(b: Book<Id, Rec>, op: Op): seq<Decision> {
    if op.Consolidate? then Decisions(b.records, b.order, op.contested, op.now) else []
  }

  const START: State := State(Empty(), [])

  function Run(rd: Reader, s: State, ops: seq<Op>): State {
    if ops == [] then s else Do(rd, Run(rd, s, ops[..|ops| - 1]), ops[|ops| - 1])
  }

  // Every decision taken along the way.
  function Log(rd: Reader, s: State, ops: seq<Op>): seq<Decision> {
    if ops == [] then []
    else
      Log(rd, s, ops[..|ops| - 1]) +
      DecisionsOf(Run(rd, s, ops[..|ops| - 1]).book, ops[|ops| - 1])
  }
}
