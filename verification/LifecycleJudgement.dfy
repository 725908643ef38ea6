/** What the lifecycle makes of findings and records, said without its own vocabulary: which record a finding meets,
what a consolidation decides, and what the quality score is made of. */
module LifecycleJudgement {
  import opened Journal
  import opened Evidence
  import opened Options
  import opened LifecycleSpec
  import opened LifecycleTheorems
  import opened Sequences

  // ---------------------------------------------------------------- which record a finding meets

  // The record is an active one of the finding's topic.
  predicate OnTopic(b: Book<Id, Rec>, f: Finding, id: Id) {
    id in b.records && b.records[id].topic == f.topic && (b.records[id].status in {Candidate, Reinforced})
  }

  // And its claim stands in one of these relations to the finding's.
  predicate Stands(rd: Reader, b: Book<Id, Rec>, f: Finding, id: Id, relations: set<Relation>) {
    OnTopic(b, f, id) && VerdictOn(rd, f, b.records[id]).relation in relations
  }

  // The relations each way of taking a finding answers to.
  const CONFLICTS: set<Relation> := {Contradicts, CanonicalConflict}
  const AGREES: set<Relation> := {Same, Supports}
  const BEARS_ON: set<Relation> := {Narrows, Broadens}

  function RelationsOf(kind: Kind): set<Relation> {
    match kind
    case Conflicting => CONFLICTS
    case Merging => AGREES
    case Linking => BEARS_ON
    case Neutral => {Unrelated}
  }

  // The ids of `ids` for which p holds, in order.
  function Those(ids: seq<Id>, p: Id -> bool): seq<Id> {
    if ids == [] then []
    else Those(ids[..|ids| - 1], p) + (if p(ids[|ids| - 1]) then [ids[|ids| - 1]] else [])
  }

  function Standing(rd: Reader, b: Book<Id, Rec>, f: Finding, relations: set<Relation>): Id -> bool {
    (id: Id) => Stands(rd, b, f, id, relations)
  }

  function About(b: Book<Id, Rec>, f: Finding): Id -> bool {
    (id: Id) => OnTopic(b, f, id)
  }

  lemma OfKindSnoc(rd: Reader, f: Finding, records: map<Id, Rec>, ids: seq<Id>, id: Id, kind: Kind)
    ensures OfKind(rd, f, records, ids + [id], kind) ==
      OfKind(rd, f, records, ids, kind) +
      (if id in records && KindOf(VerdictOn(rd, f, records[id]).relation) == kind then [id] else [])
  {
    assert (ids + [id])[..|ids|] == ids;
  }

  lemma ActiveSnoc(b: Book<Id, Rec>, f: Finding, ids: seq<Id>)
    requires ids != []
    ensures
      var n := |ids| - 1;
      Active(b.records, f.topic, ids) ==
      Active(b.records, f.topic, ids[..n]) + (if OnTopic(b, f, ids[n]) then [ids[n]] else [])
  {
  }

  lemma KindIsRelation(rd: Reader, b: Book<Id, Rec>, f: Finding, id: Id, kind: Kind)
    requires OnTopic(b, f, id)
    ensures KindOf(VerdictOn(rd, f, b.records[id]).relation) == kind <==> Stands(rd, b, f, id, RelationsOf(kind))
  {
  }

  lemma {:induction false} OfKindIsThose(rd: Reader, b: Book<Id, Rec>, f: Finding, ids: seq<Id>, kind: Kind)
    ensures OfKind(rd, f, b.records, Active(b.records, f.topic, ids), kind) ==
      Those(ids, Standing(rd, b, f, RelationsOf(kind)))
  {
    if ids != [] {
      var n := |ids| - 1;
      var before := Active(b.records, f.topic, ids[..n]);
      OfKindIsThose(rd, b, f, ids[..n], kind);
      ActiveSnoc(b, f, ids);
      if OnTopic(b, f, ids[n]) {
        OfKindSnoc(rd, f, b.records, before, ids[n], kind);
        KindIsRelation(rd, b, f, ids[n], kind);
      } else {
        assert before + [] == before;
      }
    }
  }

  lemma {:induction false} ActiveIsThose(b: Book<Id, Rec>, f: Finding, ids: seq<Id>)
    ensures Active(b.records, f.topic, ids) == Those(ids, About(b, f))
  {
    if ids != [] {
      ActiveIsThose(b, f, ids[..|ids| - 1]);
    }
  }

  // The first id of `ids` for which p holds.
  ghost predicate IsFirst(ids: seq<Id>, p: Id -> bool, id: Id) {
    exists i :: 0 <= i < |ids| && ids[i] == id && p(id) && forall j :: 0 <= j < i ==> !p(ids[j])
  }

  ghost predicate NoneOf(ids: seq<Id>, p: Id -> bool) {
    forall i :: 0 <= i < |ids| ==> !p(ids[i])
  }

  lemma {:induction false} NoneOfThose(ids: seq<Id>, p: Id -> bool)
    ensures Those(ids, p) == [] <==> NoneOf(ids, p)
  {
    if ids != [] {
      var n := |ids| - 1;
      NoneOfThose(ids[..n], p);
      assert forall j :: 0 <= j < n ==> ids[j] == ids[..n][j];
    }
  }

  lemma FirstInPrefix(ids: seq<Id>, n: nat, p: Id -> bool, id: Id)
    requires n <= |ids| && IsFirst(ids[..n], p, id)
    ensures IsFirst(ids, p, id)
  {
    var i :| 0 <= i < n && ids[..n][i] == id && p(id) && forall j :: 0 <= j < i ==> !p(ids[..n][j]);
    assert ids[i] == id && forall j :: 0 <= j < i ==> ids[j] == ids[..n][j];
  }

  lemma LastIsFirst(ids: seq<Id>, p: Id -> bool)
    requires ids != [] && NoneOf(ids[..|ids| - 1], p) && p(ids[|ids| - 1])
    ensures IsFirst(ids, p, ids[|ids| - 1])
  {
    assert forall j :: 0 <= j < |ids| - 1 ==> ids[j] == ids[..|ids| - 1][j];
  }

  lemma {:induction false} FirstOfThose(ids: seq<Id>, p: Id -> bool)
    requires Those(ids, p) != []
    ensures IsFirst(ids, p, Those(ids, p)[0])
  {
    var n := |ids| - 1;
    if Those(ids[..n], p) != [] {
      FirstOfThose(ids[..n], p);
      FirstInPrefix(ids, n, p, Those(ids[..n], p)[0]);
    } else {
      NoneOfThose(ids[..n], p);
      LastIsFirst(ids, p);
    }
  }

  lemma ThoseHaveFirst(ids: seq<Id>, p: Id -> bool)
    ensures Those(ids, p) == [] <==> NoneOf(ids, p)
    ensures Those(ids, p) != [] ==> IsFirst(ids, p, Those(ids, p)[0])
  {
    NoneOfThose(ids, p);
    if Those(ids, p) != [] {
      FirstOfThose(ids, p);
    }
  }

  lemma FirstIsUnique(ids: seq<Id>, p: Id -> bool, a: Id, b: Id)
    requires IsFirst(ids, p, a) && IsFirst(ids, p, b)
    ensures a == b
  {
  }

  // The secret, the unsafe and the blank.
  predicate Unwelcome(rd: Reader, f: Finding) {
    f.secret || f.cls == DisputedOrUnsafe || rd.blank(f.claim)
  }

  lemma KindsAreThose(rd: Reader, b: Book<Id, Rec>, f: Finding)
    ensures
      OfKind(rd, f, b.records, FindTopic(b, f.topic), Conflicting) == Those(b.order, Standing(rd, b, f, CONFLICTS))
    ensures OfKind(rd, f, b.records, FindTopic(b, f.topic), Merging) == Those(b.order, Standing(rd, b, f, AGREES))
    ensures OfKind(rd, f, b.records, FindTopic(b, f.topic), Linking) == Those(b.order, Standing(rd, b, f, BEARS_ON))
    ensures FindTopic(b, f.topic) == Those(b.order, About(b, f))
  {
    OfKindIsThose(rd, b, f, b.order, Conflicting);
    OfKindIsThose(rd, b, f, b.order, Merging);
    OfKindIsThose(rd, b, f, b.order, Linking);
    ActiveIsThose(b, f, b.order);
  }

  /** What a finding meets decides how it is taken. Refused are exactly the secret, the unsafe and the blank. */
  lemma RefusesExactly(rd: Reader, b: Book<Id, Rec>, f: Finding)
    ensures PlanFor(rd, b, f) == Refuse <==> Unwelcome(rd, f)
  {
  }

  /** Else the first active record of its topic that conflicts with it is contested. */
  lemma FirstConflictIsContested(rd: Reader, b: Book<Id, Rec>, f: Finding)
    requires !Unwelcome(rd, f) && !NoneOf(b.order, Standing(rd, b, f, CONFLICTS))
    ensures
      var plan := PlanFor(rd, b, f);
      && plan.Contest? && plan.incumbent.Some? && plan.incumbent.value in b.records
      && IsFirst(b.order, Standing(rd, b, f, CONFLICTS), plan.incumbent.value)
      && plan.verdict == VerdictOn(rd, f, b.records[plan.incumbent.value])
  {
    KindsAreThose(rd, b, f);
    ThoseHaveFirst(b.order, Standing(rd, b, f, CONFLICTS));
  }

  /** If there is none, a disputed finding contests the first active record of its topic, or stands disputed alone. */
  lemma DisputedIsContested(rd: Reader, b: Book<Id, Rec>, f: Finding)
    requires !Unwelcome(rd, f) && NoneOf(b.order, Standing(rd, b, f, CONFLICTS)) && f.disputed
    ensures
      var plan := PlanFor(rd, b, f);
      && plan.Contest? && plan.verdict == Verdict(Contradicts, 0.5, TaskStatus)
      && (plan.incumbent.None? <==> NoneOf(b.order, About(b, f)))
      && (plan.incumbent.Some? ==> IsFirst(b.order, About(b, f), plan.incumbent.value))
  {
    KindsAreThose(rd, b, f);
    ThoseHaveFirst(b.order, Standing(rd, b, f, CONFLICTS));
    ThoseHaveFirst(b.order, About(b, f));
  }

  /** Any other is merged into the first active record of its topic that agrees with it. */
  lemma FirstAgreementIsMerged(rd: Reader, b: Book<Id, Rec>, f: Finding)
    requires !Unwelcome(rd, f) && NoneOf(b.order, Standing(rd, b, f, CONFLICTS)) && !f.disputed
    requires !NoneOf(b.order, Standing(rd, b, f, AGREES))
    ensures
      var plan := PlanFor(rd, b, f);
      && plan.MergeInto? && plan.id in b.records && IsFirst(b.order, Standing(rd, b, f, AGREES), plan.id)
      && plan.verdict == VerdictOn(rd, f, b.records[plan.id])
  {
    KindsAreThose(rd, b, f);
    ThoseHaveFirst(b.order, Standing(rd, b, f, CONFLICTS));
    ThoseHaveFirst(b.order, Standing(rd, b, f, AGREES));
  }

  /** And one that meets neither becomes a candidate, linked to all that bear on it, in order. */
  lemma RestIsOpened(rd: Reader, b: Book<Id, Rec>, f: Finding)
    requires !Unwelcome(rd, f) && NoneOf(b.order, Standing(rd, b, f, CONFLICTS)) && !f.disputed
    requires NoneOf(b.order, Standing(rd, b, f, AGREES))
    ensures PlanFor(rd, b, f) == Open(Those(b.order, Standing(rd, b, f, BEARS_ON)))
  {
    KindsAreThose(rd, b, f);
    ThoseHaveFirst(b.order, Standing(rd, b, f, CONFLICTS));
    ThoseHaveFirst(b.order, Standing(rd, b, f, AGREES));
  }

  // ---------------------------------------------------------------- contradictions and agreement, end to end

  // The words of the finding and of an active record of its topic conflict.
  ghost predicate AtOdds(rd: Reader, b: Book<Id, Rec>, f: Finding, id: Id) {
    OnTopic(b, f, id) &&
    Conflict(rd.lexicon, f.claim, b.records[id].claim, Context(f.secret, f.cls, b.records[id].cls))
  }

  lemma AtOddsConflicts(rd: Reader, b: Book<Id, Rec>, f: Finding, id: Id)
    ensures AtOdds(rd, b, f, id) <==> Stands(rd, b, f, id, CONFLICTS)
  {
    if id in b.records {
      RelationsExactly(rd.lexicon, f.claim, b.records[id].claim, Context(f.secret, f.cls, b.records[id].cls));
    }
  }

  /** A finding whose words conflict with those of an active record of its topic is never taken as evidence for it: the
  first such record is contested, and at the next consolidation the finding and that record are both disputed, never to
  be committed. */
  lemma ConflictingWordsDispute(rd: Reader, ops: seq<Op>, f: Finding, at: real, contested: bool, now: real, i: nat)
    requires i < |Run(rd, START, ops).book.order|
    ensures
      var s := Run(rd, START, ops);
      var id, filed := s.book.order[i], Do(rd, s, Ingest(f, at));
      !Refused(rd, f) && AtOdds(rd, s.book, f, id) &&
      (forall j :: 0 <= j < i ==> !AtOdds(rd, s.book, f, s.book.order[j]))
      ==> DisputedInTurn(s.book, filed.book, Do(rd, filed, Consolidate(contested, now)).book, id, NextId(s.book.order))
  {
    var b := Run(rd, START, ops).book;
    var id := b.order[i];
    if !Refused(rd, f) && AtOdds(rd, b, f, id) && (forall j :: 0 <= j < i ==> !AtOdds(rd, b, f, b.order[j])) {
      RunIsSound(rd, ops);
      FirstAtOdds(rd, b, f, i);
      ConflictDisputesBoth(rd, ops, f, at, contested, now);
    }
  }

  lemma FirstAtOdds(rd: Reader, b: Book<Id, Rec>, f: Finding, i: nat)
    requires Sound(b) && !Refused(rd, f) && i < |b.order| && AtOdds(rd, b, f, b.order[i])
    requires forall j :: 0 <= j < i ==> !AtOdds(rd, b, f, b.order[j])
    ensures PlanFor(rd, b, f).Contest? && PlanFor(rd, b, f).incumbent == Some(b.order[i])
  {
    var conflicts := Standing(rd, b, f, CONFLICTS);
    forall j | 0 <= j <= i ensures conflicts(b.order[j]) <==> AtOdds(rd, b, f, b.order[j]) {
      AtOddsConflicts(rd, b, f, b.order[j]);
    }
    assert IsFirst(b.order, conflicts, b.order[i]);
    FirstConflictIsContested(rd, b, f);
    FirstIsUnique(b.order, conflicts, b.order[i], PlanFor(rd, b, f).incumbent.value);
  }

  // The record holds how it was judged.
  predicate Judged(r: Rec, v: Verdict) {
    r.relation == Some(v.relation) && r.semantic == v.confidence && r.how == v.how
  }

  // The record has the finding's source key, and if that is new one more piece of evidence and its events.
  predicate TakenAsEvidence(r: Rec, after: Rec, f: Finding) {
    && after.contradictions == r.contradictions && after.status == r.status
    && (if KeyOfFinding(f) in r.sourceKeys
        then after.evidence == r.evidence && after.sourceKeys == r.sourceKeys && after.eventIds == r.eventIds
        else after.evidence == r.evidence + 1 && after.sourceKeys == r.sourceKeys + [KeyOfFinding(f)] &&
             after.eventIds == r.eventIds + f.eventIds)
  }

  /** A finding that agrees with a record, and conflicts with none, adds exactly one piece of evidence to the first such
  record if it comes by a new source key, and none otherwise; no other record moves and none is added. */
  lemma AgreementIsEvidence(rd: Reader, ops: seq<Op>, f: Finding, at: real, id: Id)
    requires id in Run(rd, START, ops).book.records
    ensures
      var s := Run(rd, START, ops);
      var after := Do(rd, s, Ingest(f, at)).book;
      (!Unwelcome(rd, f) && !f.disputed && NoneOf(s.book.order, Standing(rd, s.book, f, CONFLICTS)) &&
       IsFirst(s.book.order, Standing(rd, s.book, f, AGREES), id)) ==>
      OnlyEvidence(s.book, after, f, id, VerdictOn(rd, f, s.book.records[id]))
  {
    var s := Run(rd, START, ops);
    if !Unwelcome(rd, f) && !f.disputed && NoneOf(s.book.order, Standing(rd, s.book, f, CONFLICTS)) &&
       IsFirst(s.book.order, Standing(rd, s.book, f, AGREES), id) {
      FirstAgreementIsMerged(rd, s.book, f);
      FirstIsUnique(s.book.order, Standing(rd, s.book, f, AGREES), id, PlanFor(rd, s.book, f).id);
      MergeMovesOne(rd, s, f, at, id);
    }
  }

  // One record takes the finding as evidence, judged as given; no other moves, and none is added.
  ghost predicate OnlyEvidence(b: Book<Id, Rec>, after: Book<Id, Rec>, f: Finding, id: Id, v: Verdict) {
    && after.order == b.order && id in b.records && id in after.records
    && TakenAsEvidence(b.records[id], after.records[id], f) && Judged(after.records[id], v)
    && forall other :: other in b.records && other != id ==>
         other in after.records && after.records[other] == b.records[other]
  }

  lemma MergeMovesOne(rd: Reader, s: State, f: Finding, at: real, id: Id)
    requires PlanFor(rd, s.book, f).MergeInto? && PlanFor(rd, s.book, f).id == id && id in s.book.records
    ensures Do(rd, s, Ingest(f, at)).book ==
      Put(s.book, id, Merged(s.book.records[id], f, PlanFor(rd, s.book, f).verdict))
  {
    var v := PlanFor(rd, s.book, f).verdict;
    var e := Edit(id, Merged(s.book.records[id], f, v), true);
    assert PlanFor(rd, s.book, f) == MergeInto(id, v);
    assert IngestEdits(rd, s.book, f, at) == [e];
    assert [e][..0] == [];
    assert ApplyAll(s, [e]) == Apply(s, e);
  }

  // The record says of the finding what was found, once, and nothing of its own.
  predicate AsFound(rd: Reader, r: Rec, f: Finding, at: real) {
    && r.topic == f.topic && r.claim <= f.claim && r.claimKey == rd.keyOf(f.claim) && r.cls == f.cls
    && r.createdTs == at && r.sourceKeys == [SourceKey(f.cls, f.task, multiset(f.sources))] && r.eventIds == f.eventIds
    && r.evidence == 1 && r.tier.None? && !r.important && !r.evidenceRequested
  }

  /** A finding that is neither refused nor merged is filed as it was found under an id not in use: contested, as a
  disputed challenger with one contradiction, judged as it was against the record it contests; otherwise as a candidate
  with none, judged as against the first record it bears on. */
  lemma NewcomersAreAsFound(rd: Reader, ops: seq<Op>, f: Finding, at: real)
    ensures
      var s := Run(rd, START, ops);
      var plan, after := PlanFor(rd, s.book, f), Do(rd, s, Ingest(f, at)).book.records;
      plan.Contest? || plan.Open? ==>
        NextId(s.book.order) !in s.book.records && NextId(s.book.order) in after &&
        FiledAs(rd, s.book, after[NextId(s.book.order)], f, at, plan)
  {
    var s := Run(rd, START, ops);
    RunIsSound(rd, ops);
    if PlanFor(rd, s.book, f).Contest? || PlanFor(rd, s.book, f).Open? {
      IngestEditsValid(rd, s.book, f, at);
      NewcomerIsFirst(rd, s.book, f, at);
      Touched(s, IngestEdits(rd, s.book, f, at), 0);
    }
  }

  predicate FiledAs(rd: Reader, b: Book<Id, Rec>, r: Rec, f: Finding, at: real, plan: Plan) {
    && AsFound(rd, r, f, at)
    && (plan.Contest? ==>
          r.status == Disputed && r.contradictions == 1 && r.challengerOf == plan.incumbent && Judged(r, plan.verdict))
    && (plan.Open? ==>
          r.status == Candidate && r.contradictions == 0 && r.challengerOf == None &&
          JudgedFirst(rd, b, r, f, plan.related))
  }

  predicate JudgedFirst(rd: Reader, b: Book<Id, Rec>, r: Rec, f: Finding, related: seq<Id>) {
    if related == [] then r.relation == None && r.semantic == 1.0 && r.how == NewClaim
    else related[0] in b.records ==> Judged(r, VerdictOn(rd, f, b.records[related[0]]))
  }

  lemma NewcomerIsFirst(rd: Reader, b: Book<Id, Rec>, f: Finding, at: real)
    requires PlanFor(rd, b, f).Contest? || PlanFor(rd, b, f).Open?
    ensures
      var edits := IngestEdits(rd, b, f, at);
      edits != [] && edits[0].id == NextId(b.order) && FiledAs(rd, b, edits[0].record, f, at, PlanFor(rd, b, f))
  {
    HeadsAreKept(f.claim);
  }

  // ---------------------------------------------------------------- what a consolidation decides

  // Fourteen days or more.
  predicate Old(r: Rec, now: real) {
    now - r.createdTs >= 14.0 * 24.0 * 3600.0
  }

  // Neither committable nor canonical nor from the web.
  predicate Unclassed(c: SourceClass) {
    !UsersOwn(c) && c != DomainVerified && c != ProvisionalWeb && c != SystemCanonical && c != VerifiedProjectFact
  }

  predicate CanonicalClass(c: SourceClass) {
    c == SystemCanonical || c == VerifiedProjectFact
  }

  // A lone finding nobody has come back to, and on which little was staked.
  predicate Forgotten(r: Rec, now: real) {
    r.evidence == 1 && Old(r, now) && r.confidence <= 0.5
  }

  // A lone finding not forgotten, or more of a class nothing else can be made of.
  predicate StillOpen(r: Rec, now: real) {
    if r.evidence == 1 then !CanonicalClass(r.cls) && !Forgotten(r, now) else Unclassed(r.cls)
  }

  lemma DecisionOnRecord(r: Rec, contested: bool, now: real)
    requires RecOk(r)
    ensures
      var action := Evaluate(r, contested, now);
      && (action.Dispute? <==> r.contradictions > 0)
      && (action.Archive? <==> r.contradictions == 0 && !CanonicalClass(r.cls) && Forgotten(r, now))
      && (action.Reinforce? <==> (r.contradictions == 0 && r.evidence > r.lastEval && StillOpen(r, now)))
  {
    ReadyCommits(r, contested, now);
    if r.evidence >= 2 && r.contradictions == 0 && Committable(r) {
      QualityFloor(r, now);
    }
  }

  /** With CommitsExactlyWhenReady the whole of what a consolidation decides on a reachable record. It is disputed
  exactly when contradicted; archived when uncontradicted, not canonical and forgotten; reinforced when there is
  evidence since its last evaluation and it is still open what becomes of it; kept otherwise. */
  lemma DecidesExactly(rd: Reader, ops: seq<Op>, id: Id, contested: bool, now: real)
    requires id in Run(rd, START, ops).book.records
    ensures
      var r := Run(rd, START, ops).book.records[id];
      var action := Evaluate(r, contested, now);
      && (action.Dispute? <==> r.contradictions > 0)
      && (action.Archive? <==> r.contradictions == 0 && !CanonicalClass(r.cls) && Forgotten(r, now))
      && (action.Reinforce? <==> (r.contradictions == 0 && r.evidence > r.lastEval && StillOpen(r, now)))
  {
    RunKeepsOk(rd, ops);
    DecisionOnRecord(Run(rd, START, ops).book.records[id], contested, now);
  }

  /** A consolidation notes on each active record the evidence it saw, so that a second look finds nothing new, and its
  priority: one for each piece of evidence, two for each contradiction, one for attention. */
  lemma ConsolidationNotes(rd: Reader, ops: seq<Op>, id: Id, contested: bool, now: real)
    requires id in Run(rd, START, ops).book.records
    ensures
      var s := Run(rd, START, ops);
      var r, after := s.book.records[id], Do(rd, s, Consolidate(contested, now)).book.records;
      id in after && (r.status in {Candidate, Reinforced} ==> NotedOn(r, after[id], contested))
  {
    RunIsSound(rd, ops);
    ConsolidationNotesOn(rd, Run(rd, START, ops), id, contested, now);
  }

  predicate NotedOn(r: Rec, after: Rec, contested: bool) {
    && after.lastEval == r.evidence
    && after.priority == r.evidence + r.contradictions + r.contradictions + (if contested then 1 else 0)
  }

  lemma EditNotes(id: Id, r: Rec, contested: bool, now: real)
    ensures NotedOn(r, ConsolidateEdit(id, r, contested, now).record, contested)
  {
  }

  lemma ConsolidationNotesOn(rd: Reader, s: State, id: Id, contested: bool, now: real)
    requires Sound(s.book) && AllRecOk(s.book) && id in s.book.records
    ensures
      var r, after := s.book.records[id], Do(rd, s, Consolidate(contested, now)).book.records;
      id in after && (r.status in {Candidate, Reinforced} ==> NotedOn(r, after[id], contested))
  {
    ConsolidatedRecord(s, id, contested, now);
    EditNotes(id, s.book.records[id], contested, now);
  }

  /** What the evidence of a record has earned it in confidence, and how long its claim can be. */
  lemma ConfidenceIsEarned(rd: Reader, ops: seq<Op>, id: Id)
    requires id in Run(rd, START, ops).book.records
    ensures
      var s := Run(rd, START, ops);
      var r := s.book.records[id];
      && 0.5 <= r.confidence <= 0.95 && |r.claim| <= 300
      && (Revivals(s.ledger, id) == 0 && !r.important ==>
            r.confidence == (if r.evidence == 1 then 0.5 else if r.evidence == 2 then 0.8 else 0.95))
  {
    RunKeepsOk(rd, ops);
    EvidenceIsAccountedFor(rd, ops, id);
    assert RecOk(Run(rd, START, ops).book.records[id]);
  }

  // ---------------------------------------------------------------- decisions and manual acts

  // The active records, in order.
  function Actives(b: Book<Id, Rec>): Id -> bool {
    (id: Id) => id in b.records && b.records[id].status in {Candidate, Reinforced}
  }

  function IdsOf(ds: seq<Decision>): seq<Id> {
    seq(|ds|, i requires 0 <= i < |ds| => ds[i].id)
  }

  lemma {:induction false} DecidesInOrder(b: Book<Id, Rec>, ids: seq<Id>, contested: bool, now: real)
    ensures IdsOf(Decisions(b.records, ids, contested, now)) == Those(ids, Actives(b))
  {
    if ids != [] {
      DecidesInOrder(b, ids[..|ids| - 1], contested, now);
    }
  }

  lemma {:induction false} DecisionsAreOnRecords(b: Book<Id, Rec>, ids: seq<Id>, contested: bool, now: real)
    ensures forall i :: 0 <= i < |Decisions(b.records, ids, contested, now)| ==>
      var d := Decisions(b.records, ids, contested, now)[i];
      d.id in b.records && IsActive(b.records[d.id].status) && d == Decide(d.id, b.records[d.id], contested, now)
  {
    if ids != [] {
      DecisionsAreOnRecords(b, ids[..|ids| - 1], contested, now);
    }
  }

  // The record is as the decision says, evidence, contradictions, priority and quality, and its status as decided.
  predicate CarriedOut(r: Rec, after: Rec, d: Decision) {
    && d.evidence == r.evidence && d.contradictions == r.contradictions
    && d.priority == after.priority && d.quality == after.quality
    && after.evidence == r.evidence && after.contradictions == r.contradictions
    && after.status == Decided(r, d.action)
  }

  lemma EditCarriesOut(id: Id, r: Rec, contested: bool, now: real)
    ensures CarriedOut(r, ConsolidateEdit(id, r, contested, now).record, Decide(id, r, contested, now))
  {
  }

  /** A consolidation decides on each active record once, in dictionary order, and on no other; and what it says of
  a record is so: the record has that evidence, and leaves with that priority and quality and in the status decided.
  */
  lemma DecisionsAreCarriedOut(rd: Reader, ops: seq<Op>, contested: bool, now: real)
    ensures
      var s := Run(rd, START, ops);
      var ds, after := DecisionsOf(s.book, Consolidate(contested, now)), Do(rd, s, Consolidate(contested, now)).book;
      && IdsOf(ds) == Those(s.book.order, Actives(s.book))
      && forall i :: 0 <= i < |ds| ==> Fulfilled(s.book, after, ds[i])
  {
    var s := Run(rd, START, ops);
    var ds := DecisionsOf(s.book, Consolidate(contested, now));
    RunIsSound(rd, ops);
    DecidesInOrder(s.book, s.book.order, contested, now);
    DecisionsAreOnRecords(s.book, s.book.order, contested, now);
    forall i | 0 <= i < |ds| ensures Fulfilled(s.book, Do(rd, s, Consolidate(contested, now)).book, ds[i]) {
      OneFulfilled(rd, s, ds[i].id, contested, now);
    }
  }

  ghost predicate Fulfilled(b: Book<Id, Rec>, after: Book<Id, Rec>, d: Decision) {
    d.id in b.records && d.id in after.records && CarriedOut(b.records[d.id], after.records[d.id], d)
  }

  lemma OneFulfilled(rd: Reader, s: State, id: Id, contested: bool, now: real)
    requires Sound(s.book) && id in s.book.records && IsActive(s.book.records[id].status)
    ensures
      Fulfilled(s.book, Do(rd, s, Consolidate(contested, now)).book, Decide(id, s.book.records[id], contested, now))
  {
    ConsolidatedRecord(s, id, contested, now);
    EditCarriesOut(id, s.book.records[id], contested, now);
  }

  /** What a person does to a record by hand: calling it false disputes it and counts one contradiction; calling it
  important raises its confidence by 0.2, to 0.95 at most; asking for more notes so; archiving and approving move
  it; and none of them touches anything else of it, or any other record. */
  lemma HandsMoveOne(rd: Reader, s: State, id: Id, what: Manual, other: Id)
    requires other in s.book.records
    ensures
      var r, after := s.book.records[other], Do(rd, s, ByHand(id, what)).book.records;
      && other in after && (other != id ==> after[other] == r)
      && (other == id ==>
            match what
            case MarkFalse => after[id] == r.(status := Disputed, contradictions := r.contradictions + 1)
            case MarkImportant =>
              after[id] == r.(important := true,
                              confidence := if r.confidence > 0.75 then 0.95 else r.confidence + 0.2)
            case RequestMore => after[id] == r.(evidenceRequested := true)
            case ToArchive => after[id] == r.(status := Archived)
            case Approve => after[id] == r.(status := after[id].status, tier := after[id].tier))
  {
    var edits := ManualEdits(s.book, id, what);
    if edits != [] {
      assert edits == [edits[0]];
      SingleEdit(s, edits[0], other);
    }
  }

  /** Revival makes the first archived record of the topic and claim a candidate again with one more piece of
  evidence, and changes nothing else of it, nor any other. */
  lemma RevivalMovesOne(rd: Reader, s: State, topic: string, claim: string, id: Id)
    requires Sound(s.book) && id in s.book.records
    ensures
      var r, after := s.book.records[id], Do(rd, s, Revive(topic, claim)).book.records;
      id in after && after[id] ==
        if FirstArchived(s.book, topic, rd.keyOf(claim), id) then r.(status := Candidate, evidence := r.evidence + 1)
        else r
  {
    var edits := ReviveEdits(rd, s.book, topic, claim);
    RevivalHitsFirst(s.book, topic, rd.keyOf(claim), id);
    FindArchivedFinds(s.book.records, s.book.order, topic, rd.keyOf(claim));
    if edits != [] {
      assert edits == [edits[0]];
      SingleEdit(s, edits[0], id);
    }
  }

  // ---------------------------------------------------------------- what the quality score is made of

  // Neither at the floor nor at the ceiling.
  predicate Inside(q: int) {
    0 < q < 1000
  }

  /** What each thing is worth to the quality of a record, in thousandths, wherever the score is not at its bounds.
  A piece of evidence is worth 150 up to the third, and no more after it. */
  lemma EvidenceWeighs(r: Rec, now: real)
    requires r.evidence >= 0
    requires Inside(Quality(r, now)) && Inside(Quality(r.(evidence := r.evidence + 1), now))
    ensures Quality(r.(evidence := r.evidence + 1), now) == Quality(r, now) + (if r.evidence < 3 then 150 else 0)
  {
  }

  /** Importance is worth 100. */
  lemma ImportanceWeighs(r: Rec, now: real)
    requires !r.important && Inside(Quality(r, now)) && Inside(Quality(r.(important := true), now))
    ensures Quality(r.(important := true), now) == Quality(r, now) + 100
  {
  }

  /** A first contradiction costs 300, and any more nothing. */
  lemma ContradictionWeighs(r: Rec, now: real)
    requires r.contradictions >= 0
    requires Inside(Quality(r, now)) && Inside(Quality(r.(contradictions := r.contradictions + 1), now))
    ensures Quality(r.(contradictions := r.contradictions + 1), now) ==
      Quality(r, now) - (if r.contradictions == 0 then 300 else 0)
  {
  }

  /** Age costs 100, and so does a relation less certain than one half. */
  lemma AgeAndDoubtWeigh(r: Rec, now: real, later: real, doubt: real)
    requires Inside(Quality(r, now))
    ensures !Old(r, now) && Old(r, later) && Inside(Quality(r, later)) ==>
      Quality(r, later) == Quality(r, now) - 100
    ensures r.semantic >= 0.5 > doubt && Inside(Quality(r.(semantic := doubt), now)) ==>
      Quality(r.(semantic := doubt), now) == Quality(r, now) - 100
  {
  }

  // All source keys are of one class.
  ghost predicate OneClass(keys: seq<SourceKey>) {
    forall i, j :: 0 <= i < |keys| && 0 <= j < |keys| ==> keys[i].cls == keys[j].cls
  }

  ghost predicate SomeVerified(r: Rec) {
    r.cls == DomainVerified || r.cls == VerifiedProjectFact ||
    exists i :: 0 <= i < |r.sourceKeys| && (r.sourceKeys[i].cls in {DomainVerified, VerifiedProjectFact})
  }

  lemma ClassesOne(keys: seq<SourceKey>)
    ensures |Classes(keys)| >= 2 <==> !OneClass(keys)
  {
    var classes := Classes(keys);
    if OneClass(keys) && keys != [] {
      assert classes == {keys[0].cls};
    } else if keys == [] {
      assert classes == {};
    } else {
      var i, j :| 0 <= i < |keys| && 0 <= j < |keys| && keys[i].cls != keys[j].cls;
      TwoOf(classes, keys[i].cls, keys[j].cls);
    }
  }

  lemma TwoOf(classes: set<SourceClass>, x: SourceClass, y: SourceClass)
    requires x in classes && y in classes && x != y
    ensures |classes| >= 2
  {
    assert |classes - {x}| == |classes| - 1 && y in classes - {x};
  }

  /** And a fresh record of one piece of evidence starts from 650: 100 more if its keys are of two classes, 200 more if
  something about it is verified, 200 less if it is from the web on fewer than two web sources. */
  lemma QualityStarts(r: Rec, now: real)
    requires r.evidence == 1 && !r.important && r.contradictions == 0 && r.semantic >= 0.5 && !Old(r, now)
    ensures Quality(r, now) ==
      650 + (if OneClass(r.sourceKeys) then 0 else 100) + (if SomeVerified(r) then 200 else 0)
          - (if r.cls == ProvisionalWeb && r.webSources < 2 then 200 else 0)
  {
    ClassesOne(r.sourceKeys);
    var classes := Classes(r.sourceKeys);
    if SomeVerified(r) && r.cls != DomainVerified && r.cls != VerifiedProjectFact {
      var i :| 0 <= i < |r.sourceKeys| && (r.sourceKeys[i].cls in {DomainVerified, VerifiedProjectFact});
      assert r.sourceKeys[i].cls in classes;
    }
  }

  // ---------------------------------------------------------------- links and disputes

  /** A candidate that bears on others is linked in both directions, and nothing else of them changes. */
  lemma LinksGoBothWays(rd: Reader, ops: seq<Op>, f: Finding, at: real, id: Id)
    requires id in Run(rd, START, ops).book.records
    ensures
      var s := Run(rd, START, ops);
      var plan, newId := PlanFor(rd, s.book, f), NextId(s.book.order);
      var after := Do(rd, s, Ingest(f, at)).book.records;
      plan.Open? ==>
        && newId in after && after[newId].related == plan.related && after[newId].status == Candidate
        && id in after && LinkedTo(s.book.records[id], after[id], newId, id in plan.related)
  {
    var s := Run(rd, START, ops);
    RunIsSound(rd, ops);
    if PlanFor(rd, s.book, f).Open? {
      var related := PlanFor(rd, s.book, f).related;
      PlanIsOk(rd, s.book, f);
      IngestEditsValid(rd, s.book, f, at);
      NewcomerWrites(rd, s, f, at, related);
      OldOnesLink(rd, s, f, at, related, id);
    }
  }

  lemma {:induction false} LinkEditsAre(records: map<Id, Rec>, ids: seq<Id>, newId: Id, id: Id)
    requires Distinct(ids) && id in records
    ensures forall i :: 0 <= i < |LinkEdits(records, ids, newId)| ==>
      LinkEdits(records, ids, newId)[i].id in ids
    ensures forall i :: 0 <= i < |LinkEdits(records, ids, newId)| && LinkEdits(records, ids, newId)[i].id == id ==>
      LinkEdits(records, ids, newId)[i].record == records[id].(related := records[id].related + [newId])
    ensures id in ids && newId !in records[id].related ==>
      exists i :: 0 <= i < |LinkEdits(records, ids, newId)| && LinkEdits(records, ids, newId)[i].id == id
  {
    if ids != [] {
      var n := |ids| - 1;
      LinkEditsAre(records, ids[..n], newId, id);
      var before, all := LinkEdits(records, ids[..n], newId), LinkEdits(records, ids, newId);
      if id in ids[..n] && newId !in records[id].related {
        var i :| 0 <= i < |before| && before[i].id == id;
        assert all[i] == before[i];
      } else if id in ids && newId !in records[id].related {
        assert ids[n] == id && all == before + [Edit(id, Linked(records[id], newId), true)];
        assert all[|before|].id == id;
      }
    }
  }

  // The record is linked to the new one if it is among `related`, and otherwise as it was.
  predicate LinkedTo(r: Rec, after: Rec, newId: Id, linked: bool) {
    after.(related := r.related) == r &&
    (if linked then newId in after.related && r.related <= after.related else after == r)
  }

  lemma NewcomerWrites(rd: Reader, s: State, f: Finding, at: real, related: seq<Id>)
    requires Separate(FreshEdits(rd, s.book, f, at, related))
    ensures
      var newId, after := NextId(s.book.order), ApplyAll(s, FreshEdits(rd, s.book, f, at, related)).book.records;
      newId in after && after[newId].related == related && after[newId].status == Candidate
  {
    Touched(s, FreshEdits(rd, s.book, f, at, related), 0);
  }

  lemma OldOnesLink(rd: Reader, s: State, f: Finding, at: real, related: seq<Id>, id: Id)
    requires Sound(s.book) && id in s.book.records && Distinct(related)
    requires Separate(FreshEdits(rd, s.book, f, at, related))
    ensures
      var newId, after := NextId(s.book.order), ApplyAll(s, FreshEdits(rd, s.book, f, at, related)).book.records;
      id in after && LinkedTo(s.book.records[id], after[id], newId, id in related)
  {
    var edits, newId := FreshEdits(rd, s.book, f, at, related), NextId(s.book.order);
    var links := LinkEdits(s.book.records, related, newId);
    assert edits == [edits[0]] + links;
    LinkEditsAre(s.book.records, related, newId, id);
    if i :| 0 <= i < |links| && links[i].id == id {
      assert edits[i + 1] == links[i];
      Touched(s, edits, i + 1);
    } else {
      assert forall i :: 1 <= i < |edits| ==> edits[i] == links[i - 1];
      Untouched(s, edits, id);
    }
  }

  /** Whom a dispute is put to: a canonical record or rule overrides; else the user is asked if one of the two is the
  user's own; else a verified source is searched for if one is from the web; else it is the operator's. */
  lemma StepsExactly(relation: Relation, challenger: SourceClass, incumbent: SourceClass)
    ensures
      var step := StepFor(relation, challenger, incumbent);
      var overrides := relation == CanonicalConflict || CanonicalClass(incumbent);
      var users, web := UsersOwn(challenger) || UsersOwn(incumbent), ProvisionalWeb in {challenger, incumbent};
      && (step == CanonicalOverrides <==> overrides)
      && (step == AskUserForSource <==> !overrides && users)
      && (step == SearchVerifiedSource <==> !overrides && !users && web)
      && (step == RequestOperator <==> !overrides && !users && !web)
  {
  }

  /** A new record keeps the head of its claim, of at most 300 characters, and a dispute line of at most 200. */
  lemma HeadsAreKept(claim: string)
    ensures Cut(claim) <= claim && |Cut(claim)| == (if |claim| < 300 then |claim| else 300)
    ensures Head(claim) <= claim && |Head(claim)| == (if |claim| < 200 then |claim| else 200)
  {
  }

  predicate IsHead(head: string, claim: string) {
    head <= claim && |head| == if |claim| < 200 then |claim| else 200
  }

  // The line names both parties, with the heads of their claims and their classes.
  predicate NamesBoth(line: DisputeLine, incumbent: Rec, f: Finding) {
    && IsHead(line.evidenceA, incumbent.claim) && IsHead(line.evidenceB, f.claim)
    && line.classA == incumbent.cls && line.classB == f.cls
  }

  /** A dispute line is written exactly when a finding contests a record: one, that names the record and the id the
  finding is filed under, what either side says and is, the relation between them, and whom it is put to. */
  lemma DisputesAreOnFile(rd: Reader, b: Book<Id, Rec>, f: Finding)
    requires Sound(b)
    ensures
      var plan := PlanFor(rd, b, f);
      var lines := DisputeLines(b, f, plan);
      if plan.Contest? && plan.incumbent.Some? then
        && |lines| == 1 && lines[0].incumbent == plan.incumbent.value && lines[0].challenger == NextId(b.order)
        && lines[0].incumbent in b.records && NamesBoth(lines[0], b.records[lines[0].incumbent], f)
        && lines[0].relation == plan.verdict.relation
        && lines[0].step == StepFor(plan.verdict.relation, f.cls, b.records[lines[0].incumbent].cls)
      else lines == []
  {
    PlanIsOk(rd, b, f);
  }
}
