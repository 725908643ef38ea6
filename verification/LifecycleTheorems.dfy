/** What the candidate lifecycle keeps over every sequence of operations, restarts included. */
module LifecycleTheorems {
  import opened Journal
  import opened Evidence
  import opened Options
  import opened LifecycleSpec
  import opened Sequences

  // ---------------------------------------------------------------- records

  // How many of the first n source keys are from the web.
  function WebAmong(keys: seq<SourceKey>, n: nat): nat
    requires n <= |keys|
  {
    if n == 0 then 0 else WebAmong(keys, n - 1) + (if keys[n - 1].cls.ProvisionalWeb? then 1 else 0)
  }

  function WebKeys(keys: seq<SourceKey>): nat {
    WebAmong(keys, |keys|)
  }

  lemma {:induction false} WebAmongPrefix(a: seq<SourceKey>, b: seq<SourceKey>, n: nat)
    requires a <= b && n <= |a|
    ensures WebAmong(a, n) == WebAmong(b, n)
  {
    if n > 0 {
      WebAmongPrefix(a, b, n - 1);
    }
  }

  function Members(sources: multiset<string>): set<string> {
    set x | x in sources
  }

  // The sources named by the first n source keys.
  function SourcesAmong(keys: seq<SourceKey>, n: nat): set<string>
    requires n <= |keys|
  {
    if n == 0 then {} else SourcesAmong(keys, n - 1) + Members(keys[n - 1].sources)
  }

  function SourcesOf(keys: seq<SourceKey>): set<string> {
    SourcesAmong(keys, |keys|)
  }

  lemma {:induction false} SourcesAmongPrefix(a: seq<SourceKey>, b: seq<SourceKey>, n: nat)
    requires a <= b && n <= |a|
    ensures SourcesAmong(a, n) == SourcesAmong(b, n)
  {
    if n > 0 {
      SourcesAmongPrefix(a, b, n - 1);
    }
  }

  // What one more key adds to both.
  lemma KeysSnoc(keys: seq<SourceKey>, f: Finding)
    ensures WebKeys(keys + [KeyOfFinding(f)]) == WebKeys(keys) + (if f.cls.ProvisionalWeb? then 1 else 0)
    ensures SourcesOf(keys + [KeyOfFinding(f)]) == SourcesOf(keys) + SetOf(f.sources)
  {
    var all := keys + [KeyOfFinding(f)];
    WebAmongPrefix(keys, all, |keys|);
    SourcesAmongPrefix(keys, all, |keys|);
    assert Members(multiset(f.sources)) == SetOf(f.sources);
  }

  // The user's own memory.
  predicate UsersOwn(c: SourceClass) {
    c == UserMemoryGrounded || c == ExtractedUserClaim || c == UserPreference
  }

  // The tier a class is committed at: the user's own as such, what is verified as such, and no other class at all.
  predicate TierFits(c: SourceClass, tier: Option<Tier>) {
    || (UsersOwn(c) && tier == Some(UserTier))
    || ((c == DomainVerified || c == ProvisionalWeb) && tier == Some(VerifiedTier))
  }

  /** The commit-safety part: what a committed record is entitled to. */
  ghost predicate SafelyCommitted(r: Rec) {
    r.status.Committed? ==>
      && r.contradictions == 0
      && TierFits(r.cls, r.tier)
      && (r.cls.ProvisionalWeb? ==> WebKeys(r.sourceKeys) >= MIN_WEB_SOURCES)
  }

  // What confidence evidence earns while the record has neither been revived nor marked important.
  predicate ConfidenceFits(r: Rec) {
    r.evidence == |r.sourceKeys| && !r.important ==>
      r.confidence == (if r.evidence == 1 then 0.5 else if r.evidence == 2 then 0.8 else 0.95)
  }

  ghost predicate RecOk(r: Rec) {
    && ConfidenceFits(r) && 0.5 <= r.confidence <= 0.95
    && |r.claim| <= 300
    && r.evidence >= |r.sourceKeys|
    && r.contradictions >= 0
    && r.evidence >= 1
    && r.sourceKeys != [] && Distinct(r.sourceKeys)
    && r.sourcesUsed == SourcesOf(r.sourceKeys)
    && r.webSources == WebKeys(r.sourceKeys)
    && r.semantic >= 0.5
    && -1 <= r.lastEval <= r.evidence
    && !r.cls.DisputedOrUnsafe?
    && (r.status.Disputed? ==> r.contradictions > 0)
    && SafelyCommitted(r)
  }

  // What no operation ever takes back.
  ghost predicate Grows(r: Rec, r': Rec) {
    && r.topic == r'.topic && r.claim == r'.claim && r.claimKey == r'.claimKey && r.cls == r'.cls
    && r.createdTs == r'.createdTs && r.challengerOf == r'.challengerOf
    && r.contradictions <= r'.contradictions
    && r.evidence <= r'.evidence
    && r.sourceKeys <= r'.sourceKeys && r.eventIds <= r'.eventIds && r.sourcesUsed <= r'.sourcesUsed
    && (r.important ==> r'.important)
  }

  // ---------------------------------------------------------------- records that a restart cannot tell apart

  function Plain(r: Rec): Rec {
    r.(priority := 0, quality := 0, lastEval := 0)
  }

  // Consolidation of such a record never looks at the evidence count of its last evaluation.
  predicate Insensitive(r: Rec) {
    IsCanonical(r.cls) || (r.evidence >= COMMIT_EVIDENCE && CommitTrust(r.cls).Some?)
  }

  ghost predicate Sim(r1: Rec, r2: Rec) {
    Plain(r1) == Plain(r2) && (Insensitive(r1) || r1.lastEval == r2.lastEval)
  }

  lemma SimFields(r1: Rec, r2: Rec)
    requires Plain(r1) == Plain(r2)
    ensures r1 == r2.(priority := r1.priority, quality := r1.quality, lastEval := r1.lastEval)
  {
    assert r1 == Plain(r1).(priority := r1.priority, quality := r1.quality, lastEval := r1.lastEval);
    assert r2 == Plain(r2).(priority := r2.priority, quality := r2.quality, lastEval := r2.lastEval);
  }

  ghost predicate SimBook(a: Book<Id, Rec>, b: Book<Id, Rec>) {
    && a.order == b.order
    && a.records.Keys == b.records.Keys
    && (forall id :: id in a.records ==> Sim(a.records[id], b.records[id]))
  }

  lemma SimBookTransitive(a: Book<Id, Rec>, b: Book<Id, Rec>, c: Book<Id, Rec>)
    requires SimBook(a, b) && SimBook(b, c)
    ensures SimBook(a, c)
  {
    forall id | id in a.records ensures Sim(a.records[id], c.records[id]) {
      assert Sim(a.records[id], b.records[id]) && Sim(b.records[id], c.records[id]);
      SimFields(a.records[id], b.records[id]);
    }
  }

  lemma SimBookSymmetric(a: Book<Id, Rec>, b: Book<Id, Rec>)
    requires SimBook(a, b)
    ensures SimBook(b, a)
  {
    forall id | id in b.records ensures Sim(b.records[id], a.records[id]) {
      assert Sim(a.records[id], b.records[id]);
      SimFields(a.records[id], b.records[id]);
    }
  }

  // ---------------------------------------------------------------- the state invariant

  // How often the ledger shows id going from archived back to candidate.
  function Revivals(ledger: seq<Saved<Id, Rec>>, id: Id): nat {
    if ledger == [] then 0
    else
      var before, last := ledger[..|ledger| - 1], ledger[|ledger| - 1];
      var was := Replay(before).records;
      Revivals(before, id) +
      (if last.id == id && id in was && was[id].status.Archived? && last.record.status.Candidate? then 1 else 0)
  }

  ghost predicate AllRecOk(b: Book<Id, Rec>) {
    forall id :: id in b.records ==> RecOk(b.records[id])
  }

  ghost predicate Accounted(s: State) {
    forall id :: id in s.book.records ==>
      s.book.records[id].evidence == |s.book.records[id].sourceKeys| + Revivals(s.ledger, id)
  }

  ghost predicate StateOk(s: State) {
    && Sound(s.book) && AllRecOk(s.book) && Accounted(s)
    && SimBook(s.book, Replay(s.ledger)) && AllRecOk(Replay(s.ledger))
  }

  ghost predicate StateGrows(s: State, s': State) {
    && s.book.order <= s'.book.order
    && s.ledger <= s'.ledger
    && (forall id :: id in s.book.records ==> id in s'.book.records && Grows(s.book.records[id], s'.book.records[id]))
  }

  lemma StateGrowsTransitive(a: State, b: State, c: State)
    requires StateGrows(a, b) && StateGrows(b, c)
    ensures StateGrows(a, c)
  {
    forall id | id in a.book.records
      ensures id in c.book.records && Grows(a.book.records[id], c.book.records[id])
    {
      assert Grows(a.book.records[id], b.book.records[id]) && Grows(b.book.records[id], c.book.records[id]);
    }
  }

  // ---------------------------------------------------------------- one edit

  ghost predicate Rewrites(was: Rec, r: Rec, saved: bool) {
    && Grows(was, r)
    && r.evidence - |r.sourceKeys| ==
       was.evidence - |was.sourceKeys| + (if saved && was.status.Archived? && r.status.Candidate? then 1 else 0)
    && (!saved ==> Sim(was, r))
  }

  ghost predicate ValidEdit(b: Book<Id, Rec>, e: Edit) {
    && RecOk(e.record)
    && (if e.id in b.records then Rewrites(b.records[e.id], e.record, e.saved)
        else e.saved && e.record.evidence == |e.record.sourceKeys|)
  }

  lemma {:induction false} NeverSavedNeverRevived(ledger: seq<Saved<Id, Rec>>, id: Id)
    requires id !in Replay(ledger).records
    ensures Revivals(ledger, id) == 0
  {
    if ledger != [] {
      NeverSavedNeverRevived(ledger[..|ledger| - 1], id);
    }
  }

  lemma RevivalsAppend(ledger: seq<Saved<Id, Rec>>, e: Saved<Id, Rec>, id: Id)
    ensures
      var was := Replay(ledger).records;
      Revivals(ledger + [e], id) == Revivals(ledger, id) +
        (if e.id == id && id in was && was[id].status.Archived? && e.record.status.Candidate? then 1 else 0)
  {
    assert (ledger + [e])[..|ledger|] == ledger;
  }

  lemma PutSim(a: Book<Id, Rec>, b: Book<Id, Rec>, id: Id, r1: Rec, r2: Rec)
    requires SimBook(a, b) && Sim(r1, r2)
    ensures SimBook(Put(a, id, r1), Put(b, id, r2))
  {
  }

  lemma SaveAccounts(s: State, e: Edit)
    requires Accounted(s) && SimBook(s.book, Replay(s.ledger)) && ValidEdit(s.book, e) && e.saved
    ensures Accounted(Apply(s, e))
  {
    var s', replay := Apply(s, e), Replay(s.ledger);
    forall id | id in s'.book.records
      ensures s'.book.records[id].evidence == |s'.book.records[id].sourceKeys| + Revivals(s'.ledger, id)
    {
      RevivalsAppend(s.ledger, Saved(e.id, e.record), id);
      if id in s.book.records {
        SimFields(s.book.records[id], replay.records[id]);
      } else {
        NeverSavedNeverRevived(s.ledger, id);
      }
    }
  }

  lemma SaveKeepsOk(s: State, e: Edit)
    requires StateOk(s) && ValidEdit(s.book, e) && e.saved
    ensures StateOk(Apply(s, e))
  {
    PutKeepsSound(s.book, e.id, e.record);
    ReplayAppend(s.ledger, e.id, e.record);
    PutSim(s.book, Replay(s.ledger), e.id, e.record, e.record);
    SaveAccounts(s, e);
  }

  lemma MarkSim(b: Book<Id, Rec>, replay: Book<Id, Rec>, id: Id, r: Rec)
    requires SimBook(b, replay) && id in b.records && Sim(b.records[id], r)
    ensures SimBook(Put(b, id, r), replay)
  {
    SimFields(b.records[id], r);
    SimFields(b.records[id], replay.records[id]);
  }

  lemma MarkAccounts(s: State, e: Edit)
    requires Accounted(s) && e.id in s.book.records && Sim(s.book.records[e.id], e.record) && !e.saved
    ensures Accounted(Apply(s, e))
  {
    SimFields(s.book.records[e.id], e.record);
  }

  // An unsaved edit of an existing record.
  lemma MarkKeepsOk(s: State, e: Edit)
    requires StateOk(s) && ValidEdit(s.book, e) && !e.saved
    ensures StateOk(Apply(s, e))
  {
    PutKeepsSound(s.book, e.id, e.record);
    MarkSim(s.book, Replay(s.ledger), e.id, e.record);
    MarkAccounts(s, e);
  }

  lemma ApplyKeepsOk(s: State, e: Edit)
    requires StateOk(s) && ValidEdit(s.book, e)
    ensures StateOk(Apply(s, e))
  {
    if e.saved {
      SaveKeepsOk(s, e);
    } else {
      MarkKeepsOk(s, e);
    }
  }

  lemma ApplyGrows(s: State, e: Edit)
    requires ValidEdit(s.book, e)
    ensures StateGrows(s, Apply(s, e))
  {
    forall id | id in s.book.records ensures Grows(s.book.records[id], Apply(s, e).book.records[id]) {
    }
  }

  // ---------------------------------------------------------------- a list of edits to different records

  ghost predicate Separate(edits: seq<Edit>) {
    forall i, j :: 0 <= i < j < |edits| ==> edits[i].id != edits[j].id
  }

  ghost predicate AllValid(b: Book<Id, Rec>, edits: seq<Edit>) {
    forall i :: 0 <= i < |edits| ==> ValidEdit(b, edits[i])
  }

  lemma {:induction false} Untouched(s: State, edits: seq<Edit>, id: Id)
    requires forall i :: 0 <= i < |edits| ==> edits[i].id != id
    ensures id in ApplyAll(s, edits).book.records <==> id in s.book.records
    ensures id in s.book.records ==> ApplyAll(s, edits).book.records[id] == s.book.records[id]
  {
    if edits != [] {
      Untouched(s, edits[..|edits| - 1], id);
    }
  }

  lemma ValidElsewhere(b: Book<Id, Rec>, b': Book<Id, Rec>, e: Edit)
    requires ValidEdit(b, e)
    requires e.id in b'.records <==> e.id in b.records
    requires e.id in b.records ==> b'.records[e.id] == b.records[e.id]
    ensures ValidEdit(b', e)
  {
  }

  // The last of a list of separate valid edits is valid once the others have been applied.
  lemma LastStaysValid(s: State, edits: seq<Edit>)
    requires Separate(edits) && AllValid(s.book, edits) && edits != []
    ensures
      var before := edits[..|edits| - 1];
      Separate(before) && AllValid(s.book, before) && ValidEdit(ApplyAll(s, before).book, edits[|edits| - 1])
  {
    var before, e := edits[..|edits| - 1], edits[|edits| - 1];
    Untouched(s, before, e.id);
    ValidElsewhere(s.book, ApplyAll(s, before).book, e);
  }

  lemma {:induction false} ApplyAllKeepsOk(s: State, edits: seq<Edit>)
    requires StateOk(s) && Separate(edits) && AllValid(s.book, edits)
    ensures StateOk(ApplyAll(s, edits))
  {
    if edits != [] {
      LastStaysValid(s, edits);
      ApplyAllKeepsOk(s, edits[..|edits| - 1]);
      ApplyKeepsOk(ApplyAll(s, edits[..|edits| - 1]), edits[|edits| - 1]);
    }
  }

  lemma {:induction false} ApplyAllGrows(s: State, edits: seq<Edit>)
    requires Separate(edits) && AllValid(s.book, edits)
    ensures StateGrows(s, ApplyAll(s, edits))
  {
    if edits == [] {
      forall id | id in s.book.records ensures Grows(s.book.records[id], s.book.records[id]) {
      }
    } else {
      var before, e := edits[..|edits| - 1], edits[|edits| - 1];
      LastStaysValid(s, edits);
      ApplyAllGrows(s, before);
      ApplyGrows(ApplyAll(s, before), e);
      StateGrowsTransitive(s, ApplyAll(s, before), ApplyAll(s, edits));
    }
  }

  // ---------------------------------------------------------------- every operation makes valid edits

  ghost predicate Among(ids: seq<Id>, all: seq<Id>) {
    Distinct(ids) && forall i :: 0 <= i < |ids| ==> ids[i] in all
  }

  lemma {:induction false} ActiveIsAmong(records: map<Id, Rec>, topic: string, ids: seq<Id>)
    requires Distinct(ids)
    ensures Among(Active(records, topic, ids), ids)
    ensures forall id :: id in Active(records, topic, ids) ==> id in records && IsActive(records[id].status)
  {
    if ids != [] {
      ActiveIsAmong(records, topic, ids[..|ids| - 1]);
    }
  }

  lemma {:induction false} OfKindIsAmong(rd: Reader, f: Finding, records: map<Id, Rec>, ids: seq<Id>, kind: Kind)
    requires Distinct(ids)
    ensures Among(OfKind(rd, f, records, ids, kind), ids)
    ensures forall id :: id in OfKind(rd, f, records, ids, kind) ==>
      id in records && KindOf(VerdictOn(rd, f, records[id]).relation) == kind
  {
    if ids != [] {
      OfKindIsAmong(rd, f, records, ids[..|ids| - 1], kind);
    }
  }

  lemma NewRecIsOk(rd: Reader, f: Finding, now: real, status: Status, challengerOf: Option<Id>,
                   relation: Option<Relation>, semantic: real, how: Method, contradictions: int, related: seq<Id>)
    requires !f.cls.DisputedOrUnsafe? && semantic >= 0.5 && contradictions >= 0
    requires status.Candidate? || (status.Disputed? && contradictions > 0)
    ensures RecOk(NewRec(rd, f, now, status, challengerOf, relation, semantic, how, contradictions, related))
  {
    KeysSnoc([], f);
    assert [] + [KeyOfFinding(f)] == [KeyOfFinding(f)];
  }

  lemma VerdictFloor(rd: Reader, f: Finding, r: Rec)
    ensures !VerdictOn(rd, f, r).relation.Unrelated? ==> VerdictOn(rd, f, r).confidence >= 0.5
  {
    LinkingConfidenceFloor(rd.lexicon, f.claim, r.claim, Context(f.secret, f.cls, r.cls));
  }

  lemma KeyAddedIsOk(r: Rec, f: Finding)
    requires RecOk(r) && IsActive(r.status) && KeyOfFinding(f) !in r.sourceKeys
    ensures RecOk(WithKey(r, f))
  {
    KeysSnoc(r.sourceKeys, f);
  }

  lemma KeyAddedRewrites(r: Rec, f: Finding)
    ensures Grows(r, WithKey(r, f))
    ensures WithKey(r, f).evidence - |WithKey(r, f).sourceKeys| == r.evidence - |r.sourceKeys|
  {
  }

  lemma RelatedIsOk(r: Rec, v: Verdict)
    requires RecOk(r) && IsActive(r.status) && v.confidence >= 0.5
    ensures RecOk(Related(r, v))
  {
  }

  lemma MergedIsValid(r: Rec, f: Finding, v: Verdict)
    requires RecOk(r) && IsActive(r.status) && v.confidence >= 0.5
    ensures RecOk(Merged(r, f, v)) && Rewrites(r, Merged(r, f, v), true)
  {
    if KeyOfFinding(f) in r.sourceKeys {
      RelatedIsOk(r, v);
    } else {
      KeyAddedIsOk(r, f);
      KeyAddedRewrites(r, f);
      RelatedIsOk(WithKey(r, f), v);
    }
  }

  // A valid and separate list of edits, to ids among `ids`.
  ghost predicate Proper(b: Book<Id, Rec>, edits: seq<Edit>, ids: seq<Id>) {
    AllValid(b, edits) && Separate(edits) && forall i :: 0 <= i < |edits| ==> edits[i].id in ids
  }

  lemma ProperAppend(b: Book<Id, Rec>, edits: seq<Edit>, ids: seq<Id>, e: Edit)
    requires Proper(b, edits, ids) && ValidEdit(b, e) && e.id !in ids
    ensures Proper(b, edits + [e], ids + [e.id])
  {
  }

  lemma OneIsProper(b: Book<Id, Rec>, e: Edit)
    requires ValidEdit(b, e)
    ensures Proper(b, [e], [e.id])
  {
  }

  lemma ProperWiden(b: Book<Id, Rec>, edits: seq<Edit>, ids: seq<Id>, more: seq<Id>)
    requires Proper(b, edits, ids) && ids <= more
    ensures Proper(b, edits, more)
  {
  }

  lemma LastIsNew(ids: seq<Id>)
    requires Distinct(ids) && ids != []
    ensures Distinct(ids[..|ids| - 1]) && ids[|ids| - 1] !in ids[..|ids| - 1]
    ensures ids[..|ids| - 1] + [ids[|ids| - 1]] == ids
  {
  }

  lemma LinkedIsValid(b: Book<Id, Rec>, last: Id, id: Id)
    requires AllRecOk(b) && last in b.records
    ensures ValidEdit(b, Edit(last, Linked(b.records[last], id), true))
  {
    assert RecOk(b.records[last]);
  }

  lemma {:induction false} LinkEditsValid(b: Book<Id, Rec>, ids: seq<Id>, id: Id)
    requires AllRecOk(b) && Distinct(ids) && (forall i :: 0 <= i < |ids| ==> ids[i] in b.records)
    ensures Proper(b, LinkEdits(b.records, ids, id), ids)
  {
    if ids != [] {
      var before, last := ids[..|ids| - 1], ids[|ids| - 1];
      LastIsNew(ids);
      LinkEditsValid(b, before, id);
      LinkedIsValid(b, last, id);
      ProperAppend(b, LinkEdits(b.records, before, id), before, Edit(last, Linked(b.records[last], id), true));
      ProperWiden(b, LinkEdits(b.records, before, id), before, ids);
      assert LinkEdits(b.records, ids, id) == LinkEdits(b.records, before, id) +
        (if id !in b.records[last].related then [Edit(last, Linked(b.records[last], id), true)] else []);
    }
  }

  lemma ContradictedIsValid(b: Book<Id, Rec>, incumbent: Id, id: Id)
    requires AllRecOk(b) && incumbent in b.records && IsActive(b.records[incumbent].status)
    ensures
      var r := b.records[incumbent];
      ValidEdit(b, Edit(incumbent, Linked(r.(contradictions := r.contradictions + 1), id), true))
  {
    assert RecOk(b.records[incumbent]);
  }

  lemma DisputeEditsValid(rd: Reader, b: Book<Id, Rec>, f: Finding, now: real, incumbent: Option<Id>, v: Verdict)
    requires Sound(b) && AllRecOk(b) && !Refused(rd, f) && v.confidence >= 0.5
    requires incumbent.Some? ==> incumbent.value in b.records && IsActive(b.records[incumbent.value].status)
    ensures AllValid(b, DisputeEdits(rd, b, f, now, incumbent, v))
    ensures Separate(DisputeEdits(rd, b, f, now, incumbent, v))
  {
    var edits := DisputeEdits(rd, b, f, now, incumbent, v);
    NewRecIsOk(rd, f, now, Disputed, incumbent, Some(v.relation), v.confidence, v.how, 1, []);
    OneIsProper(b, edits[0]);
    if incumbent.Some? {
      ContradictedIsValid(b, incumbent.value, NextId(b.order));
      ProperAppend(b, edits[..1], [edits[0].id], edits[1]);
      assert edits == edits[..1] + [edits[1]];
    }
  }

  lemma ConsProper(b: Book<Id, Rec>, e: Edit, edits: seq<Edit>, ids: seq<Id>)
    requires Proper(b, edits, ids) && ValidEdit(b, e) && e.id !in ids
    ensures AllValid(b, [e] + edits) && Separate([e] + edits)
  {
  }

  lemma NewcomerIsValid(rd: Reader, b: Book<Id, Rec>, f: Finding, now: real, related: seq<Id>)
    requires Sound(b) && !Refused(rd, f)
    requires forall id :: id in related ==> id in b.records && VerdictOn(rd, f, b.records[id]).confidence >= 0.5
    ensures ValidEdit(b, FreshEdits(rd, b, f, now, related)[0])
  {
    if related != [] {
      assert related[0] in related;
      var v := VerdictOn(rd, f, b.records[related[0]]);
      NewRecIsOk(rd, f, now, Candidate, None, Some(v.relation), v.confidence, v.how, 0, related);
    } else {
      NewRecIsOk(rd, f, now, Candidate, None, None, 1.0, NewClaim, 0, related);
    }
  }

  lemma FreshEditsValid(rd: Reader, b: Book<Id, Rec>, f: Finding, now: real, related: seq<Id>)
    requires Sound(b) && AllRecOk(b) && !Refused(rd, f) && Distinct(related)
    requires forall id :: id in related ==> id in b.records && VerdictOn(rd, f, b.records[id]).confidence >= 0.5
    ensures AllValid(b, FreshEdits(rd, b, f, now, related)) && Separate(FreshEdits(rd, b, f, now, related))
  {
    var id, edits := NextId(b.order), FreshEdits(rd, b, f, now, related);
    NewcomerIsValid(rd, b, f, now, related);
    forall i | 0 <= i < |related| ensures related[i] in b.records && related[i] != id {
      assert related[i] in related;
    }
    LinkEditsValid(b, related, id);
    ConsProper(b, edits[0], LinkEdits(b.records, related, id), related);
  }

  // The ids and verdicts a plan rests on.
  ghost predicate PlanOk(b: Book<Id, Rec>, rd: Reader, f: Finding, plan: Plan) {
    match plan
    case Refuse => true
    case Contest(incumbent, v) =>
      !Refused(rd, f) && v.confidence >= 0.5 &&
      (incumbent.Some? ==> incumbent.value in b.records && IsActive(b.records[incumbent.value].status))
    case MergeInto(id, v) => id in b.records && IsActive(b.records[id].status) && v.confidence >= 0.5
    case Open(related) =>
      !Refused(rd, f) && Distinct(related) &&
      forall id :: id in related ==> id in b.records && VerdictOn(rd, f, b.records[id]).confidence >= 0.5
  }

  lemma HeadIn(ids: seq<Id>)
    ensures ids != [] ==> ids[0] in ids
  {
  }

  // Every id selected by its kind of relation is an active record whose verdict is well founded.
  lemma SelectedAreGood(rd: Reader, b: Book<Id, Rec>, f: Finding, kind: Kind, id: Id)
    requires Distinct(b.order) && !kind.Neutral?
    requires id in OfKind(rd, f, b.records, FindTopic(b, f.topic), kind)
    ensures id in b.records && IsActive(b.records[id].status) && VerdictOn(rd, f, b.records[id]).confidence >= 0.5
  {
    ActiveIsAmong(b.records, f.topic, b.order);
    OfKindIsAmong(rd, f, b.records, FindTopic(b, f.topic), kind);
    VerdictFloor(rd, f, b.records[id]);
  }

  lemma PlanIsOk(rd: Reader, b: Book<Id, Rec>, f: Finding)
    requires Sound(b)
    ensures PlanOk(b, rd, f, PlanFor(rd, b, f))
  {
    var existing := FindTopic(b, f.topic);
    var plan := PlanFor(rd, b, f);
    ActiveIsAmong(b.records, f.topic, b.order);
    match plan
    case Refuse =>
    case Contest(incumbent, v) =>
      HeadIn(existing);
      HeadIn(OfKind(rd, f, b.records, existing, Conflicting));
      if OfKind(rd, f, b.records, existing, Conflicting) != [] {
        SelectedAreGood(rd, b, f, Conflicting, OfKind(rd, f, b.records, existing, Conflicting)[0]);
      }
    case MergeInto(id, v) =>
      HeadIn(OfKind(rd, f, b.records, existing, Merging));
      SelectedAreGood(rd, b, f, Merging, id);
    case Open(related) =>
      OfKindIsAmong(rd, f, b.records, existing, Linking);
      forall id | id in related
        ensures id in b.records && VerdictOn(rd, f, b.records[id]).confidence >= 0.5
      {
        SelectedAreGood(rd, b, f, Linking, id);
      }
  }

  lemma PlanEditsValid(rd: Reader, b: Book<Id, Rec>, f: Finding, now: real, plan: Plan)
    requires Sound(b) && AllRecOk(b) && PlanOk(b, rd, f, plan)
    ensures AllValid(b, PlanEdits(rd, b, f, now, plan)) && Separate(PlanEdits(rd, b, f, now, plan))
  {
    match plan
    case Refuse =>
    case Contest(incumbent, v) => DisputeEditsValid(rd, b, f, now, incumbent, v);
    case MergeInto(id, v) =>
      assert RecOk(b.records[id]);
      MergedIsValid(b.records[id], f, v);
    case Open(related) => FreshEditsValid(rd, b, f, now, related);
  }

  lemma IngestEditsValid(rd: Reader, b: Book<Id, Rec>, f: Finding, now: real)
    requires Sound(b) && AllRecOk(b)
    ensures AllValid(b, IngestEdits(rd, b, f, now)) && Separate(IngestEdits(rd, b, f, now))
  {
    PlanIsOk(rd, b, f);
    PlanEditsValid(rd, b, f, now, PlanFor(rd, b, f));
  }

  // A KEEP decision leaves behind a record that a restart could not tell from the one before.
  lemma KeepIsInvisible(r: Rec, contested: bool, now: real)
    requires RecOk(r) && Evaluate(r, contested, now).Keep?
    ensures Insensitive(r) || r.lastEval == r.evidence
  {
  }

  lemma CommitIsEarned(r: Rec, contested: bool, now: real)
    requires RecOk(r) && Evaluate(r, contested, now).Commit?
    ensures SafelyCommitted(AsCommitted(r))
  {
  }

  lemma DisputeIsEarned(r: Rec, contested: bool, now: real)
    requires RecOk(r) && Evaluate(r, contested, now).Dispute?
    ensures r.contradictions > 0
  {
  }

  // Rescoring, and moving to a status the record is entitled to.
  lemma MarkedMoves(r: Rec, contested: bool, now: real, status: Status)
    requires RecOk(r) && IsActive(r.status) && !status.Committed? && (status.Disputed? ==> r.contradictions > 0)
    ensures
      var m := Marked(r, contested, now).(status := status);
      RecOk(m) && Rewrites(r, m, true)
  {
  }

  lemma ConsolidateEditValid(id: Id, r: Rec, contested: bool, now: real)
    requires RecOk(r) && IsActive(r.status)
    ensures
      var e := ConsolidateEdit(id, r, contested, now);
      RecOk(e.record) && Rewrites(r, e.record, e.saved)
  {
    var m := Marked(r, contested, now);
    match Evaluate(r, contested, now)
    case Commit =>
      MarkedMoves(r, contested, now, r.status);
      CommitIsEarned(r, contested, now);
    case Dispute =>
      DisputeIsEarned(r, contested, now);
      MarkedMoves(r, contested, now, Disputed);
    case Archive => MarkedMoves(r, contested, now, Archived);
    case Reinforce => MarkedMoves(r, contested, now, Reinforced);
    case Keep =>
      MarkedMoves(r, contested, now, r.status);
      KeepIsInvisible(r, contested, now);
      assert m.(status := r.status) == m;
  }

  lemma ConsolidationIsValid(b: Book<Id, Rec>, id: Id, contested: bool, now: real)
    requires AllRecOk(b) && id in b.records && IsActive(b.records[id].status)
    ensures ConsolidateEdit(id, b.records[id], contested, now).id == id
    ensures ValidEdit(b, ConsolidateEdit(id, b.records[id], contested, now))
  {
    assert RecOk(b.records[id]);
    ConsolidateEditValid(id, b.records[id], contested, now);
  }

  lemma {:induction false} ConsolidateEditsValid(b: Book<Id, Rec>, ids: seq<Id>, contested: bool, now: real)
    requires AllRecOk(b) && Distinct(ids)
    ensures Proper(b, ConsolidateEdits(b.records, ids, contested, now), ids)
  {
    if ids != [] {
      var before, last := ids[..|ids| - 1], ids[|ids| - 1];
      LastIsNew(ids);
      ConsolidateEditsValid(b, before, contested, now);
      var edits := ConsolidateEdits(b.records, before, contested, now);
      if last in b.records && IsActive(b.records[last].status) {
        var e := ConsolidateEdit(last, b.records[last], contested, now);
        ConsolidationIsValid(b, last, contested, now);
        ProperAppend(b, edits, before, e);
      } else {
        ProperWiden(b, edits, before, ids);
        assert edits + [] == edits;
      }
    }
  }

  lemma ManualEditsValid(b: Book<Id, Rec>, id: Id, what: Manual)
    requires AllRecOk(b)
    ensures AllValid(b, ManualEdits(b, id, what)) && Separate(ManualEdits(b, id, what))
  {
    if id in b.records {
      assert RecOk(b.records[id]);
      if what.Approve? && Approvable(b.records[id]) {
        ApprovedIsOk(b.records[id]);
      }
    }
  }

  lemma ApprovedIsOk(r: Rec)
    requires RecOk(r) && Approvable(r)
    ensures RecOk(AsCommitted(r)) && Rewrites(r, AsCommitted(r), true)
  {
  }

  lemma {:induction false} FindArchivedFinds(records: map<Id, Rec>, ids: seq<Id>, topic: string, key: string)
    ensures
      var hit := FindArchived(records, ids, topic, key);
      hit.Some? ==> hit.value in records && hit.value in ids && Revivable(records[hit.value], topic, key)
  {
    if ids != [] {
      FindArchivedFinds(records, ids[1..], topic, key);
    }
  }

  lemma EditsAreValid(rd: Reader, b: Book<Id, Rec>, op: Op)
    requires Sound(b) && AllRecOk(b) && !op.Reload?
    ensures AllValid(b, EditsOf(rd, b, op)) && Separate(EditsOf(rd, b, op))
  {
    match op
    case Ingest(f, at) => IngestEditsValid(rd, b, f, at);
    case ByHand(id, what) => ManualEditsValid(b, id, what);
    case Revive(topic, claim) =>
      FindArchivedFinds(b.records, b.order, topic, rd.keyOf(claim));
      var hit := FindArchived(b.records, b.order, topic, rd.keyOf(claim));
      if hit.Some? {
        assert RecOk(b.records[hit.value]);
      }
    case Consolidate(contested, now) => ConsolidateEditsValid(b, b.order, contested, now);
  }

  lemma ReloadKeepsOk(s: State)
    requires StateOk(s)
    ensures
      var s' := State(Replay(s.ledger), s.ledger);
      StateOk(s') && StateGrows(s, s') && SimBook(s.book, s'.book)
  {
    var s' := State(Replay(s.ledger), s.ledger);
    SimBookSymmetric(s.book, s'.book);
    SimBookTransitive(s'.book, s.book, s'.book);
    forall id | id in s.book.records
      ensures Grows(s.book.records[id], s'.book.records[id])
      ensures s'.book.records[id].evidence == |s'.book.records[id].sourceKeys| + Revivals(s'.ledger, id)
    {
      assert Sim(s.book.records[id], s'.book.records[id]);
      SimFields(s.book.records[id], s'.book.records[id]);
    }
  }

  lemma DoKeepsOk(rd: Reader, s: State, op: Op)
    requires StateOk(s)
    ensures StateOk(Do(rd, s, op)) && StateGrows(s, Do(rd, s, op))
  {
    if op.Reload? {
      ReloadKeepsOk(s);
    } else {
      EditsAreValid(rd, s.book, op);
      ApplyAllKeepsOk(s, EditsOf(rd, s.book, op));
      ApplyAllGrows(s, EditsOf(rd, s.book, op));
    }
  }

  /** The invariant of every run: records stay well-formed and safely committed, the dictionary is the replayed
  ledger up to evaluation bookkeeping, and evidence is distinct source keys plus revivals. */
  lemma {:induction false} RunKeepsOk(rd: Reader, ops: seq<Op>)
    ensures StateOk(Run(rd, START, ops))
  {
    if ops != [] {
      RunKeepsOk(rd, ops[..|ops| - 1]);
      DoKeepsOk(rd, Run(rd, START, ops[..|ops| - 1]), ops[|ops| - 1]);
    }
  }

  lemma {:induction false} RunGrows(rd: Reader, s: State, ops: seq<Op>)
    requires StateOk(s)
    ensures StateOk(Run(rd, s, ops)) && StateGrows(s, Run(rd, s, ops))
  {
    if ops != [] {
      RunGrows(rd, s, ops[..|ops| - 1]);
      var mid := Run(rd, s, ops[..|ops| - 1]);
      DoKeepsOk(rd, mid, ops[|ops| - 1]);
      StateGrowsTransitive(s, mid, Do(rd, mid, ops[|ops| - 1]));
    }
  }

  // ---------------------------------------------------------------- commit safety

  /** Over all runs: a committed record has no contradiction, a class that may be committed, the tier of that class,
  and, if it is a web record, at least two web source keys. */
  lemma CommitsAreSafe(rd: Reader, ops: seq<Op>, id: Id)
    requires id in Run(rd, START, ops).book.records
    ensures SafelyCommitted(Run(rd, START, ops).book.records[id])
  {
    RunKeepsOk(rd, ops);
    assert RecOk(Run(rd, START, ops).book.records[id]);
  }

  /** A record that has ever been contradicted is never committed afterwards, whatever is done to it. */
  lemma ContradictedNeverCommits(rd: Reader, before: seq<Op>, after: seq<Op>, id: Id)
    requires id in Run(rd, START, before).book.records
    ensures
      var s := Run(rd, START, before);
      var later := Run(rd, s, after).book.records;
      s.book.records[id].contradictions > 0 ==>
        id in later && later[id].contradictions > 0 && !later[id].status.Committed?
  {
    RunKeepsOk(rd, before);
    var s := Run(rd, START, before);
    RunGrows(rd, s, after);
    assert Grows(s.book.records[id], Run(rd, s, after).book.records[id]);
    assert RecOk(Run(rd, s, after).book.records[id]);
  }

  /** A claim once recorded keeps its text, topic, key, class and source keys, and loses neither evidence nor
  contradictions; contrary evidence arrives as another record. */
  lemma ClaimsAreNeverOverwritten(rd: Reader, before: seq<Op>, after: seq<Op>, id: Id)
    requires id in Run(rd, START, before).book.records
    ensures
      var s := Run(rd, START, before);
      var later := Run(rd, s, after).book.records;
      id in later && Grows(s.book.records[id], later[id])
  {
    RunKeepsOk(rd, before);
    RunGrows(rd, Run(rd, START, before), after);
  }

  // ---------------------------------------------------------------- evidence accounting and the quality floor

  lemma EvidenceIsAccountedFor(rd: Reader, ops: seq<Op>, id: Id)
    requires id in Run(rd, START, ops).book.records
    ensures
      var s := Run(rd, START, ops);
      var r := s.book.records[id];
      r.evidence == |r.sourceKeys| + Revivals(s.ledger, id) && Distinct(r.sourceKeys)
  {
    RunKeepsOk(rd, ops);
    assert RecOk(Run(rd, START, ops).book.records[id]);
  }

  predicate Committable(r: Rec) {
    UsersOwn(r.cls) || r.cls == DomainVerified || (r.cls == ProvisionalWeb && WebKeys(r.sourceKeys) >= MIN_WEB_SOURCES)
  }

  lemma QualityFloor(r: Rec, now: real)
    requires RecOk(r) && r.evidence >= COMMIT_EVIDENCE && r.contradictions == 0 && Committable(r)
    ensures Quality(r, now) >= COMMIT_QUALITY
  {
  }

  lemma ReadyCommits(r: Rec, contested: bool, now: real)
    requires RecOk(r)
    ensures Evaluate(r, contested, now).Commit? <==>
      r.evidence >= COMMIT_EVIDENCE && r.contradictions == 0 && Committable(r)
  {
    if r.evidence >= COMMIT_EVIDENCE && r.contradictions == 0 && Committable(r) {
      QualityFloor(r, now);
    }
  }

  /** On every reachable record consolidation commits exactly when the evidence is at least two, nothing contradicts
  it and the class is committable: the quality score never stands in the way, however stale the record. */
  lemma CommitsExactlyWhenReady(rd: Reader, ops: seq<Op>, id: Id, contested: bool, now: real)
    requires id in Run(rd, START, ops).book.records
    ensures
      var r := Run(rd, START, ops).book.records[id];
      Evaluate(r, contested, now).Commit? <==>
        r.evidence >= COMMIT_EVIDENCE && r.contradictions == 0 && Committable(r)
  {
    RunKeepsOk(rd, ops);
    ReadyCommits(Run(rd, START, ops).book.records[id], contested, now);
  }

  // ---------------------------------------------------------------- how independent the evidence of a commit is

  lemma {:induction false} WebAtMostAll(keys: seq<SourceKey>, n: nat)
    requires n <= |keys|
    ensures WebAmong(keys, n) <= n
  {
    if n > 0 {
      WebAtMostAll(keys, n - 1);
    }
  }

  /** Independent evidence is not needed for every commit. On a reachable record consolidation commits with fewer
  than two distinct source keys exactly when it has one, has been revived, is not contradicted, and is the user's
  own or verified. */
  lemma FewSourcesCommitExactly(rd: Reader, ops: seq<Op>, id: Id, contested: bool, now: real)
    requires id in Run(rd, START, ops).book.records
    ensures
      var s := Run(rd, START, ops);
      var r := s.book.records[id];
      Evaluate(r, contested, now).Commit? && |r.sourceKeys| < 2 <==>
        |r.sourceKeys| == 1 && Revivals(s.ledger, id) >= 1 && r.contradictions == 0 &&
        (UsersOwn(r.cls) || r.cls == DomainVerified)
  {
    var r := Run(rd, START, ops).book.records[id];
    RunKeepsOk(rd, ops);
    assert RecOk(r);
    EvidenceIsAccountedFor(rd, ops, id);
    CommitsExactlyWhenReady(rd, ops, id, contested, now);
    WebAtMostAll(r.sourceKeys, |r.sourceKeys|);
  }

  /** Whatever sources a record says it used are those its source keys name. */
  lemma SourcesAreNamed(rd: Reader, ops: seq<Op>, id: Id)
    requires id in Run(rd, START, ops).book.records
    ensures
      var r := Run(rd, START, ops).book.records[id];
      r.sourcesUsed == SourcesOf(r.sourceKeys)
  {
    RunKeepsOk(rd, ops);
    assert RecOk(Run(rd, START, ops).book.records[id]);
  }

  predicate IsWebKey(keys: seq<SourceKey>, i: int) {
    0 <= i < |keys| && keys[i].cls.ProvisionalWeb?
  }

  lemma {:induction false} TwoWebKeys(keys: seq<SourceKey>, n: nat) returns (i: int, j: int)
    requires n <= |keys| && WebAmong(keys, n) >= 1
    ensures IsWebKey(keys, i) && i < n
    ensures WebAmong(keys, n) >= 2 ==> 0 <= j < i && IsWebKey(keys, j)
  {
    if keys[n - 1].cls.ProvisionalWeb? {
      i, j := n - 1, 0;
      if WebAmong(keys, n - 1) >= 1 {
        var other;
        j, other := TwoWebKeys(keys, n - 1);
      }
    } else {
      i, j := TwoWebKeys(keys, n - 1);
    }
  }

  // All web keys name the same sources.
  ghost predicate SingleList(keys: seq<SourceKey>) {
    forall i, j :: IsWebKey(keys, i) && IsWebKey(keys, j) ==> keys[i].sources == keys[j].sources
  }

  // All web keys come from different tasks.
  ghost predicate TasksDiffer(keys: seq<SourceKey>) {
    forall i, j :: IsWebKey(keys, i) && IsWebKey(keys, j) && i != j ==> keys[i].task != keys[j].task
  }

  // Two web keys of another task or another list of sources.
  ghost predicate TwoWebFindings(keys: seq<SourceKey>) {
    exists i, j :: IsWebKey(keys, i) && IsWebKey(keys, j) &&
      (keys[i].task != keys[j].task || keys[i].sources != keys[j].sources)
  }

  lemma WebKeysAreFindings(keys: seq<SourceKey>)
    requires WebKeys(keys) >= 2 && Distinct(keys)
    ensures TwoWebFindings(keys)
  {
    var i, j := TwoWebKeys(keys, |keys|);
    assert keys[j] != keys[i];
    assert IsWebKey(keys, i) && IsWebKey(keys, j);
  }

  lemma {:induction false} WebKeysCount(keys: seq<SourceKey>, n: nat, i: int)
    requires n <= |keys| && IsWebKey(keys, i) && i < n
    ensures WebAmong(keys, n) >= 1
    ensures forall j :: IsWebKey(keys, j) && j < i ==> WebAmong(keys, n) >= 2
  {
    if i < n - 1 {
      WebKeysCount(keys, n - 1, i);
    } else if j :| IsWebKey(keys, j) && j < i {
      WebKeysCount(keys, n - 1, j);
    }
  }

  lemma FindingsAreWebKeys(keys: seq<SourceKey>)
    requires TwoWebFindings(keys)
    ensures WebKeys(keys) >= 2
  {
    var i, j :| IsWebKey(keys, i) && IsWebKey(keys, j) &&
      (keys[i].task != keys[j].task || keys[i].sources != keys[j].sources);
    WebKeysCount(keys, |keys|, if i < j then j else i);
  }

  // Two web keys of another task.
  ghost predicate TwoWebTasks(keys: seq<SourceKey>) {
    exists i, j :: IsWebKey(keys, i) && IsWebKey(keys, j) && keys[i].task != keys[j].task
  }

  /** The two web source keys a web commit needs are two findings, not two sources: a reachable web record is committed
  exactly when nothing contradicts it and two of its web keys differ in task or in sources. */
  lemma WebCommitsExactly(rd: Reader, ops: seq<Op>, id: Id, contested: bool, now: real)
    requires id in Run(rd, START, ops).book.records
    ensures
      var r := Run(rd, START, ops).book.records[id];
      r.cls.ProvisionalWeb? ==>
        (Evaluate(r, contested, now).Commit? <==> r.contradictions == 0 && TwoWebFindings(r.sourceKeys))
  {
    var r := Run(rd, START, ops).book.records[id];
    EvidenceIsAccountedFor(rd, ops, id);
    CommitsExactlyWhenReady(rd, ops, id, contested, now);
    WebAtMostAll(r.sourceKeys, |r.sourceKeys|);
    if WebKeys(r.sourceKeys) >= 2 {
      WebKeysAreFindings(r.sourceKeys);
    } else if TwoWebFindings(r.sourceKeys) {
      FindingsAreWebKeys(r.sourceKeys);
    }
  }

  /** It is committed on a single list of sources exactly when two tasks found that list, and then no two of its web
  keys come from one task. */
  lemma SingleListCommitsExactly(rd: Reader, ops: seq<Op>, id: Id, contested: bool, now: real)
    requires id in Run(rd, START, ops).book.records
    ensures
      var r := Run(rd, START, ops).book.records[id];
      r.cls.ProvisionalWeb? && SingleList(r.sourceKeys) ==>
        && (Evaluate(r, contested, now).Commit? <==> r.contradictions == 0 && TwoWebTasks(r.sourceKeys))
        && TasksDiffer(r.sourceKeys)
  {
    EvidenceIsAccountedFor(rd, ops, id);
    WebCommitsExactly(rd, ops, id, contested, now);
  }

  // ---------------------------------------------------------------- restart transparency

  ghost predicate SimEdit(e1: Edit, e2: Edit) {
    e1.id == e2.id && e1.saved == e2.saved && Sim(e1.record, e2.record)
  }

  ghost predicate SimEdits(xs: seq<Edit>, ys: seq<Edit>) {
    |xs| == |ys| && forall i :: 0 <= i < |xs| ==> SimEdit(xs[i], ys[i])
  }

  lemma ScoreSim(r1: Rec, r2: Rec, now: real)
    requires Plain(r1) == Plain(r2)
    ensures Quality(r1, now) == Quality(r2, now)
  {
    SimFields(r1, r2);
    assert Classes(r1.sourceKeys) == Classes(r2.sourceKeys);
  }

  lemma ActionSim(r1: Rec, r2: Rec, contested: bool, now: real)
    requires Sim(r1, r2) && RecOk(r1)
    ensures Evaluate(r1, contested, now) == Evaluate(r2, contested, now)
  {
    SimFields(r1, r2);
    ScoreSim(r1, r2, now);
  }

  lemma EvaluateSim(id: Id, r1: Rec, r2: Rec, contested: bool, now: real)
    requires Sim(r1, r2) && RecOk(r1)
    ensures Decide(id, r1, contested, now) == Decide(id, r2, contested, now)
    ensures SimEdit(ConsolidateEdit(id, r1, contested, now), ConsolidateEdit(id, r2, contested, now))
  {
    SimFields(r1, r2);
    ScoreSim(r1, r2, now);
    ActionSim(r1, r2, contested, now);
    assert Marked(r1, contested, now) == Marked(r2, contested, now);
  }

  lemma {:induction false} ActiveSim(a: Book<Id, Rec>, b: Book<Id, Rec>, topic: string, ids: seq<Id>)
    requires SimBook(a, b)
    ensures Active(a.records, topic, ids) == Active(b.records, topic, ids)
  {
    if ids != [] {
      ActiveSim(a, b, topic, ids[..|ids| - 1]);
      var last := ids[|ids| - 1];
      if last in a.records {
        SimFields(a.records[last], b.records[last]);
      }
    }
  }

  lemma {:induction false} OfKindSim(rd: Reader, f: Finding, a: Book<Id, Rec>, b: Book<Id, Rec>, ids: seq<Id>,
                                     kind: Kind)
    requires SimBook(a, b)
    ensures OfKind(rd, f, a.records, ids, kind) == OfKind(rd, f, b.records, ids, kind)
  {
    if ids != [] {
      OfKindSim(rd, f, a, b, ids[..|ids| - 1], kind);
      var last := ids[|ids| - 1];
      if last in a.records {
        SimFields(a.records[last], b.records[last]);
      }
    }
  }

  lemma {:induction false} LinkEditsSim(a: Book<Id, Rec>, b: Book<Id, Rec>, ids: seq<Id>, id: Id)
    requires SimBook(a, b)
    ensures SimEdits(LinkEdits(a.records, ids, id), LinkEdits(b.records, ids, id))
  {
    if ids != [] {
      LinkEditsSim(a, b, ids[..|ids| - 1], id);
      var last := ids[|ids| - 1];
      if last in a.records {
        SimFields(a.records[last], b.records[last]);
      }
    }
  }

  lemma PlanSim(rd: Reader, a: Book<Id, Rec>, b: Book<Id, Rec>, f: Finding)
    requires SimBook(a, b)
    ensures PlanFor(rd, a, f) == PlanFor(rd, b, f)
  {
    var existing := FindTopic(a, f.topic);
    ActiveSim(a, b, f.topic, a.order);
    OfKindSim(rd, f, a, b, existing, Conflicting);
    OfKindSim(rd, f, a, b, existing, Merging);
    OfKindSim(rd, f, a, b, existing, Linking);
    var conflicting := OfKind(rd, f, a.records, existing, Conflicting);
    var merging := OfKind(rd, f, a.records, existing, Merging);
    if conflicting != [] && conflicting[0] in a.records {
      SimFields(a.records[conflicting[0]], b.records[conflicting[0]]);
    }
    if merging != [] && merging[0] in a.records {
      SimFields(a.records[merging[0]], b.records[merging[0]]);
    }
  }

  lemma DisputeEditsSim(rd: Reader, a: Book<Id, Rec>, b: Book<Id, Rec>, f: Finding, now: real,
                        incumbent: Option<Id>, v: Verdict)
    requires SimBook(a, b)
    ensures SimEdits(DisputeEdits(rd, a, f, now, incumbent, v), DisputeEdits(rd, b, f, now, incumbent, v))
  {
    if incumbent.Some? && incumbent.value in a.records {
      SimFields(a.records[incumbent.value], b.records[incumbent.value]);
    }
  }

  lemma MergedSim(r1: Rec, r2: Rec, f: Finding, v: Verdict)
    requires Sim(r1, r2)
    ensures Sim(Merged(r1, f, v), Merged(r2, f, v))
  {
    SimFields(r1, r2);
  }

  lemma FreshEditsSim(rd: Reader, a: Book<Id, Rec>, b: Book<Id, Rec>, f: Finding, now: real, related: seq<Id>)
    requires SimBook(a, b)
    ensures SimEdits(FreshEdits(rd, a, f, now, related), FreshEdits(rd, b, f, now, related))
  {
    LinkEditsSim(a, b, related, NextId(a.order));
    if related != [] && related[0] in a.records {
      SimFields(a.records[related[0]], b.records[related[0]]);
    }
  }

  lemma PlanEditsSim(rd: Reader, a: Book<Id, Rec>, b: Book<Id, Rec>, f: Finding, now: real, plan: Plan)
    requires SimBook(a, b)
    ensures SimEdits(PlanEdits(rd, a, f, now, plan), PlanEdits(rd, b, f, now, plan))
  {
    match plan
    case Refuse =>
    case Contest(incumbent, v) => DisputeEditsSim(rd, a, b, f, now, incumbent, v);
    case MergeInto(id, v) =>
      if id in a.records {
        MergedSim(a.records[id], b.records[id], f, v);
      }
    case Open(related) => FreshEditsSim(rd, a, b, f, now, related);
  }

  lemma {:induction false} ConsolidateSim(a: Book<Id, Rec>, b: Book<Id, Rec>, ids: seq<Id>, contested: bool, now: real)
    requires SimBook(a, b) && AllRecOk(a)
    ensures Decisions(a.records, ids, contested, now) == Decisions(b.records, ids, contested, now)
    ensures SimEdits(ConsolidateEdits(a.records, ids, contested, now), ConsolidateEdits(b.records, ids, contested, now))
  {
    if ids != [] {
      ConsolidateSim(a, b, ids[..|ids| - 1], contested, now);
      var last := ids[|ids| - 1];
      if last in a.records {
        SimFields(a.records[last], b.records[last]);
        EvaluateSim(last, a.records[last], b.records[last], contested, now);
      }
    }
  }

  lemma {:induction false} FindArchivedSim(a: Book<Id, Rec>, b: Book<Id, Rec>, ids: seq<Id>, topic: string, key: string)
    requires SimBook(a, b)
    ensures FindArchived(a.records, ids, topic, key) == FindArchived(b.records, ids, topic, key)
  {
    if ids != [] {
      if ids[0] in a.records {
        SimFields(a.records[ids[0]], b.records[ids[0]]);
      }
      FindArchivedSim(a, b, ids[1..], topic, key);
    }
  }

  lemma ManualEditsSim(a: Book<Id, Rec>, b: Book<Id, Rec>, id: Id, what: Manual)
    requires SimBook(a, b)
    ensures SimEdits(ManualEdits(a, id, what), ManualEdits(b, id, what))
  {
    if id in a.records {
      SimFields(a.records[id], b.records[id]);
    }
  }

  lemma ReviveEditsSim(rd: Reader, a: Book<Id, Rec>, b: Book<Id, Rec>, topic: string, claim: string)
    requires SimBook(a, b)
    ensures SimEdits(ReviveEdits(rd, a, topic, claim), ReviveEdits(rd, b, topic, claim))
  {
    FindArchivedSim(a, b, a.order, topic, rd.keyOf(claim));
    var hit := FindArchived(a.records, a.order, topic, rd.keyOf(claim));
    if hit.Some? && hit.value in a.records {
      SimFields(a.records[hit.value], b.records[hit.value]);
    }
  }

  lemma EditsAreSim(rd: Reader, a: Book<Id, Rec>, b: Book<Id, Rec>, op: Op)
    requires SimBook(a, b) && AllRecOk(a) && !op.Reload?
    ensures SimEdits(EditsOf(rd, a, op), EditsOf(rd, b, op))
    ensures DecisionsOf(a, op) == DecisionsOf(b, op)
  {
    match op
    case Ingest(f, at) =>
      PlanSim(rd, a, b, f);
      PlanEditsSim(rd, a, b, f, at, PlanFor(rd, a, f));
    case ByHand(id, what) => ManualEditsSim(a, b, id, what);
    case Revive(topic, claim) => ReviveEditsSim(rd, a, b, topic, claim);
    case Consolidate(contested, now) => ConsolidateSim(a, b, a.order, contested, now);
  }

  lemma {:induction false} ApplyAllSim(s: State, t: State, xs: seq<Edit>, ys: seq<Edit>)
    requires SimBook(s.book, t.book) && SimEdits(xs, ys)
    ensures SimBook(ApplyAll(s, xs).book, ApplyAll(t, ys).book)
  {
    if xs != [] {
      ApplyAllSim(s, t, xs[..|xs| - 1], ys[..|ys| - 1]);
      assert SimEdit(xs[|xs| - 1], ys[|ys| - 1]);
    }
  }

  function WithoutReloads(ops: seq<Op>): seq<Op> {
    if ops == [] then []
    else WithoutReloads(ops[..|ops| - 1]) + (if ops[|ops| - 1].Reload? then [] else [ops[|ops| - 1]])
  }

  /** Restarts are transparent. Reloading from the ledger between any operations changes no decision of any
  consolidation, then or later, and leaves every record with the same fields, in the same iteration order, up to
  priority, quality and last-evaluated evidence: even though KEEP decisions are never saved. */
  lemma {:induction false} RestartsAreTransparent(rd: Reader, ops: seq<Op>)
    ensures Log(rd, START, ops) == Log(rd, START, WithoutReloads(ops))
    ensures SimBook(Run(rd, START, ops).book, Run(rd, START, WithoutReloads(ops)).book)
  {
    if ops != [] {
      var before, op := ops[..|ops| - 1], ops[|ops| - 1];
      RestartsAreTransparent(rd, before);
      RunKeepsOk(rd, before);
      var s, t := Run(rd, START, before), Run(rd, START, WithoutReloads(before));
      if op.Reload? {
        ReloadKeepsOk(s);
        SimBookSymmetric(s.book, Replay(s.ledger));
        SimBookTransitive(Replay(s.ledger), s.book, t.book);
        assert WithoutReloads(ops) == WithoutReloads(before);
        assert Log(rd, START, ops) == Log(rd, START, before);
      } else {
        assert WithoutReloads(ops)[..|WithoutReloads(ops)| - 1] == WithoutReloads(before);
        EditsAreSim(rd, s.book, t.book, op);
        ApplyAllSim(s, t, EditsOf(rd, s.book, op), EditsOf(rd, t.book, op));
      }
    }
  }

  // ---------------------------------------------------------------- a second consolidation

  // Status and bookkeeping do not enter the score.
  lemma ScoreIgnoresBookkeeping(r: Rec, status: Status, priority: int, quality: int, lastEval: int, now: real)
    ensures
      var r' := r.(status := status, priority := priority, quality := quality, lastEval := lastEval);
      Quality(r', now) == Quality(r, now)
  {
    var r' := r.(status := status, priority := priority, quality := quality, lastEval := lastEval);
    assert Classes(r'.sourceKeys) == Classes(r.sourceKeys);
  }

  lemma EditSettles(id: Id, r: Rec, c1: bool, c2: bool, now: real)
    requires RecOk(r) && IsActive(r.status)
    ensures
      var r' := ConsolidateEdit(id, r, c1, now).record;
      IsActive(r'.status) ==> Evaluate(r', c2, now).Keep?
  {
    var act := Evaluate(r, c1, now);
    ScoreIgnoresBookkeeping(r, r.status, Priority(r, c1), Quality(r, now), r.evidence, now);
    ScoreIgnoresBookkeeping(r, Reinforced, Priority(r, c1), Quality(r, now), r.evidence, now);
    if act.Keep? {
      assert ConsolidateEdit(id, r, c1, now).record == Marked(r, c1, now);
    } else if act.Reinforce? {
      assert ConsolidateEdit(id, r, c1, now).record == Marked(r, c1, now).(status := Reinforced);
    }
  }

  lemma {:induction false} Touched(s: State, edits: seq<Edit>, i: nat)
    requires Separate(edits) && i < |edits|
    ensures edits[i].id in ApplyAll(s, edits).book.records
    ensures ApplyAll(s, edits).book.records[edits[i].id] == edits[i].record
  {
    if i < |edits| - 1 {
      Touched(s, edits[..|edits| - 1], i);
    }
  }

  // Where the edit of id is in a consolidation, or -1 if it gets none.
  lemma {:induction false} EditFor(records: map<Id, Rec>, ids: seq<Id>, contested: bool, now: real,
                                   id: Id) returns (i: int)
    ensures
      var edits := ConsolidateEdits(records, ids, contested, now);
      && -1 <= i < |edits|
      && (i >= 0 ==> id in records && IsActive(records[id].status) &&
                     edits[i] == ConsolidateEdit(id, records[id], contested, now))
      && (i < 0 ==> forall j :: 0 <= j < |edits| ==> edits[j].id != id)
      && (i < 0 && id in ids && id in records ==> !IsActive(records[id].status))
  {
    if ids == [] {
      i := -1;
    } else {
      i := EditFor(records, ids[..|ids| - 1], contested, now, id);
      var last := ids[|ids| - 1];
      if i < 0 && last == id && last in records && IsActive(records[last].status) {
        i := |ConsolidateEdits(records, ids, contested, now)| - 1;
      }
      assert id in ids ==> id in ids[..|ids| - 1] || id == last;
    }
  }

  // Every active record would be kept as it is.
  ghost predicate Quiet(records: map<Id, Rec>, contested: bool, now: real) {
    forall id :: id in records && IsActive(records[id].status) ==> Evaluate(records[id], contested, now).Keep?
  }

  lemma {:induction false} AllKept(records: map<Id, Rec>, ids: seq<Id>, contested: bool, now: real)
    requires Quiet(records, contested, now)
    ensures forall i :: 0 <= i < |Decisions(records, ids, contested, now)| ==>
      Decisions(records, ids, contested, now)[i].action.Keep?
    ensures forall i :: 0 <= i < |ConsolidateEdits(records, ids, contested, now)| ==>
      !ConsolidateEdits(records, ids, contested, now)[i].saved
  {
    if ids != [] {
      AllKept(records, ids[..|ids| - 1], contested, now);
    }
  }

  lemma {:induction false} UnsavedLeavesLedger(s: State, edits: seq<Edit>)
    requires forall i :: 0 <= i < |edits| ==> !edits[i].saved
    ensures ApplyAll(s, edits).ledger == s.ledger
  {
    if edits != [] {
      UnsavedLeavesLedger(s, edits[..|edits| - 1]);
    }
  }

  lemma {:induction false} EditsKeepKeys(s: State, edits: seq<Edit>)
    requires forall i :: 0 <= i < |edits| ==> edits[i].id in s.book.records
    ensures ApplyAll(s, edits).book.records.Keys == s.book.records.Keys
  {
    if edits != [] {
      EditsKeepKeys(s, edits[..|edits| - 1]);
      assert edits[|edits| - 1].id in s.book.records;
    }
  }

  // Separate edits, to ids among `ids`.
  ghost predicate SeparateAmong(edits: seq<Edit>, ids: seq<Id>) {
    Separate(edits) && forall i :: 0 <= i < |edits| ==> edits[i].id in ids
  }

  lemma SeparateSnoc(edits: seq<Edit>, ids: seq<Id>, more: seq<Edit>, id: Id)
    requires SeparateAmong(edits, ids) && id !in ids && |more| <= 1 && (more != [] ==> more[0].id == id)
    ensures SeparateAmong(edits + more, ids + [id])
  {
  }

  lemma {:induction false} ConsolidateEditsSeparate(records: map<Id, Rec>, ids: seq<Id>, contested: bool, now: real)
    requires Distinct(ids)
    ensures SeparateAmong(ConsolidateEdits(records, ids, contested, now), ids)
  {
    if ids != [] {
      var before, last := ids[..|ids| - 1], ids[|ids| - 1];
      LastIsNew(ids);
      ConsolidateEditsSeparate(records, before, contested, now);
      SeparateSnoc(ConsolidateEdits(records, before, contested, now), before,
                   if last in records && IsActive(records[last].status)
                   then [ConsolidateEdit(last, records[last], contested, now)] else [], last);
    }
  }

  // Where a consolidation leaves one record.
  lemma ConsolidatedRecord(s: State, id: Id, contested: bool, now: real)
    requires Sound(s.book) && id in s.book.records
    ensures
      var r := s.book.records[id];
      var after := ApplyAll(s, ConsolidateEdits(s.book.records, s.book.order, contested, now)).book.records;
      id in after && after[id] == if IsActive(r.status) then ConsolidateEdit(id, r, contested, now).record else r
  {
    var edits := ConsolidateEdits(s.book.records, s.book.order, contested, now);
    ConsolidateEditsSeparate(s.book.records, s.book.order, contested, now);
    var i := EditFor(s.book.records, s.book.order, contested, now, id);
    if i >= 0 {
      Touched(s, edits, i);
    } else {
      Untouched(s, edits, id);
    }
  }

  lemma SettledRecord(s: State, id: Id, c1: bool, c2: bool, now: real)
    requires Sound(s.book) && AllRecOk(s.book) && id in s.book.records
    ensures
      var after := ApplyAll(s, ConsolidateEdits(s.book.records, s.book.order, c1, now)).book.records;
      id in after && (IsActive(after[id].status) ==> Evaluate(after[id], c2, now).Keep?)
  {
    ConsolidatedRecord(s, id, c1, now);
    assert RecOk(s.book.records[id]);
    if IsActive(s.book.records[id].status) {
      EditSettles(id, s.book.records[id], c1, c2, now);
    }
  }

  // Consolidating s with c1 leaves nothing for a consolidation with c2 at the same time.
  lemma Settled(s: State, c1: bool, c2: bool, now: real)
    requires Sound(s.book) && AllRecOk(s.book)
    ensures
      Quiet(ApplyAll(s, ConsolidateEdits(s.book.records, s.book.order, c1, now)).book.records, c2, now)
  {
    var edits := ConsolidateEdits(s.book.records, s.book.order, c1, now);
    var once := ApplyAll(s, edits);
    ConsolidateEditsValid(s.book, s.book.order, c1, now);
    EditsKeepKeys(s, edits);
    forall id | id in once.book.records && IsActive(once.book.records[id].status)
      ensures Evaluate(once.book.records[id], c2, now).Keep?
    {
      SettledRecord(s, id, c1, c2, now);
    }
  }

  lemma IdleAfter(rd: Reader, s: State, c1: bool, c2: bool, now: real)
    requires Sound(s.book) && AllRecOk(s.book)
    ensures
      var once := Do(rd, s, Consolidate(c1, now));
      && (forall i :: 0 <= i < |DecisionsOf(once.book, Consolidate(c2, now))| ==>
            DecisionsOf(once.book, Consolidate(c2, now))[i].action.Keep?)
      && Do(rd, once, Consolidate(c2, now)).ledger == once.ledger
  {
    var once := ApplyAll(s, ConsolidateEdits(s.book.records, s.book.order, c1, now));
    assert once == Do(rd, s, Consolidate(c1, now));
    Settled(s, c1, c2, now);
    AllKept(once.book.records, once.book.order, c2, now);
    UnsavedLeavesLedger(once, ConsolidateEdits(once.book.records, once.book.order, c2, now));
  }

  lemma RunIsSound(rd: Reader, ops: seq<Op>)
    ensures Sound(Run(rd, START, ops).book) && AllRecOk(Run(rd, START, ops).book)
  {
    RunKeepsOk(rd, ops);
  }

  /** Consolidation settles in one pass: straight afterwards a second one decides KEEP everywhere and saves nothing,
  even after the attention signal has changed. */
  lemma SecondConsolidationIsIdle(rd: Reader, ops: seq<Op>, c1: bool, c2: bool, now: real)
    ensures
      var once := Do(rd, Run(rd, START, ops), Consolidate(c1, now));
      && (forall i :: 0 <= i < |DecisionsOf(once.book, Consolidate(c2, now))| ==>
            DecisionsOf(once.book, Consolidate(c2, now))[i].action.Keep?)
      && Do(rd, once, Consolidate(c2, now)).ledger == once.ledger
  {
    RunIsSound(rd, ops);
    IdleAfter(rd, Run(rd, START, ops), c1, c2, now);
  }

  // ---------------------------------------------------------------- a contradiction disputes both sides

  lemma ConsolidationDisputes(s: State, id: Id, contested: bool, now: real)
    requires Sound(s.book) && AllRecOk(s.book) && id in s.book.records
    requires IsActive(s.book.records[id].status) && s.book.records[id].contradictions > 0
    ensures
      var after := ApplyAll(s, ConsolidateEdits(s.book.records, s.book.order, contested, now)).book.records;
      id in after && after[id].status.Disputed?
  {
    ConsolidatedRecord(s, id, contested, now);
  }

  // What filing a challenge leaves behind.
  lemma ChallengeIsFiled(rd: Reader, s: State, f: Finding, at: real, incumbent: Id, v: Verdict)
    requires Sound(s.book) && incumbent in s.book.records
    ensures
      var r, id := s.book.records[incumbent], NextId(s.book.order);
      var after := ApplyAll(s, DisputeEdits(rd, s.book, f, at, Some(incumbent), v)).book.records;
      && id !in s.book.records && id in after && after[id].status.Disputed? && after[id].challengerOf == Some(incumbent)
      && after[id].claim == Cut(f.claim)
      && incumbent in after && after[incumbent] == Linked(r.(contradictions := r.contradictions + 1), id)
  {
    var edits := DisputeEdits(rd, s.book, f, at, Some(incumbent), v);
    Touched(s, edits, 0);
    Touched(s, edits, 1);
  }

  // From s to filed: the incumbent keeps text and status, is contradicted once more and linked to its challenger, which
  // is disputed from the start.
  ghost predicate FiledBeside(s: Book<Id, Rec>, filed: Book<Id, Rec>, incumbent: Id, id: Id) {
    && incumbent in s.records && incumbent in filed.records && id in filed.records
    && filed.records[incumbent].claim == s.records[incumbent].claim
    && filed.records[incumbent].status == s.records[incumbent].status
    && filed.records[incumbent].contradictions == s.records[incumbent].contradictions + 1
    && id in filed.records[incumbent].related
    && filed.records[id].status.Disputed? && filed.records[id].challengerOf == Some(incumbent)
  }

  ghost predicate InDispute(b: Book<Id, Rec>, id: Id) {
    id in b.records && b.records[id].status.Disputed?
  }

  ghost predicate DisputedInTurn(s: Book<Id, Rec>, filed: Book<Id, Rec>, settled: Book<Id, Rec>, incumbent: Id,
                                 id: Id) {
    FiledBeside(s, filed, incumbent, id) && InDispute(settled, id) && InDispute(settled, incumbent)
  }

  lemma ChallengeIsBeside(rd: Reader, s: State, f: Finding, at: real, incumbent: Id, v: Verdict)
    requires Sound(s.book) && AllRecOk(s.book) && incumbent in s.book.records
    ensures
      var filed := ApplyAll(s, DisputeEdits(rd, s.book, f, at, Some(incumbent), v)).book;
      FiledBeside(s.book, filed, incumbent, NextId(s.book.order))
  {
    ChallengeIsFiled(rd, s, f, at, incumbent, v);
    assert RecOk(s.book.records[incumbent]);
  }

  lemma FiledAreDisputed(b: Book<Id, Rec>, filed: State, incumbent: Id, id: Id, contested: bool, now: real)
    requires Sound(filed.book) && AllRecOk(filed.book) && FiledBeside(b, filed.book, incumbent, id)
    requires IsActive(b.records[incumbent].status) && b.records[incumbent].contradictions >= 0
    ensures
      var settled := ApplyAll(filed, ConsolidateEdits(filed.book.records, filed.book.order, contested, now)).book;
      InDispute(settled, id) && InDispute(settled, incumbent)
  {
    ConsolidationDisputes(filed, incumbent, contested, now);
    ConsolidatedRecord(filed, id, contested, now);
  }

  lemma ChallengeThenConsolidate(rd: Reader, s: State, f: Finding, at: real, incumbent: Id, v: Verdict,
                                 contested: bool, now: real)
    requires Sound(s.book) && AllRecOk(s.book) && !Refused(rd, f) && v.confidence >= 0.5
    requires incumbent in s.book.records && IsActive(s.book.records[incumbent].status)
    ensures
      var filed := ApplyAll(s, DisputeEdits(rd, s.book, f, at, Some(incumbent), v));
      var settled := ApplyAll(filed, ConsolidateEdits(filed.book.records, filed.book.order, contested, now));
      DisputedInTurn(s.book, filed.book, settled.book, incumbent, NextId(s.book.order))
  {
    var edits := DisputeEdits(rd, s.book, f, at, Some(incumbent), v);
    ChallengeIsBeside(rd, s, f, at, incumbent, v);
    DisputeEditsValid(rd, s.book, f, at, Some(incumbent), v);
    AppliedIsSound(s, edits);
    assert RecOk(s.book.records[incumbent]);
    FiledAreDisputed(s.book, ApplyAll(s, edits), incumbent, NextId(s.book.order), contested, now);
  }

  lemma {:induction false} AppliedIsSound(s: State, edits: seq<Edit>)
    requires Sound(s.book) && AllRecOk(s.book) && AllValid(s.book, edits)
    ensures Sound(ApplyAll(s, edits).book) && AllRecOk(ApplyAll(s, edits).book)
  {
    if edits != [] {
      var before, e := ApplyAll(s, edits[..|edits| - 1]), edits[|edits| - 1];
      AppliedIsSound(s, edits[..|edits| - 1]);
      PutKeepsSound(before.book, e.id, e.record);
    }
  }

  lemma ContestFiles(rd: Reader, s: State, f: Finding, at: real, plan: Plan)
    requires plan == PlanFor(rd, s.book, f) && plan.Contest?
    ensures Do(rd, s, Ingest(f, at)) == ApplyAll(s, DisputeEdits(rd, s.book, f, at, plan.incumbent, plan.verdict))
  {
  }

  lemma ConsolidationApplies(rd: Reader, s: State, contested: bool, now: real)
    ensures
      Do(rd, s, Consolidate(contested, now)) ==
      ApplyAll(s, ConsolidateEdits(s.book.records, s.book.order, contested, now))
  {
  }

  // The course of a challenge, once it has been planned and filed.
  lemma ChallengeTakesItsCourse(rd: Reader, s: State, f: Finding, at: real, contested: bool, now: real, plan: Plan,
                                filed: State)
    requires Sound(s.book) && AllRecOk(s.book)
    requires plan.Contest? && plan.incumbent.Some? && PlanOk(s.book, rd, f, plan)
    requires filed == ApplyAll(s, DisputeEdits(rd, s.book, f, at, plan.incumbent, plan.verdict))
    ensures
      DisputedInTurn(s.book, filed.book, Do(rd, filed, Consolidate(contested, now)).book, plan.incumbent.value,
                     NextId(s.book.order))
  {
    ConsolidationApplies(rd, filed, contested, now);
    ChallengeThenConsolidate(rd, s, f, at, plan.incumbent.value, plan.verdict, contested, now);
  }

  // The course of a conflicting finding, for any state whose records are well-formed.
  lemma ConflictTakesItsCourse(rd: Reader, s: State, f: Finding, at: real, contested: bool, now: real)
    requires Sound(s.book) && AllRecOk(s.book)
    ensures
      var plan, filed := PlanFor(rd, s.book, f), Do(rd, s, Ingest(f, at));
      plan.Contest? && plan.incumbent.Some? ==>
        DisputedInTurn(s.book, filed.book, Do(rd, filed, Consolidate(contested, now)).book,
                       plan.incumbent.value, NextId(s.book.order))
  {
    var plan, filed := PlanFor(rd, s.book, f), Do(rd, s, Ingest(f, at));
    if plan.Contest? && plan.incumbent.Some? {
      PlanIsOk(rd, s.book, f);
      ContestFiles(rd, s, f, at, plan);
      ChallengeTakesItsCourse(rd, s, f, at, contested, now, plan, filed);
    }
  }

  /** A finding that conflicts with an active candidate is filed beside it, already disputed, and leaves its text
  and status alone; the next consolidation disputes the incumbent too. By ContradictedNeverCommits neither is ever
  committed again. */
  lemma ConflictDisputesBoth(rd: Reader, ops: seq<Op>, f: Finding, at: real, contested: bool, now: real)
    ensures
      var s := Run(rd, START, ops);
      var plan, filed := PlanFor(rd, s.book, f), Do(rd, s, Ingest(f, at));
      plan.Contest? && plan.incumbent.Some? ==>
        DisputedInTurn(s.book, filed.book, Do(rd, filed, Consolidate(contested, now)).book,
                       plan.incumbent.value, NextId(s.book.order))
  {
    RunIsSound(rd, ops);
    ConflictTakesItsCourse(rd, Run(rd, START, ops), f, at, contested, now);
  }

  // ---------------------------------------------------------------- what moves a status

  // Where a consolidation decision leaves a status.
  function Decided(r: Rec, action: Action): Status {
    match action
    case Commit => Committed
    case Dispute => Disputed
    case Archive => Archived
    case Reinforce => Reinforced
    case Keep => r.status
  }

  // The first archived record of the topic and claim key, in dictionary order.
  ghost predicate FirstArchived(b: Book<Id, Rec>, topic: string, key: string, id: Id) {
    exists i :: 0 <= i < |b.order| && b.order[i] == id && ArchivedClaim(b.records, id, topic, key) &&
      forall j :: 0 <= j < i ==> !ArchivedClaim(b.records, b.order[j], topic, key)
  }

  predicate ArchivedClaim(records: map<Id, Rec>, id: Id, topic: string, key: string) {
    id in records && records[id].status == Archived && records[id].topic == topic && records[id].claimKey == key
  }

  lemma {:induction false} FindArchivedIsFirst(records: map<Id, Rec>, ids: seq<Id>, topic: string, key: string)
    ensures
      var hit := FindArchived(records, ids, topic, key);
      if hit.None? then forall i :: 0 <= i < |ids| ==> !ArchivedClaim(records, ids[i], topic, key)
      else exists i :: 0 <= i < |ids| && ids[i] == hit.value && ArchivedClaim(records, ids[i], topic, key) &&
             forall j :: 0 <= j < i ==> !ArchivedClaim(records, ids[j], topic, key)
  {
    var hit := FindArchived(records, ids, topic, key);
    if ids != [] && !ArchivedClaim(records, ids[0], topic, key) {
      FindArchivedIsFirst(records, ids[1..], topic, key);
      if hit.None? {
        assert forall i :: 1 <= i < |ids| ==> ids[i] == ids[1..][i - 1];
      } else {
        var i :| 0 <= i < |ids[1..]| && ids[1..][i] == hit.value && ArchivedClaim(records, ids[1..][i], topic, key) &&
          forall j :: 0 <= j < i ==> !ArchivedClaim(records, ids[1..][j], topic, key);
        assert ids[i + 1] == ids[1..][i];
        assert forall j :: 1 <= j < i + 1 ==> ids[j] == ids[1..][j - 1];
      }
    } else if ids != [] {
      assert ids[0] == hit.value;
    }
  }

  lemma RevivalHitsFirst(b: Book<Id, Rec>, topic: string, key: string, id: Id)
    requires Sound(b)
    ensures FindArchived(b.records, b.order, topic, key) == Some(id) <==> FirstArchived(b, topic, key, id)
  {
    FindArchivedIsFirst(b.records, b.order, topic, key);
  }

  // Where one operation leaves the status of an existing record.
  ghost function NextStatus(rd: Reader, b: Book<Id, Rec>, op: Op, id: Id): Status
    requires id in b.records
  {
    var r := b.records[id];
    match op
    case Ingest(_, _) => r.status
    case Reload => r.status
    case Revive(topic, claim) =>
      if FirstArchived(b, topic, rd.keyOf(claim), id) then Candidate else r.status
    case ByHand(other, what) =>
      if other != id then r.status
      else
        (match what
         case MarkFalse => Disputed
         case ToArchive => Archived
         case Approve =>
           if UsersOwn(r.cls) && r.contradictions == 0 && !r.status.Disputed? then Committed else r.status
         case MarkImportant => r.status
         case RequestMore => r.status)
    case Consolidate(contested, now) =>
      if r.status.Candidate? || r.status.Reinforced? then Decided(r, Evaluate(r, contested, now)) else r.status
  }

  // An edit of an existing record that leaves its status alone.
  ghost predicate KeepsStatus(b: Book<Id, Rec>, e: Edit) {
    e.id in b.records ==> e.record.status == b.records[e.id].status
  }

  lemma {:induction false} LinksKeepStatus(b: Book<Id, Rec>, ids: seq<Id>, id: Id)
    ensures forall i :: 0 <= i < |LinkEdits(b.records, ids, id)| ==> KeepsStatus(b, LinkEdits(b.records, ids, id)[i])
  {
    if ids != [] {
      LinksKeepStatus(b, ids[..|ids| - 1], id);
    }
  }

  lemma PlanKeepsStatus(rd: Reader, b: Book<Id, Rec>, f: Finding, now: real, plan: Plan)
    requires Sound(b)
    ensures forall i :: 0 <= i < |PlanEdits(rd, b, f, now, plan)| ==> KeepsStatus(b, PlanEdits(rd, b, f, now, plan)[i])
  {
    assert NextId(b.order) !in b.records;
    match plan
    case Open(related) => LinksKeepStatus(b, related, NextId(b.order));
    case _ =>
  }

  lemma EditsKeepStatus(s: State, edits: seq<Edit>, id: Id)
    requires Separate(edits) && id in s.book.records
    requires forall i :: 0 <= i < |edits| ==> KeepsStatus(s.book, edits[i])
    ensures id in ApplyAll(s, edits).book.records
    ensures ApplyAll(s, edits).book.records[id].status == s.book.records[id].status
  {
    if i :| 0 <= i < |edits| && edits[i].id == id {
      Touched(s, edits, i);
      assert KeepsStatus(s.book, edits[i]);
    } else {
      Untouched(s, edits, id);
    }
  }

  lemma EditDecides(id: Id, r: Rec, contested: bool, now: real)
    ensures ConsolidateEdit(id, r, contested, now).id == id
    ensures ConsolidateEdit(id, r, contested, now).record.status == Decided(r, Evaluate(r, contested, now))
  {
  }

  // Once s has become s', the record has the status the operation is to give it.
  ghost predicate MovedTo(rd: Reader, s: State, op: Op, id: Id, s': State)
    requires id in s.book.records
  {
    id in s'.book.records && s'.book.records[id].status == NextStatus(rd, s.book, op, id)
  }

  lemma ConsolidatedStatus(s: State, id: Id, contested: bool, now: real)
    requires Sound(s.book) && AllRecOk(s.book) && id in s.book.records
    ensures
      var r := s.book.records[id];
      var after := ApplyAll(s, ConsolidateEdits(s.book.records, s.book.order, contested, now)).book.records;
      id in after &&
      after[id].status == if IsActive(r.status) then Decided(r, Evaluate(r, contested, now)) else r.status
  {
    ConsolidatedRecord(s, id, contested, now);
    EditDecides(id, s.book.records[id], contested, now);
  }

  lemma ConsolidationMoves(rd: Reader, s: State, id: Id, contested: bool, now: real)
    requires Sound(s.book) && AllRecOk(s.book) && id in s.book.records
    ensures MovedTo(rd, s, Consolidate(contested, now), id, Do(rd, s, Consolidate(contested, now)))
  {
    ConsolidatedStatus(s, id, contested, now);
  }

  lemma IngestMovesNone(rd: Reader, s: State, id: Id, f: Finding, at: real)
    requires Sound(s.book) && AllRecOk(s.book) && id in s.book.records
    ensures MovedTo(rd, s, Ingest(f, at), id, Do(rd, s, Ingest(f, at)))
  {
    PlanKeepsStatus(rd, s.book, f, at, PlanFor(rd, s.book, f));
    IngestEditsValid(rd, s.book, f, at);
    EditsKeepStatus(s, IngestEdits(rd, s.book, f, at), id);
  }

  lemma SingleEdit(s: State, e: Edit, id: Id)
    ensures id in ApplyAll(s, [e]).book.records <==> id in s.book.records || id == e.id
    ensures id in s.book.records || id == e.id ==>
      ApplyAll(s, [e]).book.records[id] == if id == e.id then e.record else s.book.records[id]
  {
    assert [e][..0] == [];
  }

  lemma HandMoves(rd: Reader, s: State, other: Id, what: Manual, id: Id)
    requires AllRecOk(s.book) && id in s.book.records
    ensures MovedTo(rd, s, ByHand(other, what), id, Do(rd, s, ByHand(other, what)))
  {
    var edits := ManualEdits(s.book, other, what);
    assert RecOk(s.book.records[id]);
    if edits != [] {
      assert edits == [edits[0]];
      SingleEdit(s, edits[0], id);
    }
  }

  lemma RevivalMoves(rd: Reader, s: State, topic: string, claim: string, id: Id)
    requires Sound(s.book) && id in s.book.records
    ensures MovedTo(rd, s, Revive(topic, claim), id, Do(rd, s, Revive(topic, claim)))
  {
    var edits := ReviveEdits(rd, s.book, topic, claim);
    FindArchivedFinds(s.book.records, s.book.order, topic, rd.keyOf(claim));
    RevivalHitsFirst(s.book, topic, rd.keyOf(claim), id);
    if edits != [] {
      assert edits == [edits[0]];
      SingleEdit(s, edits[0], id);
    }
  }

  lemma ReloadMovesNone(rd: Reader, s: State, id: Id)
    requires SimBook(s.book, Replay(s.ledger)) && id in s.book.records
    ensures MovedTo(rd, s, Reload, id, Do(rd, s, Reload))
  {
    SimFields(s.book.records[id], Replay(s.ledger).records[id]);
  }

  lemma OneOpMoves(rd: Reader, s: State, op: Op, id: Id)
    requires Sound(s.book) && AllRecOk(s.book) && SimBook(s.book, Replay(s.ledger)) && id in s.book.records
    ensures MovedTo(rd, s, op, id, Do(rd, s, op))
  {
    match op
    case Ingest(f, at) => IngestMovesNone(rd, s, id, f, at);
    case Reload => ReloadMovesNone(rd, s, id);
    case Consolidate(contested, now) => ConsolidationMoves(rd, s, id, contested, now);
    case ByHand(other, what) => HandMoves(rd, s, other, what, id);
    case Revive(topic, claim) => RevivalMoves(rd, s, topic, claim, id);
  }

  /** Consolidation is not the only path that moves a record, and these are all of them: marking false, archiving,
  approving and reviving move the one record they name, ingest and a restart move none. */
  lemma StatusMovesExactly(rd: Reader, ops: seq<Op>, op: Op, id: Id)
    requires id in Run(rd, START, ops).book.records
    ensures MovedTo(rd, Run(rd, START, ops), op, id, Do(rd, Run(rd, START, ops), op))
  {
    RunKeepsOk(rd, ops);
    OneOpMoves(rd, Run(rd, START, ops), op, id);
  }

  // ---------------------------------------------------------------- commits on little evidence

  lemma RunOn(rd: Reader, ops: seq<Op>, op: Op)
    ensures Run(rd, START, ops + [op]) == Do(rd, Run(rd, START, ops), op)
  {
    assert (ops + [op])[..|ops|] == ops;
  }

  // The lifecycle holds one record.
  ghost predicate Holds(s: State, r: Rec) {
    s.book == Book([0], map[0 := r])
  }

  function FirstRec(rd: Reader, f: Finding, at: real): Rec {
    NewRec(rd, f, at, Candidate, None, None, 1.0, NewClaim, 0, [])
  }

  lemma FirstFinding(rd: Reader, f: Finding, at: real)
    requires !Refused(rd, f) && !f.disputed
    ensures Holds(Run(rd, START, [Ingest(f, at)]), FirstRec(rd, f, at))
  {
    RunOn(rd, [], Ingest(f, at));
    assert [] + [Ingest(f, at)] == [Ingest(f, at)];
    assert PlanFor(rd, START.book, f) == Open([]);
    var e := Edit(0, FirstRec(rd, f, at), true);
    assert IngestEdits(rd, START.book, f, at) == [e];
    assert [e][..0] == [];
    assert ApplyAll(START, [e]) == Apply(START, e);
    var none: seq<Id> := [];
    assert none + [0] == [0];
  }

  // One edit of the only record.
  lemma HoldsNext(s: State, r: Rec, r': Rec, saved: bool)
    requires Holds(s, r)
    ensures Holds(ApplyAll(s, [Edit(0, r', saved)]), r')
  {
    assert [Edit(0, r', saved)][..0] == [];
  }

  lemma OnlyRecordCommits(rd: Reader, ops: seq<Op>, r: Rec, contested: bool, now: real)
    requires Holds(Run(rd, START, ops), r) && IsActive(r.status)
    requires r.evidence >= COMMIT_EVIDENCE && r.contradictions == 0 && Committable(r)
    ensures Holds(Run(rd, START, ops + [Consolidate(contested, now)]), AsCommitted(Marked(r, contested, now)))
  {
    var s := Run(rd, START, ops);
    RunOn(rd, ops, Consolidate(contested, now));
    CommitsExactlyWhenReady(rd, ops, 0, contested, now);
    assert [0][..0] == [];
    assert ConsolidateEdits(s.book.records, [0], contested, now) == [ConsolidateEdit(0, r, contested, now)];
    HoldsNext(s, r, AsCommitted(Marked(r, contested, now)), true);
  }

  lemma ArchivedAndRevived(rd: Reader, f: Finding, at: real)
    requires !Refused(rd, f) && !f.disputed
    ensures Holds(Run(rd, START, [Ingest(f, at), ByHand(0, ToArchive), Revive(f.topic, f.claim)]),
                  FirstRec(rd, f, at).(evidence := 2))
  {
    var r, ops := FirstRec(rd, f, at), [Ingest(f, at)];
    FirstFinding(rd, f, at);
    RunOn(rd, ops, ByHand(0, ToArchive));
    HoldsNext(Run(rd, START, ops), r, r.(status := Archived), true);
    var ops', s := ops + [ByHand(0, ToArchive)], Run(rd, START, ops + [ByHand(0, ToArchive)]);
    assert Holds(s, r.(status := Archived));
    RunOn(rd, ops', Revive(f.topic, f.claim));
    assert FindArchived(s.book.records, [0], f.topic, rd.keyOf(f.claim)) == Some(0);
    HoldsNext(s, r.(status := Archived), r.(evidence := 2), true);
    assert ops' + [Revive(f.topic, f.claim)] == [Ingest(f, at), ByHand(0, ToArchive), Revive(f.topic, f.claim)];
  }

  /** Any claim of the user's own or verified class, found once, archived and revived, is committed at the next
  consolidation on its one source. */
  lemma RevivedClaimCommits(rd: Reader, f: Finding, at: real, contested: bool, now: real)
    requires !Refused(rd, f) && !f.disputed && (UsersOwn(f.cls) || f.cls == DomainVerified)
    ensures
      var ops := [Ingest(f, at), ByHand(0, ToArchive), Revive(f.topic, f.claim), Consolidate(contested, now)];
      var records := Run(rd, START, ops).book.records;
      0 in records && records[0].status.Committed? && records[0].sourceKeys == [KeyOfFinding(f)]
  {
    var ops := [Ingest(f, at), ByHand(0, ToArchive), Revive(f.topic, f.claim)];
    ArchivedAndRevived(rd, f, at);
    OnlyRecordCommits(rd, ops, FirstRec(rd, f, at).(evidence := 2), contested, now);
    assert ops + [Consolidate(contested, now)] ==
      [Ingest(f, at), ByHand(0, ToArchive), Revive(f.topic, f.claim), Consolidate(contested, now)];
  }

  const SAME: Verdict := Verdict(Same, 1.0, DeterministicExact)

  lemma SameClaimIsSame(rd: Reader, g: Finding, r: Rec)
    requires !g.secret && g.cls.ProvisionalWeb? && r.cls.ProvisionalWeb? && r.claim == g.claim
    ensures VerdictOn(rd, g, r) == SAME
  {
  }

  lemma OnlyIsActive(r: Rec)
    requires IsActive(r.status)
    ensures Active(map[0 := r], r.topic, [0]) == [0]
  {
    var none: seq<Id> := [];
    assert [0][..0] == none && none + [0] == [0];
    assert Active(map[0 := r], r.topic, none) == none;
  }

  lemma PlanMerges(rd: Reader, b: Book<Id, Rec>, g: Finding, r: Rec)
    requires b == Book([0], map[0 := r]) && IsActive(r.status) && r.topic == g.topic
    requires !Refused(rd, g) && !g.disputed && VerdictOn(rd, g, r) == SAME
    ensures PlanFor(rd, b, g) == MergeInto(0, SAME)
  {
    OnlyIsActive(r);
    assert [0][..0] == [];
    assert OfKind(rd, g, b.records, [0], Conflicting) == [];
    assert OfKind(rd, g, b.records, [0], Merging) == [0];
  }

  // The same claim again, from the web both times, merges into the first.
  lemma FoundAgain(rd: Reader, f: Finding, task: string, at: real, again: real)
    requires !Refused(rd, f) && !f.disputed && f.cls.ProvisionalWeb? && |f.claim| <= 300 && task != f.task
    ensures
      Holds(Run(rd, START, [Ingest(f, at), Ingest(f.(task := task), again)]),
            Merged(FirstRec(rd, f, at), f.(task := task), SAME))
  {
    var r, ops, g := FirstRec(rd, f, at), [Ingest(f, at)], f.(task := task);
    FirstFinding(rd, f, at);
    RunOn(rd, ops, Ingest(g, again));
    assert ops + [Ingest(g, again)] == [Ingest(f, at), Ingest(g, again)];
    SameClaimIsSame(rd, g, r);
    PlanMerges(rd, Run(rd, START, ops).book, g, r);
    HoldsNext(Run(rd, START, ops), r, Merged(r, g, SAME), true);
  }

  lemma TwoKeysOneList(rd: Reader, f: Finding, task: string, at: real)
    requires f.cls.ProvisionalWeb? && task != f.task
    ensures
      var r := Merged(FirstRec(rd, f, at), f.(task := task), SAME);
      && r.sourceKeys == [KeyOfFinding(f), KeyOfFinding(f.(task := task))] && SingleList(r.sourceKeys)
      && r.evidence == 2 && WebKeys(r.sourceKeys) == 2
  {
    KeysSnoc([], f);
    KeysSnoc([KeyOfFinding(f)], f.(task := task));
    assert [] + [KeyOfFinding(f)] == [KeyOfFinding(f)];
  }

  /** Any web claim found by two tasks in the same list of sources is committed at the next consolidation. */
  lemma OneListCommits(rd: Reader, f: Finding, task: string, at: real, again: real, contested: bool, now: real)
    requires !Refused(rd, f) && !f.disputed && f.cls.ProvisionalWeb? && |f.claim| <= 300 && task != f.task
    ensures
      var ops := [Ingest(f, at), Ingest(f.(task := task), again), Consolidate(contested, now)];
      var records := Run(rd, START, ops).book.records;
      0 in records && records[0].status.Committed? && SingleList(records[0].sourceKeys) && |records[0].sourceKeys| == 2
  {
    var ops := [Ingest(f, at), Ingest(f.(task := task), again)];
    FoundAgain(rd, f, task, at, again);
    TwoKeysOneList(rd, f, task, at);
    OnlyRecordCommits(rd, ops, Merged(FirstRec(rd, f, at), f.(task := task), SAME), contested, now);
    assert ops + [Consolidate(contested, now)] ==
      [Ingest(f, at), Ingest(f.(task := task), again), Consolidate(contested, now)];
  }
}
