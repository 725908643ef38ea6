/** The lifecycle object: records in a dictionary, an append-only ledger beside it. Every operation is proved to do
exactly what its specification writes, record by record and line by line. */
module Lifecycle {
  import opened Journal
  import opened Evidence
  import opened Options
  import opened LifecycleSpec
  import opened LifecycleTheorems
  import opened Sequences

  class CandidateLifecycle {
    const rd: Reader
    var order: seq<Id>
    var records: map<Id, Rec>
    var ledger: seq<Saved<Id, Rec>>
    var disputes: seq<DisputeLine>

    ghost function Contents(): State
      reads this
    {
      State(Book(order, records), ledger)
    }

    ghost predicate Valid()
      reads this
    {
      Sound(Book(order, records))
    }

    // Replays the ledger, last record of each id winning.
    constructor (rd: Reader, lines: seq<Saved<Id, Rec>>, disputes: seq<DisputeLine>)
      ensures Valid() && this.rd == rd && Contents() == State(Replay(lines), lines) && this.disputes == disputes
    {
      this.rd := rd;
      ledger := lines;
      this.disputes := disputes;
      order, records := [], map[];
      new;
      var i := 0;
      while i < |lines|
        invariant 0 <= i <= |lines| && ledger == lines && this.disputes == disputes
        invariant Book(order, records) == Replay(lines[..i])
      {
        assert lines[..i + 1][..i] == lines[..i];
        Store(lines[i].id, lines[i].record);
        i := i + 1;
      }
      assert lines[..i] == lines;
      ReplayIsSound(lines);
    }

    method Store(id: Id, r: Rec)
      modifies this`order, this`records
      ensures Book(order, records) == Put(old(Book(order, records)), id, r)
    {
      if id !in records {
        order := order + [id];
      }
      records := records[id := r];
    }

    method Save(id: Id, r: Rec)
      modifies this`order, this`records, this`ledger
      ensures Contents() == Apply(old(Contents()), Edit(id, r, true))
      ensures Contents() == ApplyAll(old(Contents()), [Edit(id, r, true)])
    {
      ApplyOne(Contents(), Edit(id, r, true));
      Store(id, r);
      ledger := ledger + [Saved(id, r)];
    }

    method FindActive(topic: string) returns (ids: seq<Id>)
      ensures ids == FindTopic(Book(order, records), topic)
    {
      ids := [];
      var i := 0;
      while i < |order|
        invariant 0 <= i <= |order|
        invariant ids == Active(records, topic, order[..i])
      {
        assert order[..i + 1][..i] == order[..i];
        var id := order[i];
        if id in records && records[id].topic == topic && IsActive(records[id].status) {
          ids := ids + [id];
        }
        i := i + 1;
      }
      assert order[..i] == order;
    }

    // The ids standing in one kind of relation to the finding.
    method Select(f: Finding, ids: seq<Id>, kind: Kind) returns (selected: seq<Id>)
      ensures selected == OfKind(rd, f, records, ids, kind)
    {
      selected := [];
      var i := 0;
      while i < |ids|
        invariant 0 <= i <= |ids|
        invariant selected == OfKind(rd, f, records, ids[..i], kind)
      {
        assert ids[..i + 1][..i] == ids[..i];
        if ids[i] in records {
          var v := Classify(rd.lexicon, f.claim, records[ids[i]].claim, Context(f.secret, f.cls, records[ids[i]].cls));
          if KindOf(v.relation) == kind {
            selected := selected + [ids[i]];
          }
        }
        i := i + 1;
      }
      assert ids[..i] == ids;
    }

    // A challenger is filed as disputed, and its incumbent is marked contradicted, not overwritten.
    method FileChallenger(f: Finding, at: real, incumbent: Option<Id>, v: Verdict) returns (id: Id)
      modifies this`order, this`records, this`ledger, this`disputes
      ensures id == NextId(old(order))
      ensures disputes == old(disputes) + DisputeLines(old(Contents()).book, f, Contest(incumbent, v))
      ensures Contents() == ApplyAll(old(Contents()), DisputeEdits(rd, old(Contents()).book, f, at, incumbent, v))
    {
      id := NextId(order);
      ghost var s := Contents();
      ghost var edits := DisputeEdits(rd, s.book, f, at, incumbent, v);
      var challenged := incumbent.Some? && incumbent.value in records;
      var r := if challenged then records[incumbent.value]
               else NewRec(rd, f, at, Disputed, None, None, 0.5, TaskStatus, 1, []);
      Save(id, NewRec(rd, f, at, Disputed, incumbent, Some(v.relation), v.confidence, v.how, 1, []));
      assert edits[..1][..0] == [];
      assert Contents() == ApplyAll(s, edits[..1]);
      if challenged {
        r := r.(contradictions := r.contradictions + 1);
        if id !in r.related {
          r := r.(related := r.related + [id]);
        }
        Save(incumbent.value, r);
        assert edits[..|edits| - 1] == edits[..1];
        WriteDispute(incumbent.value, id, r, f, v);
      } else {
        assert edits[..1] == edits;
      }
    }

    // The line of a dispute, with what is to be done about it.
    method WriteDispute(incumbent: Id, challenger: Id, r: Rec, f: Finding, v: Verdict)
      modifies this`disputes
      ensures disputes == old(disputes) + [
        DisputeLine(incumbent, challenger, v.relation, Head(r.claim), Head(Cut(f.claim)), r.cls, f.cls,
                    StepFor(v.relation, f.cls, r.cls))]
    {
      var step := RequestOperator;
      if v.relation.CanonicalConflict? || IsCanonical(r.cls) {
        step := CanonicalOverrides;
      } else if IsUser(f.cls) || IsUser(r.cls) {
        step := AskUserForSource;
      } else if f.cls.ProvisionalWeb? || r.cls.ProvisionalWeb? {
        step := SearchVerifiedSource;
      }
      disputes := disputes +
        [DisputeLine(incumbent, challenger, v.relation, Head(r.claim), Head(Cut(f.claim)), r.cls, f.cls, step)];
    }

    method MergeEvidence(id: Id, f: Finding, v: Verdict)
      requires id in records
      modifies this`order, this`records, this`ledger
      ensures Contents() == ApplyAll(old(Contents()), [Edit(id, Merged(old(records)[id], f, v), true)])
    {
      var r, key := records[id], KeyOfFinding(f);
      if key !in r.sourceKeys {
        r := r.(sourceKeys := r.sourceKeys + [key]);
        r := r.(evidence := r.evidence + 1);
        r := r.(sourcesUsed := r.sourcesUsed + SetOf(f.sources));
        r := r.(eventIds := r.eventIds + f.eventIds);
        var confidence := 0.4 + 0.2 * r.evidence as real;
        r := r.(confidence := if confidence > 0.95 then 0.95 else confidence);
        if f.cls.ProvisionalWeb? {
          r := r.(webSources := r.webSources + 1);
        }
      }
      r := r.(relation := Some(v.relation), semantic := v.confidence, how := v.how);
      Save(id, r);
    }

    // The links to `id` of the candidates in `done` have been written since state s.
    ghost predicate LinkedSo(s: State, was: map<Id, Rec>, done: seq<Id>, id: Id)
      reads this
    {
      Contents() == ApplyAll(s, LinkEdits(was, done, id))
    }

    method LinkNext(ghost s: State, ghost was: map<Id, Rec>, ghost done: seq<Id>, next: Id, id: Id)
      requires next in records && next in was && records[next] == was[next] && LinkedSo(s, was, done, id)
      modifies this`order, this`records, this`ledger
      ensures LinkedSo(s, was, done + [next], id)
      ensures forall k :: k in old(records) && k != next ==> k in records && records[k] == old(records)[k]
    {
      LinkStep(s, was, done, next, id);
      var q := records[next];
      if id !in q.related {
        Save(next, q.(related := q.related + [id]));
      }
    }

    // Back-links from the related candidates to a new one, whose own record is already filed.
    method LinkBack(related: seq<Id>, id: Id, ghost was: map<Id, Rec>)
      requires forall i :: 0 <= i < |related| ==>
        related[i] in records && related[i] in was && records[related[i]] == was[related[i]]
      requires Distinct(related)
      modifies this`order, this`records, this`ledger
      ensures Contents() == ApplyAll(old(Contents()), LinkEdits(was, related, id))
    {
      ghost var s := Contents();
      var i := 0;
      while i < |related|
        invariant 0 <= i <= |related|
        invariant LinkedSo(s, was, related[..i], id)
        invariant forall j :: i <= j < |related| ==> related[j] in records && records[related[j]] == was[related[j]]
      {
        LinkNext(s, was, related[..i], related[i], id);
        assert related[..i] + [related[i]] == related[..i + 1];
        i := i + 1;
      }
      assert related[..i] == related;
    }

    // A new candidate, linked in both directions to the narrower and broader ones.
    method OpenCandidate(f: Finding, at: real, related: seq<Id>) returns (id: Id)
      requires forall i :: 0 <= i < |related| ==> related[i] in records && related[i] in order
      requires Distinct(related)
      modifies this`order, this`records, this`ledger
      ensures id == NextId(old(order))
      ensures Contents() == ApplyAll(old(Contents()), FreshEdits(rd, old(Contents()).book, f, at, related))
    {
      id := NextId(order);
      ghost var s, was := Contents(), records;
      var r := NewRec(rd, f, at, Candidate, None, None, 1.0, NewClaim, 0, related);
      if related != [] {
        var v := VerdictOn(rd, f, records[related[0]]);
        r := NewRec(rd, f, at, Candidate, None, Some(v.relation), v.confidence, v.how, 0, related);
      }
      Save(id, r);
      LinkBack(related, id, was);
      ApplyAllConcat(s, [Edit(id, r, true)], LinkEdits(was, related, id));
    }

    // The strongest relation to an active candidate of the topic decides how the finding is taken.
    method Weigh(f: Finding) returns (plan: Plan)
      requires Valid()
      ensures plan == PlanFor(rd, Book(order, records), f)
    {
      if f.secret || f.cls.DisputedOrUnsafe? || rd.blank(f.claim) {
        return Refuse;
      }
      var existing := FindActive(f.topic);
      ActiveIsAmong(records, f.topic, order);
      var conflicting := Select(f, existing, Conflicting);
      OfKindIsAmong(rd, f, records, existing, Conflicting);
      HeadIn(conflicting);
      if conflicting != [] {
        return Contest(Some(conflicting[0]), VerdictOn(rd, f, records[conflicting[0]]));
      }
      if f.disputed {
        return Contest(if existing != [] then Some(existing[0]) else None, Verdict(Contradicts, 0.5, TaskStatus));
      }
      var merging := Select(f, existing, Merging);
      OfKindIsAmong(rd, f, records, existing, Merging);
      HeadIn(merging);
      if merging != [] {
        return MergeInto(merging[0], VerdictOn(rd, f, records[merging[0]]));
      }
      var related := Select(f, existing, Linking);
      return Open(related);
    }

    // Files a finding; returns the candidate it went to, if any.
    method Ingest(f: Finding, at: real) returns (id: Option<Id>)
      requires Valid()
      modifies this`order, this`records, this`ledger, this`disputes
      ensures Valid()
      ensures disputes == old(disputes) + DisputeLines(old(Contents()).book, f, PlanFor(rd, old(Contents()).book, f))
      ensures Contents() == Do(rd, old(Contents()), Op.Ingest(f, at))
      ensures id.None? <==> Refused(rd, f)
    {
      DoKeepsSound(rd, Contents(), Op.Ingest(f, at));
      ghost var b := Book(order, records);
      var plan := Weigh(f);
      PlanIsOk(rd, b, f);
      match plan
      case Refuse =>
        id := None;
      case Contest(incumbent, v) =>
        var filed := FileChallenger(f, at, incumbent, v);
        id := Some(filed);
      case MergeInto(target, v) =>
        MergeEvidence(target, f, v);
        id := Some(target);
      case Open(related) =>
        RelatedAreFiled(b, related);
        var newcomer := OpenCandidate(f, at, related);
        id := Some(newcomer);
    }

    // One record of a consolidation.
    method ConsolidateOne(id: Id, contested: bool, now: real) returns (d: Decision)
      requires id in records && IsActive(records[id].status)
      modifies this`order, this`records, this`ledger
      ensures Contents() == Apply(old(Contents()), ConsolidateEdit(id, old(records)[id], contested, now))
      ensures d == Decide(id, old(records)[id], contested, now)
    {
      var r := records[id];
      d := Decide(id, r, contested, now);
      r := r.(priority := d.priority);
      r := r.(quality := d.quality);
      r := r.(lastEval := r.evidence);
      match d.action
      case Commit => Save(id, r.(status := Committed, tier := CommitTrust(r.cls)));
      case Dispute => Save(id, r.(status := Disputed));
      case Archive => Save(id, r.(status := Archived));
      case Reinforce => Save(id, r.(status := Reinforced));
      case Keep => Store(id, r);
    }

    // A consolidation started in s has done the records of `done`, deciding `decisions`.
    ghost predicate Halfway(s: State, done: seq<Id>, contested: bool, now: real, decisions: seq<Decision>)
      reads this
    {
      && Contents() == ApplyAll(s, ConsolidateEdits(s.book.records, done, contested, now))
      && decisions == Decisions(s.book.records, done, contested, now)
    }

    method ConsolidateNext(ghost s: State, i: nat, ids: seq<Id>, contested: bool, now: real, before: seq<Decision>)
      returns (decisions: seq<Decision>)
      requires Sound(s.book) && ids == s.book.order && i < |ids|
      requires Halfway(s, ids[..i], contested, now, before)
      modifies this`order, this`records, this`ledger
      ensures Halfway(s, ids[..i + 1], contested, now, decisions)
    {
      NotYetReached(s, ids, i, contested, now);
      ConsolidateStep(s, s.book.records, ids[..i], ids[i], contested, now);
      assert ids[..i] + [ids[i]] == ids[..i + 1];
      decisions := before;
      if IsActive(records[ids[i]].status) {
        var d := ConsolidateOne(ids[i], contested, now);
        decisions := decisions + [d];
      }
    }

    method Consolidate(contested: bool, now: real) returns (decisions: seq<Decision>)
      requires Valid()
      modifies this`order, this`records, this`ledger
      ensures Valid()
      ensures Contents() == Do(rd, old(Contents()), Op.Consolidate(contested, now))
      ensures decisions == DecisionsOf(old(Contents()).book, Op.Consolidate(contested, now))
    {
      DoKeepsSound(rd, Contents(), Op.Consolidate(contested, now));
      ghost var s := Contents();
      var ids := order;
      decisions := [];
      var i := 0;
      while i < |ids|
        invariant 0 <= i <= |ids|
        invariant Halfway(s, ids[..i], contested, now, decisions)
      {
        decisions := ConsolidateNext(s, i, ids, contested, now, decisions);
        i := i + 1;
      }
      assert ids[..i] == s.book.order;
    }

    // ---------------------------------------------------------------- manual operations

    method MarkFalse(id: Id)
      requires Valid()
      modifies this`order, this`records, this`ledger
      ensures Valid()
      ensures Contents() == Do(rd, old(Contents()), ByHand(id, Manual.MarkFalse))
    {
      DoKeepsSound(rd, Contents(), ByHand(id, Manual.MarkFalse));
      if id in records {
        var r := records[id];
        r := r.(status := Disputed);
        r := r.(contradictions := r.contradictions + 1);
        Save(id, r);
      }
    }

    method MarkImportant(id: Id)
      requires Valid()
      modifies this`order, this`records, this`ledger
      ensures Valid()
      ensures Contents() == Do(rd, old(Contents()), ByHand(id, Manual.MarkImportant))
    {
      DoKeepsSound(rd, Contents(), ByHand(id, Manual.MarkImportant));
      if id in records {
        var r := records[id];
        r := r.(confidence := Raised(r.confidence));
        r := r.(important := true);
        Save(id, r);
      }
    }

    method RequestMoreEvidence(id: Id)
      requires Valid()
      modifies this`order, this`records, this`ledger
      ensures Valid()
      ensures Contents() == Do(rd, old(Contents()), ByHand(id, RequestMore))
    {
      DoKeepsSound(rd, Contents(), ByHand(id, RequestMore));
      if id in records {
        var r := records[id].(evidenceRequested := true);
        Save(id, r);
      }
    }

    method ApproveCommit(id: Id) returns (ok: bool)
      requires Valid()
      modifies this`order, this`records, this`ledger
      ensures Valid()
      ensures Contents() == Do(rd, old(Contents()), ByHand(id, Approve))
      ensures ok <==> id in old(records) && Approvable(old(records)[id])
    {
      DoKeepsSound(rd, Contents(), ByHand(id, Approve));
      if id !in records {
        return false;
      }
      var r := records[id];
      if IsCanonical(r.cls) || r.status.Disputed? || r.contradictions > 0 || !IsUser(r.cls) {
        return false;
      }
      r := r.(status := Committed, tier := CommitTrust(r.cls));
      Save(id, r);
      return true;
    }

    method ArchiveCandidate(id: Id)
      requires Valid()
      modifies this`order, this`records, this`ledger
      ensures Valid()
      ensures Contents() == Do(rd, old(Contents()), ByHand(id, ToArchive))
    {
      DoKeepsSound(rd, Contents(), ByHand(id, ToArchive));
      if id in records {
        var r := records[id].(status := Archived);
        Save(id, r);
      }
    }

    method SearchArchived(topic: string, key: string) returns (id: Option<Id>)
      ensures id == FindArchived(records, order, topic, key)
    {
      var i := 0;
      while i < |order|
        invariant 0 <= i <= |order|
        invariant FindArchived(records, order, topic, key) == FindArchived(records, order[i..], topic, key)
      {
        if order[i] in records && Revivable(records[order[i]], topic, key) {
          return Some(order[i]);
        }
        assert order[i..][1..] == order[i + 1..];
        i := i + 1;
      }
      return None;
    }

    method Revive(topic: string, claim: string) returns (id: Option<Id>)
      requires Valid()
      modifies this`order, this`records, this`ledger
      ensures Valid()
      ensures Contents() == Do(rd, old(Contents()), Op.Revive(topic, claim))
      ensures id == FindArchived(old(records), old(order), topic, rd.keyOf(claim))
    {
      DoKeepsSound(rd, Contents(), Op.Revive(topic, claim));
      id := SearchArchived(topic, rd.keyOf(claim));
      FindArchivedFinds(records, order, topic, rd.keyOf(claim));
      if id.Some? {
        var r := records[id.value];
        r := r.(status := Candidate);
        r := r.(evidence := r.evidence + 1);
        Save(id.value, r);
      }
    }
  }

  lemma {:induction false} ApplyAllKeepsSound(s: State, edits: seq<Edit>)
    requires Sound(s.book)
    ensures Sound(ApplyAll(s, edits).book)
  {
    if edits != [] {
      var before, e := ApplyAll(s, edits[..|edits| - 1]), edits[|edits| - 1];
      ApplyAllKeepsSound(s, edits[..|edits| - 1]);
      PutKeepsSound(before.book, e.id, e.record);
    }
  }

  lemma DoKeepsSound(rd: Reader, s: State, op: Op)
    requires Sound(s.book)
    ensures Sound(Do(rd, s, op).book)
  {
    if op.Reload? {
      ReplayIsSound(s.ledger);
    } else {
      ApplyAllKeepsSound(s, EditsOf(rd, s.book, op));
    }
  }

  lemma RelatedAreFiled(b: Book<Id, Rec>, related: seq<Id>)
    requires Sound(b) && forall id :: id in related ==> id in b.records
    ensures forall i :: 0 <= i < |related| ==> related[i] in b.records && related[i] in b.order
  {
    forall i | 0 <= i < |related| ensures related[i] in b.records && related[i] in b.order {
      assert related[i] in related;
    }
  }

  lemma ApplyMore(s: State, edits: seq<Edit>, e: Edit)
    ensures ApplyAll(s, edits + [e]) == Apply(ApplyAll(s, edits), e)
  {
    assert (edits + [e])[..|edits|] == edits;
  }

  // One more related candidate.
  lemma LinkStep(s: State, was: map<Id, Rec>, ids: seq<Id>, next: Id, id: Id)
    requires next in was
    ensures
      var before, after := ApplyAll(s, LinkEdits(was, ids, id)), ApplyAll(s, LinkEdits(was, ids + [next], id));
      after == if id in was[next].related then before else Apply(before, Edit(next, Linked(was[next], id), true))
  {
    assert (ids + [next])[..|ids|] == ids;
    var edits := LinkEdits(was, ids, id);
    ApplyMore(s, edits, Edit(next, Linked(was[next], id), true));
    assert edits + [] == edits;
  }

  // A consolidation leaves the records it has still to come to alone.
  lemma NotYetReached(s: State, ids: seq<Id>, i: nat, contested: bool, now: real)
    requires Sound(s.book) && ids == s.book.order && i < |ids|
    ensures
      var now' := ApplyAll(s, ConsolidateEdits(s.book.records, ids[..i], contested, now)).book.records;
      ids[i] in s.book.records && ids[i] in now' && now'[ids[i]] == s.book.records[ids[i]]
  {
    var edits := ConsolidateEdits(s.book.records, ids[..i], contested, now);
    ConsolidateEditsSeparate(s.book.records, ids[..i], contested, now);
    forall j | 0 <= j < |edits| ensures edits[j].id != ids[i] {
      assert edits[j].id in ids[..i];
    }
    Untouched(s, edits, ids[i]);
  }

  // One more record consolidated.
  lemma ConsolidateStep(s: State, was: map<Id, Rec>, ids: seq<Id>, next: Id, contested: bool, now: real)
    requires next in was
    ensures
      var before := ApplyAll(s, ConsolidateEdits(was, ids, contested, now));
      var after := ApplyAll(s, ConsolidateEdits(was, ids + [next], contested, now));
      after ==
        if IsActive(was[next].status) then Apply(before, ConsolidateEdit(next, was[next], contested, now)) else before
    ensures Decisions(was, ids + [next], contested, now) ==
      Decisions(was, ids, contested, now) +
      if IsActive(was[next].status) then [Decide(next, was[next], contested, now)] else []
  {
    assert (ids + [next])[..|ids|] == ids;
    var edits := ConsolidateEdits(was, ids, contested, now);
    ApplyMore(s, edits, ConsolidateEdit(next, was[next], contested, now));
    assert edits + [] == edits;
  }

  lemma ApplyOne(s: State, e: Edit)
    ensures ApplyAll(s, [e]) == Apply(s, e)
  {
    assert [e][..0] == [];
  }

  lemma {:induction false} ApplyAllConcat(s: State, xs: seq<Edit>, ys: seq<Edit>)
    ensures ApplyAll(s, xs + ys) == ApplyAll(ApplyAll(s, xs), ys)
  {
    if ys == [] {
      assert xs + ys == xs;
    } else {
      assert (xs + ys)[..|xs + ys| - 1] == xs + ys[..|ys| - 1];
      ApplyAllConcat(s, xs, ys[..|ys| - 1]);
    }
  }
}
