/** A dictionary of records in insertion order, kept beside an append-only file of saved records that is replayed on
start with the last record of each id winning. Both the candidate lifecycle and the task queue persist this way. */
module Journal {
  import opened Sequences

  // Names a candidate or a task; opaque but for equality.
  type Id = nat

  datatype Book<K(==), R> = Book(order: seq<K>, records: map<K, R>)

  datatype Saved<K, R> = Saved(id: K, record: R)

  // An id not in use.
  function NextId(order: seq<Id>): (n: Id)
    ensures n !in order
    ensures forall i :: 0 <= i < |order| ==> order[i] < n
  {
    if order == [] then 0
    else
      var n, last := NextId(order[..|order| - 1]), order[|order| - 1];
      if last < n then n else last + 1
  }

  function Empty<K, R>(): Book<K, R> {
    Book([], map[])
  }

  // Assignment to a dictionary entry: an existing id keeps its place.
  function Put<K, R>(b: Book<K, R>, id: K, r: R): Book<K, R> {
    Book(if id in b.records then b.order else b.order + [id], b.records[id := r])
  }

  function Replay<K, R>(ledger: seq<Saved<K, R>>): Book<K, R> {
    if ledger == [] then Empty()
    else
      var last := ledger[|ledger| - 1];
      Put(Replay(ledger[..|ledger| - 1]), last.id, last.record)
  }

  ghost predicate Sound<K, R>(b: Book<K, R>) {
    && (forall i :: 0 <= i < |b.order| ==> b.order[i] in b.records)
    && (forall id :: id in b.records ==> id in b.order)
    && Distinct(b.order)
  }

  lemma PutKeepsSound<K, R>(b: Book<K, R>, id: K, r: R)
    requires Sound(b)
    ensures Sound(Put(b, id, r))
  {
    var b' := Put(b, id, r);
    forall k | k in b'.records ensures k in b'.order {
      if k != id || id in b.records {
        assert k in b.order;
      } else {
        assert b'.order[|b.order|] == id;
      }
    }
  }

  lemma ReplayAppend<K, R>(ledger: seq<Saved<K, R>>, id: K, r: R)
    ensures Replay(ledger + [Saved(id, r)]) == Put(Replay(ledger), id, r)
  {
    assert (ledger + [Saved(id, r)])[..|ledger|] == ledger;
  }

  lemma {:induction false} ReplayIsSound<K, R>(ledger: seq<Saved<K, R>>)
    ensures Sound(Replay(ledger))
  {
    if ledger != [] {
      var last := ledger[|ledger| - 1];
      ReplayIsSound(ledger[..|ledger| - 1]);
      PutKeepsSound(Replay(ledger[..|ledger| - 1]), last.id, last.record);
    }
  }

  // ---------------------------------------------------------------- what a replay holds

  // Position of the last line about id, or -1.
  function LastLine<K(==), R>(ledger: seq<Saved<K, R>>, id: K): (i: int)
    ensures -1 <= i < |ledger| && (i >= 0 ==> ledger[i].id == id)
    ensures forall j :: i < j < |ledger| ==> ledger[j].id != id
  {
    var n := |ledger| - 1;
    if n < 0 then -1 else if ledger[n].id == id then n else LastLine(ledger[..n], id)
  }

  // Position of the first line about id, or the length of the ledger.
  function FirstLine<K(==), R>(ledger: seq<Saved<K, R>>, id: K): (i: nat)
    ensures i <= |ledger| && (i < |ledger| ==> ledger[i].id == id)
    ensures forall j :: 0 <= j < i ==> ledger[j].id != id
  {
    if ledger == [] then 0 else if ledger[0].id == id then 0 else 1 + FirstLine(ledger[1..], id)
  }

  lemma {:induction false} ReplayHolds<K, R>(ledger: seq<Saved<K, R>>, id: K)
    ensures id in Replay(ledger).records <==> LastLine(ledger, id) >= 0
    ensures id in Replay(ledger).records ==> Replay(ledger).records[id] == ledger[LastLine(ledger, id)].record
  {
    if ledger != [] {
      ReplayHolds(ledger[..|ledger| - 1], id);
    }
  }

  lemma FirstLineSnoc<K, R>(ledger: seq<Saved<K, R>>, id: K)
    requires ledger != [] && LastLine(ledger[..|ledger| - 1], id) >= 0
    ensures FirstLine(ledger, id) == FirstLine(ledger[..|ledger| - 1], id) < |ledger| - 1
  {
    var before := ledger[..|ledger| - 1];
    var i, j, last := FirstLine(ledger, id), FirstLine(before, id), LastLine(before, id);
    assert before[last] == ledger[last];
    assert j < |before| ==> before[j] == ledger[j];
    assert i < |before| ==> ledger[i] == before[i];
  }

  lemma {:induction false} ReplayOrder<K, R>(ledger: seq<Saved<K, R>>)
    ensures forall i, j :: 0 <= i < j < |Replay(ledger).order| ==>
      FirstLine(ledger, Replay(ledger).order[i]) < FirstLine(ledger, Replay(ledger).order[j]) < |ledger|
  {
    if ledger != [] {
      var n := |ledger| - 1;
      var before, b := Replay(ledger[..n]), Replay(ledger);
      ReplayOrder(ledger[..n]);
      ReplayIsSound(ledger[..n]);
      forall i | 0 <= i < |before.order|
        ensures FirstLine(ledger, before.order[i]) == FirstLine(ledger[..n], before.order[i]) < n
      {
        ReplayHolds(ledger[..n], before.order[i]);
        FirstLineSnoc(ledger, before.order[i]);
      }
      if ledger[n].id !in before.records {
        ReplayHolds(ledger[..n], ledger[n].id);
        assert FirstLine(ledger, ledger[n].id) == n;
      }
    }
  }

  /** The last record wins and the first decides the place: a replayed ledger holds exactly the ids it mentions,
  each with the record of its last line, in the order of their first lines. */
  lemma LastRecordWins<K, R>(ledger: seq<Saved<K, R>>, id: K)
    ensures id in Replay(ledger).records <==> exists i :: 0 <= i < |ledger| && ledger[i].id == id
    ensures id in Replay(ledger).records ==>
      LastLine(ledger, id) >= 0 && Replay(ledger).records[id] == ledger[LastLine(ledger, id)].record
    ensures forall i, j :: 0 <= i < j < |Replay(ledger).order| ==>
      FirstLine(ledger, Replay(ledger).order[i]) < FirstLine(ledger, Replay(ledger).order[j])
  {
    ReplayHolds(ledger, id);
    ReplayOrder(ledger);
    assert LastLine(ledger, id) >= 0 ==> ledger[LastLine(ledger, id)].id == id;
  }
}
