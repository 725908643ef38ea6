/** The append-only temporal ledger and its verification. The hash is any function from payloads to digests, and nothing
below supposes it to be free of collisions: where one would matter, the conclusion names it. */
module HashChain {
  import opened Options
  import opened Text

  const GENESIS: string := "GENESIS"
  const CORRUPT: string := "CORRUPT"

  // Everything the hash covers. `strength` is the memory strength as it is written out.
  datatype Payload = Payload(
    eventType: string, content: string, anchor: string, tick: int, tempoMode: string,
    phase: string, neuromodulation: string, strength: string, previous: string)

  // A parsed line of the ledger file, or a line that does not parse.
  datatype Entry =
    | Entry(id: string, payload: Payload, digest: string)
    | Unreadable(line: string)

  type Hash = Payload -> string

  // The JSON reader, on one stripped line.
  type Reader = string -> Option<Entry>

  datatype Fault = PreviousMismatch | DigestMismatch

  datatype Report = Intact | Broken(index: nat, fault: Fault)

  function DigestOf(e: Entry): string {
    match e
    case Entry(_, _, digest) => digest
    case Unreadable(_) => CORRUPT
  }

  function LastDigest(events: seq<Entry>): string {
    if events == [] then GENESIS else DigestOf(events[|events| - 1])
  }

  // ---------------------------------------------------------------- event ids

  function Digits(n: nat): string {
    if n < 10 then [(n as char) + '0'] else Digits(n / 10) + [((n % 10) as char) + '0']
  }

  function Decimal(n: int): string {
    if n < 0 then "-" + Digits(-n) else Digits(n)
  }

  function Sixteen(digest: string): string {
    if |digest| <= 16 then digest else digest[..16]
  }

  function EventId(tick: int, digest: string): string {
    "tm_" + Decimal(tick) + "_" + Sixteen(digest)
  }

  // Reading an id back: the digits of the tick, and what follows the second underscore.
  function Number(ds: string): int {
    if ds == "" then 0 else 10 * Number(ds[..|ds| - 1]) + (ds[|ds| - 1] as int - '0' as int)
  }

  predicate IsDigits(ds: string) {
    forall i :: 0 <= i < |ds| ==> '0' <= ds[i] <= '9'
  }

  lemma {:induction false} DigitsRead(n: nat)
    ensures Digits(n) != "" && IsDigits(Digits(n)) && Number(Digits(n)) == n
    ensures |Digits(n)| > 1 ==> Digits(n)[0] != '0'
  {
    if n < 10 {
      assert Digits(n)[..0] == "";
    } else {
      DigitsRead(n / 10);
      var front := Digits(n / 10);
      assert Digits(n)[..|front|] == front;
      if |front| == 1 {
        assert Number(front[..0]) == 0;
      }
    }
  }

  // Up to the first underscore.
  function UpTo(s: string): string {
    if s == "" || s[0] == '_' then "" else [s[0]] + UpTo(s[1..])
  }

  lemma {:induction false} UpToJoint(a: string, b: string)
    requires '_' !in a
    ensures UpTo(a + "_" + b) == a
  {
    var s := a + "_" + b;
    if a != "" {
      assert s[1..] == a[1..] + "_" + b;
      UpToJoint(a[1..], b);
    }
  }

  lemma DecimalIsPlain(n: int)
    ensures '_' !in Decimal(n)
    ensures n >= 0 ==> Number(Decimal(n)) == n
    ensures n < 0 ==> Decimal(n)[0] == '-' && Number(Decimal(n)[1..]) == -n
    ensures Decimal(n) != "" && (n >= 0 ==> Decimal(n)[0] != '-')
  {
    DigitsRead(if n < 0 then -n else n);
  }

  /** An event id names its tick, in decimal, and the first sixteen characters of its digest, and nothing else: two
  ids are the same exactly when both are. */
  lemma IdNamesTickAndDigest(tick: int, digest: string, tick': int, digest': string)
    ensures EventId(tick, digest)[..3] == "tm_"
    ensures UpTo(EventId(tick, digest)[3..]) == Decimal(tick)
    ensures EventId(tick, digest) == EventId(tick', digest') <==>
      tick == tick' && (digest == digest' || (|digest| >= 16 && |digest'| >= 16 && digest[..16] == digest'[..16]))
  {
    IdParts(tick, digest);
    IdParts(tick', digest');
    DecimalIsPlain(tick);
    DecimalIsPlain(tick');
  }

  lemma IdParts(tick: int, digest: string)
    ensures EventId(tick, digest)[..3] == "tm_"
    ensures UpTo(EventId(tick, digest)[3..]) == Decimal(tick)
    ensures EventId(tick, digest)[4 + |Decimal(tick)|..] == Sixteen(digest)
  {
    DecimalIsPlain(tick);
    UpToJoint(Decimal(tick), Sixteen(digest));
    assert EventId(tick, digest)[3..] == Decimal(tick) + "_" + Sixteen(digest);
  }

  // ---------------------------------------------------------------- loading

  // What a line of the file becomes; blank lines become nothing.
  function Loaded(read: Reader, line: string): seq<Entry> {
    var text := Trim(line);
    if text == "" then []
    else
      match read(text)
      case Some(e) => [e]
      case None => [Unreadable(text)]
  }

  function LoadedAll(read: Reader, lines: seq<string>): seq<Entry> {
    if lines == [] then [] else LoadedAll(read, lines[..|lines| - 1]) + Loaded(read, lines[|lines| - 1])
  }

  // The link of position i holds: it names the digest before it.
  predicate Linked(events: seq<Entry>, i: nat)
    requires i < |events|
  {
    events[i].Entry? && events[i].payload.previous == LastDigest(events[..i])
  }

  // The seal of position i holds: its digest is that of its payload.
  predicate Sealed(hash: Hash, events: seq<Entry>, i: nat)
    requires i < |events|
  {
    events[i].Entry? && events[i].digest == hash(events[i].payload)
  }

  ghost predicate Verified(hash: Hash, events: seq<Entry>) {
    forall i :: 0 <= i < |events| ==> Linked(events, i) && Sealed(hash, events, i)
  }

  class TemporalLedger {
    const hash: Hash
    var events: seq<Entry>

    // Reads the file; a line that does not parse stays in place as unreadable.
    constructor (hash: Hash, read: Reader, lines: seq<string>)
      ensures this.hash == hash && events == LoadedAll(read, lines)
    {
      this.hash := hash;
      events := [];
      new;
      var i := 0;
      while i < |lines|
        invariant 0 <= i <= |lines|
        invariant events == LoadedAll(read, lines[..i])
      {
        assert lines[..i + 1][..i] == lines[..i];
        var text := Trim(lines[i]);
        if text != "" {
          var e := read(text);
          events := events + [if e.Some? then e.value else Unreadable(text)];
        }
        i := i + 1;
      }
      assert lines[..i] == lines;
    }

    /** Appending keeps a verifying ledger verifying, and touches no earlier event. */
    method Append(body: Payload) returns (entry: Entry)
      modifies this`events
      ensures events == old(events) + [entry] && entry.Entry?
      ensures entry.payload == body.(previous := old(LastDigest(events)))
      ensures entry.digest == hash(entry.payload) && entry.id == EventId(body.tick, entry.digest)
      ensures old(Verified(hash, events)) ==> Verified(hash, events)
    {
      var raw := body.(previous := LastDigest(events));
      var digest := hash(raw);
      entry := Entry(EventId(raw.tick, digest), raw, digest);
      ghost var was := events;
      events := events + [entry];
      forall i | 0 <= i < |was| && Verified(hash, was)
        ensures Linked(events, i) && Sealed(hash, events, i)
      {
        assert Linked(was, i) && Sealed(hash, was, i);
        assert events[..i] == was[..i];
      }
      assert events[..|was|] == was;
    }

    /** Verify accepts exactly the verified ledgers, and otherwise names the first broken event: a bad link before
    a bad seal, and everything before it intact. */
    method Verify() returns (report: Report)
      ensures report.Intact? <==> Verified(hash, events)
      ensures report.Broken? ==>
        && report.index < |events|
        && Verified(hash, events[..report.index])
        && (if report.fault.PreviousMismatch? then !Linked(events, report.index)
            else Linked(events, report.index) && !Sealed(hash, events, report.index))
    {
      var previous := GENESIS;
      var i := 0;
      while i < |events|
        invariant 0 <= i <= |events|
        invariant previous == LastDigest(events[..i])
        invariant forall j :: 0 <= j < i ==> Linked(events, j) && Sealed(hash, events, j)
      {
        var e := events[i];
        if e.Unreadable? || e.payload.previous != previous {
          PrefixVerified(hash, events, i);
          assert !Linked(events, i);
          return Broken(i, PreviousMismatch);
        }
        if e.digest != hash(e.payload) {
          PrefixVerified(hash, events, i);
          assert !Sealed(hash, events, i);
          return Broken(i, DigestMismatch);
        }
        previous := e.digest;
        assert events[..i + 1][i] == e;
        i := i + 1;
      }
      report := Intact;
    }
  }

  lemma PrefixVerified(hash: Hash, events: seq<Entry>, n: nat)
    requires n <= |events|
    requires forall j :: 0 <= j < n ==> Linked(events, j) && Sealed(hash, events, j)
    ensures Verified(hash, events[..n])
  {
    forall j | 0 <= j < n ensures Linked(events[..n], j) && Sealed(hash, events[..n], j) {
      assert events[..n][..j] == events[..j];
      assert Linked(events, j);
    }
  }

  // ---------------------------------------------------------------- what is loaded

  // The entry is what the reader makes of the line, or the line itself.
  predicate ReadAs(read: Reader, line: string, e: Entry) {
    if read(line).Some? then e == read(line).value else e == Unreadable(line)
  }

  /** A ledger loads line by line: one entry for each non-blank line of the file, in order, each what the reader makes
  of its line. */
  lemma {:induction false} LoadsLineByLine(read: Reader, lines: seq<string>)
    ensures |LoadedAll(read, lines)| == |Content(lines)|
    ensures forall i :: 0 <= i < |Content(lines)| ==> ReadAs(read, Content(lines)[i], LoadedAll(read, lines)[i])
  {
    if lines != [] {
      var n := |lines| - 1;
      LoadsLineByLine(read, lines[..n]);
      ContentConcat(lines[..n], [lines[n]]);
      assert lines == lines[..n] + [lines[n]];
      assert Content([lines[n]]) == Shown(lines[n]);
    }
  }

  // A line that, stripped, reads back to the entry.
  predicate Writes(read: Reader, line: string, e: Entry) {
    Trim(line) != "" && read(Trim(line)) == Some(e)
  }

  /** Loading undoes writing, whatever the writer, so long as its lines read back to their entries. */
  lemma {:induction false} LoadingUndoesWriting(read: Reader, lines: seq<string>, events: seq<Entry>)
    requires |lines| == |events| && forall i :: 0 <= i < |events| ==> Writes(read, lines[i], events[i])
    ensures LoadedAll(read, lines) == events
  {
    if events != [] {
      var n := |events| - 1;
      LoadingUndoesWriting(read, lines[..n], events[..n]);
      assert Writes(read, lines[n], events[n]);
      assert events == events[..n] + [events[n]];
    }
  }

  /** So a built ledger comes back from its file as it was: it still verifies, ends in the same digest, and appending to
  it goes on where it stopped. */
  lemma RestartKeepsLedger(hash: Hash, read: Reader, lines: seq<string>, bodies: seq<Payload>, body: Payload)
    requires |lines| == |bodies| == |Build(hash, bodies)|
    requires forall i :: 0 <= i < |lines| ==> Writes(read, lines[i], Build(hash, bodies)[i])
    ensures Verified(hash, LoadedAll(read, lines))
    ensures LastDigest(LoadedAll(read, lines)) == LastDigest(Build(hash, bodies))
    ensures
      var raw := body.(previous := LastDigest(LoadedAll(read, lines)));
      Build(hash, bodies + [body]) == LoadedAll(read, lines) + [Entry(EventId(raw.tick, hash(raw)), raw, hash(raw))]
  {
    LoadingUndoesWriting(read, lines, Build(hash, bodies));
    BuiltLedgersVerify(hash, bodies);
    assert (bodies + [body])[..|bodies|] == bodies;
  }

  lemma {:induction false} ShownAt(lines: seq<string>, n: nat) returns (i: nat)
    requires n < |lines| && Trim(lines[n]) != ""
    ensures i < |Content(lines)| && Content(lines)[i] == Trim(lines[n])
  {
    if n == 0 {
      i := 0;
    } else {
      i := ShownAt(lines[1..], n - 1);
      i := i + |Shown(lines[0])|;
    }
  }

  /** What is appended after a line that does not parse is linked to the word CORRUPT, not to any digest. */
  lemma CorruptEndsInCorrupt(read: Reader, lines: seq<string>)
    requires lines != [] && Trim(lines[|lines| - 1]) != "" && read(Trim(lines[|lines| - 1])).None?
    ensures LastDigest(LoadedAll(read, lines)) == "CORRUPT"
    ensures LastDigest(LoadedAll(read, [])) == "GENESIS"
  {
  }

  /** A line that does not parse is never lost and never passed: with one such line in it no ledger file verifies. */
  lemma UnreadableLineIsCaught(hash: Hash, read: Reader, lines: seq<string>, n: nat)
    requires n < |lines| && Trim(lines[n]) != "" && read(Trim(lines[n])).None?
    ensures !Verified(hash, LoadedAll(read, lines))
  {
    var events := LoadedAll(read, lines);
    LoadsLineByLine(read, lines);
    var i := ShownAt(lines, n);
    assert ReadAs(read, Content(lines)[i], events[i]);
    assert !Linked(events, i);
  }

  function Build(hash: Hash, bodies: seq<Payload>): seq<Entry> {
    if bodies == [] then []
    else
      var before, body := Build(hash, bodies[..|bodies| - 1]), bodies[|bodies| - 1];
      var raw := body.(previous := LastDigest(before));
      before + [Entry(EventId(raw.tick, hash(raw)), raw, hash(raw))]
  }

  /** Every ledger built by append from empty verifies. */
  lemma {:induction false} BuiltLedgersVerify(hash: Hash, bodies: seq<Payload>)
    ensures Verified(hash, Build(hash, bodies)) && |Build(hash, bodies)| == |bodies|
  {
    if bodies != [] {
      BuiltLedgersVerify(hash, bodies[..|bodies| - 1]);
      var before, all := Build(hash, bodies[..|bodies| - 1]), Build(hash, bodies);
      forall i | 0 <= i < |all| ensures Linked(all, i) && Sealed(hash, all, i) {
        if i < |before| {
          assert all[..i] == before[..i];
          assert Linked(before, i) && Sealed(hash, before, i);
        } else {
          assert all[..i] == before;
        }
      }
    }
  }

  // ---------------------------------------------------------------- what the last digest pins

  // An event of one ledger and an event of the other have different payloads and the same digest.
  ghost predicate Collide(hash: Hash, a: seq<Entry>, b: seq<Entry>) {
    exists e, f :: e in a && f in b && e.Entry? && f.Entry? &&
      e.payload != f.payload && hash(e.payload) == hash(f.payload)
  }

  // The digest of some event is the genesis marker.
  ghost predicate HitsGenesis(hash: Hash, a: seq<Entry>) {
    exists e :: e in a && e.Entry? && hash(e.payload) == GENESIS
  }

  // Two payloads to hold against the hash.
  ghost predicate HashFails(hash: Hash, a: seq<Entry>, b: seq<Entry>) {
    Collide(hash, a, b) || HitsGenesis(hash, a) || HitsGenesis(hash, b)
  }

  // Agreement on everything but the event id.
  predicate SameButId(e: Entry, f: Entry) {
    e.Entry? && f.Entry? && e.payload == f.payload && e.digest == f.digest
  }

  ghost predicate SameButIds(a: seq<Entry>, b: seq<Entry>) {
    |a| == |b| && forall i :: 0 <= i < |a| ==> SameButId(a[i], b[i])
  }

  lemma FailsOnPrefixes(hash: Hash, a: seq<Entry>, b: seq<Entry>, m: nat, n: nat)
    requires m <= |a| && n <= |b| && HashFails(hash, a[..m], b[..n])
    ensures HashFails(hash, a, b)
  {
    if Collide(hash, a[..m], b[..n]) {
      var e, f :| e in a[..m] && f in b[..n] && e.Entry? && f.Entry? &&
        e.payload != f.payload && hash(e.payload) == hash(f.payload);
      assert e in a && f in b;
    }
  }

  lemma LastEventsAgree(hash: Hash, a: seq<Entry>, b: seq<Entry>)
    requires Verified(hash, a) && Verified(hash, b) && LastDigest(a) == LastDigest(b) && !HashFails(hash, a, b)
    ensures a == [] <==> b == []
    ensures a != [] ==> SameButId(a[|a| - 1], b[|b| - 1])
  {
    assert a != [] ==> Sealed(hash, a, |a| - 1) && a[|a| - 1] in a;
    assert b != [] ==> Sealed(hash, b, |b| - 1) && b[|b| - 1] in b;
  }

  lemma LastIsLinked(hash: Hash, a: seq<Entry>)
    requires Verified(hash, a) && a != []
    ensures Verified(hash, a[..|a| - 1])
    ensures a[|a| - 1].Entry? && a[|a| - 1].payload.previous == LastDigest(a[..|a| - 1])
  {
    PrefixVerified(hash, a, |a| - 1);
    assert Linked(a, |a| - 1);
  }

  lemma SameButIdsSnoc(a: seq<Entry>, b: seq<Entry>)
    requires a != [] && b != [] && SameButIds(a[..|a| - 1], b[..|b| - 1]) && SameButId(a[|a| - 1], b[|b| - 1])
    ensures SameButIds(a, b)
  {
    forall i | 0 <= i < |a| ensures SameButId(a[i], b[i]) {
      assert i < |a| - 1 ==> a[..|a| - 1][i] == a[i] && b[..|b| - 1][i] == b[i];
    }
  }

  /** The last digest pins the whole ledger: two verifying ledgers with the same last digest have the same length and
  agree on every field of every event except the event id, or else the two hold a collision of the hash. */
  lemma {:induction false} LastDigestPinsLedger(hash: Hash, a: seq<Entry>, b: seq<Entry>)
    requires Verified(hash, a) && Verified(hash, b) && LastDigest(a) == LastDigest(b)
    ensures SameButIds(a, b) || HashFails(hash, a, b)
  {
    if !HashFails(hash, a, b) {
      LastEventsAgree(hash, a, b);
      if a != [] {
        LastIsLinked(hash, a);
        LastIsLinked(hash, b);
        LastDigestPinsLedger(hash, a[..|a| - 1], b[..|b| - 1]);
        if HashFails(hash, a[..|a| - 1], b[..|b| - 1]) {
          FailsOnPrefixes(hash, a, b, |a| - 1, |b| - 1);
        }
        SameButIdsSnoc(a, b);
      }
    }
  }

  /** The event id alone is unprotected: rewriting any id leaves the ledger verifying with the same last digest. */
  lemma EventIdIsUnprotected(hash: Hash, a: seq<Entry>, i: nat, id: string)
    requires Verified(hash, a) && i < |a|
    ensures a[i].Entry?
    ensures
      var forged := a[i := a[i].(id := id)];
      Verified(hash, forged) && LastDigest(forged) == LastDigest(a)
  {
    assert Linked(a, i);
    var forged := a[i := a[i].(id := id)];
    forall j | 0 <= j < |a| ensures Linked(forged, j) && Sealed(hash, forged, j) {
      assert Linked(a, j) && Sealed(hash, a, j);
      assert LastDigest(forged[..j]) == LastDigest(a[..j]);
    }
  }

  /** Cutting the tail off goes unnoticed by verify itself, and the last digest notices it always, but for a
  collision of the hash within the ledger. */
  lemma TruncationChangesLastDigest(hash: Hash, a: seq<Entry>, n: nat)
    requires Verified(hash, a) && n < |a|
    ensures Verified(hash, a[..n])
    ensures LastDigest(a[..n]) != LastDigest(a) || HashFails(hash, a, a)
  {
    PrefixVerified(hash, a, n);
    if LastDigest(a[..n]) == LastDigest(a) {
      LastDigestPinsLedger(hash, a[..n], a);
      assert a[..|a|] == a;
      FailsOnPrefixes(hash, a, a, n, |a|);
    }
  }
}
