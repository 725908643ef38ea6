/** Trust-tier re-ranking of retrieval hits. */
module Router {
  import opened StableSort

  datatype Trust =
    | SystemCanonical | VerifiedProjectFact | DomainVerified | UserPreference | ExtractedUserClaim
    | ExternalVerified | ModelPriorUnverified | ExternalLlmAdvisory | InternalPressureTrace
    | ProvisionalWeb | DisputedOrUnsafe | OtherTrust

  datatype Intent = Architecture | Contradiction | RelationField | UserVault | GeneralFact

  datatype Hit = Hit(source: string, trust: Trust, similarity: real, content: string)

  datatype Scored = Scored(hit: Hit, combined: real, tier: real)

  function Rank(t: Trust): real {
    match t
    case SystemCanonical => 6.0
    case VerifiedProjectFact => 5.0
    case DomainVerified => 4.0
    case UserPreference => 3.0
    case ExtractedUserClaim => 2.0
    case ExternalVerified => 1.8
    case ModelPriorUnverified => 1.6
    case ExternalLlmAdvisory => 1.4
    case InternalPressureTrace => 1.2
    case ProvisionalWeb => 1.0
    case DisputedOrUnsafe => 0.0
    case OtherTrust => 1.0
  }

  predicate IsVault(source: string) {
    "vault:" <= source
  }

  function BySource(source: string, relation: real, repo: real, vault: real): real {
    if "relation:" <= source then relation
    else if "repo:" <= source then repo
    else if IsVault(source) then vault
    else 0.0
  }

  // What the source prefix adds under an intent.
  function SourceBoost(intent: Intent, source: string): real {
    match intent
    case Architecture => BySource(source, 1.0, 0.6, -0.6)
    case Contradiction => BySource(source, 1.0, 0.6, -0.6)
    case RelationField => BySource(source, 1.0, 0.5, -0.4)
    case UserVault => if IsVault(source) then 0.8 else if "relation:" <= source || "repo:" <= source then -0.4 else 0.0
    case GeneralFact => 0.0
  }

  function TierWeight(intent: Intent): real {
    match intent
    case Architecture => 0.18
    case Contradiction => 0.18
    case RelationField => 0.15
    case UserVault => 0.04
    case GeneralFact => 0.10
  }

  function Boost(intent: Intent, source: string, trust: Trust): real {
    TierWeight(intent) * Rank(trust) + SourceBoost(intent, source)
  }

  function Combined(intent: Intent, h: Hit): real {
    h.similarity + Boost(intent, h.source, h.trust)
  }

  function Score(intent: Intent, h: Hit): Scored {
    Scored(h, Combined(intent, h), Rank(h.trust))
  }

  function ByCombined(): Scored -> real {
    (s: Scored) => s.combined
  }

  function ScoreAll(intent: Intent, hits: seq<Hit>): (ss: seq<Scored>)
    ensures |ss| == |hits|
    ensures forall i :: 0 <= i < |hits| ==> ss[i] == Score(intent, hits[i])
  {
    seq(|hits|, i requires 0 <= i < |hits| => Score(intent, hits[i]))
  }

  function Ranked(intent: Intent, hits: seq<Hit>): seq<Scored> {
    SortDesc(ScoreAll(intent, hits), ByCombined())
  }

  method Rerank(hits: seq<Hit>, intent: Intent) returns (ranked: seq<Scored>)
    ensures ranked == Ranked(intent, hits)
  {
    var scored := [];
    var i := 0;
    while i < |hits|
      invariant 0 <= i <= |hits| && |scored| == i
      invariant forall j :: 0 <= j < i ==> scored[j] == Score(intent, hits[j])
    {
      var h := hits[i];
      var tier := Rank(h.trust);
      var boost := 0.0;
      match intent {
        case Architecture | Contradiction =>
          boost := boost + 0.18 * tier;
          if "relation:" <= h.source {
            boost := boost + 1.0;
          } else if "repo:" <= h.source {
            boost := boost + 0.6;
          } else if "vault:" <= h.source {
            boost := boost - 0.6;
          }
        case RelationField =>
          boost := boost + 0.15 * tier;
          if "relation:" <= h.source {
            boost := boost + 1.0;
          } else if "repo:" <= h.source {
            boost := boost + 0.5;
          } else if "vault:" <= h.source {
            boost := boost - 0.4;
          }
        case UserVault =>
          if "vault:" <= h.source {
            boost := boost + 0.8;
          } else if "relation:" <= h.source || "repo:" <= h.source {
            boost := boost - 0.4;
          }
          boost := boost + 0.04 * tier;
        case GeneralFact =>
          boost := boost + 0.10 * tier;
      }
      scored := scored + [Scored(h, h.similarity + boost, tier)];
      i := i + 1;
    }
    assert scored == ScoreAll(intent, hits);
    ranked := SortDesc(scored, ByCombined());
  }

  // ---------------------------------------------------------------- what the ranking guarantees

  /** The ranking is a stable permutation of the scored hits, best first. */
  lemma RankingIsStable(intent: Intent, hits: seq<Hit>)
    ensures
      var ranked := Ranked(intent, hits);
      && |ranked| == |hits|
      && multiset(ranked) == multiset(ScoreAll(intent, hits))
      && (forall i, j :: 0 <= i < j < |ranked| ==> ranked[i].combined >= ranked[j].combined)
      && (forall v :: WithKey(ranked, ByCombined(), v) == WithKey(ScoreAll(intent, hits), ByCombined(), v))
      && (forall i :: 0 <= i < |ranked| ==> ranked[i] == Score(intent, ranked[i].hit))
  {
    var ranked, scored := Ranked(intent, hits), ScoreAll(intent, hits);
    SortDescSorts(scored, ByCombined());
    forall i, j | 0 <= i < j < |ranked| ensures ranked[i].combined >= ranked[j].combined {
      assert ByCombined()(ranked[i]) >= ByCombined()(ranked[j]);
    }
    forall i | 0 <= i < |ranked| ensures ranked[i] == Score(intent, ranked[i].hit) {
      assert ranked[i] in multiset(ranked) && ranked[i] in scored;
    }
  }

  predicate InUnit(x: real) {
    0.0 <= x <= 1.0
  }

  // One kind of hit outscores another at any similarities.
  ghost predicate AlwaysAbove(intent: Intent, source: string, trust: Trust, source': string, trust': Trust) {
    forall s, s', c, c' :: InUnit(s) && InUnit(s') ==>
      Combined(intent, Hit(source, trust, s, c)) > Combined(intent, Hit(source', trust', s', c'))
  }

  /** Exactly when similarity cannot make up the difference: the boosts differ by more than one. */
  lemma AboveExactly(intent: Intent, source: string, trust: Trust, source': string, trust': Trust)
    ensures AlwaysAbove(intent, source, trust, source', trust') <==>
      Boost(intent, source, trust) - Boost(intent, source', trust') > 1.0
  {
    if AlwaysAbove(intent, source, trust, source', trust') {
      assert InUnit(0.0) && InUnit(1.0);
      assert Combined(intent, Hit(source, trust, 0.0, "")) > Combined(intent, Hit(source', trust', 1.0, ""));
    }
  }

  /** A hit whose kind is always above another's precedes it, wherever the two stood among the hits. */
  lemma AboveGoesFirst(intent: Intent, hits: seq<Hit>, i: nat, j: nat)
    requires i < |Ranked(intent, hits)| && j < |Ranked(intent, hits)|
    requires
      var a, b := Ranked(intent, hits)[i].hit, Ranked(intent, hits)[j].hit;
      InUnit(a.similarity) && InUnit(b.similarity) && AlwaysAbove(intent, a.source, a.trust, b.source, b.trust)
    ensures i < j
  {
    RankingIsStable(intent, hits);
    var a, b := Ranked(intent, hits)[i].hit, Ranked(intent, hits)[j].hit;
    assert a == Hit(a.source, a.trust, a.similarity, a.content) && b == Hit(b.source, b.trust, b.similarity, b.content);
    assert Combined(intent, a) > Combined(intent, b);
  }

  /** If it is not always above, some two hits with similarities in [0, 1] are ranked the other way round. */
  lemma NotAboveCanGoSecond(intent: Intent, source: string, trust: Trust, source': string, trust': Trust)
    requires !AlwaysAbove(intent, source, trust, source', trust')
    ensures
      var a, b := Hit(source, trust, 0.0, ""), Hit(source', trust', 1.0, "");
      Ranked(intent, [b, a]) == [Score(intent, b), Score(intent, a)]
  {
    AboveExactly(intent, source, trust, source', trust');
    var a, b := Hit(source, trust, 0.0, ""), Hit(source', trust', 1.0, "");
    var scored := ScoreAll(intent, [b, a]);
    assert scored == [Score(intent, b), Score(intent, a)];
    assert scored[1..] == [Score(intent, a)] && scored[1..][1..] == [];
    assert SortDesc(scored[1..], ByCombined()) == [Score(intent, a)];
  }

  predicate AboutItself(intent: Intent) {
    intent.Architecture? || intent.Contradiction?
  }

  predicate IsTrusted(t: Trust) {
    t.SystemCanonical? || t.VerifiedProjectFact?
  }

  /** For architecture and contradiction questions no vault claim, however similar, is ranked before a verified or
  canonical fact that does not come from the vault. */
  lemma TrustedBeforeVault(intent: Intent, hits: seq<Hit>, i: nat, j: nat)
    requires AboutItself(intent)
    requires forall k :: 0 <= k < |hits| ==> InUnit(hits[k].similarity)
    requires i < |Ranked(intent, hits)| && j < |Ranked(intent, hits)|
    requires
      var a, b := Ranked(intent, hits)[i].hit, Ranked(intent, hits)[j].hit;
      IsTrusted(a.trust) && !IsVault(a.source) && IsVault(b.source) && Rank(b.trust) <= Rank(ExtractedUserClaim)
    ensures i < j
  {
    var a, b := Ranked(intent, hits)[i].hit, Ranked(intent, hits)[j].hit;
    RankedComeFrom(intent, hits, i);
    RankedComeFrom(intent, hits, j);
    AboveExactly(intent, a.source, a.trust, b.source, b.trust);
    assert Boost(intent, b.source, b.trust) <= 0.18 * 2.0 - 0.6 by {
      assert b.source[0] == "vault:"[0];
    }
    AboveGoesFirst(intent, hits, i, j);
  }

  lemma RankedComeFrom(intent: Intent, hits: seq<Hit>, i: nat)
    requires i < |Ranked(intent, hits)|
    ensures Ranked(intent, hits)[i].hit in hits
  {
    var ranked, scored := Ranked(intent, hits), ScoreAll(intent, hits);
    SortDescSorts(scored, ByCombined());
    assert ranked[i] in multiset(ranked) && ranked[i] in scored;
  }

  // ---------------------------------------------------------------- committed tiers

  predicate IsCommittedTier(t: Trust) {
    t.SystemCanonical? || t.VerifiedProjectFact? || t.DomainVerified? || t.UserPreference?
  }

  // The hits of a committed tier, in order.
  function CommittedOnly(hits: seq<Hit>): seq<Hit> {
    if hits == [] then []
    else (if IsCommittedTier(hits[0].trust) then [hits[0]] else []) + CommittedOnly(hits[1..])
  }

  function CommittedScored(ss: seq<Scored>): seq<Scored> {
    if ss == [] then []
    else (if IsCommittedTier(ss[0].hit.trust) then [ss[0]] else []) + CommittedScored(ss[1..])
  }

  lemma {:induction false} CommittedAreAmong(ss: seq<Scored>)
    ensures forall s :: s in CommittedScored(ss) ==> s in ss
  {
    if ss != [] {
      CommittedAreAmong(ss[1..]);
    }
  }

  lemma {:induction false} CommittedDescend(ss: seq<Scored>)
    requires Descending(ss, ByCombined())
    ensures Descending(CommittedScored(ss), ByCombined())
  {
    if ss != [] {
      var rest := CommittedScored(ss[1..]);
      CommittedDescend(ss[1..]);
      CommittedAreAmong(ss[1..]);
      forall j | 0 <= j < |rest| ensures ByCombined()(ss[0]) >= ByCombined()(rest[j]) {
        assert rest[j] in ss[1..];
      }
    }
  }

  lemma {:induction false} CommittedWithKey(ss: seq<Scored>, v: real)
    ensures WithKey(CommittedScored(ss), ByCombined(), v) == CommittedScored(WithKey(ss, ByCombined(), v))
  {
    if ss != [] {
      CommittedWithKey(ss[1..], v);
      var rest, same := CommittedScored(ss[1..]), WithKey(ss[1..], ByCombined(), v);
      assert ([ss[0]] + rest)[1..] == rest && [] + rest == rest;
      assert ([ss[0]] + same)[1..] == same && [] + same == same;
    }
  }

  lemma {:induction false} CommittedOfScored(intent: Intent, hits: seq<Hit>)
    ensures CommittedScored(ScoreAll(intent, hits)) == ScoreAll(intent, CommittedOnly(hits))
  {
    if hits != [] {
      CommittedOfScored(intent, hits[1..]);
      assert ScoreAll(intent, hits)[1..] == ScoreAll(intent, hits[1..]);
      assert ScoreAll(intent, CommittedOnly(hits)) ==
        (if IsCommittedTier(hits[0].trust) then [Score(intent, hits[0])] else []) +
        ScoreAll(intent, CommittedOnly(hits[1..]));
    }
  }

  /** Keeping the committed tiers of the ranked hits is ranking the committed hits: the filter can be applied before
  or after, and what it drops never moved what it keeps. */
  lemma CommittedOfRanked(intent: Intent, hits: seq<Hit>)
    ensures CommittedScored(Ranked(intent, hits)) == Ranked(intent, CommittedOnly(hits))
  {
    var scored := ScoreAll(intent, hits);
    CommittedOfScored(intent, hits);
    SortDescSorts(scored, ByCombined());
    SortDescSorts(CommittedScored(scored), ByCombined());
    var a, b := CommittedScored(SortDesc(scored, ByCombined())), SortDesc(CommittedScored(scored), ByCombined());
    CommittedDescend(SortDesc(scored, ByCombined()));
    forall v ensures WithKey(a, ByCombined(), v) == WithKey(b, ByCombined(), v) {
      CommittedWithKey(SortDesc(scored, ByCombined()), v);
      CommittedWithKey(scored, v);
    }
    StableOrderIsUnique(a, b, ByCombined());
  }

  /** For the same questions the committed tiers are not enough: a user preference kept in the vault can still be ranked
  before a verified project fact from elsewhere. */
  lemma VaultPreferenceCanOutrank(intent: Intent)
    requires AboutItself(intent)
    ensures
      var fact, note := Hit("doc:", VerifiedProjectFact, 0.0, ""), Hit("vault:", UserPreference, 1.0, "");
      Ranked(intent, [note, fact]) == [Score(intent, note), Score(intent, fact)]
  {
    AboveExactly(intent, "doc:", VerifiedProjectFact, "vault:", UserPreference);
    NotAboveCanGoSecond(intent, "doc:", VerifiedProjectFact, "vault:", UserPreference);
  }

  /** From one and the same source a tier decides by itself only at the very ends: similarity can make up any other
  difference of tier, and this one too unless the question is about the system itself. */
  lemma TierAloneDecides(intent: Intent, source: string, trust: Trust, trust': Trust)
    ensures AlwaysAbove(intent, source, trust, source, trust') <==>
      AboutItself(intent) && trust.SystemCanonical? && trust'.DisputedOrUnsafe?
  {
    AboveExactly(intent, source, trust, source, trust');
  }

  predicate IsAcquired(t: Trust) {
    t.ExternalVerified? || t.ModelPriorUnverified? || t.ExternalLlmAdvisory?
  }

  /** In particular an external or model-prior packet, at similarity 1, is ranked before any canonical or project
  fact of the same source at similarity 0. */
  lemma AcquiredCanOutrank(intent: Intent, source: string, trust: Trust, acquired: Trust)
    requires IsTrusted(trust) && IsAcquired(acquired)
    ensures
      var fact, packet := Hit(source, trust, 0.0, ""), Hit(source, acquired, 1.0, "");
      Ranked(intent, [packet, fact]) == [Score(intent, packet), Score(intent, fact)]
  {
    TierAloneDecides(intent, source, trust, acquired);
    NotAboveCanGoSecond(intent, source, trust, source, acquired);
  }

  // ---------------------------------------------------------------- what each intent puts first

  // The four kinds of place a hit can come from.
  datatype Place = FromRelation | FromRepo | FromVault | FromElsewhere

  predicate ComesFrom(source: string, place: Place) {
    match place
    case FromRelation => "relation:" <= source
    case FromRepo => "repo:" <= source
    case FromVault => "vault:" <= source
    case FromElsewhere => !("relation:" <= source) && !("repo:" <= source) && !("vault:" <= source)
  }

  lemma OnePlace(source: string)
    ensures !("relation:" <= source && "repo:" <= source) && !("relation:" <= source && "vault:" <= source)
    ensures !("repo:" <= source && "vault:" <= source)
  {
    if "repo:" <= source {
      assert source[2] == "repo:"[2];
    }
    if "relation:" <= source {
      assert source[0] == "relation:"[0] && source[2] == "relation:"[2];
    }
    if "vault:" <= source {
      assert source[0] == "vault:"[0];
    }
  }

  // The tiers from best to worst; an unknown one counts as a web claim.
  predicate Better(a: Trust, b: Trust) {
    match a
    case SystemCanonical => b != SystemCanonical
    case VerifiedProjectFact => b !in {SystemCanonical, VerifiedProjectFact}
    case DomainVerified => b !in {SystemCanonical, VerifiedProjectFact, DomainVerified}
    case UserPreference => b !in {SystemCanonical, VerifiedProjectFact, DomainVerified, UserPreference}
    case ExtractedUserClaim =>
      b !in {SystemCanonical, VerifiedProjectFact, DomainVerified, UserPreference, ExtractedUserClaim}
    case ExternalVerified =>
      b in {ModelPriorUnverified, ExternalLlmAdvisory, InternalPressureTrace, ProvisionalWeb, OtherTrust,
            DisputedOrUnsafe}
    case ModelPriorUnverified =>
      b in {ExternalLlmAdvisory, InternalPressureTrace, ProvisionalWeb, OtherTrust, DisputedOrUnsafe}
    case ExternalLlmAdvisory => b in {InternalPressureTrace, ProvisionalWeb, OtherTrust, DisputedOrUnsafe}
    case InternalPressureTrace => b in {ProvisionalWeb, OtherTrust, DisputedOrUnsafe}
    case ProvisionalWeb => b == DisputedOrUnsafe
    case OtherTrust => b == DisputedOrUnsafe
    case DisputedOrUnsafe => false
  }

  /** Of two equally similar hits from one source the one of the better tier is ranked first, whatever is asked. */
  lemma BetterTierGoesFirst(intent: Intent, source: string, a: Trust, b: Trust, similarity: real)
    requires Better(a, b)
    ensures
      var x, y := Hit(source, a, similarity, ""), Hit(source, b, similarity, "");
      Ranked(intent, [y, x]) == [Score(intent, x), Score(intent, y)]
  {
    var x, y := Hit(source, a, similarity, ""), Hit(source, b, similarity, "");
    TwoRanked(intent, y, x);
  }

  lemma TwoRanked(intent: Intent, first: Hit, second: Hit)
    ensures Ranked(intent, [first, second]) ==
      if Combined(intent, second) > Combined(intent, first) then [Score(intent, second), Score(intent, first)]
      else [Score(intent, first), Score(intent, second)]
  {
    var x, y := Score(intent, first), Score(intent, second);
    var scored := ScoreAll(intent, [first, second]);
    assert scored == [x, y];
    SortOne(y, ByCombined());
    assert scored[0] == x && scored[1..] == [y] && [y][1..] == [];
    assert SortDesc(scored, ByCombined()) == InsertDesc(x, [y], ByCombined());
    assert InsertDesc(x, [], ByCombined()) == [x];
  }

  // How much a place is worth under an intent, in hundredths.
  function Worth(intent: Intent, place: Place): int {
    match intent
    case Architecture => (match place case FromRelation => 100 case FromRepo => 60 case FromVault => -60 case _ => 0)
    case Contradiction => (match place case FromRelation => 100 case FromRepo => 60 case FromVault => -60 case _ => 0)
    case RelationField => (match place case FromRelation => 100 case FromRepo => 50 case FromVault => -40 case _ => 0)
    case UserVault => (match place case FromRelation => -40 case FromRepo => -40 case FromVault => 80 case _ => 0)
    case GeneralFact => 0
  }

  // How much one tier step is worth, in hundredths.
  function StepWorth(intent: Intent): int {
    match intent
    case Architecture => 18
    case Contradiction => 18
    case RelationField => 15
    case UserVault => 4
    case GeneralFact => 10
  }

  lemma BoostIsWorth(intent: Intent, source: string, place: Place, trust: Trust)
    requires ComesFrom(source, place)
    ensures
      100.0 * Boost(intent, source, trust) ==
      Worth(intent, place) as real + StepWorth(intent) as real * Rank(trust)
  {
    OnePlace(source);
    match intent
    case Architecture => assert 100.0 * (0.18 * Rank(trust)) == 18.0 * Rank(trust);
    case Contradiction => assert 100.0 * (0.18 * Rank(trust)) == 18.0 * Rank(trust);
    case RelationField => assert 100.0 * (0.15 * Rank(trust)) == 15.0 * Rank(trust);
    case UserVault => assert 100.0 * (0.04 * Rank(trust)) == 4.0 * Rank(trust);
    case GeneralFact => assert 100.0 * (0.10 * Rank(trust)) == 10.0 * Rank(trust);
  }

  lemma Distributes(x: real, y: real, z: real)
    ensures x * (y - z) == x * y - x * z
  {
  }

  /** The exact odds of two kinds of hit, by where they come from and their tiers: one is above the other at all
  similarities exactly when its place and tier are worth more than one whole similarity more. */
  lemma AboveByPlaceAndTier(
    intent: Intent, source: string, place: Place, trust: Trust, source': string, place': Place, trust': Trust)
    requires ComesFrom(source, place) && ComesFrom(source', place')
    ensures AlwaysAbove(intent, source, trust, source', trust') <==>
      (Worth(intent, place) - Worth(intent, place')) as real +
      StepWorth(intent) as real * (Rank(trust) - Rank(trust')) > 100.0
  {
    BoostIsWorth(intent, source, place, trust);
    BoostIsWorth(intent, source', place', trust');
    Distributes(StepWorth(intent) as real, Rank(trust), Rank(trust'));
    AboveExactly(intent, source, trust, source', trust');
  }

  /** So a question to the vault puts every vault claim before every relation and repository fact, unless the tier
  of the fact is five steps higher or more. */
  lemma VaultQuestionsPreferVault(source: string, trust: Trust, source': string, trust': Trust)
    requires ComesFrom(source, FromVault) && (ComesFrom(source', FromRelation) || ComesFrom(source', FromRepo))
    ensures AlwaysAbove(UserVault, source, trust, source', trust') <==> Rank(trust') - Rank(trust) < 5.0
  {
    var place' := if ComesFrom(source', FromRelation) then FromRelation else FromRepo;
    AboveByPlaceAndTier(UserVault, source, FromVault, trust, source', place', trust');
  }

  /** A question about relations puts a relation before every vault claim at most two steps of tier above it, and
  before a repository fact only if that is more than three steps of tier below it. */
  lemma RelationQuestionsPreferRelations(source: string, trust: Trust, source': string, trust': Trust)
    requires ComesFrom(source, FromRelation)
    ensures ComesFrom(source', FromVault) && Rank(trust') - Rank(trust) <= 2.0 ==>
      AlwaysAbove(RelationField, source, trust, source', trust')
    ensures ComesFrom(source', FromVault) && Rank(trust') - Rank(trust) >= 3.0 ==>
      !AlwaysAbove(RelationField, source, trust, source', trust')
    ensures ComesFrom(source', FromRepo) && Rank(trust) - Rank(trust') <= 3.0 ==>
      !AlwaysAbove(RelationField, source, trust, source', trust')
    ensures ComesFrom(source', FromRepo) && Rank(trust) - Rank(trust') >= 4.0 ==>
      AlwaysAbove(RelationField, source, trust, source', trust')
  {
    if ComesFrom(source', FromVault) {
      AboveByPlaceAndTier(RelationField, source, FromRelation, trust, source', FromVault, trust');
    }
    if ComesFrom(source', FromRepo) {
      AboveByPlaceAndTier(RelationField, source, FromRelation, trust, source', FromRepo, trust');
    }
  }

  /** The committed tiers are the four best: those nothing but one of them is better than. */
  lemma CommittedAreBest(t: Trust)
    ensures IsCommittedTier(t) <==> t == UserPreference || Better(t, UserPreference)
    ensures IsCommittedTier(t) <==> Rank(t) >= 3.0
    ensures forall intent, h: Hit :: h.trust == t ==> Score(intent, h).tier == Rank(t)
  {
  }

  /** For a general question nothing decides for certain: similarity can put any kind of hit before any other. */
  lemma GeneralQuestionsDecideNothing(source: string, trust: Trust, source': string, trust': Trust)
    ensures !AlwaysAbove(GeneralFact, source, trust, source', trust')
  {
    AboveExactly(GeneralFact, source, trust, source', trust');
  }
}
