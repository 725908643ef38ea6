/** How two claims relate. The tokeniser, the word lists and the canonical constraints are arbitrary: nothing below
depends on the vocabulary. No advisor is consulted. */
module Evidence {
  import opened Rounding

  datatype SourceClass =
    | SystemCanonical | VerifiedProjectFact
    | UserMemoryGrounded | ExtractedUserClaim | UserPreference
    | DomainVerified | ProvisionalWeb | DisputedOrUnsafe
    | OtherClass(name: string)

  datatype Relation = Same | Supports | Contradicts | Unrelated | Narrows | Broadens | CanonicalConflict

  datatype Method =
    | SecretGuard | DeterministicCanonical | DeterministicExact | DeterministicPolarity
    | LexicalSimilarity | LexicalSubset | TaskStatus | NewClaim

  datatype Verdict = Verdict(relation: Relation, confidence: real, how: Method)

  // What the tokeniser reads off a claim: normal form, content words, and a negation marker in the raw text.
  datatype Lexed = Lexed(norm: string, tokens: set<string>, negationMark: bool)

  datatype Constraint = Constraint(topic: string -> bool, unsafe: string -> bool)

  datatype Lexicon = Lexicon(
    lex: string -> Lexed,
    negations: set<string>,
    antonyms: seq<set<string>>,
    isValue: string -> bool,
    constraints: seq<Constraint>)

  datatype Context = Context(secret: bool, classA: SourceClass, classB: SourceClass)

  function Jaccard(a: set<string>, b: set<string>): (j: real)
    ensures 0.0 <= j <= 1.0
  {
    if a == {} || b == {} then 0.0
    else
      assert a + b != {};
      assert a * b <= a + b && |a * b| <= |a + b| by { SubsetSize(a * b, a + b); }
      |a * b| as real / |a + b| as real
  }

  lemma {:induction false} SubsetSize(a: set<string>, b: set<string>)
    requires a <= b
    ensures |a| <= |b|
  {
    if a != {} {
      var x :| x in a;
      SubsetSize(a - {x}, b - {x});
    }
  }

  function HasNegation(lx: Lexicon, l: Lexed): bool {
    l.tokens * lx.negations != {} || l.negationMark
  }

  predicate AntonymConflict(lx: Lexicon, ta: set<string>, tb: set<string>) {
    exists i :: 0 <= i < |lx.antonyms| && ta * lx.antonyms[i] != {} && tb * lx.antonyms[i] != {} &&
      ta * lx.antonyms[i] != tb * lx.antonyms[i]
  }

  function Values(lx: Lexicon, ts: set<string>): set<string> {
    set t | t in ts && lx.isValue(t)
  }

  predicate ValueConflict(lx: Lexicon, ta: set<string>, tb: set<string>) {
    var va, vb := Values(lx, ta - tb), Values(lx, tb - ta);
    ta * tb != {} && va != {} && vb != {} && va != vb
  }

  predicate PolarityConflict(lx: Lexicon, a: string, b: string) {
    var la, lb := lx.lex(a), lx.lex(b);
    || (HasNegation(lx, la) != HasNegation(lx, lb) && Jaccard(la.tokens, lb.tokens) >= 0.3)
    || AntonymConflict(lx, la.tokens, lb.tokens)
    || ValueConflict(lx, la.tokens, lb.tokens)
  }

  // Two claims on the topic of one constraint, of which exactly one asserts the forbidden thing.
  predicate CanonicalClash(lx: Lexicon, a: string, b: string) {
    exists i :: 0 <= i < |lx.constraints| && lx.constraints[i].topic(a) && lx.constraints[i].topic(b) &&
      lx.constraints[i].unsafe(a) != lx.constraints[i].unsafe(b)
  }

  function Classify(lx: Lexicon, a: string, b: string, ctx: Context): Verdict {
    var la, lb := lx.lex(a), lx.lex(b);
    var ta, tb := la.tokens, lb.tokens;
    var jac := Jaccard(ta, tb);
    var shared := |ta * tb| as real;
    if ctx.secret then Verdict(Unrelated, 0.0, SecretGuard)
    else if CanonicalClash(lx, a, b) ||
            ((ctx.classA.SystemCanonical? || ctx.classB.SystemCanonical?) && PolarityConflict(lx, a, b)) then
      Verdict(CanonicalConflict, 0.99, DeterministicCanonical)
    else if la.norm == lb.norm then Verdict(Same, 1.0, DeterministicExact)
    else if PolarityConflict(lx, a, b) && jac >= 0.3 then
      Verdict(Contradicts, Round3(0.6 + 0.3 * jac), DeterministicPolarity)
    else if jac >= 0.82 then Verdict(Same, Round3(jac), LexicalSimilarity)
    else if ta != {} && tb != {} && ta < tb then Verdict(Narrows, Round3(shared / |ta| as real), LexicalSubset)
    else if ta != {} && tb != {} && tb < ta then Verdict(Broadens, Round3(shared / |tb| as real), LexicalSubset)
    else if jac >= 0.5 then Verdict(Supports, Round3(jac), LexicalSimilarity)
    else if jac < 0.25 then Verdict(Unrelated, Round3(1.0 - jac), LexicalSimilarity)
    else Verdict(Unrelated, 0.5, LexicalSimilarity)
  }

  // ---------------------------------------------------------------- swapping the claims

  function Turned(r: Relation): Relation {
    match r
    case Narrows => Broadens
    case Broadens => Narrows
    case _ => r
  }

  function Swapped(ctx: Context): Context {
    Context(ctx.secret, ctx.classB, ctx.classA)
  }

  lemma JaccardIsSymmetric(a: set<string>, b: set<string>)
    ensures Jaccard(a, b) == Jaccard(b, a)
  {
    assert a * b == b * a;
    assert a + b == b + a;
  }

  lemma CanonicalClashIsSymmetric(lx: Lexicon, a: string, b: string)
    requires CanonicalClash(lx, a, b)
    ensures CanonicalClash(lx, b, a)
  {
    var i :| 0 <= i < |lx.constraints| && lx.constraints[i].topic(a) && lx.constraints[i].topic(b) &&
      lx.constraints[i].unsafe(a) != lx.constraints[i].unsafe(b);
    assert lx.constraints[i].topic(b) && lx.constraints[i].topic(a);
  }

  lemma PolarityConflictIsSymmetric(lx: Lexicon, a: string, b: string)
    ensures PolarityConflict(lx, a, b) == PolarityConflict(lx, b, a)
  {
    var ta, tb := lx.lex(a).tokens, lx.lex(b).tokens;
    JaccardIsSymmetric(ta, tb);
    assert ta * tb == tb * ta;
  }

  // A non-empty part shares all of itself with the whole, so a subset verdict is always certain.
  lemma SubsetIsCertain(part: set<string>, whole: set<string>)
    requires part != {} && part <= whole
    ensures Round3(|part * whole| as real / |part| as real) == 1.0
    ensures Round3(|whole * part| as real / |part| as real) == 1.0
  {
    assert part * whole == part;
    assert whole * part == part;
    assert |part| as real / |part| as real == 1.0;
  }

  /** Swapping the two claims together with their contexts exchanges NARROWS and BROADENS and changes nothing
  else: not the relation, not the confidence, not the method, whatever the vocabulary and the canonical constraints. */
  lemma ClassifyIsEquivariant(lx: Lexicon, a: string, b: string, ctx: Context)
    ensures
      var v := Classify(lx, a, b, ctx);
      Classify(lx, b, a, Swapped(ctx)) == Verdict(Turned(v.relation), v.confidence, v.how)
  {
    var ta, tb := lx.lex(a).tokens, lx.lex(b).tokens;
    JaccardIsSymmetric(ta, tb);
    PolarityConflictIsSymmetric(lx, a, b);
    if CanonicalClash(lx, a, b) {
      CanonicalClashIsSymmetric(lx, a, b);
    }
    if CanonicalClash(lx, b, a) {
      CanonicalClashIsSymmetric(lx, b, a);
    }
    if ta != {} && ta < tb {
      SubsetIsCertain(ta, tb);
    }
    if tb != {} && tb < ta {
      SubsetIsCertain(tb, ta);
    }
  }

  // ---------------------------------------------------------------- which relation each pair gets

  // The words shared are at least n of every thousand words of the two.
  predicate Overlap(a: set<string>, b: set<string>, n: nat) {
    1000 * |a * b| >= n * |a + b| && a * b != {}
  }

  lemma JaccardIsOverlap(a: set<string>, b: set<string>, n: nat)
    requires n > 0
    ensures Jaccard(a, b) >= n as real / 1000.0 <==> Overlap(a, b, n)
  {
    if a == {} || b == {} {
      assert a * b == {};
    } else {
      var shared, all := |a * b|, |a + b|;
      assert all > 0 by {
        assert a + b != {};
      }
      ShareAtLeast(shared, all, n);
      assert shared == 0 <==> a * b == {};
    }
  }

  lemma ShareAtLeast(shared: nat, all: nat, n: nat)
    requires all > 0 && n > 0
    ensures shared as real / all as real >= n as real / 1000.0 <==> 1000 * shared >= n * all
  {
    var x := shared as real / all as real;
    assert x * all as real == shared as real;
    if x >= n as real / 1000.0 {
      ScaledUp(n as real / 1000.0, x, all as real);
      assert (n as real / 1000.0) * all as real * 1000.0 == n as real * all as real == (n * all) as real;
    } else {
      ScaledLess(x, n as real / 1000.0, all as real);
      assert (n as real / 1000.0) * all as real * 1000.0 == n as real * all as real == (n * all) as real;
    }
  }

  lemma ScaledUp(x: real, y: real, k: real)
    requires x <= y && k > 0.0
    ensures x * k <= y * k
  {
  }

  lemma ScaledLess(x: real, y: real, k: real)
    requires x < y && k > 0.0
    ensures x * k < y * k
  {
  }

  // The claim is negated: by a word, or by a mark in its text.
  ghost predicate Negated(lx: Lexicon, a: string) {
    lx.lex(a).negationMark || exists w :: w in lx.lex(a).tokens && w in lx.negations
  }

  // The claims use different words of one group of antonyms.
  ghost predicate Opposed(lx: Lexicon, a: string, b: string) {
    exists i, x, y, z :: 0 <= i < |lx.antonyms| &&
      {x, y, z} <= lx.antonyms[i] && x in lx.lex(a).tokens && y in lx.lex(b).tokens &&
      (z in lx.lex(a).tokens) != (z in lx.lex(b).tokens)
  }

  // Both claims speak of a thing and each gives it a value of its own, not the same ones.
  ghost predicate DifferentValues(lx: Lexicon, a: string, b: string) {
    var ta, tb := lx.lex(a).tokens, lx.lex(b).tokens;
    && (exists w :: w in ta && w in tb)
    && (exists x :: x in ta && x !in tb && lx.isValue(x))
    && (exists y :: y in tb && y !in ta && lx.isValue(y))
  }

  // One is negated and the other is not, or they use opposed words, or give different values.
  ghost predicate Disagree(lx: Lexicon, a: string, b: string) {
    || (Negated(lx, a) != Negated(lx, b) && Overlap(lx.lex(a).tokens, lx.lex(b).tokens, 300))
    || Opposed(lx, a, b)
    || DifferentValues(lx, a, b)
  }

  lemma NegationIsNegated(lx: Lexicon, a: string)
    ensures HasNegation(lx, lx.lex(a)) <==> Negated(lx, a)
  {
    if w :| w in lx.lex(a).tokens && w in lx.negations {
      assert w in lx.lex(a).tokens * lx.negations;
    }
    if w :| w in lx.lex(a).tokens * lx.negations {
      assert w in lx.lex(a).tokens && w in lx.negations;
    }
  }

  lemma AntonymsOppose(lx: Lexicon, a: string, b: string)
    ensures AntonymConflict(lx, lx.lex(a).tokens, lx.lex(b).tokens) <==> Opposed(lx, a, b)
  {
    var ta, tb := lx.lex(a).tokens, lx.lex(b).tokens;
    if AntonymConflict(lx, ta, tb) {
      var i :| 0 <= i < |lx.antonyms| && ta * lx.antonyms[i] != {} && tb * lx.antonyms[i] != {} &&
        ta * lx.antonyms[i] != tb * lx.antonyms[i];
      var group := lx.antonyms[i];
      var x :| x in ta * group;
      var y :| y in tb * group;
      var z :| (z in ta * group) != (z in tb * group);
      assert {x, y, z} <= lx.antonyms[i] && x in ta && y in tb && (z in ta) != (z in tb);
    }
    if Opposed(lx, a, b) {
      var i, x, y, z :| 0 <= i < |lx.antonyms| && {x, y, z} <= lx.antonyms[i] && x in ta && y in tb &&
        (z in ta) != (z in tb);
      assert x in ta * lx.antonyms[i] && y in tb * lx.antonyms[i];
      assert (z in ta * lx.antonyms[i]) != (z in tb * lx.antonyms[i]);
    }
  }

  lemma ValuesDiffer(lx: Lexicon, a: string, b: string)
    ensures ValueConflict(lx, lx.lex(a).tokens, lx.lex(b).tokens) <==> DifferentValues(lx, a, b)
  {
    var ta, tb := lx.lex(a).tokens, lx.lex(b).tokens;
    var va, vb := Values(lx, ta - tb), Values(lx, tb - ta);
    assert va * vb == {};
    if ValueConflict(lx, ta, tb) {
      var w :| w in ta * tb;
      var x :| x in va;
      var y :| y in vb;
      assert w in ta && w in tb && x in ta && x !in tb && y in tb && y !in ta;
    }
    if DifferentValues(lx, a, b) {
      var w :| w in ta && w in tb;
      var x :| x in ta && x !in tb && lx.isValue(x);
      var y :| y in tb && y !in ta && lx.isValue(y);
      assert w in ta * tb && x in va && y in vb && x !in vb;
    }
  }

  lemma PolarityIsDisagreement(lx: Lexicon, a: string, b: string)
    ensures PolarityConflict(lx, a, b) <==> Disagree(lx, a, b)
  {
    NegationIsNegated(lx, a);
    NegationIsNegated(lx, b);
    AntonymsOppose(lx, a, b);
    ValuesDiffer(lx, a, b);
    JaccardIsOverlap(lx.lex(a).tokens, lx.lex(b).tokens, 300);
  }

  // Neither claim is secret, and they conflict: canonically, or by disagreeing on common ground.
  ghost predicate Conflict(lx: Lexicon, a: string, b: string, ctx: Context) {
    !ctx.secret && (Canonical(lx, a, b, ctx) || OnCommonGround(lx, a, b))
  }

  ghost predicate Canonical(lx: Lexicon, a: string, b: string, ctx: Context) {
    || (exists i :: 0 <= i < |lx.constraints| && lx.constraints[i].topic(a) && lx.constraints[i].topic(b) &&
          lx.constraints[i].unsafe(a) != lx.constraints[i].unsafe(b))
    || ((ctx.classA == SystemCanonical || ctx.classB == SystemCanonical) && Disagree(lx, a, b))
  }

  ghost predicate OnCommonGround(lx: Lexicon, a: string, b: string) {
    lx.lex(a).norm != lx.lex(b).norm && Disagree(lx, a, b) && Overlap(lx.lex(a).tokens, lx.lex(b).tokens, 300)
  }

  // All words of a, of which there are some, and not all words of b.
  ghost predicate PartOf(ta: set<string>, tb: set<string>) {
    (exists w :: w in ta) && (forall w :: w in ta ==> w in tb) && (exists w :: w in tb && w !in ta)
  }

  lemma PartIsSubset(ta: set<string>, tb: set<string>)
    ensures PartOf(ta, tb) <==> ta != {} && tb != {} && ta < tb
  {
    if ta < tb {
      assert !(tb <= ta);
      var w :| w in tb && w !in ta;
    }
  }

  /** Which relation a pair of claims gets is decided by their words. Claims that conflict are called
  CANONICAL_CONFLICT or CONTRADICTS, and no others are. Of the rest the same normal form, or 82 words in 100 in
  common, are the SAME; a part of the other claim NARROWS it, and the whole BROADENS it; half the words in common
  SUPPORTS; and nothing else is related. A secret is related to nothing. */
  lemma RelationsExactly(lx: Lexicon, a: string, b: string, ctx: Context)
    ensures
      var relation := Classify(lx, a, b, ctx).relation;
      var ta, tb := lx.lex(a).tokens, lx.lex(b).tokens;
      var calm := !ctx.secret && !Conflict(lx, a, b, ctx);
      var alike := lx.lex(a).norm == lx.lex(b).norm || Overlap(ta, tb, 820);
      && (relation.CanonicalConflict? <==> !ctx.secret && Canonical(lx, a, b, ctx))
      && (relation.Contradicts? <==> !ctx.secret && !Canonical(lx, a, b, ctx) && OnCommonGround(lx, a, b))
      && (relation.Same? <==> calm && alike)
      && (relation.Narrows? <==> calm && !alike && PartOf(ta, tb))
      && (relation.Broadens? <==> calm && !alike && PartOf(tb, ta))
      && (relation.Supports? <==> calm && !alike && !PartOf(ta, tb) && !PartOf(tb, ta) && Overlap(ta, tb, 500))
  {
    var ta, tb := lx.lex(a).tokens, lx.lex(b).tokens;
    PolarityIsDisagreement(lx, a, b);
    JaccardIsOverlap(ta, tb, 300);
    JaccardIsOverlap(ta, tb, 820);
    JaccardIsOverlap(ta, tb, 500);
    PartIsSubset(ta, tb);
    PartIsSubset(tb, ta);
  }

  // ---------------------------------------------------------------- what a verdict is good for

  // x written with three decimals.
  predicate Written(x: real, y: real) {
    -0.0005 <= x - y <= 0.0005
  }

  lemma ShareRounds(jac: real)
    requires 0.0 <= jac <= 1.0
    ensures Written(Round3(jac), jac)
    ensures if jac >= 0.82 then Round3(jac) >= 0.82 else Round3(jac) <= 0.82
    ensures jac >= 0.5 ==> Round3(jac) >= 0.5
  {
    Round3Near(jac);
    if jac >= 0.82 {
      Round3AtLeast(jac, 820);
    } else {
      Round3AtMost(jac, 820);
    }
    if jac >= 0.5 {
      Round3AtLeast(jac, 500);
    }
  }

  lemma ContradictionRounds(jac: real)
    requires 0.3 <= jac <= 1.0
    ensures Written(Round3(0.6 + 0.3 * jac), 0.6 + 0.3 * jac) && 0.69 <= Round3(0.6 + 0.3 * jac) <= 0.9
  {
    Round3Near(0.6 + 0.3 * jac);
    Round3AtLeast(0.6 + 0.3 * jac, 690);
    Round3AtMost(0.6 + 0.3 * jac, 900);
  }

  lemma DifferenceRounds(jac: real)
    requires 0.0 <= jac < 0.25
    ensures Written(Round3(1.0 - jac), 1.0 - jac) && Round3(1.0 - jac) >= 0.75
  {
    Round3Near(1.0 - jac);
    Round3AtLeast(1.0 - jac, 750);
  }

  // What the confidence of a relation can be, given how much the claims share, and how it was arrived at.
  predicate Fits(v: Verdict, secret: bool, shared: real) {
    match v.relation
    case CanonicalConflict => v.confidence == 0.99 && v.how == DeterministicCanonical
    case Contradicts =>
      0.69 <= v.confidence <= 0.9 && Written(v.confidence, 0.6 + 0.3 * shared) && v.how == DeterministicPolarity
    case Narrows => v.confidence == 1.0 && v.how == LexicalSubset
    case Broadens => v.confidence == 1.0 && v.how == LexicalSubset
    case Same =>
      if v.how == DeterministicExact then v.confidence == 1.0
      else v.how == LexicalSimilarity && v.confidence >= 0.82 && Written(v.confidence, shared)
    case Supports => 0.5 <= v.confidence <= 0.82 && Written(v.confidence, shared) && v.how == LexicalSimilarity
    case Unrelated =>
      if secret then v.confidence == 0.0 && v.how == SecretGuard
      else if shared >= 0.25 then v.confidence == 0.5 && v.how == LexicalSimilarity
      else v.confidence >= 0.75 && Written(v.confidence, 1.0 - shared) && v.how == LexicalSimilarity
  }

  /** How sure each relation is: what is decided by rule is certain or nearly so; a contradiction lies between 0.69 and
  0.9, by how much the claims share; likeness is as sure as the claims are alike. */
  lemma ConfidenceFits(lx: Lexicon, a: string, b: string, ctx: Context)
    ensures Fits(Classify(lx, a, b, ctx), ctx.secret, Jaccard(lx.lex(a).tokens, lx.lex(b).tokens))
    ensures Classify(lx, a, b, ctx).relation.Same? ==>
      (Classify(lx, a, b, ctx).how == DeterministicExact <==> lx.lex(a).norm == lx.lex(b).norm)
  {
    var ta, tb := lx.lex(a).tokens, lx.lex(b).tokens;
    var jac := Jaccard(ta, tb);
    ShareRounds(jac);
    if jac >= 0.3 {
      ContradictionRounds(jac);
    }
    if jac < 0.25 {
      DifferenceRounds(jac);
    }
    if ta != {} && ta < tb {
      SubsetIsCertain(ta, tb);
    }
    if tb != {} && tb < ta {
      SubsetIsCertain(tb, ta);
    }
  }

  /** Every verdict that links two claims is held with confidence at least one half. */
  lemma LinkingConfidenceFloor(lx: Lexicon, a: string, b: string, ctx: Context)
    ensures
      var v := Classify(lx, a, b, ctx);
      !v.relation.Unrelated? ==> v.confidence >= 0.5
  {
    var ta, tb := lx.lex(a).tokens, lx.lex(b).tokens;
    var jac := Jaccard(ta, tb);
    if jac >= 0.5 {
      Round3AtLeast(jac, 500);
    }
    Round3AtLeast(0.6 + 0.3 * jac, 600);
    if ta != {} && ta < tb {
      SubsetIsCertain(ta, tb);
    }
    if tb != {} && tb < ta {
      SubsetIsCertain(tb, ta);
    }
  }
}
