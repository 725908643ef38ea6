/** Delivery: learned style preferences may shorten a draft, never lose a truth line or invent one. The regular
expressions and marker lists are arbitrary predicates on lines. */
module Expression {
  import opened Text

  datatype Style = Style(
    uncertain: string -> bool, source: string -> bool,
    plan: string -> bool, preamble: string -> bool, english: string -> bool)

  datatype Kind = NoAbstractPlans | Direct | Romanian | OtherKind(name: string)

  predicate IsTruth(st: Style, line: string) {
    st.uncertain(line) || st.source(line)
  }

  // A line that delivery must not lose.
  predicate MustKeep(st: Style, line: string) {
    Trim(line) != "" && IsTruth(st, line)
  }

  // ---------------------------------------------------------------- the transforms on lines

  function WithoutPlans(st: Style, ls: seq<string>): seq<string> {
    if ls == [] then []
    else
      var n := |ls| - 1;
      WithoutPlans(st, ls[..n]) + (if IsTruth(st, ls[n]) || !st.plan(ls[n]) then [ls[n]] else [])
  }

  function IndexOfColon(s: string): (i: nat)
    ensures i <= |s|
    ensures forall j :: 0 <= j < i ==> s[j] != ':'
    ensures i < |s| ==> s[i] == ':'
  {
    if s == "" then 0 else if s[0] == ':' then 0 else 1 + IndexOfColon(s[1..])
  }

  function AfterColon(s: string): string {
    var i := IndexOfColon(s);
    if i < |s| then Trim(s[i + 1..]) else ""
  }

  predicate IsPreamble(st: Style, line: string, i: nat) {
    i < 2 && st.preamble(line) && !IsTruth(st, line)
  }

  function DirectLines(st: Style, ls: seq<string>): seq<string> {
    if ls == [] then []
    else
      var n := |ls| - 1;
      DirectLines(st, ls[..n]) +
      (if !IsPreamble(st, ls[n], n) then [ls[n]]
       else if AfterColon(ls[n]) != "" then [AfterColon(ls[n])]
       else [])
  }

  function WithoutEnglish(st: Style, ls: seq<string>): seq<string> {
    if ls != [] && st.english(ls[0]) && !IsTruth(st, ls[0]) then ls[1..] else ls
  }

  // ---------------------------------------------------------------- condensing

  /** out condenses draft: its lines come from lines of the draft, in order, each contained in its own, and no truth
  line of the draft is missing or changed. */
  ghost predicate Condenses(st: Style, out: seq<string>, draft: seq<string>) {
    if draft == [] then out == []
    else if MustKeep(st, draft[0]) then out != [] && out[0] == draft[0] && Condenses(st, out[1..], draft[1..])
    else
      || Condenses(st, out, draft[1..])
      || (out != [] && Contains(draft[0], out[0]) && Condenses(st, out[1..], draft[1..]))
  }

  lemma ContainsItself(s: string)
    ensures Contains(s, s)
  {
    SuffixContained(s, 0);
    assert s[0..] == s;
  }

  lemma {:induction false} CondensesReflexive(st: Style, ls: seq<string>)
    ensures Condenses(st, ls, ls)
  {
    if ls != [] {
      CondensesReflexive(st, ls[1..]);
      ContainsItself(ls[0]);
    }
  }

  lemma {:induction false} CondensesTransitive(st: Style, c: seq<string>, b: seq<string>, a: seq<string>)
    requires Condenses(st, c, b) && Condenses(st, b, a)
    ensures Condenses(st, c, a)
    decreases |a|, |b|
  {
    if a == [] {
    } else if MustKeep(st, a[0]) {
      CondensesTransitive(st, c[1..], b[1..], a[1..]);
    } else if Condenses(st, b, a[1..]) {
      CondensesTransitive(st, c, b, a[1..]);
    } else if MustKeep(st, b[0]) {
      CondensesTransitive(st, c[1..], b[1..], a[1..]);
    } else if Condenses(st, c, b[1..]) {
      CondensesTransitive(st, c, b[1..], a[1..]);
    } else {
      ContainsTrans(a[0], b[0], c[0]);
      CondensesTransitive(st, c[1..], b[1..], a[1..]);
    }
  }

  lemma {:induction false} CondensesSnoc(st: Style, out: seq<string>, draft: seq<string>, more: seq<string>,
                                         line: string)
    requires Condenses(st, out, draft)
    requires more == [line] || (!MustKeep(st, line) && (more == [] || (|more| == 1 && Contains(line, more[0]))))
    ensures Condenses(st, out + more, draft + [line])
  {
    var out', draft' := out + more, draft + [line];
    if draft == [] {
      ContainsItself(line);
      assert draft' == [line] && draft'[1..] == [] && out' == more;
      assert more != [] ==> more[1..] == [];
      assert Condenses(st, [], []);
    } else {
      assert draft'[0] == draft[0] && draft'[1..] == draft[1..] + [line];
      if MustKeep(st, draft[0]) {
        CondensesSnoc(st, out[1..], draft[1..], more, line);
        assert out'[1..] == out[1..] + more;
      } else if Condenses(st, out, draft[1..]) {
        CondensesSnoc(st, out, draft[1..], more, line);
      } else {
        CondensesSnoc(st, out[1..], draft[1..], more, line);
        assert out'[1..] == out[1..] + more;
      }
    }
  }

  lemma {:induction false} WithoutPlansCondenses(st: Style, ls: seq<string>)
    ensures Condenses(st, WithoutPlans(st, ls), ls)
  {
    if ls != [] {
      var n := |ls| - 1;
      WithoutPlansCondenses(st, ls[..n]);
      CondensesSnoc(st, WithoutPlans(st, ls[..n]), ls[..n],
                    if IsTruth(st, ls[n]) || !st.plan(ls[n]) then [ls[n]] else [], ls[n]);
      assert ls[..n] + [ls[n]] == ls;
    }
  }

  lemma AfterColonContained(s: string)
    ensures Contains(s, AfterColon(s))
  {
    var i := IndexOfColon(s);
    if i < |s| {
      SuffixContained(s, i + 1);
      TrimContained(s[i + 1..]);
      ContainsTrans(s, s[i + 1..], AfterColon(s));
    } else {
      PrefixContained(s, 0);
    }
  }

  lemma {:induction false} DirectCondenses(st: Style, ls: seq<string>)
    ensures Condenses(st, DirectLines(st, ls), ls)
  {
    if ls != [] {
      var n := |ls| - 1;
      DirectCondenses(st, ls[..n]);
      AfterColonContained(ls[n]);
      var more :=
        if !IsPreamble(st, ls[n], n) then [ls[n]]
        else if AfterColon(ls[n]) != "" then [AfterColon(ls[n])]
        else [];
      CondensesSnoc(st, DirectLines(st, ls[..n]), ls[..n], more, ls[n]);
      assert ls[..n] + [ls[n]] == ls;
    }
  }

  lemma WithoutEnglishCondenses(st: Style, ls: seq<string>)
    ensures Condenses(st, WithoutEnglish(st, ls), ls)
  {
    CondensesReflexive(st, ls);
    if ls != [] {
      CondensesReflexive(st, ls[1..]);
    }
  }

  lemma DroppingLastEmpty(st: Style, ls: seq<string>)
    requires ls != [] && ls[|ls| - 1] == ""
    ensures Condenses(st, ls[..|ls| - 1], ls)
  {
    var front := ls[..|ls| - 1];
    CondensesReflexive(st, front);
    CondensesSnoc(st, front, front, [], "");
    assert front + [] == front && front + [""] == ls;
  }

  lemma {:induction false} CondensedAreLines(st: Style, out: seq<string>, draft: seq<string>)
    requires Condenses(st, out, draft) && AllLines(draft)
    ensures AllLines(out)
  {
    if draft != [] {
      if MustKeep(st, draft[0]) {
        CondensedAreLines(st, out[1..], draft[1..]);
      } else if Condenses(st, out, draft[1..]) {
        CondensedAreLines(st, out, draft[1..]);
      } else {
        CondensedAreLines(st, out[1..], draft[1..]);
      }
    }
  }

  // A text condenses the draft when its lines do.
  ghost predicate Keeps(st: Style, text: string, draft: string) {
    Condenses(st, Lines(text), Lines(draft))
  }

  // One transform on lines, back as a text.
  lemma TransformKeeps(st: Style, text: string, ls: seq<string>, draft: string)
    requires Keeps(st, text, draft) && Condenses(st, ls, Lines(text))
    ensures Keeps(st, Join(ls), draft)
  {
    LinesAreLines(text);
    CondensedAreLines(st, ls, Lines(text));
    LinesJoin(ls);
    if ls != [] && ls[|ls| - 1] == "" {
      DroppingLastEmpty(st, ls);
      CondensesTransitive(st, ls[..|ls| - 1], ls, Lines(text));
    }
    CondensesTransitive(st, Lines(Join(ls)), Lines(text), Lines(draft));
  }

  // ---------------------------------------------------------------- the safety net is never needed

  lemma {:induction false} TruthSurvives(st: Style, out: seq<string>, draft: seq<string>, i: nat) returns (j: nat)
    requires Condenses(st, out, draft) && i < |draft| && MustKeep(st, draft[i])
    ensures j < |out| && out[j] == draft[i]
  {
    if MustKeep(st, draft[0]) {
      if i == 0 {
        j := 0;
      } else {
        j := TruthSurvives(st, out[1..], draft[1..], i - 1);
        j := j + 1;
      }
    } else if Condenses(st, out, draft[1..]) {
      j := TruthSurvives(st, out, draft[1..], i - 1);
    } else {
      j := TruthSurvives(st, out[1..], draft[1..], i - 1);
      j := j + 1;
    }
  }

  lemma TruthIsThere(st: Style, text: string, draft: string, i: nat)
    requires Keeps(st, text, draft) && i < |Lines(draft)| && MustKeep(st, Lines(draft)[i])
    ensures Contains(text, Trim(Lines(draft)[i]))
  {
    var j := TruthSurvives(st, Lines(text), Lines(draft), i);
    LineContained(text, j);
    TrimContained(Lines(draft)[i]);
    ContainsTrans(text, Lines(draft)[i], Trim(Lines(draft)[i]));
  }

  // ---------------------------------------------------------------- what is delivered

  /** What a reader sees of the output against the draft: every truth line trimmed, in order; and nothing that is
  not part of one draft line, in the draft's order. */
  ghost predicate Delivers(st: Style, shown: seq<string>, draft: seq<string>) {
    if draft == [] then shown == []
    else if MustKeep(st, draft[0]) then
      shown != [] && shown[0] == Trim(draft[0]) && Delivers(st, shown[1..], draft[1..])
    else
      || Delivers(st, shown, draft[1..])
      || (shown != [] && Contains(draft[0], shown[0]) && Delivers(st, shown[1..], draft[1..]))
  }

  lemma {:induction false} CondensedDelivers(st: Style, out: seq<string>, draft: seq<string>)
    requires Condenses(st, out, draft)
    ensures Delivers(st, Content(out), draft)
  {
    if draft == [] {
    } else if MustKeep(st, draft[0]) {
      CondensedDelivers(st, out[1..], draft[1..]);
      assert Content(out)[1..] == Content(out[1..]);
    } else if Condenses(st, out, draft[1..]) {
      CondensedDelivers(st, out, draft[1..]);
    } else {
      CondensedDelivers(st, out[1..], draft[1..]);
      if Trim(out[0]) == "" {
        assert Content(out) == Content(out[1..]);
      } else {
        TrimContained(out[0]);
        ContainsTrans(draft[0], out[0], Trim(out[0]));
        assert Content(out)[1..] == Content(out[1..]);
      }
    }
  }

  function TruthLines(st: Style, ls: seq<string>): seq<string> {
    if ls == [] then [] else (if MustKeep(st, ls[0]) then [Trim(ls[0])] else []) + TruthLines(st, ls[1..])
  }

  ghost predicate IsSubsequence(xs: seq<string>, ys: seq<string>) {
    if xs == [] then true
    else ys != [] && ((xs[0] == ys[0] && IsSubsequence(xs[1..], ys[1..])) || IsSubsequence(xs, ys[1..]))
  }

  /** No truth line is lost or reordered. */
  lemma {:induction false} DeliveryKeepsTruth(st: Style, shown: seq<string>, draft: seq<string>)
    requires Delivers(st, shown, draft)
    ensures IsSubsequence(TruthLines(st, draft), shown)
  {
    if draft != [] {
      if MustKeep(st, draft[0]) {
        DeliveryKeepsTruth(st, shown[1..], draft[1..]);
        assert TruthLines(st, draft)[1..] == TruthLines(st, draft[1..]);
      } else {
        assert TruthLines(st, draft) == TruthLines(st, draft[1..]);
        if Delivers(st, shown, draft[1..]) {
          DeliveryKeepsTruth(st, shown, draft[1..]);
        } else {
          DeliveryKeepsTruth(st, shown[1..], draft[1..]);
        }
      }
    }
  }

  /** Nothing is invented: every line shown is part of one line of the draft. */
  lemma {:induction false} DeliveryInventsNothing(st: Style, shown: seq<string>, draft: seq<string>,
                                                  j: nat) returns (i: nat)
    requires Delivers(st, shown, draft) && j < |shown|
    ensures i < |draft| && Contains(draft[i], shown[j])
  {
    if MustKeep(st, draft[0]) {
      TrimContained(draft[0]);
      if j == 0 {
        return 0;
      }
      i := DeliveryInventsNothing(st, shown[1..], draft[1..], j - 1);
      i := i + 1;
    } else if Delivers(st, shown, draft[1..]) {
      i := DeliveryInventsNothing(st, shown, draft[1..], j);
      i := i + 1;
    } else {
      if j == 0 {
        return 0;
      }
      i := DeliveryInventsNothing(st, shown[1..], draft[1..], j - 1);
      i := i + 1;
    }
  }

  // ---------------------------------------------------------------- what each transform leaves

  // out is what is left of ls when only the lines with keep are left.
  ghost predicate LeftOf(out: seq<string>, ls: seq<string>, keep: string -> bool) {
    if ls == [] then out == []
    else if keep(ls[0]) then out != [] && out[0] == ls[0] && LeftOf(out[1..], ls[1..], keep)
    else LeftOf(out, ls[1..], keep)
  }

  lemma {:induction false} LeftSnoc(out: seq<string>, ls: seq<string>, keep: string -> bool, line: string)
    requires LeftOf(out, ls, keep)
    ensures LeftOf(if keep(line) then out + [line] else out, ls + [line], keep)
  {
    var out' := if keep(line) then out + [line] else out;
    if ls == [] {
      assert ([] + [line])[1..] == [];
    } else {
      assert (ls + [line])[1..] == ls[1..] + [line];
      if keep(ls[0]) {
        LeftSnoc(out[1..], ls[1..], keep, line);
        assert out'[1..] == if keep(line) then out[1..] + [line] else out[1..];
      } else {
        LeftSnoc(out, ls[1..], keep, line);
      }
    }
  }

  // A line that is no plan, or is a truth line.
  function Unplanned(st: Style): string -> bool {
    line => st.uncertain(line) || st.source(line) || !st.plan(line)
  }

  /** Without plans exactly the truth lines and the lines that are no plans are left. */
  lemma {:induction false} PlansExactly(st: Style, ls: seq<string>)
    ensures LeftOf(WithoutPlans(st, ls), ls, Unplanned(st))
  {
    if ls != [] {
      var n := |ls| - 1;
      var before := WithoutPlans(st, ls[..n]);
      PlansExactly(st, ls[..n]);
      LeftSnoc(before, ls[..n], Unplanned(st), ls[n]);
      assert ls[..n] + [ls[n]] == ls && before + [] == before;
    }
  }

  /** What follows the first colon, trimmed; nothing if there is no colon. */
  lemma AfterColonIs(head: string, rest: string)
    requires ':' !in head
    ensures AfterColon(head + ":" + rest) == Trim(rest)
    ensures AfterColon(head) == ""
  {
    var s := head + ":" + rest;
    var i := IndexOfColon(s);
    forall k | 0 <= k < |head| ensures head[k] != ':' {
      assert head[k] in head;
    }
    assert s[|head|] == ':';
    assert forall k :: 0 <= k < |head| ==> s[k] == head[k];
    assert i == |head|;
    assert s[i + 1..] == rest;
  }

  // A preamble that is no truth line is cut to what follows its colon; any other line stays.
  function CutPreamble(st: Style, line: string): seq<string> {
    if st.uncertain(line) || st.source(line) || !st.preamble(line) then [line]
    else if AfterColon(line) == "" then [] else [AfterColon(line)]
  }

  /** Made direct, the first two lines are cut if they are preamble, and from the third on every line stays. */
  lemma {:induction false} DirectExactly(st: Style, ls: seq<string>)
    ensures DirectLines(st, ls) ==
      (if |ls| > 0 then CutPreamble(st, ls[0]) else []) +
      (if |ls| > 1 then CutPreamble(st, ls[1]) else []) +
      (if |ls| > 2 then ls[2..] else [])
  {
    if ls != [] {
      var n := |ls| - 1;
      DirectExactly(st, ls[..n]);
      if n > 2 {
        assert ls[2..] == ls[..n][2..] + [ls[n]];
      }
    }
  }

  /** Of English preamble only a first line goes, and only one that is no truth line. */
  lemma EnglishExactly(st: Style, ls: seq<string>)
    ensures
      var goes := ls != [] && st.english(ls[0]) && !st.uncertain(ls[0]) && !st.source(ls[0]);
      WithoutEnglish(st, ls) == ls[if goes then 1 else 0..]
  {
  }

  // ---------------------------------------------------------------- what is shown, line by line

  // The lines after all the transforms that were learned.
  function Transformed(st: Style, kinds: set<Kind>, ls: seq<string>): seq<string> {
    var a := if NoAbstractPlans in kinds then WithoutPlans(st, ls) else ls;
    var b := if Direct in kinds then DirectLines(st, a) else a;
    if Romanian in kinds then WithoutEnglish(st, b) else b
  }

  // What of them there is to read; if nothing, the draft is shown as it is.
  function Delivered(st: Style, kinds: set<Kind>, ls: seq<string>): seq<string> {
    var shown := Content(Transformed(st, kinds, ls));
    if shown == [] then Content(ls) else shown
  }

  // None of the learned kinds has anything against the line.
  predicate Unmatched(st: Style, kinds: set<Kind>, line: string) {
    st.uncertain(line) || st.source(line) ||
    !((NoAbstractPlans in kinds && st.plan(line)) || (Direct in kinds && st.preamble(line)) ||
      (Romanian in kinds && st.english(line)))
  }

  // The unmatched lines there are to read.
  function UnmatchedLines(st: Style, kinds: set<Kind>, ls: seq<string>): seq<string> {
    if ls == [] then []
    else (if Unmatched(st, kinds, ls[0]) then Shown(ls[0]) else []) + UnmatchedLines(st, kinds, ls[1..])
  }

  lemma {:induction false} UnmatchedConcat(st: Style, kinds: set<Kind>, a: seq<string>, b: seq<string>)
    ensures UnmatchedLines(st, kinds, a + b) == UnmatchedLines(st, kinds, a) + UnmatchedLines(st, kinds, b)
  {
    if a == [] {
      assert a + b == b;
    } else {
      UnmatchedConcat(st, kinds, a[1..], b);
      assert (a + b)[1..] == a[1..] + b && (a + b)[0] == a[0];
    }
  }

  // A list of at most one line more or less takes nothing from those before it.
  lemma {:induction false} SubsequencePrepend(xs: seq<string>, ys: seq<string>, zs: seq<string>)
    requires IsSubsequence(xs, ys)
    ensures IsSubsequence(xs, zs + ys)
  {
    if zs == [] {
      assert zs + ys == ys;
    } else {
      SubsequencePrepend(xs, ys, zs[1..]);
      assert (zs + ys)[1..] == zs[1..] + ys;
    }
  }

  lemma SubsequenceBoth(x: seq<string>, xs: seq<string>, ys: seq<string>)
    requires |x| <= 1 && IsSubsequence(xs, ys)
    ensures IsSubsequence(x + xs, x + ys)
  {
    if x == [] {
      assert x + xs == xs && x + ys == ys;
    } else {
      assert (x + xs)[1..] == xs && (x + ys)[1..] == ys;
    }
  }

  lemma {:induction false} SubsequenceSelf(xs: seq<string>)
    ensures IsSubsequence(xs, xs)
  {
    if xs != [] {
      SubsequenceSelf(xs[1..]);
    }
  }

  lemma {:induction false} SubsequenceTransitive(xs: seq<string>, ys: seq<string>, zs: seq<string>)
    requires IsSubsequence(xs, ys) && IsSubsequence(ys, zs)
    ensures IsSubsequence(xs, zs)
    decreases |zs|
  {
    if xs == [] {
    } else if ys[0] == zs[0] && IsSubsequence(ys[1..], zs[1..]) {
      if xs[0] == ys[0] && IsSubsequence(xs[1..], ys[1..]) {
        SubsequenceTransitive(xs[1..], ys[1..], zs[1..]);
      } else {
        SubsequenceTransitive(xs, ys[1..], zs[1..]);
      }
    } else {
      SubsequenceTransitive(xs, ys, zs[1..]);
    }
  }

  lemma {:induction false} PlansKeepUnmatched(st: Style, kinds: set<Kind>, out: seq<string>, ls: seq<string>)
    requires NoAbstractPlans in kinds && LeftOf(out, ls, Unplanned(st))
    ensures UnmatchedLines(st, kinds, ls) == UnmatchedLines(st, kinds, out)
  {
    if ls != [] {
      if Unplanned(st)(ls[0]) {
        PlansKeepUnmatched(st, kinds, out[1..], ls[1..]);
      } else {
        PlansKeepUnmatched(st, kinds, out, ls[1..]);
      }
    }
  }

  lemma CutKeepsUnmatched(st: Style, kinds: set<Kind>, line: string, rest: seq<string>, rest': seq<string>)
    requires Direct in kinds
    requires IsSubsequence(UnmatchedLines(st, kinds, rest), UnmatchedLines(st, kinds, rest'))
    ensures IsSubsequence(UnmatchedLines(st, kinds, [line] + rest),
                          UnmatchedLines(st, kinds, CutPreamble(st, line) + rest'))
  {
    var cut, us, us' := CutPreamble(st, line), UnmatchedLines(st, kinds, rest), UnmatchedLines(st, kinds, rest');
    UnmatchedConcat(st, kinds, [line], rest);
    UnmatchedConcat(st, kinds, cut, rest');
    var own := UnmatchedLines(st, kinds, [line]);
    assert [line][1..] == [];
    if cut == [line] {
      SubsequenceBoth(own, us, us');
    } else {
      assert own == [] && own + us == us;
      SubsequencePrepend(us, us', UnmatchedLines(st, kinds, cut));
    }
  }

  // The lines from the second on, made direct.
  function Later(st: Style, ls: seq<string>): seq<string>
    requires ls != []
  {
    if |ls| == 1 then [] else CutPreamble(st, ls[1]) + ls[2..]
  }

  lemma DirectSplits(st: Style, ls: seq<string>)
    requires ls != []
    ensures DirectLines(st, ls) == CutPreamble(st, ls[0]) + Later(st, ls)
  {
    DirectExactly(st, ls);
  }

  lemma LaterKeepUnmatched(st: Style, kinds: set<Kind>, ls: seq<string>)
    requires Direct in kinds && ls != []
    ensures IsSubsequence(UnmatchedLines(st, kinds, ls[1..]), UnmatchedLines(st, kinds, Later(st, ls)))
  {
    if |ls| > 1 {
      SubsequenceSelf(UnmatchedLines(st, kinds, ls[2..]));
      CutKeepsUnmatched(st, kinds, ls[1], ls[2..], ls[2..]);
      assert ls[1..] == [ls[1]] + ls[2..];
    }
  }

  lemma DirectKeepsUnmatched(st: Style, kinds: set<Kind>, ls: seq<string>)
    requires Direct in kinds
    ensures IsSubsequence(UnmatchedLines(st, kinds, ls), UnmatchedLines(st, kinds, DirectLines(st, ls)))
  {
    if ls != [] {
      DirectSplits(st, ls);
      LaterKeepUnmatched(st, kinds, ls);
      CutKeepsUnmatched(st, kinds, ls[0], ls[1..], Later(st, ls));
      assert ls == [ls[0]] + ls[1..];
    }
  }

  lemma EnglishKeepsUnmatched(st: Style, kinds: set<Kind>, ls: seq<string>)
    requires Romanian in kinds
    ensures UnmatchedLines(st, kinds, WithoutEnglish(st, ls)) == UnmatchedLines(st, kinds, ls)
  {
  }

  lemma {:induction false} UnmatchedAreContent(st: Style, kinds: set<Kind>, ls: seq<string>)
    ensures IsSubsequence(UnmatchedLines(st, kinds, ls), Content(ls))
  {
    if ls != [] {
      UnmatchedAreContent(st, kinds, ls[1..]);
      if Unmatched(st, kinds, ls[0]) {
        SubsequenceBoth(Shown(ls[0]), UnmatchedLines(st, kinds, ls[1..]), Content(ls[1..]));
      } else {
        SubsequencePrepend(UnmatchedLines(st, kinds, ls[1..]), Content(ls[1..]), Shown(ls[0]));
        assert [] + UnmatchedLines(st, kinds, ls[1..]) == UnmatchedLines(st, kinds, ls[1..]);
      }
    }
  }

  lemma TransformedKeepsUnmatched(st: Style, kinds: set<Kind>, ls: seq<string>)
    ensures IsSubsequence(UnmatchedLines(st, kinds, ls), UnmatchedLines(st, kinds, Transformed(st, kinds, ls)))
  {
    var a := if NoAbstractPlans in kinds then WithoutPlans(st, ls) else ls;
    var b := if Direct in kinds then DirectLines(st, a) else a;
    if NoAbstractPlans in kinds {
      PlansExactly(st, ls);
      PlansKeepUnmatched(st, kinds, a, ls);
    }
    SubsequenceSelf(UnmatchedLines(st, kinds, a));
    if Direct in kinds {
      DirectKeepsUnmatched(st, kinds, a);
    }
    if Romanian in kinds {
      EnglishKeepsUnmatched(st, kinds, b);
    }
  }

  /** What no learned kind has anything against is shown: every such line there is to read, in order. */
  lemma UnmatchedAreShown(st: Style, kinds: set<Kind>, ls: seq<string>)
    ensures IsSubsequence(UnmatchedLines(st, kinds, ls), Delivered(st, kinds, ls))
  {
    var lines := Transformed(st, kinds, ls);
    TransformedKeepsUnmatched(st, kinds, ls);
    UnmatchedAreContent(st, kinds, lines);
    UnmatchedAreContent(st, kinds, ls);
    SubsequenceTransitive(UnmatchedLines(st, kinds, ls), UnmatchedLines(st, kinds, lines), Content(lines));
  }

  // The shown line is a draft line, or what Direct left of one, and no plan was learned against that line.
  predicate ComesFrom(st: Style, kinds: set<Kind>, shown: string, line: string) {
    && (shown == Trim(line) || (Direct in kinds && st.preamble(line) && shown == AfterColon(line)))
    && (NoAbstractPlans in kinds ==> Unplanned(st)(line))
  }

  lemma {:induction false} ContentComesFrom(ls: seq<string>, j: nat) returns (i: nat)
    requires j < |Content(ls)|
    ensures i < |ls| && Content(ls)[j] == Trim(ls[i])
  {
    var own := |Shown(ls[0])|;
    if j < own {
      i := 0;
    } else {
      i := ContentComesFrom(ls[1..], j - own);
      i := i + 1;
    }
  }

  lemma {:induction false} LeftComesFrom(out: seq<string>, ls: seq<string>, keep: string -> bool, j: nat)
    returns (i: nat)
    requires LeftOf(out, ls, keep) && j < |out|
    ensures i < |ls| && ls[i] == out[j] && keep(ls[i])
  {
    if keep(ls[0]) && j == 0 {
      i := 0;
    } else {
      i := LeftComesFrom(if keep(ls[0]) then out[1..] else out, ls[1..], keep, if keep(ls[0]) then j - 1 else j);
      i := i + 1;
    }
  }

  // Made direct, a line is one of the lines or what is left of a preamble.
  predicate CutFrom(st: Style, x: string, line: string) {
    x == line || (st.preamble(line) && x == AfterColon(line))
  }

  lemma DirectComesFrom(st: Style, ls: seq<string>, j: nat) returns (i: nat)
    requires j < |DirectLines(st, ls)|
    ensures i < |ls| && CutFrom(st, DirectLines(st, ls)[j], ls[i])
  {
    DirectExactly(st, ls);
    var first := if |ls| > 0 then CutPreamble(st, ls[0]) else [];
    var second := if |ls| > 1 then CutPreamble(st, ls[1]) else [];
    if j < |first| {
      i := 0;
    } else if j < |first| + |second| {
      i := 1;
    } else {
      i := j - |first| - |second| + 2;
      assert ls[2..][i - 2] == ls[i];
    }
  }

  lemma AfterColonIsTrim(line: string)
    ensures Trim(AfterColon(line)) == AfterColon(line)
  {
    var i := IndexOfColon(line);
    if i < |line| {
      TrimIsIdempotent(line[i + 1..]);
    }
  }

  lemma TrimIsIdempotent(s: string)
    ensures Trim(Trim(s)) == Trim(s)
  {
    TrimEnds(s);
  }

  // Where the lines stand before English preamble is dropped.
  lemma EnglishComesFrom(st: Style, kinds: set<Kind>, ls: seq<string>, k: nat) returns (m: nat)
    requires k < |if Romanian in kinds then WithoutEnglish(st, ls) else ls|
    ensures m < |ls| && ls[m] == (if Romanian in kinds then WithoutEnglish(st, ls) else ls)[k]
  {
    EnglishExactly(st, ls);
    m := if Romanian in kinds && WithoutEnglish(st, ls) != ls then k + 1 else k;
  }

  lemma CutIsShown(st: Style, kinds: set<Kind>, x: string, line: string)
    requires x == line || (Direct in kinds && CutFrom(st, x, line))
    requires NoAbstractPlans in kinds ==> Unplanned(st)(line)
    ensures ComesFrom(st, kinds, Trim(x), line)
  {
    AfterColonIsTrim(line);
  }

  lemma LineComesFrom(st: Style, kinds: set<Kind>, ls: seq<string>, k: nat) returns (i: nat)
    requires k < |Transformed(st, kinds, ls)|
    ensures i < |ls| && ComesFrom(st, kinds, Trim(Transformed(st, kinds, ls)[k]), ls[i])
  {
    var a := if NoAbstractPlans in kinds then WithoutPlans(st, ls) else ls;
    var b := if Direct in kinds then DirectLines(st, a) else a;
    var j := EnglishComesFrom(st, kinds, b, k);
    var m := j;
    if Direct in kinds {
      m := DirectComesFrom(st, a, j);
    }
    i := m;
    if NoAbstractPlans in kinds {
      PlansExactly(st, ls);
      i := LeftComesFrom(a, ls, Unplanned(st), m);
    }
    CutIsShown(st, kinds, b[j], ls[i]);
  }

  /** And nothing else is: under NoAbstractPlans no shown line comes from a plan that is no truth line, and only Direct
  shows less than a whole line. The draft itself is shown only if nothing would be left of it. */
  lemma ShownComesFrom(st: Style, kinds: set<Kind>, ls: seq<string>, j: nat) returns (i: nat)
    requires Content(Transformed(st, kinds, ls)) != [] && j < |Delivered(st, kinds, ls)|
    ensures i < |ls| && ComesFrom(st, kinds, Delivered(st, kinds, ls)[j], ls[i])
  {
    var k := ContentComesFrom(Transformed(st, kinds, ls), j);
    i := LineComesFrom(st, kinds, ls, k);
  }

  /** The transforms go in turn. Preamble is looked for among the first two lines that are no plans, and English in the
  first line that is left of those: a plan in front of a preamble does not shield it, nor a preamble an English line. */
  lemma TransformsGoInTurn(st: Style, plan: string, line: string, preamble: string, english: string)
    requires st.plan(plan) && !IsTruth(st, plan) && !st.plan(line) && !st.preamble(line)
    requires st.preamble(preamble) && !IsTruth(st, preamble) && !st.plan(preamble) && AfterColon(preamble) == ""
    requires st.english(english) && !IsTruth(st, english) && !st.preamble(english)
    ensures Transformed(st, {NoAbstractPlans, Direct}, [plan, line, preamble]) == [line]
    ensures Transformed(st, {Direct, Romanian}, [preamble, english]) == []
  {
    var none: seq<string> := [];
    var ls := [plan, line, preamble];
    assert WithoutPlans(st, none) == none && [plan][..0] == none;
    assert ls[..2] == [plan, line] && [plan, line][..1] == [plan];
    assert WithoutPlans(st, [plan]) == none;
    assert WithoutPlans(st, [plan, line]) == none + [line];
    assert WithoutPlans(st, ls) == [line] + [preamble] == [line, preamble];
    DirectExactly(st, [line, preamble]);
    assert CutPreamble(st, line) == [line] && CutPreamble(st, preamble) == none;
    assert DirectLines(st, [line, preamble]) == [line] + none + none;
    DirectExactly(st, [preamble, english]);
    assert DirectLines(st, [preamble, english]) == none + [english] + none;
  }

  // ---------------------------------------------------------------- what splitting and joining do to the lines

  // b goes on after a with empty lines only.
  predicate UpToEnd(a: seq<string>, b: seq<string>) {
    a <= b && forall i :: |a| <= i < |b| ==> b[i] == ""
  }

  lemma {:induction false} SameContent(a: seq<string>, b: seq<string>)
    requires UpToEnd(a, b)
    ensures Content(a) == Content(b)
  {
    if a != b {
      var n := |b| - 1;
      SameContent(a, b[..n]);
      ContentConcat(b[..n], [b[n]]);
      assert b == b[..n] + [""];
      assert Content([""]) == [];
    }
  }

  lemma {:induction false} DirectUpToEnd(st: Style, a: seq<string>, b: seq<string>)
    requires UpToEnd(a, b)
    ensures UpToEnd(DirectLines(st, a), DirectLines(st, b))
  {
    if a != b {
      var n := |b| - 1;
      DirectUpToEnd(st, a, b[..n]);
      assert b[n] == "" && AfterColon("") == "";
    }
  }

  lemma EnglishUpToEnd(st: Style, a: seq<string>, b: seq<string>)
    requires UpToEnd(a, b)
    ensures UpToEnd(WithoutEnglish(st, a), WithoutEnglish(st, b))
  {
    assert a != [] ==> a[0] == b[0];
  }

  // The lines of the text are the given ones, up to empty ones at the end.
  ghost predicate Reads(text: string, ls: seq<string>) {
    UpToEnd(Lines(text), ls)
  }

  lemma JoinedReads(st: Style, text: string, ls: seq<string>, all: seq<string>)
    requires Condenses(st, ls, Lines(text)) && UpToEnd(ls, all)
    ensures Reads(Join(ls), all)
  {
    LinesAreLines(text);
    CondensedAreLines(st, ls, Lines(text));
    LinesJoin(ls);
  }

  // ---------------------------------------------------------------- the transforms in place

  method StripPlanScaffolding(st: Style, text: string) returns (r: string)
    ensures r == Join(WithoutPlans(st, Lines(text)))
  {
    var ls, out := Lines(text), [];
    var i := 0;
    while i < |ls|
      invariant 0 <= i <= |ls|
      invariant out == WithoutPlans(st, ls[..i])
    {
      assert ls[..i + 1][..i] == ls[..i];
      if st.uncertain(ls[i]) || st.source(ls[i]) {
        out := out + [ls[i]];
      } else if !st.plan(ls[i]) {
        out := out + [ls[i]];
      }
      i := i + 1;
    }
    assert ls[..i] == ls;
    r := Join(out);
  }

  method MakeDirect(st: Style, text: string) returns (r: string)
    ensures r == Join(DirectLines(st, Lines(text)))
  {
    var ls, out := Lines(text), [];
    var i := 0;
    while i < |ls|
      invariant 0 <= i <= |ls|
      invariant out == DirectLines(st, ls[..i])
    {
      assert ls[..i + 1][..i] == ls[..i];
      if i < 2 && st.preamble(ls[i]) && !(st.uncertain(ls[i]) || st.source(ls[i])) {
        var rest := AfterColon(ls[i]);
        if rest != "" {
          out := out + [rest];
        }
      } else {
        out := out + [ls[i]];
      }
      i := i + 1;
    }
    assert ls[..i] == ls;
    r := Join(out);
  }

  method StripEnglishPreamble(st: Style, text: string) returns (r: string)
    ensures r == Join(WithoutEnglish(st, Lines(text)))
  {
    var ls := Lines(text);
    if ls != [] && st.english(ls[0]) && !(st.uncertain(ls[0]) || st.source(ls[0])) {
      ls := ls[1..];
    }
    r := Join(ls);
  }

  // The truth lines of ls missing from the text, appended one after another.
  function Rescued(st: Style, text: string, ls: seq<string>): string {
    if ls == [] then text
    else
      var t, line := Rescued(st, text, ls[..|ls| - 1]), ls[|ls| - 1];
      if MustKeep(st, line) && !Contains(t, Trim(line)) then Trim(TrimRight(t) + "\n" + line) else t
  }

  /** The safety net, for any text at all: afterwards every truth line of the original is in it, trimmed. And after
  transforms that condense the original none has gone missing, so the text comes back unchanged. */
  method PreserveTruth(st: Style, text: string, original: string) returns (r: string)
    ensures r == Rescued(st, text, Lines(original))
    ensures forall i :: 0 <= i < |Lines(original)| && MustKeep(st, Lines(original)[i]) ==>
      Contains(r, Trim(Lines(original)[i]))
    ensures Keeps(st, text, original) ==> r == text
  {
    var ls := Lines(original);
    r := text;
    var i := 0;
    while i < |ls|
      invariant 0 <= i <= |ls|
      invariant r == Rescued(st, text, ls[..i])
      invariant forall j :: 0 <= j < i && MustKeep(st, ls[j]) ==> Contains(r, Trim(ls[j]))
      invariant Keeps(st, text, original) ==> r == text
    {
      assert ls[..i + 1][..i] == ls[..i];
      if Keeps(st, text, original) && MustKeep(st, ls[i]) {
        TruthIsThere(st, text, original, i);
      }
      if Trim(ls[i]) != "" && (st.uncertain(ls[i]) || st.source(ls[i])) {
        if !Contains(r, Trim(ls[i])) {
          forall j | 0 <= j <= i && MustKeep(st, ls[j]) && (j < i ==> Contains(r, Trim(ls[j])))
            ensures Contains(Trim(TrimRight(r) + "\n" + ls[i]), Trim(ls[j]))
          {
            AppendedIsThere(r, ls[i], ls[j], j < i);
          }
          r := Trim(TrimRight(r) + "\n" + ls[i]);
        }
      }
      i := i + 1;
    }
    assert ls[..i] == ls;
  }

  // Appending a line keeps what was there, and adds the line.
  lemma AppendedIsThere(r: string, line: string, kept: string, there: bool)
    requires Trim(kept) != ""
    requires if there then Contains(r, Trim(kept)) else kept == line
    ensures Contains(Trim(TrimRight(r) + "\n" + line), Trim(kept))
  {
    var x, u := Trim(kept), TrimRight(r) + "\n" + line;
    TrimEnds(kept);
    if there {
      TrimRightHolds(r, x);
      assert u[..|TrimRight(r)|] == TrimRight(r);
      PrefixContained(u, |TrimRight(r)|);
      ContainsTrans(u, TrimRight(r), x);
    } else {
      assert u[|TrimRight(r)| + 1..] == line;
      SuffixContained(u, |TrimRight(r)| + 1);
      TrimContained(line);
      ContainsTrans(u, line, x);
    }
    TrimHolds(u, x);
  }

  // Collapsed and trimmed, unless nothing is left.
  ghost predicate Tidy(out: string, draft: string) {
    out == draft || (SolidEnds(out) && !Contains(out, "\n\n\n"))
  }

  method Finish(text: string, draft: string) returns (out: string)
    ensures Content(Lines(out)) == if Content(Lines(text)) == [] then Content(Lines(draft)) else Content(Lines(text))
    ensures Tidy(out, draft)
  {
    CollapseContent("", text);
    EmptyPrefix(text);
    EmptyPrefix(Collapse(text));
    TrimContent(Collapse(text));
    TrimEnds(Collapse(text));
    out := Trim(Collapse(text));
    if out == "" {
      out := draft;
    } else {
      SolidIsRead(out);
      CollapseExactly(text);
      OccursTriple(Collapse(text));
      TrimContained(Collapse(text));
      if Contains(out, "\n\n\n") {
        ContainsTrans(Collapse(text), out, "\n\n\n");
      }
    }
  }

  /** Applying any set of learned style kinds to any draft delivers it: what there is to read is what the learned
  transforms leave of the draft's lines, and all of the draft if they leave nothing. */
  method Apply(st: Style, kinds: set<Kind>, draft: string) returns (out: string)
    ensures Content(Lines(out)) == Delivered(st, kinds, Lines(draft))
    ensures Delivers(st, Content(Lines(out)), Lines(draft))
    ensures Tidy(out, draft)
  {
    var lines := Lines(draft);
    CondensesReflexive(st, lines);
    CondensedDelivers(st, lines, lines);
    if draft == "" || kinds == {} {
      return draft;
    }
    var text := draft;
    ghost var ls := lines;
    if NoAbstractPlans in kinds {
      WithoutPlansCondenses(st, Lines(text));
      TransformKeeps(st, text, WithoutPlans(st, Lines(text)), draft);
      ls := WithoutPlans(st, ls);
      JoinedReads(st, text, WithoutPlans(st, Lines(text)), ls);
      text := StripPlanScaffolding(st, text);
    }
    if Direct in kinds {
      DirectCondenses(st, Lines(text));
      TransformKeeps(st, text, DirectLines(st, Lines(text)), draft);
      DirectUpToEnd(st, Lines(text), ls);
      ls := DirectLines(st, ls);
      JoinedReads(st, text, DirectLines(st, Lines(text)), ls);
      text := MakeDirect(st, text);
    }
    if Romanian in kinds {
      WithoutEnglishCondenses(st, Lines(text));
      TransformKeeps(st, text, WithoutEnglish(st, Lines(text)), draft);
      EnglishUpToEnd(st, Lines(text), ls);
      ls := WithoutEnglish(st, ls);
      JoinedReads(st, text, WithoutEnglish(st, Lines(text)), ls);
      text := StripEnglishPreamble(st, text);
    }
    assert ls == Transformed(st, kinds, lines);
    SameContent(Lines(text), ls);
    text := PreserveTruth(st, text, draft);
    CondensedDelivers(st, Lines(text), lines);
    out := Finish(text, draft);
  }
}
