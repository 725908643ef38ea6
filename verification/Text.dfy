/** Lines, trimming and joining, with the newline as the only line break. */
module Text {

  predicate IsSpace(c: char) {
    c == ' ' || c == '\t' || c == '\n' || c == '\r'
  }

  function TrimLeft(s: string): string {
    if s != "" && IsSpace(s[0]) then TrimLeft(s[1..]) else s
  }

  function TrimRight(s: string): string {
    if s != "" && IsSpace(s[|s| - 1]) then TrimRight(s[..|s| - 1]) else s
  }

  // strip()
  function Trim(s: string): string {
    TrimRight(TrimLeft(s))
  }

  // splitlines()
  function Lines(t: string): seq<string> {
    if t == "" then []
    else if t[0] == '\n' then [""] + Lines(t[1..])
    else
      var rest := Lines(t[1..]);
      if rest == [] then [[t[0]]] else [[t[0]] + rest[0]] + rest[1..]
  }

  // "\n".join()
  function Join(ls: seq<string>): string {
    if ls == [] then "" else if |ls| == 1 then ls[0] else ls[0] + "\n" + Join(ls[1..])
  }

  // A run of three or more newlines becomes two.
  function Collapse(t: string): string {
    if t == "" then ""
    else if |t| >= 3 && t[..3] == "\n\n\n" then Collapse(t[1..])
    else [t[0]] + Collapse(t[1..])
  }

  // What a reader sees of some lines: the non-blank ones, trimmed.
  function Content(ls: seq<string>): seq<string> {
    if ls == [] then [] else Shown(ls[0]) + Content(ls[1..])
  }

  function Shown(line: string): seq<string> {
    if Trim(line) == "" then [] else [Trim(line)]
  }

  predicate IsLine(s: string) {
    '\n' !in s
  }

  predicate AllLines(ls: seq<string>) {
    forall i :: 0 <= i < |ls| ==> IsLine(ls[i])
  }

  predicate OccursAt(s: string, sub: string, i: nat) {
    i + |sub| <= |s| && s[i..i + |sub|] == sub
  }

  // `sub in s`
  predicate Contains(s: string, sub: string) {
    exists i: nat :: i <= |s| && OccursAt(s, sub, i)
  }

  // ---------------------------------------------------------------- substrings

  lemma ContainsTrans(a: string, b: string, c: string)
    requires Contains(a, b) && Contains(b, c)
    ensures Contains(a, c)
  {
    var i: nat :| i <= |a| && OccursAt(a, b, i);
    var j: nat :| j <= |b| && OccursAt(b, c, j);
    forall k | 0 <= k < |c| ensures a[i + j..i + j + |c|][k] == c[k] {
      assert c[k] == b[j..j + |c|][k] == b[j + k] == a[i..i + |b|][j + k];
    }
    assert a[i + j..i + j + |c|] == c;
    assert OccursAt(a, c, i + j);
  }

  lemma SuffixContained(s: string, k: nat)
    requires k <= |s|
    ensures Contains(s, s[k..])
  {
    assert OccursAt(s, s[k..], k);
  }

  lemma PrefixContained(s: string, k: nat)
    requires k <= |s|
    ensures Contains(s, s[..k])
  {
    assert OccursAt(s, s[..k], 0);
  }

  lemma {:induction false} TrimLeftContained(s: string)
    ensures Contains(s, TrimLeft(s))
  {
    if s != "" && IsSpace(s[0]) {
      TrimLeftContained(s[1..]);
      SuffixContained(s, 1);
      ContainsTrans(s, s[1..], TrimLeft(s[1..]));
    } else {
      SuffixContained(s, 0);
      assert s[0..] == s;
    }
  }

  lemma {:induction false} TrimRightContained(s: string)
    ensures Contains(s, TrimRight(s))
  {
    if s != "" && IsSpace(s[|s| - 1]) {
      TrimRightContained(s[..|s| - 1]);
      PrefixContained(s, |s| - 1);
      ContainsTrans(s, s[..|s| - 1], TrimRight(s[..|s| - 1]));
    } else {
      SuffixContained(s, 0);
      assert s[0..] == s;
    }
  }

  lemma TrimContained(s: string)
    ensures Contains(s, Trim(s))
  {
    TrimLeftContained(s);
    TrimRightContained(TrimLeft(s));
    ContainsTrans(s, TrimLeft(s), Trim(s));
  }

  predicate SolidEnds(x: string) {
    x != "" && !IsSpace(x[0]) && !IsSpace(x[|x| - 1])
  }

  lemma {:induction false} TrimRightKeepsHead(s: string)
    requires s != "" && !IsSpace(s[0])
    ensures TrimRight(s) != "" && TrimRight(s)[0] == s[0] && !IsSpace(TrimRight(s)[|TrimRight(s)| - 1])
  {
    if IsSpace(s[|s| - 1]) {
      TrimRightKeepsHead(s[..|s| - 1]);
    }
  }

  lemma {:induction false} TrimLeftHead(s: string)
    ensures TrimLeft(s) != "" ==> !IsSpace(TrimLeft(s)[0])
  {
    if s != "" && IsSpace(s[0]) {
      TrimLeftHead(s[1..]);
    }
  }

  lemma TrimEnds(s: string)
    ensures Trim(s) != "" ==> SolidEnds(Trim(s))
  {
    TrimLeftHead(s);
    if TrimLeft(s) != "" {
      TrimRightKeepsHead(TrimLeft(s));
    }
  }

  lemma {:induction false} TrimLeftHolds(s: string, x: string)
    requires Contains(s, x) && SolidEnds(x)
    ensures Contains(TrimLeft(s), x)
  {
    var i: nat :| i <= |s| && OccursAt(s, x, i);
    assert s[i..i + |x|][0] == s[i];
    if IsSpace(s[0]) {
      assert s[1..][i - 1..i - 1 + |x|] == s[i..i + |x|];
      assert OccursAt(s[1..], x, i - 1);
      TrimLeftHolds(s[1..], x);
    }
  }

  lemma {:induction false} TrimRightHolds(s: string, x: string)
    requires Contains(s, x) && SolidEnds(x)
    ensures Contains(TrimRight(s), x)
  {
    var i: nat :| i <= |s| && OccursAt(s, x, i);
    var n := |s| - 1;
    assert s[i..i + |x|][|x| - 1] == s[i + |x| - 1];
    if IsSpace(s[n]) {
      assert s[..n][i..i + |x|] == s[i..i + |x|];
      assert OccursAt(s[..n], x, i);
      TrimRightHolds(s[..n], x);
    }
  }

  // Trimming loses nothing that starts and ends in something solid.
  lemma TrimHolds(s: string, x: string)
    requires Contains(s, x) && SolidEnds(x)
    ensures Contains(Trim(s), x)
  {
    TrimLeftHolds(s, x);
    TrimRightHolds(TrimLeft(s), x);
  }

  // ---------------------------------------------------------------- lines of a joined text

  lemma {:induction false} LinesAreLines(t: string)
    ensures AllLines(Lines(t))
  {
    if t != "" {
      LinesAreLines(t[1..]);
    }
  }

  lemma {:induction false} LinesOfLine(p: string)
    requires IsLine(p)
    ensures Lines(p) == if p == "" then [] else [p]
  {
    if p != "" {
      assert p[0] in p;
      LinesOfLine(p[1..]);
      assert p == [p[0]] + p[1..];
      assert p[1..] == "" ==> p == [p[0]];
    }
  }

  lemma {:induction false} LinesPrefix(p: string, u: string)
    requires IsLine(p)
    ensures Lines(p + "\n" + u) == [p] + Lines(u)
  {
    var t := p + "\n" + u;
    if p == "" {
      assert t[1..] == u;
    } else {
      LinesPrefix(p[1..], u);
      assert t[1..] == p[1..] + "\n" + u;
      assert p == [p[0]] + p[1..];
    }
  }

  // Joining loses no line but a final empty one.
  lemma {:induction false} LinesJoin(ls: seq<string>)
    requires AllLines(ls)
    ensures Lines(Join(ls)) == if ls != [] && ls[|ls| - 1] == "" then ls[..|ls| - 1] else ls
  {
    if ls == [] {
    } else if |ls| == 1 {
      LinesOfLine(ls[0]);
    } else {
      LinesJoin(ls[1..]);
      LinesPrefix(ls[0], Join(ls[1..]));
      assert ls == [ls[0]] + ls[1..];
      assert ls[1..][..|ls| - 2] == ls[..|ls| - 1][1..];
    }
  }

  lemma {:induction false} JoinContains(ls: seq<string>, i: nat)
    requires i < |ls|
    ensures Contains(Join(ls), ls[i])
  {
    var t := Join(ls);
    if i == 0 {
      assert t[..|ls[0]|] == ls[0];
      PrefixContained(t, |ls[0]|);
    } else {
      JoinContains(ls[1..], i - 1);
      assert t[|ls[0]| + 1..] == Join(ls[1..]);
      SuffixContained(t, |ls[0]| + 1);
      ContainsTrans(t, Join(ls[1..]), ls[i]);
    }
  }

  lemma {:induction false} LineContained(t: string, i: nat)
    requires i < |Lines(t)|
    ensures Contains(t, Lines(t)[i])
  {
    var rest := Lines(t[1..]);
    SuffixContained(t, 1);
    if t[0] == '\n' {
      if i == 0 {
        PrefixContained(t, 0);
      } else {
        LineContained(t[1..], i - 1);
        ContainsTrans(t, t[1..], rest[i - 1]);
      }
    } else if i > 0 {
      LineContained(t[1..], i);
      ContainsTrans(t, t[1..], rest[i]);
    } else {
      FirstLineIsPrefix(t);
      PrefixContained(t, |Lines(t)[0]|);
    }
  }

  lemma {:induction false} FirstLineIsPrefix(t: string)
    requires t != ""
    ensures Lines(t) != [] && |Lines(t)[0]| <= |t| && t[..|Lines(t)[0]|] == Lines(t)[0]
  {
    if t[0] != '\n' && t[1..] != "" {
      FirstLineIsPrefix(t[1..]);
      var x := Lines(t[1..])[0];
      assert t[..|x| + 1] == [t[0]] + t[1..][..|x|];
    }
  }

  // ---------------------------------------------------------------- what trimming and collapsing leave to be read

  lemma ContentCons(line: string, ls: seq<string>)
    ensures Content([line] + ls) == Shown(line) + Content(ls)
  {
    assert ([line] + ls)[1..] == ls;
  }

  lemma Regroup(x: seq<string>, y: seq<string>, z: seq<string>)
    ensures x + (y + z) == (x + y) + z
  {
  }

  lemma {:induction false} ContentConcat(a: seq<string>, b: seq<string>)
    ensures Content(a + b) == Content(a) + Content(b)
  {
    if a == [] {
      assert a + b == b;
    } else {
      ContentConcat(a[1..], b);
      ContentCons(a[0], a[1..] + b);
      ContentCons(a[0], a[1..]);
      assert a == [a[0]] + a[1..] && a + b == [a[0]] + (a[1..] + b);
      Regroup(Shown(a[0]), Content(a[1..]), Content(b));
    }
  }

  lemma ConsSpace(c: char, t: string)
    requires IsSpace(c)
    ensures Content(Lines([c] + t)) == Content(Lines(t))
  {
    var u := [c] + t;
    assert u[1..] == t;
    if c != '\n' && Lines(t) != [] {
      var x := Lines(t)[0];
      assert ([c] + x)[1..] == x;
      assert Trim([c] + x) == Trim(x);
      assert Lines(u)[1..] == Lines(t)[1..];
    } else if c != '\n' {
      assert [c][1..] == "";
      assert TrimLeft([c]) == "";
    }
  }

  lemma {:induction false} TrimLeftSnoc(x: string, c: char)
    requires IsSpace(c)
    ensures TrimLeft(x + [c]) == if TrimLeft(x) == "" then "" else TrimLeft(x) + [c]
  {
    if x == "" {
      assert x + [c] == [c] && [c][1..] == "";
    } else if IsSpace(x[0]) {
      TrimLeftSnoc(x[1..], c);
      assert (x + [c])[1..] == x[1..] + [c];
    }
  }

  lemma TrimSnoc(x: string, c: char)
    requires IsSpace(c)
    ensures Trim(x + [c]) == Trim(x)
  {
    TrimLeftSnoc(x, c);
    var l := TrimLeft(x);
    assert (l + [c])[..|l|] == l;
  }

  // One more character in front of some lines, and at the end of them.
  function Glue(d: char, ls: seq<string>): seq<string> {
    if d == '\n' then [""] + ls else if ls == [] then [[d]] else [[d] + ls[0]] + ls[1..]
  }

  function Extend(ls: seq<string>, open: bool, c: char): seq<string> {
    if c == '\n' then (if open then ls else ls + [""])
    else if open && ls != [] then ls[..|ls| - 1] + [ls[|ls| - 1] + [c]]
    else ls + [[c]]
  }

  predicate IsOpen(t: string) {
    t != "" && t[|t| - 1] != '\n'
  }

  lemma GlueExtend(d: char, ls: seq<string>, open: bool, c: char)
    requires ls != []
    ensures Extend(Glue(d, ls), open, c) == Glue(d, Extend(ls, open, c))
  {
    var n, g, e := |ls| - 1, Glue(d, ls), Extend(ls, open, c);
    if c == '\n' || !open {
      assert e == ls || (e[..|ls|] == ls && e == ls + [e[|ls|]]);
    } else if d == '\n' {
      assert g[..n + 1] == [""] + ls[..n] && g[n + 1] == ls[n];
    } else if n == 0 {
      assert [d] + (ls[0] + [c]) == ([d] + ls[0]) + [c];
    } else {
      assert g[..n] == [[d] + ls[0]] + ls[1..n] && g[n] == ls[n];
      assert e[1..] == ls[1..n] + [ls[n] + [c]];
    }
  }

  lemma GlueFirst(d: char, c: char)
    ensures Extend(Glue(d, []), d != '\n', c) == Glue(d, Extend([], false, c))
  {
    assert [d] + "" == [d];
  }

  lemma {:induction false} LinesSnoc(t: string, c: char)
    ensures Lines(t + [c]) == Extend(Lines(t), IsOpen(t), c)
    ensures t != "" ==> Lines(t) != []
  {
    if t == "" {
      assert t + [c] == [c] && [c][1..] == "";
    } else {
      var v := t[1..];
      LinesSnoc(v, c);
      assert (t + [c])[1..] == v + [c];
      if v == "" {
        assert t == [t[0]];
        GlueFirst(t[0], c);
      } else {
        GlueExtend(t[0], Lines(v), IsOpen(v), c);
      }
    }
  }

  lemma SnocSpace(t: string, c: char)
    requires IsSpace(c)
    ensures Content(Lines(t + [c])) == Content(Lines(t))
  {
    var ls, open := Lines(t), IsOpen(t);
    LinesSnoc(t, c);
    assert Trim("") == "" && Trim([c]) == "" by {
      TrimSnoc("", c);
      assert "" + [c] == [c];
    }
    if c == '\n' {
      ContentConcat(ls, [""]);
    } else if open {
      var n := |ls| - 1;
      TrimSnoc(ls[n], c);
      ContentConcat(ls[..n], [ls[n] + [c]]);
      ContentConcat(ls[..n], [ls[n]]);
      assert ls == ls[..n] + [ls[n]];
    } else {
      ContentConcat(ls, [[c]]);
    }
  }

  lemma {:induction false} TrimLeftContent(t: string)
    ensures Content(Lines(TrimLeft(t))) == Content(Lines(t))
  {
    if t != "" && IsSpace(t[0]) {
      TrimLeftContent(t[1..]);
      ConsSpace(t[0], t[1..]);
      assert t == [t[0]] + t[1..];
    }
  }

  lemma {:induction false} TrimRightContent(t: string)
    ensures Content(Lines(TrimRight(t))) == Content(Lines(t))
  {
    if t != "" && IsSpace(t[|t| - 1]) {
      TrimRightContent(t[..|t| - 1]);
      SnocSpace(t[..|t| - 1], t[|t| - 1]);
      assert t == t[..|t| - 1] + [t[|t| - 1]];
    }
  }

  /** Trimming a whole text changes nothing a reader sees. */
  lemma TrimContent(t: string)
    ensures Content(Lines(Trim(t))) == Content(Lines(t))
  {
    TrimLeftContent(t);
    TrimRightContent(TrimLeft(t));
  }

  lemma ContentPrefix(p: string, u: string)
    requires IsLine(p)
    ensures Content(Lines(p + "\n" + u)) == Content([p]) + Content(Lines(u))
  {
    LinesPrefix(p, u);
    ContentConcat([p], Lines(u));
  }

  lemma AtNewline(p: string, t: string)
    requires t != "" && t[0] == '\n'
    ensures p + t == p + "\n" + t[1..] && t == ['\n'] + t[1..]
  {
  }

  // The third newline of a run adds nothing to read.
  lemma ThirdNewline(p: string, t: string)
    requires IsLine(p) && |t| >= 3 && t[..3] == "\n\n\n"
    ensures Content(Lines(p + t)) == Content(Lines(p + t[1..]))
  {
    assert t[0] == t[..3][0] && t[1] == t[..3][1];
    AtNewline(p, t);
    AtNewline(p, t[1..]);
    ContentPrefix(p, t[1..]);
    ContentPrefix(p, t[1..][1..]);
    ConsSpace('\n', t[1..][1..]);
  }

  // Reading a newline closes the line before it.
  lemma NewlineCloses(p: string, t: string, t': string)
    requires IsLine(p) && Content(Lines(t)) == Content(Lines(t'))
    ensures Content(Lines(p + (['\n'] + t))) == Content(Lines(p + (['\n'] + t')))
  {
    AtNewline(p, ['\n'] + t);
    AtNewline(p, ['\n'] + t');
    assert (['\n'] + t)[1..] == t && (['\n'] + t')[1..] == t';
    ContentPrefix(p, t);
    ContentPrefix(p, t');
  }

  lemma EmptyPrefix(t: string)
    ensures "" + t == t
  {
  }

  lemma Shift(p: string, c: char, t: string)
    ensures p + ([c] + t) == p + [c] + t
  {
  }

  lemma {:induction false} CollapseContent(p: string, t: string)
    requires IsLine(p)
    ensures Content(Lines(p + Collapse(t))) == Content(Lines(p + t))
    decreases |t|
  {
    if t == "" {
    } else if |t| >= 3 && t[..3] == "\n\n\n" {
      CollapseContent(p, t[1..]);
      ThirdNewline(p, t);
    } else if t[0] == '\n' {
      CollapseContent("", t[1..]);
      EmptyPrefix(Collapse(t[1..]));
      EmptyPrefix(t[1..]);
      NewlineCloses(p, Collapse(t[1..]), t[1..]);
      AtNewline(p, t);
      assert Collapse(t) == ['\n'] + Collapse(t[1..]);
    } else {
      CollapseContent(p + [t[0]], t[1..]);
      Shift(p, t[0], Collapse(t[1..]));
      Shift(p, t[0], t[1..]);
      assert t == [t[0]] + t[1..];
    }
  }

  // ---------------------------------------------------------------- what collapsing does to the newlines

  lemma {:induction false} CollapseHead(t: string)
    ensures t != "" ==> Collapse(t) != "" && Collapse(t)[0] == t[0]
    ensures |t| >= 2 && t[1] != '\n' ==> |Collapse(t)| >= 2 && Collapse(t)[1] != '\n'
    ensures t != "" && t[0] != '\n' && |Collapse(t)| >= 2 && Collapse(t)[1] == '\n' ==> |t| >= 2 && t[1] == '\n'
  {
    if t != "" {
      CollapseHead(t[1..]);
      if |t| >= 3 && t[..3] == "\n\n\n" {
        assert t[0] == t[..3][0] && t[1] == t[..3][1];
      }
    }
  }

  // Three newlines in a row.
  predicate TripleAt(t: string, i: nat) {
    i + 2 < |t| && t[i] == '\n' && t[i + 1] == '\n' && t[i + 2] == '\n'
  }

  lemma {:induction false} TwoNewlines(t: string)
    requires |Collapse(t)| >= 2 && Collapse(t)[0] == '\n' && Collapse(t)[1] == '\n'
    ensures |t| >= 2 && t[0] == '\n' && t[1] == '\n'
  {
    CollapseHead(t);
    if t != "" {
      CollapseHead(t[1..]);
      if |t| >= 3 && t[..3] == "\n\n\n" {
        assert t[1] == t[..3][1];
      }
    }
  }

  lemma NoTriple(t: string)
    requires |t| < 3 || t[..3] != "\n\n\n"
    ensures !TripleAt(t, 0)
  {
    if |t| >= 3 && t[0] == '\n' && t[1] == '\n' {
      assert t[..3] == [t[0], t[1], t[2]];
    }
  }

  /** Collapsing leaves no three newlines in a row, and no text without them changed. */
  lemma {:induction false} CollapseExactly(t: string)
    ensures forall i: nat :: !TripleAt(Collapse(t), i)
    ensures (forall i: nat :: !TripleAt(t, i)) ==> Collapse(t) == t
  {
    if t == "" {
    } else if |t| >= 3 && t[..3] == "\n\n\n" {
      CollapseExactly(t[1..]);
      assert t[0] == t[..3][0] && t[1] == t[..3][1] && t[2] == t[..3][2];
      assert TripleAt(t, 0);
    } else {
      var c, rest := Collapse(t), Collapse(t[1..]);
      CollapseExactly(t[1..]);
      NoTriple(t);
      forall i: nat ensures !TripleAt(c, i) {
        if i > 0 {
          assert TripleAt(c, i) == TripleAt(rest, i - 1);
        } else if |rest| >= 2 && rest[0] == '\n' && rest[1] == '\n' {
          TwoNewlines(t[1..]);
        }
      }
      if forall i: nat :: !TripleAt(t, i) {
        forall i: nat ensures !TripleAt(t[1..], i) {
          assert !TripleAt(t, i + 1);
        }
      }
    }
  }

  lemma OccursTriple(t: string)
    ensures Contains(t, "\n\n\n") <==> exists i: nat :: TripleAt(t, i)
  {
    if Contains(t, "\n\n\n") {
      var i: nat :| i <= |t| && OccursAt(t, "\n\n\n", i);
      assert t[i] == t[i..i + 3][0] && t[i + 1] == t[i..i + 3][1] && t[i + 2] == t[i..i + 3][2];
      assert TripleAt(t, i);
    }
    if i: nat :| TripleAt(t, i) {
      assert t[i..i + 3] == "\n\n\n";
      assert OccursAt(t, "\n\n\n", i);
    }
  }

  // A text that starts with something solid has something to read.
  lemma SolidIsRead(t: string)
    requires t != "" && !IsSpace(t[0])
    ensures Content(Lines(t)) != []
  {
    FirstLineIsPrefix(t);
    var x := Lines(t)[0];
    assert x != "" by {
      assert t[0] != '\n';
    }
    assert x[0] == t[..|x|][0];
    assert TrimLeft(x) == x;
    TrimRightKeepsHead(x);
  }

  // ---------------------------------------------------------------- what trimming takes

  predicate Blank(s: string) {
    forall i :: 0 <= i < |s| ==> s[i] == ' ' || s[i] == '\t' || s[i] == '\n' || s[i] == '\r'
  }

  // Nothing, or a text with nothing blank at either end.
  predicate Solid(x: string) {
    x == "" || (!Blank([x[0]]) && !Blank([x[|x| - 1]]))
  }

  lemma SpaceIsBlank(c: char)
    ensures IsSpace(c) <==> Blank([c])
  {
    if Blank([c]) {
      assert [c][0] == c;
    }
  }

  lemma {:induction false} TrimLeftTakes(l: string, x: string)
    requires Blank(l)
    ensures TrimLeft(l + x) == TrimLeft(x)
  {
    if l == "" {
      assert l + x == x;
    } else {
      assert (l + x)[1..] == l[1..] + x;
      TrimLeftTakes(l[1..], x);
    }
  }

  lemma {:induction false} TrimRightTakes(x: string, r: string)
    requires Blank(r) && Solid(x)
    ensures TrimRight(x + r) == x
  {
    if r == "" {
      assert x + r == x;
      if x != "" {
        SpaceIsBlank(x[|x| - 1]);
      }
    } else {
      var n := |r| - 1;
      assert (x + r)[..|x + r| - 1] == x + r[..n];
      TrimRightTakes(x, r[..n]);
    }
  }

  /** Trimming takes what is blank at both ends and nothing else: of a solid text between blanks it leaves the text. */
  lemma TrimExactly(l: string, x: string, r: string)
    requires Blank(l) && Solid(x) && Blank(r)
    ensures Trim(l + x + r) == x
  {
    assert l + x + r == l + (x + r);
    TrimLeftTakes(l, x + r);
    if x == "" {
      assert x + r == r && r + "" == r;
      TrimLeftTakes(r, "");
    } else {
      SpaceIsBlank(x[0]);
      assert (x + r)[0] == x[0];
      TrimRightTakes(x, r);
    }
  }
}
