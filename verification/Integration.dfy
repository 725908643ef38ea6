/** Which modules are wired: a worklist over import edges, and the verdict built on it. */
module Integration {
  import opened Sequences

  type Graph = map<string, seq<string>>

  function EdgesOf(g: Graph, m: string): seq<string> {
    if m in g then g[m] else []
  }

  // p walks import edges from a root that is a module.
  ghost predicate IsPath(g: Graph, roots: set<string>, p: seq<string>) {
    if p == [] then false
    else
      var n := |p| - 1;
      if n == 0 then p[0] in roots && p[0] in g
      else p[n] in EdgesOf(g, p[n - 1]) && IsPath(g, roots, p[..n])
  }

  ghost predicate Reaches(g: Graph, roots: set<string>, m: string) {
    exists p :: IsPath(g, roots, p) && p[|p| - 1] == m
  }

  lemma RootReaches(g: Graph, roots: set<string>, m: string)
    requires m in roots && m in g
    ensures Reaches(g, roots, m)
  {
    assert IsPath(g, roots, [m]);
  }

  lemma EdgeReaches(g: Graph, roots: set<string>, m: string, n: string)
    requires Reaches(g, roots, m) && n in EdgesOf(g, m)
    ensures Reaches(g, roots, n)
  {
    var p :| IsPath(g, roots, p) && p[|p| - 1] == m;
    assert (p + [n])[..|p|] == p;
    assert IsPath(g, roots, p + [n]);
  }

  lemma {:induction false} ClosedHoldsReachable(g: Graph, roots: set<string>, seen: set<string>, p: seq<string>)
    requires forall m :: m in roots && m in g ==> m in seen
    requires forall m, n :: m in seen && n in EdgesOf(g, m) ==> n in seen
    requires IsPath(g, roots, p)
    ensures p[|p| - 1] in seen
  {
    if |p| > 1 {
      ClosedHoldsReachable(g, roots, seen, p[..|p| - 1]);
    }
  }

  // `all` holds everything the graph mentions.
  ghost predicate Spans(g: Graph, all: set<string>) {
    forall m :: m in g ==> m in all && forall n :: n in g[m] ==> n in all
  }

  ghost method Mentioned(g: Graph) returns (all: set<string>)
    ensures Spans(g, all)
  {
    all := g.Keys;
    var left := g.Keys;
    while left != {}
      invariant left <= g.Keys <= all
      invariant forall m :: m in g && m !in left ==> forall n :: n in g[m] ==> n in all
    {
      var m :| m in left;
      all := all + (set n | n in g[m]);
      left := left - {m};
    }
  }

  // The worklist invariant: nothing unreachable is held, and whatever is reachable in one more step is held.
  ghost predicate OnTheWay(g: Graph, from: set<string>, all: set<string>, seen: set<string>, stack: seq<string>) {
    && (forall m :: m in stack ==> Reaches(g, from, m) && m in all)
    && (forall m :: m in seen ==> Reaches(g, from, m) && m in all)
    && (forall m :: m in from && m in g ==> m in seen || m in stack)
    && (forall m, n :: m in seen && n in EdgesOf(g, m) ==> n in seen || n in stack)
  }

  lemma InLastOrRest(stack: seq<string>)
    requires stack != []
    ensures forall m :: m in stack <==> m in stack[..|stack| - 1] || m == stack[|stack| - 1]
  {
  }

  lemma Skipped(g: Graph, from: set<string>, all: set<string>, seen: set<string>, stack: seq<string>)
    requires OnTheWay(g, from, all, seen, stack) && stack != [] && stack[|stack| - 1] in seen
    ensures OnTheWay(g, from, all, seen, stack[..|stack| - 1])
  {
    var rest := stack[..|stack| - 1];
    InLastOrRest(stack);
    forall m | m in from && m in g ensures m in seen || m in rest {
      assert m in seen || m in stack;
    }
    forall m, n | m in seen && n in EdgesOf(g, m) ensures n in seen || n in rest {
      assert n in seen || n in stack;
    }
  }

  lemma Expanded(g: Graph, from: set<string>, all: set<string>, seen: set<string>, stack: seq<string>)
    requires OnTheWay(g, from, all, seen, stack) && stack != [] && Spans(g, all)
    ensures OnTheWay(g, from, all, seen + {stack[|stack| - 1]}, stack[..|stack| - 1] + EdgesOf(g, stack[|stack| - 1]))
  {
    var cur := stack[|stack| - 1];
    InLastOrRest(stack);
    forall n | n in EdgesOf(g, cur) ensures Reaches(g, from, n) && n in all {
      EdgeReaches(g, from, cur, n);
    }
  }

  lemma ClosedIsExact(g: Graph, from: set<string>, seen: set<string>, m: string)
    requires forall r :: r in from && r in g ==> r in seen
    requires forall x, n :: x in seen && n in EdgesOf(g, x) ==> n in seen
    requires Reaches(g, from, m)
    ensures m in seen
  {
    var p :| IsPath(g, from, p) && p[|p| - 1] == m;
    ClosedHoldsReachable(g, from, seen, p);
  }

  lemma EmptyStackCloses(g: Graph, from: set<string>, all: set<string>, seen: set<string>, stack: seq<string>)
    requires OnTheWay(g, from, all, seen, stack) && stack == []
    ensures forall r :: r in from && r in g ==> r in seen
    ensures forall x, n :: x in seen && n in EdgesOf(g, x) ==> n in seen
  {
    forall x, n | x in seen && n in EdgesOf(g, x) ensures n in seen {
      assert n in seen || n in stack;
    }
  }

  method KnownRoots(roots: seq<string>, g: Graph) returns (stack: seq<string>)
    ensures forall m :: m in stack <==> m in roots && m in g
  {
    stack := [];
    var i := 0;
    while i < |roots|
      invariant 0 <= i <= |roots|
      invariant forall m :: m in stack <==> m in roots[..i] && m in g
    {
      if roots[i] in g {
        stack := stack + [roots[i]];
      }
      i := i + 1;
    }
  }

  /** The worklist finds exactly the modules an import path reaches from the roots, and stops. */
  method Reachable(roots: seq<string>, g: Graph) returns (seen: set<string>)
    ensures forall m :: m in seen <==> Reaches(g, (set r | r in roots), m)
  {
    ghost var from := set r | r in roots;
    ghost var all := Mentioned(g);
    var stack := KnownRoots(roots, g);
    seen := {};
    forall m | m in stack ensures Reaches(g, from, m) {
      RootReaches(g, from, m);
    }
    while stack != []
      invariant OnTheWay(g, from, all, seen, stack)
      decreases |all - seen|, |stack|
    {
      var cur := stack[|stack| - 1];
      if cur in seen {
        Skipped(g, from, all, seen, stack);
        stack := stack[..|stack| - 1];
      } else {
        Expanded(g, from, all, seen, stack);
        Shrinks(all, seen, cur);
        seen := seen + {cur};
        stack := stack[..|stack| - 1] + EdgesOf(g, cur);
      }
    }
    EmptyStackCloses(g, from, all, seen, stack);
    forall m | Reaches(g, from, m) ensures m in seen {
      ClosedIsExact(g, from, seen, m);
    }
  }

  lemma Shrinks(all: set<string>, seen: set<string>, cur: string)
    requires cur in all && cur !in seen
    ensures |all - (seen + {cur})| < |all - seen|
  {
    assert all - seen == (all - (seen + {cur})) + {cur};
  }

  // ---------------------------------------------------------------- classification

  datatype Status = Wired | NotWired | Duplicate

  // What the scan knows of a module: the hash of its body, if any.
  datatype Info = Info(sha: string)

  predicate EndsWith(s: string, suffix: string) {
    |suffix| <= |s| && s[|s| - |suffix|..] == suffix
  }

  // Root files, scripts, the application factory and package initialisers.
  predicate IsEntry(m: string) {
    '.' !in m || "scripts." <= m || m == "gateway.app" || EndsWith(m, ".__init__")
  }

  /** Entry points are the modules at the top, what is under scripts, the application factory and the initialiser of any
  package, and nothing else. */
  lemma EntriesExactly(m: string)
    ensures IsEntry("scripts." + m) && IsEntry(m + ".__init__") && IsEntry("gateway.app")
    ensures (forall i :: 0 <= i < |m| ==> m[i] != '.') ==> IsEntry(m)
    ensures IsEntry(m) && (exists i :: 0 <= i < |m| && m[i] == '.') && m != "gateway.app" ==>
      |m| >= 8 && (m[..8] == "scripts." || m[|m| - 9..] == ".__init__")
  {
    var under, initialiser := "scripts." + m, m + ".__init__";
    assert under[..8] == "scripts.";
    assert initialiser[|m|..] == ".__init__";
  }

  /** A module can be a copy only if its body has a hash and it is no package initialiser; a lone hash makes no copy. */
  lemma CopiesAreHashed(modules: map<string, Info>, m: string)
    ensures IsCopy(modules, m) <==>
      (m in modules && modules[m].sha != "" && !EndsWith(m, ".__init__") &&
       exists n :: n in modules && n != m && modules[n].sha == modules[m].sha && !EndsWith(n, ".__init__"))
  {
    if m in modules && modules[m].sha != "" {
      if n :| n in modules && n != m && modules[n].sha == modules[m].sha && !EndsWith(n, ".__init__") {
        assert Hashed(modules, n);
      }
    }
    if IsCopy(modules, m) {
      var n :| Hashed(modules, n) && n != m && modules[n].sha == modules[m].sha;
      assert n in modules && !EndsWith(n, ".__init__");
    }
  }

  predicate Hashed(modules: map<string, Info>, m: string) {
    m in modules && modules[m].sha != "" && !EndsWith(m, ".__init__")
  }

  // A true content copy of another module.
  ghost predicate IsCopy(modules: map<string, Info>, m: string) {
    Hashed(modules, m) && exists n :: Hashed(modules, n) && n != m && modules[n].sha == modules[m].sha
  }

  ghost function Roots(names: seq<string>, extra: set<string>): set<string> {
    extra + set m | m in names && IsEntry(m)
  }

  // bySha lists, under each hash, the modules of `done` that have it.
  ghost predicate Indexed(modules: map<string, Info>, done: seq<string>, bySha: map<string, seq<string>>) {
    && (forall h :: h in bySha ==> Distinct(bySha[h]))
    && (forall h, m :: h in bySha ==> (m in bySha[h] <==> m in done && Hashed(modules, m) && modules[m].sha == h))
    && (forall m :: m in done && Hashed(modules, m) ==> modules[m].sha in bySha)
  }

  lemma IndexedMore(modules: map<string, Info>, done: seq<string>, bySha: map<string, seq<string>>, m: string)
    requires Indexed(modules, done, bySha) && m !in done && m in modules
    ensures
      var h := modules[m].sha;
      Indexed(modules, done + [m],
              if Hashed(modules, m) then bySha[h := (if h in bySha then bySha[h] else []) + [m]] else bySha)
  {
    var h := modules[m].sha;
    var at := if h in bySha then bySha[h] else [];
    if Hashed(modules, m) {
      assert m !in at;
      assert Distinct(at + [m]);
    }
  }

  method IndexByHash(modules: map<string, Info>, names: seq<string>) returns (bySha: map<string, seq<string>>)
    requires (forall m :: m in names ==> m in modules) && Distinct(names)
    ensures Indexed(modules, names, bySha)
  {
    bySha := map[];
    var i := 0;
    while i < |names|
      invariant 0 <= i <= |names|
      invariant Indexed(modules, names[..i], bySha)
    {
      var m := names[i];
      assert m in names && m !in names[..i] && names[..i + 1] == names[..i] + [m];
      IndexedMore(modules, names[..i], bySha, m);
      if modules[m].sha != "" && !EndsWith(m, ".__init__") {
        var h := modules[m].sha;
        bySha := bySha[h := (if h in bySha then bySha[h] else []) + [m]];
      }
      i := i + 1;
    }
    assert names[..i] == names;
  }

  lemma CopiesShareAList(modules: map<string, Info>, names: seq<string>, bySha: map<string, seq<string>>, m: string)
    requires forall x :: x in modules <==> x in names
    requires Indexed(modules, names, bySha) && Hashed(modules, m)
    ensures modules[m].sha in bySha
    ensures IsCopy(modules, m) <==> |bySha[modules[m].sha]| > 1
  {
    var ms := bySha[modules[m].sha];
    assert m in names && m in ms;
    if IsCopy(modules, m) {
      var n :| Hashed(modules, n) && n != m && modules[n].sha == modules[m].sha;
      assert n in names && n in ms;
    }
    if |ms| > 1 {
      assert Distinct(ms) && ms[0] in ms && ms[1] in ms;
      var other := if ms[0] == m then ms[1] else ms[0];
      assert Hashed(modules, other) && other != m && modules[other].sha == modules[m].sha;
    }
  }

  method Duplicates(modules: map<string, Info>, names: seq<string>) returns (dups: set<string>)
    requires (forall m :: m in modules <==> m in names) && Distinct(names)
    ensures forall m :: m in dups <==> IsCopy(modules, m)
  {
    var bySha := IndexByHash(modules, names);
    forall m | Hashed(modules, m)
      ensures modules[m].sha in bySha && (IsCopy(modules, m) <==> |bySha[modules[m].sha]| > 1)
    {
      CopiesShareAList(modules, names, bySha, m);
    }
    dups := set m | m in modules && Hashed(modules, m) && |bySha[modules[m].sha]| > 1;
  }

  /** The status of every module: a copy is a duplicate; any other is wired exactly when an import path reaches it
  from an entry point or an extra root. */
  method Classify(modules: map<string, Info>, names: seq<string>, g: Graph, extra: set<string>)
    returns (status: map<string, Status>)
    requires (forall m :: m in modules <==> m in names) && Distinct(names)
    ensures status.Keys == modules.Keys
    ensures forall m :: m in modules ==> status[m] == StatusOf(modules, names, g, extra, m)
  {
    var roots := extra + set m | m in names && IsEntry(m);
    var rootList := Listed(roots);
    var reach := Reachable(rootList, g);
    assert (set r | r in rootList) == roots;
    var dups := Duplicates(modules, names);
    status := map m | m in modules :: if m in dups then Duplicate else if m in reach then Wired else NotWired;
  }

  method Listed(s: set<string>) returns (xs: seq<string>)
    ensures forall x :: x in xs <==> x in s
  {
    xs := [];
    var left := s;
    while left != {}
      invariant left <= s
      invariant forall x :: x in xs <==> x in s && x !in left
    {
      var x :| x in left;
      xs := xs + [x];
      left := left - {x};
    }
  }

  ghost function StatusOf(modules: map<string, Info>, names: seq<string>, g: Graph, extra: set<string>,
                          m: string): Status {
    if IsCopy(modules, m) then Duplicate
    else if Reaches(g, Roots(names, extra), m) then Wired
    else NotWired
  }

  lemma {:induction false} PathFromMoreRoots(g: Graph, roots: set<string>, more: set<string>, p: seq<string>)
    requires roots <= more && IsPath(g, roots, p)
    ensures IsPath(g, more, p)
  {
    if |p| > 1 {
      PathFromMoreRoots(g, roots, more, p[..|p| - 1]);
    }
  }

  lemma MoreRootsReachMore(g: Graph, roots: set<string>, more: set<string>, m: string)
    requires roots <= more && Reaches(g, roots, m)
    ensures Reaches(g, more, m)
  {
    var p :| IsPath(g, roots, p) && p[|p| - 1] == m;
    PathFromMoreRoots(g, roots, more, p);
  }

  /** Adding roots never un-wires a module, and moves none into or out of the duplicates. */
  lemma MoreRootsNeverUnwire(modules: map<string, Info>, names: seq<string>, g: Graph, extra: set<string>,
                             more: set<string>, m: string)
    requires extra <= more
    ensures StatusOf(modules, names, g, extra, m).Wired? ==> StatusOf(modules, names, g, more, m).Wired?
    ensures StatusOf(modules, names, g, extra, m).Duplicate? <==> StatusOf(modules, names, g, more, m).Duplicate?
  {
    if Reaches(g, Roots(names, extra), m) {
      MoreRootsReachMore(g, Roots(names, extra), Roots(names, more), m);
    }
  }

  // ---------------------------------------------------------------- the verdict

  datatype Violation = Violation(kind: string, critical: bool)

  /** The audit passes exactly when every critical module is there, is no copy, and is reached by an import path
  from a root, and no critical violation was found. */
  method Verdict(modules: map<string, Info>, names: seq<string>, g: Graph, extra: set<string>,
                 critical: seq<string>, violations: seq<Violation>) returns (ok: bool)
    requires (forall m :: m in modules <==> m in names) && Distinct(names)
    ensures ok <==>
      && (forall c :: c in critical ==> c in modules && !IsCopy(modules, c) && Reaches(g, Roots(names, extra), c))
      && (forall v :: v in violations ==> !v.critical)
  {
    var status := Classify(modules, names, g, extra);
    var missing := exists i :: 0 <= i < |critical| && critical[i] !in modules;
    var unwired := exists i :: 0 <= i < |critical| && critical[i] in modules && status[critical[i]] != Wired;
    var bad := exists i :: 0 <= i < |violations| && violations[i].critical;
    ok := !missing && !unwired && !bad;
    if ok {
      forall c | c in critical
        ensures c in modules && !IsCopy(modules, c) && Reaches(g, Roots(names, extra), c)
      {
        var i :| 0 <= i < |critical| && critical[i] == c;
        assert c in modules && status[c] == Wired;
      }
    } else if missing {
      var i :| 0 <= i < |critical| && critical[i] !in modules;
      assert critical[i] in critical;
    } else if unwired {
      var i :| 0 <= i < |critical| && critical[i] in modules && status[critical[i]] != Wired;
      assert critical[i] in critical;
    }
  }
}
