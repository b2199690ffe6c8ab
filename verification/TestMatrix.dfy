/** The CI job matrix: which suite tests are run, found by reading the syntax trees of the e2e test files. */
module TestMatrix {
  import opened Bytes

  // The part of Go's syntax trees that is looked at

  datatype Expr = Ident(name: string) | Selector(x: Expr, sel: string) | Star(x: Expr) | Call(fun: Expr) | OtherExpr

  datatype Stmt = ExprStmt(x: Expr) | OtherStmt

  /** Parameters and receivers are given by the types of their fields. */
  datatype Func = Func(name: string, recv: Option<seq<Expr>>, params: seq<Expr>, body: Option<seq<Stmt>>)

  datatype Decl = FuncDecl(f: Func) | OtherDecl

  predicate HasSuffix(s: string, suffix: string) {
    |s| >= |suffix| && s[|s| - |suffix|..] == suffix
  }

  predicate IsTestFunction(f: Func) {
    "Test" <= f.name && f.params == [Star(Selector(Ident("testing"), "T"))]
  }

  predicate CallsSuiteRun(f: Func) {
    f.body.Some? && ExprStmt(Call(Selector(Ident("suite"), "Run"))) in f.body.value
  }

  predicate IsSuiteEntrypoint(f: Func) {
    IsTestFunction(f) && CallsSuiteRun(f)
  }

  predicate IsSuiteTest(f: Func) {
    && "Test" <= f.name && f.recv.Some? && |f.recv.value| == 1
    && f.recv.value[0].Star? && f.recv.value[0].x.Ident?
    && (HasSuffix(f.recv.value[0].x.name, "TestSuite") || HasSuffix(f.recv.value[0].x.name, "Suite"))
  }

  /** What is recognised: a test function that calls `suite.Run` starts a suite, and a method of a pointer to a type
      whose name ends in "Suite" is one of its tests; neither without the prefix "Test". */
  lemma RecognisesSuites(name: string, kind: string, other: seq<Stmt>, params: seq<Expr>, body: Option<seq<Stmt>>)
    ensures var run := ExprStmt(Call(Selector(Ident("suite"), "Run")));
      var t := Star(Selector(Ident("testing"), "T"));
      && (IsSuiteEntrypoint(Func(name, None, [t], Some(other + [run]))) <==> "Test" <= name)
      && !IsSuiteEntrypoint(Func(name, None, [t], None))
      && (run !in other ==> !IsSuiteEntrypoint(Func(name, None, [t], Some(other))))
      && (params != [t] ==> !IsSuiteEntrypoint(Func(name, None, params, body)))
    ensures IsSuiteTest(Func(name, Some([Star(Ident(kind + "Suite"))]), params, body)) <==> "Test" <= name
    ensures !HasSuffix(kind, "Suite") ==> !IsSuiteTest(Func(name, Some([Star(Ident(kind))]), params, body))
    ensures !IsSuiteTest(Func(name, Some([Ident(kind)]), params, body)) && !IsSuiteTest(Func(name, None, params, body))
  {
    assert (kind + "Suite")[|kind + "Suite"| - 5..] == "Suite";
    if HasSuffix(kind, "TestSuite") {
      assert kind[|kind| - 5..] == kind[|kind| - 9..][4..] == "Suite";
    }
  }

  function Entrypoints(decls: seq<Decl>): (names: seq<string>)
    ensures forall i :: 0 <= i < |names| ==> names[i] != ""
  {
    if decls == [] then []
    else
      var rest, d := Entrypoints(decls[..|decls| - 1]), decls[|decls| - 1];
      if d.FuncDecl? && IsSuiteEntrypoint(d.f) then rest + [d.f.name] else rest
  }

  /** Tests in source order; a function that starts a suite is not one of its tests. */
  function SuiteTests(decls: seq<Decl>): seq<string> {
    if decls == [] then []
    else
      var rest, d := SuiteTests(decls[..|decls| - 1]), decls[|decls| - 1];
      if d.FuncDecl? && !IsSuiteEntrypoint(d.f) && IsSuiteTest(d.f) then rest + [d.f.name] else rest
  }

  datatype Extracted = NoSuite | ManySuites | Suite(name: string, tests: seq<string>)

  function Extract(decls: seq<Decl>): Extracted {
    var entrypoints := Entrypoints(decls);
    if |entrypoints| == 0 then NoSuite
    else if |entrypoints| > 1 then ManySuites
    else Suite(entrypoints[0], SuiteTests(decls))
  }

  lemma {:induction false} EntrypointsGrow(decls: seq<Decl>, k: nat)
    requires k <= |decls|
    ensures |Entrypoints(decls[..k])| <= |Entrypoints(decls)|
  {
    if k == |decls| {
      assert decls[..k] == decls;
    } else {
      EntrypointsGrow(decls[..|decls| - 1], k);
      assert decls[..|decls| - 1][..k] == decls[..k];
    }
  }

  method ExtractSuiteAndTestNames(decls: seq<Decl>) returns (r: Extracted)
    ensures r == Extract(decls)
  {
    var suiteName, testNames: seq<string> := "", [];
    for i := 0 to |decls|
      invariant testNames == SuiteTests(decls[..i])
      invariant Entrypoints(decls[..i]) == if suiteName == "" then [] else [suiteName]
    {
      assert decls[..i + 1][..i] == decls[..i];
      if decls[i].FuncDecl? {
        var fn := decls[i].f;
        if IsSuiteEntrypoint(fn) {
          if suiteName != "" {
            EntrypointsGrow(decls, i + 1);
            return ManySuites;
          }
          suiteName := fn.name;
        } else if IsSuiteTest(fn) {
          testNames := testNames + [fn.name];
        }
      }
    }
    assert decls[..|decls|] == decls;
    if suiteName == "" {
      return NoSuite;
    }
    return Suite(suiteName, testNames);
  }

  // The walk over the files

  /** What the walk visits; `file` is `Err` where reading or parsing fails. */
  datatype Entry = Entry(path: string, isDir: bool, walkError: bool, file: Result<seq<Decl>>)

  predicate IsTestFile(e: Entry) {
    !e.isDir && HasSuffix(e.path, "_test.go")
  }

  /** An entry on which the whole run gives up. */
  predicate Fatal(e: Entry) {
    e.walkError || (IsTestFile(e) && (e.file.Err? || Extract(e.file.value) == ManySuites))
  }

  /** Whether an entry contributes a suite, given the selected suite (empty for all) and the exclusions. */
  predicate Contributes(e: Entry, suite: string, excluded: seq<string>) {
    && !Fatal(e) && IsTestFile(e) && Extract(e.file.value).Suite?
    && Extract(e.file.value).name !in excluded
    && (suite == "" || Extract(e.file.value).name == suite)
  }

  type Mapping = map<string, seq<string>>

  /** Each selected suite has the tests of the last visited file that declares it. */
  ghost predicate LastFileWins(entries: seq<Entry>, suite: string, excluded: seq<string>, m: Mapping) {
    && (forall i :: 0 <= i < |entries| && Contributes(entries[i], suite, excluded) ==>
         Extract(entries[i].file.value).name in m)
    && (forall name :: name in m ==> exists i :: IsLast(entries, suite, excluded, i, name, m[name]))
  }

  ghost predicate IsLast(
    entries: seq<Entry>, suite: string, excluded: seq<string>, i: nat, name: string, tests: seq<string>)
  {
    && i < |entries| && Contributes(entries[i], suite, excluded) && Extract(entries[i].file.value) == Suite(name, tests)
    && forall j :: i < j < |entries| && Contributes(entries[j], suite, excluded) ==>
         Extract(entries[j].file.value).name != name
  }

  lemma LastExtends(
    entries: seq<Entry>, suite: string, excluded: seq<string>, k: nat, i: nat, name: string, tests: seq<string>)
    requires k < |entries| && IsLast(entries[..k], suite, excluded, i, name, tests)
    requires Contributes(entries[k], suite, excluded) ==> Extract(entries[k].file.value).name != name
    ensures IsLast(entries[..k + 1], suite, excluded, i, name, tests)
  {
    assert forall j :: 0 <= j < k ==> entries[..k + 1][j] == entries[..k][j];
  }

  method WalkFiles(entries: seq<Entry>, suite: string, excluded: seq<string>) returns (r: Option<Mapping>)
    ensures r.None? <==> exists i :: 0 <= i < |entries| && Fatal(entries[i])
    ensures r.Some? ==> LastFileWins(entries, suite, excluded, r.value)
  {
    var m: Mapping := map[];
    for k := 0 to |entries|
      invariant forall i :: 0 <= i < k ==> !Fatal(entries[i])
      invariant LastFileWins(entries[..k], suite, excluded, m)
    {
      var e := entries[k];
      ghost var before := m;
      if e.walkError {
        return None;
      }
      if IsTestFile(e) {
        if e.file.Err? {
          return None;
        }
        var extracted := ExtractSuiteAndTestNames(e.file.value);
        if extracted.ManySuites? {
          return None;
        }
        if extracted.Suite? && extracted.name !in excluded && (suite == "" || extracted.name == suite) {
          m := m[extracted.name := extracted.tests];
        }
      }
      MappingStep(entries, suite, excluded, k, before, m);
    }
    assert entries[..|entries|] == entries;
    return Some(m);
  }

  lemma MappingStep(entries: seq<Entry>, suite: string, excluded: seq<string>, k: nat, m: Mapping, m': Mapping)
    requires k < |entries| && LastFileWins(entries[..k], suite, excluded, m)
    requires m' == if Contributes(entries[k], suite, excluded)
      then m[Extract(entries[k].file.value).name := Extract(entries[k].file.value).tests] else m
    ensures LastFileWins(entries[..k + 1], suite, excluded, m')
  {
    var next := entries[..k + 1];
    forall name | name in m' ensures exists i :: IsLast(next, suite, excluded, i, name, m'[name]) {
      if Contributes(entries[k], suite, excluded) && Extract(entries[k].file.value).name == name {
        assert IsLast(next, suite, excluded, k, name, m'[name]);
      } else {
        var i: nat :| IsLast(entries[..k], suite, excluded, i, name, m[name]);
        LastExtends(entries, suite, excluded, k, i, name, m[name]);
      }
    }
    forall i | 0 <= i < |next| && Contributes(next[i], suite, excluded) ensures Extract(next[i].file.value).name in m' {
      if i < k {
        assert entries[..k][i] == next[i];
      }
    }
  }

  // From the mapping to the sorted list

  datatype Pair = Pair(test: string, entryPoint: string)

  predicate Included(p: Pair, m: Mapping, excluded: seq<string>) {
    p.entryPoint in m && p.entryPoint + "/" + p.test !in excluded
  }

  /** How often a test must appear. */
  function Times(p: Pair, m: Mapping, excluded: seq<string>): nat {
    if Included(p, m, excluded) then multiset(m[p.entryPoint])[p.test] else 0
  }

  ghost predicate Lists(pairs: seq<Pair>, m: Mapping, excluded: seq<string>) {
    forall p :: multiset(pairs)[p] == Times(p, m, excluded)
  }

  /** The tests of one suite that are not excluded. */
  method ListSuite(name: string, tests: seq<string>, excluded: seq<string>) returns (pairs: seq<Pair>)
    ensures Lists(pairs, map[name := tests], excluded)
  {
    pairs := [];
    for i := 0 to |tests|
      invariant Lists(pairs, map[name := tests[..i]], excluded)
    {
      assert tests[..i + 1] == tests[..i] + [tests[i]];
      ListsNext(pairs, name, tests[..i], tests[i], excluded);
      var fullName := name + "/" + tests[i];
      if fullName !in excluded {
        pairs := pairs + [Pair(tests[i], name)];
      }
    }
    assert tests[..|tests|] == tests;
  }

  lemma ListsNext(pairs: seq<Pair>, name: string, tests: seq<string>, test: string, excluded: seq<string>)
    requires Lists(pairs, map[name := tests], excluded)
    ensures Lists(
      if name + "/" + test in excluded then pairs else pairs + [Pair(test, name)], map[name := tests + [test]],
        excluded)
  {
    var more := if name + "/" + test in excluded then pairs else pairs + [Pair(test, name)];
    forall p ensures multiset(more)[p] == Times(p, map[name := tests + [test]], excluded) {
      assert multiset(pairs)[p] == Times(p, map[name := tests], excluded);
      assert multiset(tests + [test]) == multiset(tests) + multiset{test};
    }
  }

  /** Go visits the suites of a map in any order. */
  method ListPairs(m: Mapping, excluded: seq<string>) returns (pairs: seq<Pair>)
    ensures Lists(pairs, m, excluded)
  {
    pairs := [];
    var todo, done := m.Keys, {};
    while todo != {}
      invariant todo + done == m.Keys && todo !! done
      invariant Lists(pairs, map name | name in m && name in done :: m[name], excluded)
      decreases todo
    {
      var name :| name in todo;
      var more := ListSuite(name, m[name], excluded);
      ListsAdd(pairs, more, m, done, name, excluded);
      pairs := pairs + more;
      todo, done := todo - {name}, done + {name};
    }
    assert (map name | name in m && name in done :: m[name]) == m;
  }

  lemma ListsAdd(
    pairs: seq<Pair>, more: seq<Pair>, m: Mapping, done: set<string>, name: string, excluded: seq<string>)
    requires name in m && name !in done
    requires Lists(pairs, map s | s in m && s in done :: m[s], excluded) && Lists(more, map[name := m[name]], excluded)
    ensures Lists(pairs + more, map s | s in m && s in done + {name} :: m[s], excluded)
  {
    forall p ensures multiset(pairs + more)[p] == Times(p, map s | s in m && s in done + {name} :: m[s], excluded) {
      assert multiset(pairs + more)[p] == multiset(pairs)[p] + multiset(more)[p];
    }
  }

  // Order

  predicate StringLe(a: string, b: string) {
    a == [] || (b != [] && (a[0] < b[0] || (a[0] == b[0] && StringLe(a[1..], b[1..]))))
  }

  predicate PairLe(p: Pair, q: Pair) {
    if p.entryPoint != q.entryPoint then StringLe(p.entryPoint, q.entryPoint) else StringLe(p.test, q.test)
  }

  ghost predicate Sorted(s: seq<Pair>) {
    forall i, j :: 0 <= i < j < |s| ==> PairLe(s[i], s[j])
  }

  lemma {:induction false} StringLeTotal(a: string, b: string)
    ensures StringLe(a, b) || StringLe(b, a)
    ensures StringLe(a, b) && StringLe(b, a) ==> a == b
  {
    if a != [] && b != [] {
      StringLeTotal(a[1..], b[1..]);
      assert a == [a[0]] + a[1..] && b == [b[0]] + b[1..];
    }
  }

  lemma {:induction false} StringLeTransitive(a: string, b: string, c: string)
    requires StringLe(a, b) && StringLe(b, c)
    ensures StringLe(a, c)
  {
    if a != [] && a[0] == b[0] == c[0] {
      StringLeTransitive(a[1..], b[1..], c[1..]);
    }
  }

  /** Strings are ordered as dictionaries order words. */
  lemma {:induction false} StringLeIs(a: string, b: string)
    ensures StringLe(a, b) <==> a <= b || exists k :: DiffersAt(a, b, k) && a[k] < b[k]
  {
    if a != [] && b != [] {
      StringLeIs(a[1..], b[1..]);
      if a[0] == b[0] {
        if k :| DiffersAt(a[1..], b[1..], k) && a[1..][k] < b[1..][k] {
          DiffersLater(a, b, k);
        }
        if k :| DiffersAt(a, b, k) && a[k] < b[k] {
          DiffersLater(a, b, k - 1);
        }
        assert a <= b <==> a[1..] <= b[1..];
      } else if a[0] < b[0] {
        assert DiffersAt(a, b, 0);
      }
    }
  }

  lemma DiffersLater(a: string, b: string, k: int)
    requires a != [] && b != [] && a[0] == b[0] && k >= 0
    ensures DiffersAt(a, b, k + 1) <==> DiffersAt(a[1..], b[1..], k)
  {
    if k < |a| - 1 && k < |b| - 1 {
      assert a[..k + 1] == [a[0]] + a[1..][..k];
      assert b[..k + 1] == [b[0]] + b[1..][..k];
      assert a[1..][..k] == a[..k + 1][1..] && b[1..][..k] == b[..k + 1][1..];
    }
  }

  ghost predicate DiffersAt(a: string, b: string, k: int) {
    0 <= k < |a| && k < |b| && a[..k] == b[..k] && a[k] != b[k]
  }

  /** Sorted means by entry point first, and by test within an entry point. */
  lemma SortedMeans(s: seq<Pair>, i: nat, j: nat)
    requires Sorted(s) && i < j < |s|
    ensures StringLe(s[i].entryPoint, s[j].entryPoint)
    ensures s[i].entryPoint == s[j].entryPoint ==> StringLe(s[i].test, s[j].test)
  {
    StringLeTotal(s[i].entryPoint, s[i].entryPoint);
    assert PairLe(s[i], s[j]);
  }

  lemma PairLeTotal(p: Pair, q: Pair)
    ensures PairLe(p, q) || PairLe(q, p)
    ensures PairLe(p, q) && PairLe(q, p) ==> p == q
  {
    StringLeTotal(p.entryPoint, q.entryPoint);
    StringLeTotal(p.test, q.test);
  }

  lemma PairLeTransitive(p: Pair, q: Pair, r: Pair)
    requires PairLe(p, q) && PairLe(q, r)
    ensures PairLe(p, r)
  {
    StringLeTotal(p.entryPoint, q.entryPoint);
    StringLeTotal(q.entryPoint, r.entryPoint);
    if p.entryPoint == q.entryPoint == r.entryPoint {
      StringLeTransitive(p.test, q.test, r.test);
    } else if p.entryPoint != q.entryPoint && q.entryPoint != r.entryPoint {
      StringLeTransitive(p.entryPoint, q.entryPoint, r.entryPoint);
    }
  }

  /** Puts `p` where it belongs in a sorted list. */
  method Insert(s: seq<Pair>, p: Pair) returns (r: seq<Pair>)
    requires Sorted(s)
    ensures Sorted(r) && multiset(r) == multiset(s) + multiset{p}
  {
    var i := 0;
    while i < |s| && PairLe(s[i], p)
      invariant i <= |s| && forall j :: 0 <= j < i ==> PairLe(s[j], p)
    {
      i := i + 1;
    }
    assert s == s[..i] + s[i..];
    r := s[..i] + [p] + s[i..];
    forall j | i <= j < |s| ensures PairLe(p, s[j]) {
      PairLeTotal(s[i], p);
      if i < j {
        PairLeTransitive(p, s[i], s[j]);
      }
    }
  }

  /** Stands for the library's sort, of which only this contract matters. */
  method Sort(s: seq<Pair>) returns (r: seq<Pair>)
    ensures Sorted(r) && multiset(r) == multiset(s)
  {
    r := [];
    for i := 0 to |s|
      invariant Sorted(r) && multiset(r) == multiset(s[..i])
    {
      assert s[..i + 1] == s[..i] + [s[i]];
      r := Insert(r, s[i]);
    }
    assert s[..|s|] == s;
  }

  lemma {:induction false} SortedUnique(a: seq<Pair>, b: seq<Pair>)
    requires Sorted(a) && Sorted(b) && multiset(a) == multiset(b)
    ensures a == b
  {
    hide PairLe;
    if a == [] {
      assert |multiset(b)| == 0;
    } else {
      assert |multiset(a)| == |multiset(b)|;
      FirstIsLeast(a, b[0]);
      FirstIsLeast(b, a[0]);
      PairLeTotal(a[0], b[0]);
      assert a == [a[0]] + a[1..] && b == [b[0]] + b[1..];
      assert multiset(a[1..]) == multiset(a) - multiset{a[0]};
      assert multiset(b[1..]) == multiset(b) - multiset{b[0]};
      SortedUnique(a[1..], b[1..]);
    }
  }

  lemma FirstIsLeast(s: seq<Pair>, p: Pair)
    requires Sorted(s) && p in multiset(s)
    ensures PairLe(s[0], p)
  {
    PairLeTotal(s[0], s[0]);
    var i :| 0 <= i < |s| && s[i] == p;
  }

  // The result

  /** The list the source promises for a mapping: sorted, every test as often as it must be there. */
  ghost predicate IsMatrix(pairs: seq<Pair>, m: Mapping, excluded: seq<string>) {
    Sorted(pairs) && Lists(pairs, m, excluded)
  }

  /** `None` for the source's errors: an unreadable directory or file, a file with two suites, or no test at all. */
  method GetMatrix(entries: seq<Entry>, suite: string, excluded: seq<string>)
    returns (r: Option<seq<Pair>>, ghost m: Mapping)
    ensures r.Some? ==> forall i :: 0 <= i < |entries| ==> !Fatal(entries[i])
    ensures r.Some? ==> LastFileWins(entries, suite, excluded, m) && IsMatrix(r.value, m, excluded) && r.value != []
    ensures r.None? ==>
      (exists i :: 0 <= i < |entries| && Fatal(entries[i]))
      || (LastFileWins(entries, suite, excluded, m) && forall p :: Times(p, m, excluded) == 0)
  {
    m := map[];
    var mapping := WalkFiles(entries, suite, excluded);
    if mapping.None? {
      return None, m;
    }
    m := mapping.value;
    var pairs := ListPairs(mapping.value, excluded);
    if pairs == [] {
      assert forall p :: multiset(pairs)[p] == 0;
      return None, m;
    }
    var sorted := Sort(pairs);
    assert |multiset(sorted)| == |multiset(pairs)|;
    return Some(sorted), m;
  }

  /** Whatever the iteration order, the mapping and the list are the same. */
  lemma MatrixIsUnique(
    entries: seq<Entry>, suite: string, excluded: seq<string>, m: Mapping, n: Mapping, a: seq<Pair>, b: seq<Pair>)
    requires LastFileWins(entries, suite, excluded, m) && LastFileWins(entries, suite, excluded, n)
    requires IsMatrix(a, m, excluded) && IsMatrix(b, n, excluded)
    ensures m == n && a == b
  {
    hide LastFileWins, Sorted, Lists;
    SameMapping(entries, suite, excluded, m, n);
    SameMapping(entries, suite, excluded, n, m);
    assert m == n;
    SameCounts(a, b, m, excluded);
    SortedUnique(a, b);
  }

  /** The test is declared in the file, by a function that is a suite test and does not itself start a suite. */
  lemma {:induction false} TestsAre(decls: seq<Decl>, name: string)
    ensures name in SuiteTests(decls) <==>
      exists d :: d in decls && d.FuncDecl? && d.f.name == name && IsSuiteTest(d.f) && !IsSuiteEntrypoint(d.f)
  {
    if decls != [] {
      var k := |decls| - 1;
      TestsAre(decls[..k], name);
      assert decls == decls[..k] + [decls[k]];
    }
  }

  /** What is listed: every test of the last `_test.go` file that declares a suite, unless the suite or the test is
      excluded or another suite was asked for. */
  lemma ListedMeans(
    entries: seq<Entry>, suite: string, excluded: seq<string>, m: Mapping, pairs: seq<Pair>, p: Pair)
    requires LastFileWins(entries, suite, excluded, m) && IsMatrix(pairs, m, excluded)
    requires forall i :: 0 <= i < |entries| ==> !Fatal(entries[i])
    ensures p in pairs <==>
      && p.entryPoint !in excluded && p.entryPoint + "/" + p.test !in excluded
      && (suite == "" || suite == p.entryPoint)
      && exists i :: LastDeclares(entries, i, p.entryPoint) && p.test in SuiteTests(entries[i].file.value)
  {
    assert p in pairs <==> p in multiset(pairs);
    assert p in multiset(pairs) <==> Times(p, m, excluded) > 0;
    if p.entryPoint in m {
      var i: nat :| IsLast(entries, suite, excluded, i, p.entryPoint, m[p.entryPoint]);
      assert LastDeclares(entries, i, p.entryPoint);
      assert m[p.entryPoint] == SuiteTests(entries[i].file.value);
      assert p.test in m[p.entryPoint] <==> p.test in multiset(m[p.entryPoint]);
      assert forall j :: LastDeclares(entries, j, p.entryPoint) ==> j == i;
    } else if p.entryPoint !in excluded && (suite == "" || suite == p.entryPoint) {
      forall i | 0 <= i < |entries| ensures !Declares(entries[i], p.entryPoint) {
        DeclaredIsSelected(entries[i], suite, excluded, p.entryPoint);
      }
    }
  }

  /** File `i` is the last one visited whose one function that starts a suite has this name. */
  ghost predicate LastDeclares(entries: seq<Entry>, i: int, name: string) {
    0 <= i < |entries| && Declares(entries[i], name) && forall j :: i < j < |entries| ==> !Declares(entries[j], name)
  }

  predicate Declares(e: Entry, name: string) {
    !e.isDir && HasSuffix(e.path, "_test.go") && e.file.Ok? && Entrypoints(e.file.value) == [name]
  }

  lemma DeclaredIsSelected(e: Entry, suite: string, excluded: seq<string>, name: string)
    ensures !Fatal(e) && Declares(e, name) && name !in excluded && (suite == "" || suite == name) ==>
      Contributes(e, suite, excluded) && Extract(e.file.value).name == name
  {
  }

  lemma SameCounts(a: seq<Pair>, b: seq<Pair>, m: Mapping, excluded: seq<string>)
    requires Lists(a, m, excluded) && Lists(b, m, excluded)
    ensures multiset(a) == multiset(b)
  {
    forall p ensures multiset(a)[p] == multiset(b)[p] {
    }
  }

  lemma SameMapping(entries: seq<Entry>, suite: string, excluded: seq<string>, m: Mapping, n: Mapping)
    requires LastFileWins(entries, suite, excluded, m) && LastFileWins(entries, suite, excluded, n)
    ensures forall name :: name in m ==> name in n && n[name] == m[name]
  {
    hide Contributes, Extract;
    forall name | name in m ensures name in n && n[name] == m[name] {
      var i: nat :| IsLast(entries, suite, excluded, i, name, m[name]);
      var j: nat :| IsLast(entries, suite, excluded, j, name, n[name]);
      LastUnique(entries, suite, excluded, i, j, name, m[name], n[name]);
    }
  }

  lemma LastUnique(
    entries: seq<Entry>, suite: string, excluded: seq<string>, i: nat, j: nat, name: string, tests: seq<string>,
    tests': seq<string>)
    requires IsLast(entries, suite, excluded, i, name, tests) && IsLast(entries, suite, excluded, j, name, tests')
    ensures tests == tests'
  {
  }
}
