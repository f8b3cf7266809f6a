// The packages whose licenses ship with the program: everything the root package
// reaches through normal or build dependencies, found with a worklist.
module CargoClosure {
  import opened Prelude
  import opened Ordering

  // ------------------------------------------------------------- data model

  // One entry of a dependency's list of kinds; a kind that is null means normal.
  datatype KindEntry = KindEntry(kind: Option<string>) | NotAnObject

  datatype Dependency = Dependency(pkg: string, kinds: Option<seq<KindEntry>>) | NotADependency

  datatype Node = Node(deps: Option<seq<Dependency>>, features: Option<seq<string>>)

  datatype Package = Package(name: string, version: string, source: Option<string>)

  datatype Graph = Graph(packages: map<string, Package>, nodes: map<string, Node>, root: string)

  datatype Row = Row(id: string, package: Package, kinds: seq<string>, features: seq<string>)

  // ----------------------------------------------------------- specification

  function KindName(e: KindEntry): string
    requires e.KindEntry?
  {
    if e.kind.None? then "normal" else e.kind.value
  }

  function ActiveKinds(d: Dependency): set<string>
    requires d.Dependency? && d.kinds.Some?
  {
    (set e | e in d.kinds.value && e.KindEntry? :: KindName(e)) * {"normal", "build"}
  }

  predicate BadDependency(g: Graph, d: Dependency) {
    d.NotADependency? || d.pkg !in g.packages || d.kinds.None?
  }

  // The metadata about this package cannot be used.
  predicate Malformed(g: Graph, id: string) {
    || id !in g.nodes
    || g.nodes[id].deps.None?
    || exists d :: d in g.nodes[id].deps.value && BadDependency(g, d)
  }

  predicate DependsBy(d: Dependency, to: string, kind: string) {
    d.Dependency? && d.kinds.Some? && d.pkg == to && kind in ActiveKinds(d)
  }

  predicate EdgeOf(g: Graph, from: string, to: string, kind: string) {
    from in g.nodes && g.nodes[from].deps.Some? && exists d :: d in g.nodes[from].deps.value && DependsBy(d, to, kind)
  }

  ghost predicate Edge(g: Graph, from: string, to: string) {
    exists kind :: EdgeOf(g, from, to, kind)
  }

  // The entry is on the list of the dependency's kinds.
  predicate NamesKind(d: Dependency, e: KindEntry) {
    d.Dependency? && d.kinds.Some? && e in d.kinds.value
  }

  // Only normal and build dependencies count, and a kind that is null is normal.
  lemma NormalAndBuildCount(d: Dependency, to: string, kind: string)
    ensures DependsBy(d, to, kind) <==>
            && d.Dependency? && d.pkg == to
            && ((kind == "normal" && (NamesKind(d, KindEntry(None)) || NamesKind(d, KindEntry(Some("normal")))))
                || (kind == "build" && NamesKind(d, KindEntry(Some("build")))))
  {
    assert "normal"[0] != "build"[0];
    if d.Dependency? && d.kinds.Some? {
      if NamesKind(d, KindEntry(None)) {
        assert KindName(KindEntry(None)) in ActiveKinds(d);
      }
      if NamesKind(d, KindEntry(Some("normal"))) {
        assert KindName(KindEntry(Some("normal"))) in ActiveKinds(d);
      }
      if NamesKind(d, KindEntry(Some("build"))) {
        assert KindName(KindEntry(Some("build"))) in ActiveKinds(d);
      }
    }
  }

  ghost predicate IsPath(g: Graph, path: seq<string>) {
    path != [] && path[0] == g.root && forall i :: 0 <= i < |path| - 1 ==> Edge(g, path[i], path[i + 1])
  }

  ghost predicate Reachable(g: Graph, id: string) {
    exists path :: IsPath(g, path) && path[|path| - 1] == id
  }

  // Some reachable package depends on `to` in this way.
  ghost predicate NeededAs(g: Graph, to: string, kind: string) {
    exists from :: Reachable(g, from) && EdgeOf(g, from, to, kind)
  }

  lemma RootIsReachable(g: Graph)
    ensures Reachable(g, g.root)
  {
    assert IsPath(g, [g.root]) && [g.root][0] == g.root;
  }

  lemma EdgesReach(g: Graph, from: string, to: string)
    requires Reachable(g, from) && Edge(g, from, to)
    ensures Reachable(g, to)
  {
    var path :| IsPath(g, path) && path[|path| - 1] == from;
    var longer := path + [to];
    assert IsPath(g, longer) && longer[|longer| - 1] == to;
  }

  // A set that holds the root and every target of its members' edges holds
  // whatever is reachable.
  lemma {:induction false} ClosedHoldsPath(g: Graph, closed: set<string>, path: seq<string>, n: nat)
    requires IsPath(g, path) && n < |path| && g.root in closed
    requires forall a, b :: a in closed && Edge(g, a, b) ==> b in closed
    ensures path[n] in closed
  {
    if n > 0 {
      ClosedHoldsPath(g, closed, path, n - 1);
    }
  }

  lemma ClosedHoldsAll(g: Graph, closed: set<string>, id: string)
    requires g.root in closed && Reachable(g, id)
    requires forall a, b :: a in closed && Edge(g, a, b) ==> b in closed
    ensures id in closed
  {
    var path :| IsPath(g, path) && path[|path| - 1] == id;
    ClosedHoldsPath(g, closed, path, |path| - 1);
  }

  // ------------------------------------------------------------- the worklist

  predicate HasKind(kinds: map<string, set<string>>, id: string, kind: string) {
    id in kinds && kind in kinds[id]
  }

  function WithKinds(kinds: map<string, set<string>>, id: string, more: set<string>): map<string, set<string>> {
    kinds[id := (if id in kinds then kinds[id] else {}) + more]
  }

  // The variables of the search: what was found, why, and what is still to visit.
  datatype Work = Work(reachable: set<string>, kinds: map<string, set<string>>, stack: seq<string>)

  function Follow(w: Work, target: string, active: set<string>): Work {
    if active == {} then w
    else
      Work(w.reachable + {target}, WithKinds(w.kinds, target, active),
           if target in w.reachable then w.stack else w.stack + [target])
  }

  // What the first `n` dependencies of a package contribute.
  predicate AmongFirst(deps: seq<Dependency>, n: nat, to: string, kind: string)
    requires n <= |deps|
  {
    exists j :: 0 <= j < n && DependsBy(deps[j], to, kind)
  }

  // `x` is `w` after the first `n` dependencies were followed.
  ghost predicate Followed(deps: seq<Dependency>, n: nat, w: Work, x: Work)
    requires n <= |deps|
  {
    && w.reachable <= x.reachable
    && (forall b :: b in x.reachable <==> b in w.reachable || exists k :: AmongFirst(deps, n, b, k))
    && (forall b, k :: HasKind(x.kinds, b, k) <==> HasKind(w.kinds, b, k) || AmongFirst(deps, n, b, k))
    && |w.stack| <= |x.stack| && x.stack[..|w.stack|] == w.stack
    && forall b :: b in x.stack[|w.stack|..] <==> b in x.reachable - w.reachable
  }

  lemma FollowOn(deps: seq<Dependency>, n: nat, w: Work, x: Work)
    requires n < |deps| && deps[n].Dependency? && deps[n].kinds.Some? && Followed(deps, n, w, x)
    ensures Followed(deps, n + 1, w, Follow(x, deps[n].pkg, ActiveKinds(deps[n])))
  {
    var d := deps[n];
    var y := Follow(x, d.pkg, ActiveKinds(d));
    assert forall b, k :: AmongFirst(deps, n + 1, b, k) <==> AmongFirst(deps, n, b, k) || DependsBy(d, b, k);
    FollowReaches(x, d);
    FollowStacks(w, x, d.pkg, ActiveKinds(d));
    var m := n + 1;
    forall b
      ensures b in y.reachable <==> b in w.reachable || exists k :: AmongFirst(deps, m, b, k)
    {
      if k :| AmongFirst(deps, n, b, k) {
        assert AmongFirst(deps, n + 1, b, k);
      }
      if k :| DependsBy(d, b, k) {
        assert AmongFirst(deps, n + 1, b, k);
      }
      if k :| AmongFirst(deps, m, b, k) {
        assert AmongFirst(deps, n, b, k) || DependsBy(d, b, k);
      }
    }
  }

  lemma FollowReaches(x: Work, d: Dependency)
    requires d.Dependency? && d.kinds.Some?
    ensures var y := Follow(x, d.pkg, ActiveKinds(d));
            && (forall b :: b in y.reachable <==> b in x.reachable || exists k :: DependsBy(d, b, k))
            && (forall b, k :: HasKind(y.kinds, b, k) <==> HasKind(x.kinds, b, k) || DependsBy(d, b, k))
  {
    var active := ActiveKinds(d);
    if active != {} {
      var k :| k in active;
      assert DependsBy(d, d.pkg, k);
    }
  }

  lemma FollowStacks(w: Work, x: Work, target: string, active: set<string>)
    requires w.reachable <= x.reachable && |w.stack| <= |x.stack| && x.stack[..|w.stack|] == w.stack
    requires forall b :: b in x.stack[|w.stack|..] <==> b in x.reachable - w.reachable
    ensures var y := Follow(x, target, active);
            && |w.stack| <= |y.stack| && y.stack[..|w.stack|] == w.stack
            && forall b :: b in y.stack[|w.stack|..] <==> b in y.reachable - w.reachable
  {
    var y := Follow(x, target, active);
    if active != {} && target !in x.reachable {
      assert y.stack[|w.stack|..] == x.stack[|w.stack|..] + [target];
    }
  }

  // `x` is `w` after the package was visited.
  ghost predicate Visited(g: Graph, id: string, w: Work, x: Work) {
    && w.reachable <= x.reachable
    && (forall b :: b in x.reachable <==> b in w.reachable || Edge(g, id, b))
    && (forall b, k :: HasKind(x.kinds, b, k) <==> HasKind(w.kinds, b, k) || EdgeOf(g, id, b, k))
    && |w.stack| <= |x.stack| && x.stack[..|w.stack|] == w.stack
    && forall b :: b in x.stack[|w.stack|..] <==> b in x.reachable - w.reachable
  }

  lemma AllFollowed(g: Graph, id: string, w: Work, x: Work)
    requires id in g.nodes && g.nodes[id].deps.Some?
    requires Followed(g.nodes[id].deps.value, |g.nodes[id].deps.value|, w, x)
    ensures Visited(g, id, w, x)
  {
    var deps := g.nodes[id].deps.value;
    assert forall b, k :: AmongFirst(deps, |deps|, b, k) <==> EdgeOf(g, id, b, k);
  }

  // Handles one package taken from the worklist.
  method Visit(g: Graph, id: string, work: Work) returns (ok: bool, after: Work)
    ensures ok <==> !Malformed(g, id)
    ensures ok ==> Visited(g, id, work, after)
    ensures ok ==> after.reachable - work.reachable <= g.packages.Keys
  {
    after := work;
    if id !in g.nodes || g.nodes[id].deps.None? {
      return false, after;
    }
    hide Followed, Visited;
    var deps := g.nodes[id].deps.value;
    NothingFollowed(deps, work);
    for n := 0 to |deps|
      invariant forall j :: 0 <= j < n ==> !BadDependency(g, deps[j])
      invariant Followed(deps, n, work, after) && after.reachable - work.reachable <= g.packages.Keys
    {
      var dependency := deps[n];
      if dependency.NotADependency? || dependency.pkg !in g.packages || dependency.kinds.None? {
        assert dependency in deps && BadDependency(g, dependency);
        return false, after;
      }
      FollowOn(deps, n, work, after);
      after := Follow(after, dependency.pkg, ActiveKinds(dependency));
    }
    AllFollowed(g, id, work, after);
    ok := true;
  }

  lemma NothingFollowed(deps: seq<Dependency>, w: Work)
    ensures Followed(deps, 0, w, w)
  {
  }

  // What the search knows when every package it has left is on the stack.
  ghost predicate Explored(g: Graph, done: set<string>, w: Work) {
    && g.root in w.reachable
    && (forall a :: a in w.reachable ==> Reachable(g, a))
    && (forall a :: a in w.reachable <==> a in done || a in w.stack)
    && (forall a :: a in done ==> !Malformed(g, a))
    && (forall a, b :: a in done && Edge(g, a, b) ==> b in w.reachable)
    && (forall b, k :: HasKind(w.kinds, b, k) <==> exists a :: a in done && EdgeOf(g, a, b, k))
  }

  lemma VisitExplores(g: Graph, done: set<string>, w: Work, id: string, rest: seq<string>, x: Work)
    requires Explored(g, done, w) && w.stack == rest + [id]
    requires !Malformed(g, id) && Visited(g, id, w.(stack := rest), x)
    ensures Explored(g, done + {id}, x)
  {
    hide Edge, Reachable, EdgeOf, Malformed;
    assert id in w.stack;
    assert x.stack == rest + x.stack[|rest|..];
    forall a | a in x.reachable
      ensures Reachable(g, a)
    {
      if a !in w.reachable {
        EdgesReach(g, id, a);
      }
    }
  }

  method Search(g: Graph) returns (ok: bool, reachable: set<string>, kinds: map<string, set<string>>)
    ensures ok <==> forall id :: Reachable(g, id) ==> !Malformed(g, id)
    ensures ok ==> forall id :: id in reachable <==> Reachable(g, id)
    ensures ok ==> forall id, k :: HasKind(kinds, id, k) <==> NeededAs(g, id, k)
  {
    hide Malformed, Visited;
    var work := Work({g.root}, map[], [g.root]);
    ghost var done: set<string> := {};
    RootIsReachable(g);
    while work.stack != []
      invariant Explored(g, done, work)
      invariant work.reachable <= g.packages.Keys + {g.root}
      decreases |g.packages.Keys + {g.root} - work.reachable|, |work.stack|
    {
      var rest := work.stack[..|work.stack| - 1];
      var id := work.stack[|work.stack| - 1];
      ghost var was := work;
      var visited, after := Visit(g, id, work.(stack := rest));
      assert id in work.stack;
      if !visited {
        return false, work.reachable, work.kinds;
      }
      VisitExplores(g, done, work, id, rest, after);
      VisitShrinks(g, id, was, rest, after);
      done := done + {id};
      work := after;
    }
    forall id | Reachable(g, id) ensures id in work.reachable { ClosedHoldsAll(g, work.reachable, id); }
    return true, work.reachable, work.kinds;
  }

  lemma VisitShrinks(g: Graph, id: string, w: Work, rest: seq<string>, x: Work)
    requires Visited(g, id, w.(stack := rest), x) && |rest| < |w.stack|
    requires w.reachable <= g.packages.Keys + {g.root} && x.reachable - w.reachable <= g.packages.Keys
    ensures x.reachable <= g.packages.Keys + {g.root}
    ensures var all := g.packages.Keys + {g.root};
            |all - x.reachable| < |all - w.reachable|
            || (all - x.reachable == all - w.reachable && |x.stack| < |w.stack|)
  {
    var all := g.packages.Keys + {g.root};
    if x.reachable == w.reachable {
      HeadIsIn(x.stack[|rest|..]);
    } else {
      var b :| b in x.reachable && b !in w.reachable;
      assert b in all - w.reachable && b !in all - x.reachable;
      assert all - x.reachable <= all - w.reachable - {b};
      SubsetIsSmaller(all - x.reachable, all - w.reachable - {b});
    }
  }

  lemma HeadIsIn(s: seq<string>)
    ensures s != [] ==> s[0] in s
  {
  }

  // -------------------------------------------------------------- the result

  function Key(r: Row): (string, string, string) {
    (r.package.name, r.package.version, if r.package.source.Some? then r.package.source.value else "")
  }

  predicate RowBefore(a: Row, b: Row) {
    var x, y := Key(a), Key(b);
    Before(x.0, y.0) || (x.0 == y.0 && (Before(x.1, y.1) || (x.1 == y.1 && Before(x.2, y.2))))
  }

  lemma RowsAreOrdered()
    ensures IsOrder(RowBefore)
  {
    forall a, b ensures RowBefore(a, b) ==> !RowBefore(b, a) {
      ComponentOrder(a, b);
    }
    forall a, b, c ensures !RowBefore(b, a) && !RowBefore(c, b) ==> !RowBefore(c, a) {
      RowsChain(a, b, c);
    }
  }

  lemma ComponentOrder(a: Row, b: Row)
    ensures RowBefore(a, b) ==> !RowBefore(b, a)
    ensures !RowBefore(b, a) ==> RowBefore(a, b) || Key(a) == Key(b)
  {
    hide Before;
    var x, y := Key(a), Key(b);
    BeforeIsTotal(x.0, y.0);
    BeforeIsTotal(x.1, y.1);
    BeforeIsTotal(x.2, y.2);
  }

  lemma BeforeChains(a: string, b: string, c: string)
    ensures Before(a, b) && Before(b, c) ==> Before(a, c)
  {
    if Before(a, b) && Before(b, c) {
      BeforeIsTransitive(a, b, c);
    }
  }

  lemma RowsChain(a: Row, b: Row, c: Row)
    ensures !RowBefore(b, a) && !RowBefore(c, b) ==> !RowBefore(c, a)
  {
    hide Before;
    var x, y, z := Key(a), Key(b), Key(c);
    BeforeIsTotal(x.0, y.0); BeforeIsTotal(y.0, z.0); BeforeIsTotal(x.0, z.0);
    BeforeIsTotal(x.1, y.1); BeforeIsTotal(y.1, z.1); BeforeIsTotal(x.1, z.1);
    BeforeIsTotal(x.2, y.2); BeforeIsTotal(y.2, z.2); BeforeIsTotal(x.2, z.2);
    BeforeChains(x.0, y.0, z.0); BeforeChains(x.1, y.1, z.1); BeforeChains(x.2, y.2, z.2);
  }

  // A package other than the root may be listed: it comes from a registry and its
  // features are known.
  predicate Listable(g: Graph, id: string) {
    && id in g.packages && g.packages[id].source.Some? && "registry+" <= g.packages[id].source.value
    && id in g.nodes && g.nodes[id].features.Some?
  }

  // The row says what is known of the package and how it is needed.
  ghost predicate RowOf(g: Graph, r: Row, id: string) {
    && Listable(g, id) && r.id == id && r.package == g.packages[id]
    && (forall kind :: kind in r.kinds <==> NeededAs(g, id, kind))
    && Ordered(Before, r.kinds) && (forall i, j :: 0 <= i < j < |r.kinds| ==> r.kinds[i] != r.kinds[j])
    && Ordered(Before, r.features) && multiset(r.features) == multiset(g.nodes[id].features.value)
  }

  function KindList(kinds: set<string>): seq<string> {
    (if "build" in kinds then ["build"] else []) + (if "normal" in kinds then ["normal"] else [])
  }

  lemma KindListIs(kinds: set<string>)
    requires kinds <= {"build", "normal"}
    ensures Ordered(Before, KindList(kinds))
    ensures forall kind :: kind in KindList(kinds) <==> kind in kinds
    ensures forall i, j :: 0 <= i < j < |KindList(kinds)| ==> KindList(kinds)[i] != KindList(kinds)[j]
  {
    assert "build"[0] == 'b' && "normal"[0] == 'n';
    assert !Before("normal", "build");
  }

  // The rows list these packages, each once, as RowOf says.
  ghost predicate Lists(g: Graph, listed: set<string>, rows: seq<Row>) {
    && (forall i :: 0 <= i < |rows| ==> rows[i].id in listed && RowOf(g, rows[i], rows[i].id))
    && (forall id :: id in listed ==> exists i :: 0 <= i < |rows| && rows[i].id == id)
    && Apart(SameId, rows)
  }

  predicate SameId(a: Row, b: Row) {
    a.id == b.id
  }

  lemma ListsOneMore(g: Graph, listed: set<string>, rows: seq<Row>, row: Row)
    requires Lists(g, listed, rows) && row.id !in listed && RowOf(g, row, row.id)
    ensures Lists(g, listed + {row.id}, rows + [row])
  {
    hide RowOf;
    var more := rows + [row];
    forall id | id in listed + {row.id}
      ensures exists i :: 0 <= i < |more| && more[i].id == id
    {
      if id == row.id {
        assert more[|rows|].id == id;
      } else {
        var i :| 0 <= i < |rows| && rows[i].id == id;
        assert more[i].id == id;
      }
    }
  }

  // Sorting the rows loses none and doubles none.
  lemma ListsSorted(g: Graph, listed: set<string>, rows: seq<Row>)
    requires Lists(g, listed, rows)
    ensures Lists(g, listed, SortBy(RowBefore, rows)) && Ordered(RowBefore, SortBy(RowBefore, rows))
  {
    hide RowOf, RowBefore;
    var sorted := SortBy(RowBefore, rows);
    RowsAreOrdered();
    SortByIs(RowBefore, rows);
    SortByApart(RowBefore, SameId, rows);
    forall i | 0 <= i < |sorted| ensures sorted[i].id in listed && RowOf(g, sorted[i], sorted[i].id) {
      assert sorted[i] in rows;
    }
    forall id | id in listed ensures exists i :: 0 <= i < |sorted| && sorted[i].id == id {
      var i :| 0 <= i < |rows| && rows[i].id == id;
      assert rows[i] in sorted;
    }
  }

  lemma RowIsRight(g: Graph, id: string, kinds: map<string, set<string>>, row: Row)
    requires Listable(g, id) && forall k :: HasKind(kinds, id, k) <==> NeededAs(g, id, k)
    requires row == Row(id, g.packages[id], KindList(if id in kinds then kinds[id] else {}),
                        SortBy(Before, g.nodes[id].features.value))
    ensures RowOf(g, row, id)
  {
    hide Reachable, Before;
    var mine := if id in kinds then kinds[id] else {};
    assert forall k :: k in mine <==> HasKind(kinds, id, k);
    forall k | k in mine ensures k in {"build", "normal"} {
      var from :| Reachable(g, from) && EdgeOf(g, from, id, k);
    }
    KindListIs(mine);
    BeforeIsOrder();
    SortByIs(Before, g.nodes[id].features.value);
  }

  // Exactly the packages the root needs, each once and in order, with the kinds
  // of dependency that need them; an error just when some reachable package's
  // metadata cannot be used or a needed one cannot be listed.
  method TargetClosure(g: Graph) returns (r: Result<seq<Row>>)
    ensures r.Ok? <==> forall id :: Reachable(g, id) ==> !Malformed(g, id) && (id == g.root || Listable(g, id))
    ensures r.Ok? ==> exists listed :: (forall id :: id in listed <==> Reachable(g, id) && id != g.root)
                                       && Lists(g, listed, r.value)
    ensures r.Ok? ==> Ordered(RowBefore, r.value)
  {
    hide Malformed, NeededAs, Reachable, Before, Lists, RowBefore, RowOf;
    var ok, reachable, kinds := Search(g);
    if !ok {
      return Err("resolved Cargo metadata is invalid");
    }
    var rest := reachable - {g.root};
    var rows: seq<Row> := [];
    ghost var listed: set<string> := {};
    NothingListed(g);
    while rest != {}
      invariant rest <= reachable - {g.root} && listed == reachable - {g.root} - rest
      invariant forall id :: id in listed ==> Listable(g, id)
      invariant Lists(g, listed, rows)
      decreases |rest|
    {
      var id :| id in rest;
      if id !in g.packages || g.packages[id].source.None? || !("registry+" <= g.packages[id].source.value) {
        return Err("non-registry dependency requires separate evidence");
      }
      if id !in g.nodes || g.nodes[id].features.None? {
        return Err("Cargo features are invalid");
      }
      var row := Row(id, g.packages[id], KindList(if id in kinds then kinds[id] else {}),
                     SortBy(Before, g.nodes[id].features.value));
      RowIsRight(g, id, kinds, row);
      ListsOneMore(g, listed, rows, row);
      rest, listed, rows := rest - {id}, listed + {id}, rows + [row];
    }
    ListsSorted(g, listed, rows);
    return Ok(SortBy(RowBefore, rows));
  }

  lemma NothingListed(g: Graph)
    ensures Lists(g, {}, [])
  {
  }
}
