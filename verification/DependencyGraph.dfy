/** Dependency graph algorithms of internal/supervisor/graph.go: validation by
    three-colour depth-first search, layered topological sort, and the reverse
    order used for stopping. A graph maps each process to the processes it
    depends on. */
module DependencyGraph {

  type Deps = map<string, seq<string>>

  datatype GraphError =
    | SelfDependency(name: string)
    | UnknownDependency(name: string, dep: string)
    | DuplicateDependency(name: string, dep: string)
    | DependencyCycle(cycle: seq<string>)

  datatype Result<T> = Ok(value: T) | Err(error: GraphError)

  datatype Verdict = Accepted | Rejected(error: GraphError)

  // ---------- Sequences of names ----------

  ghost predicate Distinct(s: seq<string>) {
    forall i, j :: 0 <= i < j < |s| ==> s[i] != s[j]
  }

  /** s lists every member of names exactly once. */
  ghost predicate Enumerates(s: seq<string>, names: set<string>) {
    && Distinct(s)
    && (forall x :: x in s <==> x in names)
  }

  /** The byte order of sort.Strings. */
  predicate Less(a: string, b: string) {
    if b == "" then false
    else if a == "" then true
    else a[0] < b[0] || (a[0] == b[0] && Less(a[1..], b[1..]))
  }

  ghost predicate Ascending(s: seq<string>) {
    forall i, j :: 0 <= i < j < |s| ==> !Less(s[j], s[i])
  }

  lemma {:induction false} LessTransitive(a: string, b: string, c: string)
    requires !Less(b, a) && !Less(c, b)
    ensures !Less(c, a)
  {
    if a == "" || b == "" || c == "" {
    } else if a[0] == b[0] == c[0] {
      LessTransitive(a[1..], b[1..], c[1..]);
    }
  }

  lemma {:induction false} LessAsymmetric(a: string, b: string)
    requires Less(a, b)
    ensures !Less(b, a)
  {
    if a != "" && b != "" && a[0] == b[0] {
      LessAsymmetric(a[1..], b[1..]);
    }
  }

  /** Inserts x before the first element that is not smaller. */
  function Insert(s: seq<string>, x: string): (r: seq<string>)
    requires Ascending(s)
    ensures multiset(r) == multiset(s) + multiset{x}
    ensures Ascending(r)
  {
    if s == [] then [x]
    else if !Less(s[0], x) then
      InsertFront(s, x);
      [x] + s
    else
      var t := Insert(s[1..], x);
      InsertBack(s, x, t);
      [s[0]] + t
  }

  lemma InsertFront(s: seq<string>, x: string)
    requires Ascending(s) && s != [] && !Less(s[0], x)
    ensures Ascending([x] + s) && multiset([x] + s) == multiset(s) + multiset{x}
  {
    forall j | 0 <= j < |s| ensures !Less(s[j], x) {
      if j > 0 { LessTransitive(x, s[0], s[j]); }
    }
  }

  lemma InsertBack(s: seq<string>, x: string, t: seq<string>)
    requires Ascending(s) && s != [] && Less(s[0], x)
    requires Ascending(t) && multiset(t) == multiset(s[1..]) + multiset{x}
    ensures Ascending([s[0]] + t) && multiset([s[0]] + t) == multiset(s) + multiset{x}
  {
    assert s == [s[0]] + s[1..];
    LessAsymmetric(s[0], x);
    forall j | 0 <= j < |t| ensures !Less(t[j], s[0]) {
      assert t[j] in multiset(t);
      if t[j] != x {
        assert t[j] in multiset(s[1..]);
        assert t[j] in s[1..];
      }
    }
  }

  /** sort.Strings on a copy of s. */
  function SortStrings(s: seq<string>): (r: seq<string>)
    ensures multiset(r) == multiset(s)
    ensures Ascending(r)
  {
    if s == [] then []
    else
      assert s == s[..|s| - 1] + [s[|s| - 1]];
      Insert(SortStrings(s[..|s| - 1]), s[|s| - 1])
  }

  lemma SameMembers(a: seq<string>, b: seq<string>)
    requires multiset(a) == multiset(b)
    ensures forall x :: x in a <==> x in b
  {
    assert forall x :: x in a <==> x in multiset(a);
    assert forall x :: x in b <==> x in multiset(b);
  }

  lemma DistinctMultiset(s: seq<string>)
    ensures Distinct(s) <==> forall x :: x in multiset(s) ==> multiset(s)[x] == 1
  {
    if s != [] {
      var front, last := s[..|s| - 1], s[|s| - 1];
      assert s == front + [last];
      assert multiset(s) == multiset(front) + multiset{last};
      DistinctMultiset(front);
      assert forall x :: x in front <==> x in multiset(front);
      if Distinct(s) {
        assert last !in front;
        assert Distinct(front);
        forall x | x in multiset(s) ensures multiset(s)[x] == 1 {
          if x != last { assert x in multiset(front); }
        }
      } else {
        if Distinct(front) {
          assert last in front;
          assert multiset(s)[last] >= 2;
        } else {
          var x :| x in multiset(front) && multiset(front)[x] != 1;
          assert multiset(s)[x] >= 2;
        }
      }
    }
  }

  method SortedKeys(values: Deps) returns (keys: seq<string>)
    ensures Enumerates(keys, values.Keys) && Ascending(keys)
  {
    var collected: seq<string> := [];
    var left := values.Keys;
    while left != {}
      invariant left <= values.Keys
      invariant Enumerates(collected, values.Keys - left)
      decreases left
    {
      var key :| key in left;
      collected := collected + [key];
      left := left - {key};
    }
    keys := SortStrings(collected);
    SameMembers(keys, collected);
    DistinctMultiset(keys);
    DistinctMultiset(collected);
  }

  // ---------- Paths, cycles, orders ----------

  ghost predicate Edge(deps: Deps, a: string, b: string) {
    a in deps && b in deps[a]
  }

  ghost predicate IsPath(deps: Deps, p: seq<string>) {
    && p != []
    && forall i :: 0 <= i < |p| - 1 ==> Edge(deps, p[i], p[i + 1])
  }

  ghost predicate IsCycle(deps: Deps, p: seq<string>) {
    IsPath(deps, p) && |p| >= 2 && p[0] == p[|p| - 1]
  }

  ghost predicate Acyclic(deps: Deps) {
    forall p :: !IsCycle(deps, p)
  }

  ghost predicate Closed(deps: Deps) {
    forall a, b :: Edge(deps, a, b) ==> b in deps
  }

  ghost predicate SelfLoopFree(deps: Deps) {
    forall a :: !Edge(deps, a, a)
  }

  ghost predicate DuplicateFree(deps: Deps) {
    forall a :: a in deps ==> Distinct(deps[a])
  }

  /** What a configuration must satisfy to be accepted. */
  ghost predicate Valid(deps: Deps) {
    Closed(deps) && SelfLoopFree(deps) && DuplicateFree(deps) && Acyclic(deps)
  }

  /** order lists dependencies before dependents and is closed under dependencies. */
  ghost predicate Topological(deps: Deps, order: seq<string>) {
    && Distinct(order)
    && (forall x :: x in order ==> x in deps)
    && (forall i, d :: 0 <= i < |order| && Edge(deps, order[i], d) ==> d in order[..i])
  }

  lemma {:induction false} PathDescends(deps: Deps, order: seq<string>, p: seq<string>, at: nat)
    requires Topological(deps, order) && IsPath(deps, p)
    requires at < |order| && order[at] == p[0]
    ensures |p| >= 2 ==> exists k :: 0 <= k < at && order[k] == p[|p| - 1]
    decreases |p|
  {
    if |p| >= 2 {
      assert Edge(deps, p[0], p[0 + 1]);
      assert p[1] in order[..at];
      var k :| 0 <= k < at && order[k] == p[1];
      var q := p[1..];
      assert IsPath(deps, q) by {
        forall i | 0 <= i < |q| - 1 ensures Edge(deps, q[i], q[i + 1]) {
          assert Edge(deps, p[i + 1], p[i + 1 + 1]);
        }
      }
      PathDescends(deps, order, q, k);
    }
  }

  /** A graph with a full topological order has no cycle. */
  lemma TopologicalAcyclic(deps: Deps, order: seq<string>)
    requires Topological(deps, order) && (forall x :: x in deps ==> x in order)
    ensures Acyclic(deps)
  {
    forall p ensures !IsCycle(deps, p) {
      if IsCycle(deps, p) {
        assert Edge(deps, p[0], p[0 + 1]);
        var at :| 0 <= at < |order| && order[at] == p[0];
        PathDescends(deps, order, p, at);
        assert false;
      }
    }
  }

  // ---------- Validation ----------

  const White := 0
  const Grey := 1
  const Black := 2

  /** A Go map read: the zero value stands for a missing key. */
  function Colour(state: map<string, int>, name: string): int {
    if name in state then state[name] else White
  }

  /** Grey processes are exactly those on the stack, black ones exactly those
      already finished, and finishing order is topological. */
  ghost predicate Coloured(deps: Deps, state: map<string, int>, stack: seq<string>, finished: seq<string>) {
    && state.Keys <= deps.Keys
    && Topological(deps, finished)
    && Distinct(stack)
    && (forall x :: x in state ==> state[x] == Grey || state[x] == Black)
    && (forall x :: x in stack <==> Colour(state, x) == Grey)
    && (forall x :: x in finished <==> Colour(state, x) == Black)
  }

  lemma BeginVisit(deps: Deps, state: map<string, int>, stack: seq<string>, finished: seq<string>, name: string)
    requires Coloured(deps, state, stack, finished) && name in deps && Colour(state, name) == White
    ensures Coloured(deps, state[name := Grey], stack + [name], finished)
  {
    var grey, full := state[name := Grey], stack + [name];
    forall x ensures x in full <==> Colour(grey, x) == Grey {
      if x != name { assert x in full <==> x in stack; }
    }
    assert forall x :: x in finished <==> Colour(grey, x) == Black;
  }

  lemma ColouredFacts(deps: Deps, state: map<string, int>, stack: seq<string>, finished: seq<string>)
    requires Coloured(deps, state, stack, finished)
    ensures state.Keys <= deps.Keys
    ensures forall x :: x in stack <==> Colour(state, x) == Grey
    ensures forall x :: x in finished <==> Colour(state, x) == Black
    ensures forall x :: Colour(state, x) == White || Colour(state, x) == Grey || Colour(state, x) == Black
    ensures forall x :: x in state ==> Colour(state, x) != White
  {
  }

  lemma DependencyEdge(deps: Deps, name: string, dep: string)
    requires Closed(deps) && name in deps && dep in deps[name]
    ensures Edge(deps, name, dep) && dep in deps
  {
    assert Edge(deps, name, dep);
  }

  /** A grey process is always found on the stack. */
  method FindOnStack(stack: seq<string>, dep: string) returns (i: nat)
    requires dep in stack
    ensures i < |stack| && stack[i] == dep && dep !in stack[..i]
  {
    i := 0;
    while stack[i] != dep
      invariant i < |stack| && dep !in stack[..i]
      decreases |stack| - i
    {
      assert stack == stack[..i + 1] + stack[i + 1..];
      assert stack[..i + 1] == stack[..i] + [stack[i]];
      i := i + 1;
    }
  }

  lemma VisitSmaller(all: set<string>, before: set<string>, after: set<string>, name: string)
    requires name in all && name !in before && before + {name} <= after
    ensures all - after < all - before
  {
    assert name in all - before && name !in all - after;
  }

  /** The three-colour depth-first search: a cycle it returns is a cycle, and a process it
      finishes comes after everything it depends on. */
  method VisitGraph(name: string, deps: Deps, state0: map<string, int>, stack0: seq<string>, ghost finished0: seq<string>)
    returns (cycle: seq<string>, state: map<string, int>, ghost finished: seq<string>)
    requires Closed(deps) && name in deps && Colour(state0, name) == White
    requires Coloured(deps, state0, stack0, finished0)
    requires IsPath(deps, stack0 + [name])
    ensures cycle != [] ==> IsCycle(deps, cycle)
    ensures cycle == [] ==>
              && Coloured(deps, state, stack0, finished)
              && state0.Keys <= state.Keys
              && name in finished
              && (forall x :: x in finished0 ==> x in finished)
    decreases deps.Keys - state0.Keys
  {
    hide Closed, Coloured, IsPath, IsCycle, Edge;
    BeginVisit(deps, state0, stack0, finished0, name);
    ColouredFacts(deps, state0, stack0, finished0);
    state := state0[name := Grey];
    finished := finished0;
    var stack := stack0 + [name];
    var processDeps := SortStrings(deps[name]);
    SameMembers(processDeps, deps[name]);
    var k := 0;
    while k < |processDeps|
      invariant 0 <= k <= |processDeps|
      invariant Coloured(deps, state, stack, finished)
      invariant state0.Keys + {name} <= state.Keys
      invariant forall x :: x in finished0 ==> x in finished
      invariant forall i :: 0 <= i < k ==> processDeps[i] in finished
    {
      var dep := processDeps[k];
      DependencyEdge(deps, name, dep);
      ColouredFacts(deps, state, stack, finished);
      if Colour(state, dep) == White {
        ExtendPath(deps, stack, dep);
        VisitSmaller(deps.Keys, state0.Keys, state.Keys, name);
        cycle, state, finished := VisitGraph(dep, deps, state, stack, finished);
        if cycle != [] {
          return;
        }
      } else if Colour(state, dep) == Grey {
        var i := FindOnStack(stack, dep);
        cycle := stack[i..] + [dep];
        CloseCycle(deps, stack, i, dep);
        return;
      }
      k := k + 1;
    }
    FinishVisit(deps, state, stack0, finished, name);
    state := state[name := Black];
    finished := finished + [name];
    cycle := [];
  }

  lemma ExtendPath(deps: Deps, p: seq<string>, next: string)
    requires IsPath(deps, p) && Edge(deps, p[|p| - 1], next)
    ensures IsPath(deps, p + [next])
  {
  }

  lemma CloseCycle(deps: Deps, stack: seq<string>, i: nat, dep: string)
    requires IsPath(deps, stack) && i < |stack| && stack[i] == dep && Edge(deps, stack[|stack| - 1], dep)
    ensures IsCycle(deps, stack[i..] + [dep])
  {
    var p := stack[i..] + [dep];
    forall k | 0 <= k < |p| - 1 ensures Edge(deps, p[k], p[k + 1]) {
      if k < |p| - 2 { assert Edge(deps, stack[i + k], stack[i + k + 1]); }
    }
  }

  lemma FinishVisit(deps: Deps, state: map<string, int>, stack: seq<string>, finished: seq<string>, name: string)
    requires name in deps && Coloured(deps, state, stack + [name], finished)
    requires forall d :: d in deps[name] ==> d in finished
    ensures Coloured(deps, state[name := Black], stack, finished + [name])
  {
    var order := finished + [name];
    var full := stack + [name];
    assert full[|stack|] == name;
    assert name in full && Colour(state, name) == Grey && name !in finished;
    forall i | 0 <= i < |stack| ensures stack[i] != name {
      assert full[i] != full[|stack|];
    }
    forall i, d | 0 <= i < |order| && Edge(deps, order[i], d) ensures d in order[..i] {
      if i < |finished| {
        assert order[..i] == finished[..i];
      } else {
        assert order[..i] == finished;
      }
    }
    assert Distinct(stack) by {
      forall i, j | 0 <= i < j < |stack| ensures stack[i] != stack[j] {
        assert full[i] != full[j];
      }
    }
    assert forall x :: x in stack <==> (x in full && x != name);
  }

  /** The list names b more than once. */
  ghost predicate Repeats(list: seq<string>, b: string) {
    exists i, j :: 0 <= i < j < |list| && list[i] == b == list[j]
  }

  /** What an error says about the graph. */
  ghost predicate Explains(deps: Deps, error: GraphError) {
    match error
    case SelfDependency(a) => Edge(deps, a, a)
    case UnknownDependency(a, b) => Edge(deps, a, b) && b !in deps
    case DuplicateDependency(a, b) => a in deps && Repeats(deps[a], b)
    case DependencyCycle(cycle) => IsCycle(deps, cycle)
  }

  /** The checks ValidateGraph makes on each list of dependencies. */
  method CheckDependencies(deps: Deps, names: seq<string>) returns (r: Verdict)
    requires Enumerates(names, deps.Keys)
    ensures r.Accepted? <==> Closed(deps) && SelfLoopFree(deps) && DuplicateFree(deps)
    ensures r.Rejected? ==> Explains(deps, r.error) && !r.error.DependencyCycle?
  {
    var n := 0;
    while n < |names|
      invariant 0 <= n <= |names|
      invariant forall i :: 0 <= i < n ==>
        && Distinct(deps[names[i]])
        && (forall d :: d in deps[names[i]] ==> d != names[i] && d in deps)
    {
      var name := names[n];
      var seen: set<string> := {};
      var k := 0;
      while k < |deps[name]|
        invariant 0 <= k <= |deps[name]|
        invariant forall x :: x in seen <==> x in deps[name][..k]
        invariant Distinct(deps[name][..k])
        invariant forall i :: 0 <= i < k ==> deps[name][i] != name && deps[name][i] in deps
      {
        var dep := deps[name][k];
        assert Edge(deps, name, dep);
        if name == dep {
          return Rejected(SelfDependency(name));
        }
        if dep !in deps {
          return Rejected(UnknownDependency(name, dep));
        }
        if dep in seen {
          assert dep in deps[name][..k];
          assert Repeats(deps[name], dep) && !Distinct(deps[name]) by {
            var i :| 0 <= i < k && deps[name][i] == dep;
          }
          return Rejected(DuplicateDependency(name, dep));
        }
        seen := seen + {dep};
        assert deps[name][..k + 1] == deps[name][..k] + [dep];
        k := k + 1;
      }
      assert deps[name][..k] == deps[name];
      n := n + 1;
    }
    forall a | a in deps ensures Distinct(deps[a]) && forall d :: d in deps[a] ==> d != a && d in deps {
      assert a in names;
    }
    r := Accepted;
  }

  lemma NothingColoured(deps: Deps)
    ensures Coloured(deps, map[], [], [])
  {
  }

  lemma CycleRejects(deps: Deps, cycle: seq<string>)
    requires IsCycle(deps, cycle)
    ensures !Valid(deps)
  {
  }

  lemma AcceptedIsValid(deps: Deps, state: map<string, int>, order: seq<string>)
    requires Closed(deps) && SelfLoopFree(deps) && DuplicateFree(deps)
    requires Coloured(deps, state, [], order) && forall x :: x in deps ==> x in order
    ensures Valid(deps) && Topological(deps, order) && Enumerates(order, deps.Keys)
  {
    TopologicalAcyclic(deps, order);
  }

  method ValidateGraph(deps: Deps) returns (r: Verdict, ghost order: seq<string>)
    ensures r.Accepted? <==> Valid(deps)
    ensures r.Accepted? ==> Topological(deps, order) && Enumerates(order, deps.Keys)
    ensures r.Rejected? ==> Explains(deps, r.error)
  {
    hide Closed, SelfLoopFree, DuplicateFree, Acyclic, Coloured, Topological, IsCycle, Edge;
    order := [];
    var names := SortedKeys(deps);
    r := CheckDependencies(deps, names);
    if r.Rejected? {
      return;
    }
    var state: map<string, int> := map[];
    NothingColoured(deps);
    var n := 0;
    while n < |names|
      invariant 0 <= n <= |names|
      invariant Coloured(deps, state, [], order)
      invariant forall i :: 0 <= i < n ==> names[i] in order
    {
      ColouredFacts(deps, state, [], order);
      if Colour(state, names[n]) == White {
        SinglePath(deps, names[n]);
        var cycle;
        cycle, state, order := VisitGraph(names[n], deps, state, [], order);
        if cycle != [] {
          CycleRejects(deps, cycle);
          return Rejected(DependencyCycle(cycle)), order;
        }
      }
      n := n + 1;
    }
    AcceptedIsValid(deps, state, order);
  }

  lemma SinglePath(deps: Deps, name: string)
    ensures IsPath(deps, [] + [name])
  {
  }

  // ---------- Layers ----------

  /** n occurs in one of the lowest `below` layers. */
  ghost predicate PlacedBelow(layers: seq<seq<string>>, below: int, n: string) {
    exists i :: 0 <= i < below && i < |layers| && n in layers[i]
  }

  ghost predicate Placed(layers: seq<seq<string>>, n: string) {
    PlacedBelow(layers, |layers|, n)
  }

  ghost predicate DependsInto(deps: Deps, n: string, layer: seq<string>) {
    n in deps && exists d :: d in deps[n] && d in layer
  }

  /** layer may stand at height `at`: non-empty, ascending and duplicate-free, none
      of its processes is in a lower layer, and each sits directly above its highest
      dependency. */
  ghost predicate LayerAt(deps: Deps, layers: seq<seq<string>>, at: int, layer: seq<string>) {
    && layer != [] && Distinct(layer) && Ascending(layer)
    && (forall n :: n in layer ==> n in deps && !PlacedBelow(layers, at, n))
    && (forall n, d :: n in layer && Edge(deps, n, d) ==> PlacedBelow(layers, at, d))
    && (0 < at <= |layers| ==> forall n :: n in layer ==> DependsInto(deps, n, layers[at - 1]))
  }

  ghost predicate Layered(deps: Deps, layers: seq<seq<string>>) {
    forall i :: 0 <= i < |layers| ==> LayerAt(deps, layers, i, layers[i])
  }

  method DependenciesDone(deps: seq<string>, done: set<string>) returns (r: bool)
    ensures r <==> forall d :: d in deps ==> d in done
  {
    var k := 0;
    while k < |deps|
      invariant 0 <= k <= |deps|
      invariant forall i :: 0 <= i < k ==> deps[i] in done
    {
      if deps[k] !in done {
        return false;
      }
      k := k + 1;
    }
    return true;
  }

  /** While something is left to place, some process has all dependencies placed. */
  lemma SomeReady(deps: Deps, order: seq<string>, done: set<string>) returns (ready: string)
    requires Topological(deps, order) && Enumerates(order, deps.Keys)
    requires done < deps.Keys
    ensures Ready(deps, done, ready)
  {
    var x :| x in deps && x !in done;
    assert x in order;
    var at :| 0 <= at < |order| && order[at] == x;
    while exists d :: d in deps[order[at]] && d !in done
      invariant 0 <= at < |order| && order[at] !in done
      decreases at
    {
      var d :| d in deps[order[at]] && d !in done;
      assert order[at] in order && Edge(deps, order[at], d);
      var k :| 0 <= k < at && order[k] == d;
      at := k;
    }
    ready := order[at];
  }

  lemma PlacedSnoc(layers: seq<seq<string>>, layer: seq<string>)
    ensures forall n :: Placed(layers + [layer], n) <==> Placed(layers, n) || n in layer
    ensures forall i, n :: i <= |layers| ==> (PlacedBelow(layers + [layer], i, n) <==> PlacedBelow(layers, i, n))
  {
    var all := layers + [layer];
    assert forall i :: 0 <= i < |layers| ==> all[i] == layers[i];
    forall n ensures Placed(all, n) <==> Placed(layers, n) || n in layer {
      if Placed(layers, n) {
        var i :| 0 <= i < |layers| && n in layers[i];
        assert n in all[i];
      }
      if n in layer { assert n in all[|layers|]; }
    }
    forall i, n | i <= |layers| ensures PlacedBelow(all, i, n) <==> PlacedBelow(layers, i, n) {
      if PlacedBelow(layers, i, n) {
        var k :| 0 <= k < i && k < |layers| && n in layers[k];
        assert n in all[k];
      }
    }
  }

  lemma LayeredSnoc(deps: Deps, layers: seq<seq<string>>, layer: seq<string>)
    requires Layered(deps, layers) && LayerAt(deps, layers, |layers|, layer)
    ensures Layered(deps, layers + [layer])
  {
    var all := layers + [layer];
    PlacedSnoc(layers, layer);
    forall i | 0 <= i < |all| ensures LayerAt(deps, all, i, all[i]) {
      if i < |layers| {
        assert LayerAt(deps, layers, i, layers[i]);
      }
    }
  }

  /** What the outer loop of StartupLayers keeps. */
  ghost predicate Layering(deps: Deps, layers: seq<seq<string>>, done: set<string>) {
    && done <= deps.Keys
    && Layered(deps, layers)
    && (forall n :: n in done <==> Placed(layers, n))
    && (forall n :: n in deps && n !in done && layers != [] ==> HasDepAbove(deps, layers, n))
  }

  /** n has a dependency that was still missing before the last layer. */
  ghost predicate HasDepAbove(deps: Deps, layers: seq<seq<string>>, n: string)
    requires n in deps
  {
    exists d :: d in deps[n] && !PlacedBelow(layers, |layers| - 1, d)
  }

  /** n is not done yet but all its dependencies are. */
  ghost predicate Ready(deps: Deps, done: set<string>, n: string) {
    n in deps && n !in done && forall d :: d in deps[n] ==> d in done
  }

  lemma ReadyLayerFits(deps: Deps, layers: seq<seq<string>>, done: set<string>, layer: seq<string>)
    requires Layering(deps, layers, done)
    requires layer != [] && Distinct(layer) && Ascending(layer)
    requires forall x :: x in layer ==> Ready(deps, done, x)
    ensures LayerAt(deps, layers, |layers|, layer)
  {
    forall n, d | n in layer && Edge(deps, n, d) ensures PlacedBelow(layers, |layers|, d) {
      assert Ready(deps, done, n);
      assert Placed(layers, d);
    }
    forall n | n in layer ensures n in deps && !PlacedBelow(layers, |layers|, n) {
      assert Ready(deps, done, n);
      assert !Placed(layers, n);
    }
    if layers != [] {
      forall n | n in layer ensures DependsInto(deps, n, layers[|layers| - 1]) {
        assert Ready(deps, done, n);
        assert HasDepAbove(deps, layers, n);
        var d :| d in deps[n] && !PlacedBelow(layers, |layers| - 1, d);
        assert Placed(layers, d);
        var i :| 0 <= i < |layers| && d in layers[i];
        assert i == |layers| - 1;
      }
    }
  }

  lemma AddLayer(deps: Deps, layers: seq<seq<string>>, done: set<string>, layer: seq<string>, done': set<string>)
    requires Layering(deps, layers, done)
    requires layer != [] && Distinct(layer) && Ascending(layer)
    requires forall x :: x in layer <==> Ready(deps, done, x)
    requires forall x :: x in done' <==> x in done || x in layer
    ensures Layering(deps, layers + [layer], done') && done < done'
  {
    var all := layers + [layer];
    PlacedSnoc(layers, layer);
    ReadyLayerFits(deps, layers, done, layer);
    LayeredSnoc(deps, layers, layer);
    forall n | n in deps && n !in done' ensures HasDepAbove(deps, all, n) {
      assert !Ready(deps, done, n);
      var d :| d in deps[n] && d !in done;
      assert !Placed(layers, d);
      assert !PlacedBelow(all, |all| - 1, d);
    }
    forall x | x in done' ensures x in deps {
      if x in layer { assert Ready(deps, done, x); }
    }
    assert layer[0] in layer;
    assert Ready(deps, done, layer[0]);
    assert layer[0] in done' && layer[0] !in done;
  }

  /** One round of StartupLayers: every process whose dependencies are all done. */
  method NextLayer(deps: Deps, done: set<string>) returns (layer: seq<string>)
    ensures Distinct(layer) && Ascending(layer)
    ensures forall x :: x in layer <==> Ready(deps, done, x)
  {
    layer := [];
    var names := SortedKeys(deps);
    var k := 0;
    while k < |names|
      invariant 0 <= k <= |names|
      invariant Distinct(layer) && Ascending(layer)
      invariant forall x :: x in layer <==> x in names[..k] && Ready(deps, done, x)
    {
      assert names[..k + 1] == names[..k] + [names[k]];
      if names[k] !in done {
        var ready := DependenciesDone(deps[names[k]], done);
        if ready {
          forall i | 0 <= i < |layer| ensures !Less(names[k], layer[i]) && layer[i] != names[k] {
            assert layer[i] in names[..k];
          }
          layer := layer + [names[k]];
        }
      }
      k := k + 1;
    }
    assert names[..k] == names;
  }

  method MarkDone(done: set<string>, layer: seq<string>) returns (grown: set<string>)
    ensures forall x :: x in grown <==> x in done || x in layer
  {
    grown := done;
    var k := 0;
    while k < |layer|
      invariant 0 <= k <= |layer|
      invariant forall x :: x in grown <==> x in done || x in layer[..k]
    {
      grown := grown + {layer[k]};
      k := k + 1;
    }
  }

  method StartupLayers(deps: Deps) returns (r: Result<seq<seq<string>>>)
    ensures r.Ok? <==> Valid(deps)
    ensures r.Ok? ==> Layered(deps, r.value) && forall n :: n in deps <==> Placed(r.value, n)
  {
    var checked, order := ValidateGraph(deps);
    if checked.Rejected? {
      return Err(checked.error);
    }
    var done: set<string> := {};
    var layers: seq<seq<string>> := [];
    while |done| < |deps|
      invariant Layering(deps, layers, done)
      decreases |deps.Keys| - |done|
    {
      assert done != deps.Keys && done <= deps.Keys by {
        assert |deps| == |deps.Keys|;
      }
      var layer := NextLayer(deps, done);
      var witnessed := SomeReady(deps, order, done);
      assert witnessed in layer;
      if |layer| == 0 {
        // "dependency graph could not be resolved" is unreachable.
        assert false;
      }
      var grown := MarkDone(done, layer);
      AddLayer(deps, layers, done, layer, grown);
      StrictSubsetSize(done, grown);
      StrictSubsetSize(grown, deps.Keys);
      done, layers := grown, layers + [layer];
    }
    assert |deps| == |deps.Keys| && done <= deps.Keys;
    StrictSubsetSize(done, deps.Keys);
    r := Ok(layers);
  }

  lemma StrictSubsetSize(a: set<string>, b: set<string>)
    requires a <= b
    ensures |a| <= |b| && (a != b ==> |a| < |b|)
  {
    assert b == a + (b - a);
    if a != b {
      assert b - a != {};
    }
  }

  // ---------- Depth of a layer ----------

  lemma {:induction false} ChainBound(deps: Deps, layers: seq<seq<string>>, p: seq<string>, at: nat)
    requires Layered(deps, layers) && IsPath(deps, p)
    requires at < |layers| && p[0] in layers[at]
    ensures |p| - 1 <= at
    decreases |p|
  {
    if |p| >= 2 {
      assert Edge(deps, p[0], p[0 + 1]);
      assert LayerAt(deps, layers, at, layers[at]);
      assert PlacedBelow(layers, at, p[1]);
      var k :| 0 <= k < at && k < |layers| && p[1] in layers[k];
      var q := p[1..];
      forall i | 0 <= i < |q| - 1 ensures Edge(deps, q[i], q[i + 1]) {
        assert Edge(deps, p[i + 1], p[i + 1 + 1]);
      }
      ChainBound(deps, layers, q, k);
    }
  }

  lemma {:induction false} ChainReaches(deps: Deps, layers: seq<seq<string>>, n: string, at: nat) returns (p: seq<string>)
    requires Layered(deps, layers) && at < |layers| && n in layers[at]
    ensures IsPath(deps, p) && p[0] == n && |p| - 1 == at
    decreases at
  {
    if at == 0 {
      p := [n];
    } else {
      assert LayerAt(deps, layers, at, layers[at]);
      assert DependsInto(deps, n, layers[at - 1]);
      var d :| d in deps[n] && d in layers[at - 1];
      var q := ChainReaches(deps, layers, d, at - 1);
      p := [n] + q;
      forall i | 0 <= i < |p| - 1 ensures Edge(deps, p[i], p[i + 1]) {
        if i > 0 { assert Edge(deps, q[i - 1], q[i - 1 + 1]); }
      }
    }
  }

  /** The layer of a process is the length of its longest dependency chain. */
  lemma LayerIsLongestChain(deps: Deps, layers: seq<seq<string>>, n: string, at: nat)
    requires Layered(deps, layers) && at < |layers| && n in layers[at]
    ensures exists p :: IsPath(deps, p) && p[0] == n && |p| - 1 == at
    ensures forall p :: IsPath(deps, p) && p[0] == n ==> |p| - 1 <= at
  {
    var p := ChainReaches(deps, layers, n, at);
    forall q | IsPath(deps, q) && q[0] == n ensures |q| - 1 <= at {
      ChainBound(deps, layers, q, at);
    }
  }

  /** No process sits in two layers. */
  lemma LayersDisjoint(deps: Deps, layers: seq<seq<string>>, n: string, i: nat, j: nat)
    requires Layered(deps, layers) && i < |layers| && j < |layers|
    requires n in layers[i] && n in layers[j]
    ensures i == j
  {
    assert LayerAt(deps, layers, i, layers[i]) && LayerAt(deps, layers, j, layers[j]);
    assert i < j ==> PlacedBelow(layers, j, n);
    assert j < i ==> PlacedBelow(layers, i, n);
  }

  // ---------- Orders ----------

  /** Every dependent comes before each of its dependencies. */
  ghost predicate DependentsFirst(deps: Deps, order: seq<string>) {
    forall i, j :: 0 <= i < |order| && 0 <= j < |order| && Edge(deps, order[i], order[j]) ==> i < j
  }

  /** Every dependency comes before each of its dependents. */
  ghost predicate DependenciesFirst(deps: Deps, order: seq<string>) {
    forall i, j :: 0 <= i < |order| && 0 <= j < |order| && Edge(deps, order[i], order[j]) ==> j < i
  }

  /** Extends an order that lists whole layers from `from` upwards, and the tail of
      the layer below, by one more process of that layer. */
  lemma AppendBelow(deps: Deps, layers: seq<seq<string>>, order: seq<string>, at: nat, n: string)
    requires Layered(deps, layers) && at < |layers| && n in layers[at]
    requires Distinct(order) && DependentsFirst(deps, order) && n !in order
    requires forall x :: x in order ==> x in deps && !PlacedBelow(layers, at, x)
    ensures Distinct(order + [n]) && DependentsFirst(deps, order + [n])
    ensures forall x :: x in order + [n] ==> x in deps && !PlacedBelow(layers, at, x)
  {
    var all := order + [n];
    forall j | 0 <= j < |all| ensures !Edge(deps, n, all[j]) {
      assert LayerAt(deps, layers, at, layers[at]);
      assert j < |order| ==> all[j] in order;
      assert j == |order| ==> !PlacedBelow(layers, at, n);
    }
  }

  lemma PlacedStep(layers: seq<seq<string>>, i: nat)
    requires i < |layers|
    ensures forall n :: PlacedBelow(layers, i + 1, n) <==> PlacedBelow(layers, i, n) || n in layers[i]
  {
    forall n | n in layers[i] ensures PlacedBelow(layers, i + 1, n) {
    }
  }

  lemma LayerFacts(deps: Deps, layers: seq<seq<string>>, i: nat)
    requires Layered(deps, layers) && i < |layers|
    ensures Distinct(layers[i]) && forall n :: n in layers[i] ==> n in deps && !PlacedBelow(layers, i, n)
  {
    assert LayerAt(deps, layers, i, layers[i]);
  }

  lemma NoDependents(deps: Deps)
    ensures DependentsFirst(deps, []) && DependenciesFirst(deps, [])
  {
  }

  method ReverseDependencyOrder(deps: Deps) returns (r: Result<seq<string>>)
    ensures r.Ok? <==> Valid(deps)
    ensures r.Ok? ==> Enumerates(r.value, deps.Keys) && DependentsFirst(deps, r.value)
  {
    hide Layered, LayerAt, DependentsFirst, Edge;
    var layered := StartupLayers(deps);
    if layered.Err? {
      return Err(layered.error);
    }
    var layers := layered.value;
    var order: seq<string> := [];
    NoDependents(deps);
    var i := |layers|;
    while i > 0
      invariant 0 <= i <= |layers|
      invariant Distinct(order) && DependentsFirst(deps, order)
      invariant forall x :: x in order <==> x in deps && !PlacedBelow(layers, i, x)
    {
      i := i - 1;
      var layer := layers[i];
      LayerFacts(deps, layers, i);
      PlacedStep(layers, i);
      var j := |layer|;
      while j > 0
        invariant 0 <= j <= |layer|
        invariant Distinct(order) && DependentsFirst(deps, order)
        invariant forall x :: x in order ==> x in deps && !PlacedBelow(layers, i, x)
        invariant forall x :: x in order <==> x in deps && !PlacedBelow(layers, i, x) && x !in layer[..j]
      {
        j := j - 1;
        assert layer[..j + 1] == layer[..j] + [layer[j]];
        assert layer[j] in layer[..j + 1];
        assert layer[j] !in layer[..j];
        AppendBelow(deps, layers, order, i, layer[j]);
        order := order + [layer[j]];
      }
    }
    r := Ok(order);
  }

  method DependentsOf(deps: Deps, name: string) returns (dependents: seq<string>)
    ensures Distinct(dependents) && Ascending(dependents)
    ensures forall x :: x in dependents <==> Edge(deps, x, name)
  {
    var collected: seq<string> := [];
    var left := deps.Keys;
    while left != {}
      invariant left <= deps.Keys
      invariant Distinct(collected)
      invariant forall x :: x in collected <==> x !in left && Edge(deps, x, name)
      decreases left
    {
      var process :| process in left;
      var k := 0;
      while k < |deps[process]|
        invariant 0 <= k <= |deps[process]|
        invariant name !in deps[process][..k]
      {
        if deps[process][k] == name {
          break;
        }
        k := k + 1;
      }
      if k < |deps[process]| {
        collected := collected + [process];
      }
      left := left - {process};
    }
    dependents := SortStrings(collected);
    SameMembers(dependents, collected);
    DistinctMultiset(dependents);
    DistinctMultiset(collected);
  }

  /** Nothing in the layers up to `at` depends on a process of layer `at`. */
  lemma NoneAbove(deps: Deps, layers: seq<seq<string>>, at: nat, n: string, x: string)
    requires Layered(deps, layers) && at < |layers| && n in layers[at] && PlacedBelow(layers, at + 1, x)
    ensures !Edge(deps, x, n)
  {
    var k :| 0 <= k < at + 1 && k < |layers| && x in layers[k];
    assert LayerAt(deps, layers, k, layers[k]) && LayerAt(deps, layers, at, layers[at]);
    PlacedUp(layers, k, at, n);
  }

  lemma PlacedUp(layers: seq<seq<string>>, below: nat, at: nat, n: string)
    requires below <= at
    ensures PlacedBelow(layers, below, n) ==> PlacedBelow(layers, at, n)
  {
  }

  lemma AppendAbove(deps: Deps, layers: seq<seq<string>>, order: seq<string>, at: nat, n: string)
    requires Layered(deps, layers) && at < |layers| && n in layers[at]
    requires Distinct(order) && DependenciesFirst(deps, order) && n !in order
    requires forall x :: x in order ==> PlacedBelow(layers, at + 1, x)
    ensures Distinct(order + [n]) && DependenciesFirst(deps, order + [n])
  {
    var all := order + [n];
    assert PlacedBelow(layers, at + 1, n);
    forall i | 0 <= i < |all| ensures !Edge(deps, all[i], n) {
      assert i < |order| ==> all[i] in order;
      NoneAbove(deps, layers, at, n, all[i]);
    }
  }

  lemma AllPlaced(deps: Deps, layers: seq<seq<string>>)
    ensures forall n :: Placed(layers, n) <==> PlacedBelow(layers, |layers|, n)
    ensures forall n :: !PlacedBelow(layers, 0, n)
  {
  }

  /** The order in which the initial start visits the processes: layer by layer. */
  method FlattenLayers(deps: Deps, layers: seq<seq<string>>) returns (names: seq<string>)
    requires Layered(deps, layers) && forall n :: n in deps <==> Placed(layers, n)
    ensures Enumerates(names, deps.Keys) && DependenciesFirst(deps, names)
  {
    hide Layered, LayerAt, DependenciesFirst, Edge;
    names := [];
    NoDependents(deps);
    AllPlaced(deps, layers);
    for i := 0 to |layers|
      invariant Distinct(names) && DependenciesFirst(deps, names)
      invariant forall x :: x in names <==> PlacedBelow(layers, i, x)
    {
      var layer := layers[i];
      LayerFacts(deps, layers, i);
      PlacedStep(layers, i);
      for j := 0 to |layer|
        invariant Distinct(names) && DependenciesFirst(deps, names)
        invariant forall x :: x in names <==> PlacedBelow(layers, i, x) || x in layer[..j]
      {
        assert layer[..j + 1] == layer[..j] + [layer[j]];
        assert layer[j] in layer && layer[j] !in layer[..j];
        assert forall x :: x in names ==> PlacedBelow(layers, i + 1, x);
        AppendAbove(deps, layers, names, i, layer[j]);
        names := names + [layer[j]];
      }
      assert layer[..|layer|] == layer;
    }
  }
}
