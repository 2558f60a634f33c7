/** The order in which a process and its dependents are stopped
    (stopOrder in internal/supervisor/supervisor.go). */
module StopOrder {
  import opened DependencyGraph

  /** x is name itself or depends on it, directly or through other processes. */
  ghost predicate Reaches(deps: Deps, x: string, name: string) {
    exists p :: IsPath(deps, p) && p[0] == x && p[|p| - 1] == name
  }

  /** What a stop of name must cover, and in which order. */
  ghost predicate IsStopOrder(deps: Deps, name: string, order: seq<string>) {
    && Distinct(order)
    && (forall x :: x in order <==> x in deps && Reaches(deps, x, name))
    && DependentsFirst(deps, order)
  }

  lemma ReachesSelf(deps: Deps, name: string)
    ensures Reaches(deps, name, name)
  {
    assert IsPath(deps, [name]);
  }

  lemma ReachesStep(deps: Deps, x: string, y: string, name: string)
    requires Edge(deps, x, y) && Reaches(deps, y, name)
    ensures Reaches(deps, x, name)
  {
    var p :| IsPath(deps, p) && p[0] == y && p[|p| - 1] == name;
    var q := [x] + p;
    forall i | 0 <= i < |q| - 1 ensures Edge(deps, q[i], q[i + 1]) {
      if i > 0 { assert Edge(deps, p[i - 1], p[i - 1 + 1]); }
    }
    assert q[0] == x && q[|q| - 1] == name;
  }

  /** A process that reaches another one does so through one of its dependencies. */
  lemma ReachesThrough(deps: Deps, x: string, name: string) returns (y: string)
    requires Reaches(deps, x, name) && x != name
    ensures Edge(deps, x, y) && Reaches(deps, y, name)
  {
    var p :| IsPath(deps, p) && p[0] == x && p[|p| - 1] == name;
    assert Edge(deps, p[0], p[0 + 1]);
    y := p[1];
    var q := p[1..];
    forall i | 0 <= i < |q| - 1 ensures Edge(deps, q[i], q[i + 1]) {
      assert Edge(deps, p[i + 1], p[i + 1 + 1]);
    }
    assert q[0] == y && q[|q| - 1] == name;
  }

  lemma {:induction false} ReachesTransitive(deps: Deps, p: seq<string>, y: string, name: string)
    requires IsPath(deps, p) && p[|p| - 1] == y && Reaches(deps, y, name)
    ensures Reaches(deps, p[0], name)
    decreases |p|
  {
    if |p| > 1 {
      assert Edge(deps, p[0], p[0 + 1]);
      var q := p[1..];
      forall i | 0 <= i < |q| - 1 ensures Edge(deps, q[i], q[i + 1]) {
        assert Edge(deps, p[i + 1], p[i + 1 + 1]);
      }
      ReachesTransitive(deps, q, y, name);
      ReachesStep(deps, p[0], p[1], name);
    }
  }

  /** s holds, for every member outside base, all its dependents. */
  ghost predicate ClosedOver(deps: Deps, base: set<string>, s: set<string>) {
    forall x, y :: x in s && x !in base && Edge(deps, y, x) ==> y in s
  }

  /** Adds name and everything that depends on it to the selection. */
  method Select(deps: Deps, name: string, selected0: set<string>) returns (selected: set<string>)
    requires name in deps && selected0 <= deps.Keys
    ensures selected0 + {name} <= selected <= deps.Keys
    ensures ClosedOver(deps, selected0, selected)
    ensures forall x :: x in selected - selected0 ==> Reaches(deps, x, name)
    decreases deps.Keys - selected0
  {
    selected := selected0;
    if name in selected {
      return;
    }
    selected := selected + {name};
    ReachesSelf(deps, name);
    var dependents := DependentsOf(deps, name);
    var k := 0;
    while k < |dependents|
      invariant 0 <= k <= |dependents|
      invariant selected0 + {name} <= selected <= deps.Keys
      invariant ClosedOver(deps, selected0 + {name}, selected)
      invariant forall x :: x in selected - selected0 ==> Reaches(deps, x, name)
      invariant forall i :: 0 <= i < k ==> dependents[i] in selected
    {
      var dependent := dependents[k];
      assert Edge(deps, dependent, name);
      assert deps.Keys - selected < deps.Keys - selected0 by {
        assert name in deps.Keys - selected0 && name !in deps.Keys - selected;
      }
      var grown := Select(deps, dependent, selected);
      forall x | x in grown - selected0 ensures Reaches(deps, x, name) {
        if x !in selected {
          assert x in grown - selected;
          var p :| IsPath(deps, p) && p[0] == x && p[|p| - 1] == dependent;
          ReachesSelf(deps, name);
          ReachesStep(deps, dependent, name, name);
          ReachesTransitive(deps, p, dependent, name);
        }
      }
      selected := grown;
      k := k + 1;
    }
    forall y | Edge(deps, y, name) ensures y in selected {
      assert y in dependents;
    }
  }

  lemma {:induction false} ClosedContains(deps: Deps, selected: set<string>, p: seq<string>)
    requires IsPath(deps, p) && p[|p| - 1] in selected && ClosedOver(deps, {}, selected)
    ensures p[0] in selected
    decreases |p|
  {
    if |p| > 1 {
      var front := p[..|p| - 1];
      forall i | 0 <= i < |front| - 1 ensures Edge(deps, front[i], front[i + 1]) {
        assert Edge(deps, p[i], p[i + 1]);
      }
      assert Edge(deps, p[|p| - 2], p[|p| - 2 + 1]);
      ClosedContains(deps, selected, front);
    }
  }

  function Filtered(s: seq<string>, keep: set<string>): (r: seq<string>)
    ensures |r| <= |s|
  {
    if s == [] then []
    else
      var front := Filtered(s[..|s| - 1], keep);
      if s[|s| - 1] in keep then front + [s[|s| - 1]] else front
  }

  /** Filtering keeps the order, the members wanted, and nothing else. */
  lemma {:induction false} FilteredMeaning(deps: Deps, s: seq<string>, keep: set<string>)
    requires Distinct(s) && DependentsFirst(deps, s)
    ensures Distinct(Filtered(s, keep)) && DependentsFirst(deps, Filtered(s, keep))
    ensures forall x :: x in Filtered(s, keep) <==> x in s && x in keep
  {
    if s != [] {
      var front, last := s[..|s| - 1], s[|s| - 1];
      assert s == front + [last];
      forall i | 0 <= i < |front| ensures front[i] == s[i] && !Edge(deps, last, front[i]) {
      }
      assert DependentsFirst(deps, front);
      FilteredMeaning(deps, front, keep);
      assert last !in front;
      var kept := Filtered(front, keep);
      forall j | 0 <= j < |kept| ensures !Edge(deps, last, kept[j]) {
        assert kept[j] in front;
      }
      assert Edge(deps, last, last) ==> |s| - 1 < |s| - 1;
    }
  }

  /** The in-place filter over the array that holds the full order: the write index
      never overtakes the read index, so no unread element is overwritten. */
  method FilterInPlace(order: array<string>, selected: set<string>) returns (kept: nat)
    modifies order
    ensures kept <= order.Length && order[..kept] == Filtered(old(order[..]), selected)
  {
    kept := 0;
    var i := 0;
    while i < order.Length
      invariant 0 <= kept <= i <= order.Length
      invariant order[..kept] == Filtered(old(order[..])[..i], selected)
      invariant forall k :: i <= k < order.Length ==> order[k] == old(order[k])
    {
      assert old(order[..])[..i + 1][..i] == old(order[..])[..i];
      if order[i] in selected {
        order[kept] := order[i];
        kept := kept + 1;
      }
      i := i + 1;
    }
    assert old(order[..])[..i] == old(order[..]);
  }

  datatype OrderResult = Order(names: seq<string>) | UnknownProcess | BadGraph(error: GraphError)

  method ComputeStopOrder(deps: Deps, name: string) returns (r: OrderResult)
    ensures r.UnknownProcess? <==> name !in deps
    ensures r.Order? <==> name in deps && Valid(deps)
    ensures r.Order? ==> IsStopOrder(deps, name, r.names)
  {
    if name !in deps {
      return UnknownProcess;
    }
    var selected := Select(deps, name, {});
    var full := ReverseDependencyOrder(deps);
    if full.Err? {
      return BadGraph(full.error);
    }
    var order := new string[|full.value|](i requires 0 <= i < |full.value| => full.value[i]);
    assert order[..] == full.value;
    var kept := FilterInPlace(order, selected);
    FilteredMeaning(deps, full.value, selected);
    forall x | x in deps ensures x in selected <==> Reaches(deps, x, name) {
      if Reaches(deps, x, name) {
        var p :| IsPath(deps, p) && p[0] == x && p[|p| - 1] == name;
        ClosedContains(deps, selected, p);
      } else {
        assert x !in selected - {};
      }
    }
    r := Order(order[..kept]);
  }

  /** Stopping covers the dependents of everything it covers. */
  lemma StopOrderClosed(deps: Deps, name: string, order: seq<string>, x: string, y: string)
    requires IsStopOrder(deps, name, order) && x in order && Edge(deps, y, x)
    ensures y in order
  {
    ReachesStep(deps, y, x, name);
  }
}
