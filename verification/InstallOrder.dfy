/**
 The order in which features are installed: layer by layer, alphabetical within a layer. A
 requirement that is not among the manifests does not hold anything back.
 */
module InstallOrder {
  import opened Base

  type Manifests = map<string, seq<string>>

  // ---------------------------------------------------------------- names in alphabetical order

  predicate Before(a: string, b: string) {
    b != [] && (a == [] || a[0] < b[0] || (a[0] == b[0] && Before(a[1..], b[1..])))
  }

  lemma {:induction false} BeforeIsTotal(a: string, b: string)
    ensures Before(a, b) || a == b || Before(b, a)
    ensures !(Before(a, b) && Before(b, a)) && !(a == b && Before(a, b))
  {
    if a != [] && b != [] && a[0] == b[0] {
      BeforeIsTotal(a[1..], b[1..]);
      assert a == [a[0]] + a[1..] && b == [b[0]] + b[1..];
    }
  }

  lemma {:induction false} BeforeIsTransitive(a: string, b: string, c: string)
    requires Before(a, b) && Before(b, c)
    ensures Before(a, c)
  {
    if a != [] && a[0] == b[0] == c[0] {
      BeforeIsTransitive(a[1..], b[1..], c[1..]);
    }
  }

  ghost predicate Alphabetical(names: seq<string>) {
    forall i, j :: 0 <= i < j < |names| ==> Before(names[i], names[j])
  }

  /** The sorted names of a set. */
  method SortNames(names: set<string>) returns (sorted: seq<string>)
    ensures Alphabetical(sorted)
    ensures forall n :: n in sorted <==> n in names
  {
    sorted := [];
    var rest := names;
    while rest != {}
      invariant rest <= names
      invariant Alphabetical(sorted)
      invariant forall n :: n in sorted <==> n in names - rest
    {
      var n :| n in rest;
      sorted := InsertName(sorted, n);
      rest := rest - {n};
    }
  }

  method InsertName(sorted: seq<string>, name: string) returns (r: seq<string>)
    requires Alphabetical(sorted) && name !in sorted
    ensures Alphabetical(r)
    ensures forall n :: n in r <==> n in sorted || n == name
  {
    var i := 0;
    while i < |sorted| && Before(sorted[i], name)
      invariant 0 <= i <= |sorted|
      invariant forall k :: 0 <= k < i ==> Before(sorted[k], name)
    {
      i := i + 1;
    }
    forall k | i <= k < |sorted| ensures Before(name, sorted[k]) {
      BeforeIsTotal(name, sorted[i]);
      if k > i {
        BeforeIsTransitive(name, sorted[i], sorted[k]);
      }
    }
    r := sorted[..i] + [name] + sorted[i..];
  }

  // ---------------------------------------------------------------- requires chains

  /** A chain of `k` requirements that starts at `name`. */
  ghost predicate HasChain(m: Manifests, name: string, k: nat)
    decreases k
  {
    name in m && (k == 0 || exists dep :: dep in m[name] && HasChain(m, dep, k - 1))
  }

  lemma {:induction false} ShorterChain(m: Manifests, name: string, k: nat, j: nat)
    requires HasChain(m, name, k) && j <= k
    ensures HasChain(m, name, j)
    decreases k
  {
    if j > 0 {
      var dep :| dep in m[name] && HasChain(m, dep, k - 1);
      ShorterChain(m, dep, k - 1, j - 1);
    }
  }

  /** The longest chain of requirements from `name` has `k` of them. */
  ghost predicate Depth(m: Manifests, name: string, k: nat) {
    HasChain(m, name, k) && !HasChain(m, name, k + 1)
  }

  lemma DepthIsUnique(m: Manifests, name: string, k: nat, j: nat)
    requires Depth(m, name, k) && Depth(m, name, j)
    ensures k == j
  {
    if k < j {
      ShorterChain(m, name, j, k + 1);
    } else if j < k {
      ShorterChain(m, name, k, j + 1);
    }
  }

  lemma ChainThrough(m: Manifests, name: string, dep: string, k: nat)
    requires name in m && dep in m[name] && HasChain(m, dep, k)
    ensures HasChain(m, name, k + 1)
  {
  }

  /** A requirement that is itself a manifest lies strictly less deep. */
  lemma RequirementIsShallower(m: Manifests, name: string, dep: string, k: nat, j: nat)
    requires Depth(m, name, k) && Depth(m, dep, j) && dep in m[name]
    ensures j < k
  {
    ChainThrough(m, name, dep, j);
    if k < j + 1 {
      ShorterChain(m, name, j + 1, k + 1);
    }
  }

  /** Deeper later, and alphabetical at equal depth. */
  ghost predicate InOrder(m: Manifests, a: string, b: string) {
    exists k: nat, j: nat :: Depth(m, a, k) && Depth(m, b, j) && (k < j || (k == j && Before(a, b)))
  }

  ghost predicate IsInstallOrder(m: Manifests, order: seq<string>) {
    && (forall n :: n in order <==> n in m)
    && (forall i, j :: 0 <= i < j < |order| ==> InOrder(m, order[i], order[j]))
  }

  // ---------------------------------------------------------------- cycles

  ghost predicate IsWalk(m: Manifests, walk: seq<string>) {
    && (forall i :: 0 <= i < |walk| ==> walk[i] in m)
    && (forall i :: 0 <= i < |walk| - 1 ==> walk[i + 1] in m[walk[i]])
  }

  ghost predicate IsCycle(m: Manifests, walk: seq<string>) {
    IsWalk(m, walk) && |walk| >= 2 && walk[0] == walk[|walk| - 1]
  }

  ghost predicate IsCyclic(m: Manifests) {
    exists walk :: IsCycle(m, walk)
  }

  /** From a cycle there are chains of every length. */
  lemma {:induction false} CycleHasChains(m: Manifests, walk: seq<string>, i: nat, k: nat)
    requires IsCycle(m, walk) && i < |walk|
    ensures HasChain(m, walk[i], k)
    decreases k
  {
    if k > 0 {
      var at := if i == |walk| - 1 then 0 else i;
      assert walk[at] == walk[i];
      CycleHasChains(m, walk, at + 1, k - 1);
      assert walk[at + 1] in m[walk[at]];
    }
  }

  /** Some requirement of `name` is in the set. */
  ghost predicate Continues(m: Manifests, names: set<string>, name: string) {
    name in m && exists dep :: dep in m[name] && dep in names
  }

  lemma WalkBack(m: Manifests, start: string, rest: seq<string>)
    requires start in m && IsWalk(m, rest) && rest != [] && rest[0] in m[start]
    ensures IsWalk(m, [start] + rest)
  {
    var walk := [start] + rest;
    forall i | 0 <= i < |walk| - 1 ensures walk[i + 1] in m[walk[i]] {
      assert walk[i + 1] == rest[i];
      if i > 0 {
        assert walk[i] == rest[i - 1];
        assert rest[i - 1 + 1] in m[rest[i - 1]];
      }
    }
  }

  /** Where every name requires another one of the set, one can walk on for ever. */
  lemma {:induction false} WalkOn(m: Manifests, names: set<string>, start: string, n: nat) returns (walk: seq<string>)
    requires start in names && forall name :: name in names ==> Continues(m, names, name)
    ensures |walk| == n + 1 && walk[0] == start && IsWalk(m, walk)
    ensures forall i :: 0 <= i < |walk| ==> walk[i] in names
    decreases n
  {
    walk := [start];
    assert Continues(m, names, start);
    if n > 0 {
      var dep :| dep in m[start] && dep in names;
      var rest := WalkOn(m, names, dep, n - 1);
      WalkBack(m, start, rest);
      walk := [start] + rest;
    }
  }

  /** A sequence longer than the set it draws from repeats an element. */
  lemma {:induction false} Repeats(walk: seq<string>, names: set<string>) returns (i: nat, j: nat)
    requires forall k :: 0 <= k < |walk| ==> walk[k] in names
    requires |walk| > |names|
    ensures i < j < |walk| && walk[i] == walk[j]
  {
    var last := walk[|walk| - 1];
    if k :| 0 <= k < |walk| - 1 && walk[k] == last {
      i, j := k, |walk| - 1;
    } else {
      i, j := Repeats(walk[..|walk| - 1], names - {last});
    }
  }

  lemma WalkSlice(m: Manifests, walk: seq<string>, i: nat, j: nat)
    requires IsWalk(m, walk) && i <= j <= |walk|
    ensures IsWalk(m, walk[i..j])
  {
    var part := walk[i..j];
    forall k | 0 <= k < |part| - 1 ensures part[k + 1] in m[part[k]] {
      assert part[k] == walk[i + k] && part[k + 1] == walk[i + k + 1];
    }
  }

  lemma StuckIsCyclic(m: Manifests, names: set<string>, start: string)
    requires start in names && forall name :: name in names ==> Continues(m, names, name)
    ensures IsCyclic(m)
  {
    var walk := WalkOn(m, names, start, |names|);
    var i, j := Repeats(walk, names);
    WalkSlice(m, walk, i, j + 1);
    assert IsCycle(m, walk[i..j + 1]);
  }

  // ---------------------------------------------------------------- the loop

  /** What is left after `k` layers: the names with a chain of `k` requirements. */
  ghost predicate Layered(m: Manifests, remaining: Manifests, k: nat) {
    && (forall n :: n in remaining <==> HasChain(m, n, k))
    && (forall n :: n in remaining ==> n in m && remaining[n] == m[n])
  }

  predicate Ready(remaining: Manifests, name: string) {
    name in remaining && forall dep :: dep in remaining[name] ==> dep !in remaining
  }

  lemma ReadyIsDepth(m: Manifests, remaining: Manifests, k: nat, name: string)
    requires Layered(m, remaining, k)
    ensures Ready(remaining, name) <==> Depth(m, name, k)
  {
    if HasChain(m, name, k + 1) {
      ShorterChain(m, name, k + 1, k);
    }
  }

  lemma NextLayer(m: Manifests, remaining: Manifests, next: Manifests, k: nat)
    requires Layered(m, remaining, k)
    requires forall n :: n in next <==> n in remaining && !Ready(remaining, n)
    requires forall n :: n in next ==> next[n] == remaining[n]
    ensures Layered(m, next, k + 1)
  {
    forall n: string ensures n in next <==> HasChain(m, n, k + 1) {
      ReadyIsDepth(m, remaining, k, n);
      if HasChain(m, n, k + 1) {
        ShorterChain(m, n, k + 1, k);
      }
    }
  }

  /** `ordered` holds the names of depth below `k`, in order. */
  ghost predicate Placed(m: Manifests, ordered: seq<string>, k: nat) {
    && (forall n :: n in ordered <==> n in m && !HasChain(m, n, k))
    && (forall i, j :: 0 <= i < j < |ordered| ==> InOrder(m, ordered[i], ordered[j]))
  }

  lemma {:induction false} ShallowHasDepth(m: Manifests, name: string, k: nat) returns (d: nat)
    requires name in m && !HasChain(m, name, k)
    ensures d < k && Depth(m, name, d)
  {
    if HasChain(m, name, k - 1) {
      d := k - 1;
    } else {
      d := ShallowHasDepth(m, name, k - 1);
    }
  }

  lemma PlaceLayer(m: Manifests, ordered: seq<string>, layer: seq<string>, k: nat)
    requires Placed(m, ordered, k) && Alphabetical(layer)
    requires forall n :: n in layer <==> Depth(m, n, k)
    ensures Placed(m, ordered + layer, k + 1)
  {
    var all := ordered + layer;
    forall n: string ensures n in all <==> n in m && !HasChain(m, n, k + 1) {
      if HasChain(m, n, k + 1) {
        ShorterChain(m, n, k + 1, k);
      }
    }
    forall i, j | 0 <= i < j < |all| ensures InOrder(m, all[i], all[j]) {
      if i >= |ordered| {
        assert all[i] == layer[i - |ordered|] && all[j] == layer[j - |ordered|];
        assert all[i] in layer && all[j] in layer;
      } else if j >= |ordered| {
        assert all[i] == ordered[i] && all[i] in ordered;
        assert all[j] == layer[j - |ordered|] && all[j] in layer;
        var d := ShallowHasDepth(m, all[i], k);
      } else {
        assert all[i] == ordered[i] && all[j] == ordered[j];
      }
    }
  }

  /** Append a layer and delete it from what remains, name by name. */
  method TakeLayer(remaining: Manifests, ordered: seq<string>, layer: seq<string>)
    returns (rest: Manifests, next: seq<string>)
    ensures next == ordered + layer
    ensures forall n :: n in rest <==> n in remaining && n !in layer
    ensures forall n :: n in rest ==> rest[n] == remaining[n]
  {
    rest, next := remaining, ordered;
    for i := 0 to |layer|
      invariant next == ordered + layer[..i]
      invariant forall n :: n in rest <==> n in remaining && n !in layer[..i]
      invariant forall n :: n in rest ==> rest[n] == remaining[n]
    {
      next := next + [layer[i]];
      rest := rest - {layer[i]};
      assert layer[..i + 1] == layer[..i] + [layer[i]];
    }
    assert layer[..|layer|] == layer;
  }

  /** Take the ready features off, layer by layer; a layer without any means a cycle. */
  method InstallationOrder(m: Manifests) returns (r: Outcome<seq<string>>)
    ensures r.Ok? <==> !IsCyclic(m)
    ensures r.Ok? ==> IsInstallOrder(m, r.value)
    ensures r.Err? ==> r.error == InvariantViolation
  {
    var remaining := m;
    var ordered: seq<string> := [];
    ghost var k := 0;
    while remaining.Keys != {}
      invariant Layered(m, remaining, k) && Placed(m, ordered, k)
      decreases remaining.Keys
    {
      var ready := set name | name in remaining && Ready(remaining, name);
      if ready == {} {
        StuckHere(m, remaining, ready);
        return Err(InvariantViolation);
      }
      var layer := SortNames(ready);
      LayerPlaced(m, remaining, ordered, layer, k);
      ghost var before := remaining;
      remaining, ordered := TakeLayer(remaining, ordered, layer);
      LayerTaken(m, before, remaining, layer, k);
      k := k + 1;
    }
    EmptyIsAcyclic(m, remaining, k);
    AllPlaced(m, remaining, ordered, k);
    r := Ok(ordered);
  }

  lemma LayerPlaced(m: Manifests, remaining: Manifests, ordered: seq<string>, layer: seq<string>, k: nat)
    requires Layered(m, remaining, k) && Placed(m, ordered, k) && Alphabetical(layer)
    requires forall n :: n in layer <==> Ready(remaining, n)
    ensures Placed(m, ordered + layer, k + 1)
  {
    forall n: string ensures n in layer <==> Depth(m, n, k) {
      ReadyIsDepth(m, remaining, k, n);
    }
    PlaceLayer(m, ordered, layer, k);
  }

  lemma LayerTaken(m: Manifests, remaining: Manifests, rest: Manifests, layer: seq<string>, k: nat)
    requires Layered(m, remaining, k) && layer != []
    requires forall n :: n in layer <==> Ready(remaining, n)
    requires forall n :: n in rest <==> n in remaining && n !in layer
    requires forall n :: n in rest ==> rest[n] == remaining[n]
    ensures Layered(m, rest, k + 1) && rest.Keys < remaining.Keys
  {
    NextLayer(m, remaining, rest, k);
    assert layer[0] in layer;
    assert layer[0] in remaining.Keys && layer[0] !in rest.Keys;
  }

  lemma AllPlaced(m: Manifests, remaining: Manifests, ordered: seq<string>, k: nat)
    requires Layered(m, remaining, k) && Placed(m, ordered, k) && remaining.Keys == {}
    ensures IsInstallOrder(m, ordered)
  {
    forall n: string ensures n in ordered <==> n in m {
      assert n !in remaining.Keys;
    }
  }

  lemma StuckHere(m: Manifests, remaining: Manifests, ready: set<string>)
    requires remaining.Keys != {} && forall n :: n in remaining ==> n in m && remaining[n] == m[n]
    requires ready == {} && ready == set name | name in remaining && Ready(remaining, name)
    ensures IsCyclic(m)
  {
    forall name | name in remaining.Keys ensures Continues(m, remaining.Keys, name) {
      assert name !in ready;
      var dep :| dep in remaining[name] && dep in remaining;
    }
    var start :| start in remaining.Keys;
    StuckIsCyclic(m, remaining.Keys, start);
  }

  lemma EmptyIsAcyclic(m: Manifests, remaining: Manifests, k: nat)
    requires Layered(m, remaining, k) && remaining.Keys == {}
    ensures !IsCyclic(m)
  {
    if walk :| IsCycle(m, walk) {
      CycleHasChains(m, walk, 0, k);
      assert false;
    }
  }

  // ---------------------------------------------------------------- what the order means

  lemma InOrderIsStrict(m: Manifests, a: string, b: string)
    requires InOrder(m, a, b)
    ensures !InOrder(m, b, a) && a != b
  {
    var k: nat, j: nat :| Depth(m, a, k) && Depth(m, b, j) && (k < j || (k == j && Before(a, b)));
    BeforeIsTotal(a, b);
    if a == b {
      DepthIsUnique(m, a, k, j);
    }
    if k': nat, j': nat :| Depth(m, b, k') && Depth(m, a, j') && (k' < j' || (k' == j' && Before(b, a))) {
      DepthIsUnique(m, a, k, j');
      DepthIsUnique(m, b, j, k');
    }
  }

  /** Every requirement that is a manifest is installed first. */
  lemma RequirementsComeFirst(m: Manifests, order: seq<string>, i: nat, j: nat)
    requires IsInstallOrder(m, order) && i < |order| && j < |order| && order[i] in m && order[j] in m[order[i]]
    requires !IsCyclic(m)
    ensures j < i
  {
    if i < j {
      var k: nat, l: nat :| Depth(m, order[i], k) && Depth(m, order[j], l)
                            && (k < l || (k == l && Before(order[i], order[j])));
      RequirementIsShallower(m, order[i], order[j], k, l);
    } else if i == j {
      assert order[i] in order;
      assert IsCycle(m, [order[i], order[i]]);
    }
  }

  /** The order is determined by the manifests alone. */
  lemma {:induction false} OrderIsUnique(m: Manifests, a: seq<string>, b: seq<string>)
    requires forall n :: n in a <==> n in b
    requires forall i, j :: 0 <= i < j < |a| ==> InOrder(m, a[i], a[j])
    requires forall i, j :: 0 <= i < j < |b| ==> InOrder(m, b[i], b[j])
    ensures a == b
  {
    assert a == [] <==> b == [] by {
      assert a != [] ==> a[0] in a;
      assert b != [] ==> b[0] in b;
    }
    if a != [] {
      assert a[0] in b;
      assert b[0] in a;
      FirstIsFirst(m, a, b);
      var x, y := a[1..], b[1..];
      forall n: string ensures n in x <==> n in y {
        RestHolds(m, a, n);
        RestHolds(m, b, n);
      }
      OrderIsUnique(m, x, y);
      assert a == [a[0]] + x && b == [b[0]] + y;
    }
  }

  lemma FirstIsFirst(m: Manifests, a: seq<string>, b: seq<string>)
    requires a != [] && b != [] && a[0] in b && b[0] in a
    requires forall i, j :: 0 <= i < j < |a| ==> InOrder(m, a[i], a[j])
    requires forall i, j :: 0 <= i < j < |b| ==> InOrder(m, b[i], b[j])
    ensures a[0] == b[0]
  {
    var i :| 0 <= i < |b| && b[i] == a[0];
    var j :| 0 <= j < |a| && a[j] == b[0];
    if i > 0 && j > 0 {
      assert InOrder(m, b[0], b[i]) && InOrder(m, a[0], a[j]);
      InOrderIsStrict(m, a[0], b[0]);
    }
  }

  lemma RestHolds(m: Manifests, a: seq<string>, n: string)
    requires a != [] && forall i, j :: 0 <= i < j < |a| ==> InOrder(m, a[i], a[j])
    ensures n in a[1..] <==> n in a && n != a[0]
  {
    if n in a[1..] {
      var i :| 1 <= i < |a| && a[i] == n;
      InOrderIsStrict(m, a[0], a[i]);
    }
  }
}
