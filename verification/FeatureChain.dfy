/**
 Copying a feature into another project: the depth-first search for everything it requires, and
 the copy loop that leaves what is already installed alone.
 */
module FeatureChain {
  import opened InstallOrder

  datatype Refusal = SameProject | UnknownFeature | MissingRequirement | MissingCore | AlreadyInstalled

  datatype Answer<+T> = Done(value: T) | Refused(why: Refusal)

  // ---------------------------------------------------------------- reachability

  ghost predicate Leads(m: Manifests, walk: seq<string>, a: string, b: string) {
    walk != [] && IsWalk(m, walk) && walk[0] == a && walk[|walk| - 1] == b
  }

  /** `b` is `a` or one of its transitive requirements. */
  ghost predicate Reaches(m: Manifests, a: string, b: string) {
    exists walk :: Leads(m, walk, a, b)
  }

  /** Something that `root` needs requires a feature that is not there. */
  ghost predicate Gap(m: Manifests, root: string) {
    exists n, dep :: Reaches(m, root, n) && n in m && dep in m[n] && dep !in m
  }

  lemma ReachesItself(m: Manifests, a: string)
    requires a in m
    ensures Reaches(m, a, a)
  {
    assert Leads(m, [a], a, a);
  }

  lemma ReachesOn(m: Manifests, a: string, b: string, c: string)
    requires Reaches(m, a, b) && b in m && c in m[b] && c in m
    ensures Reaches(m, a, c)
  {
    var walk :| Leads(m, walk, a, b);
    var longer := walk + [c];
    forall i | 0 <= i < |longer| - 1 ensures longer[i + 1] in m[longer[i]] {
      if i < |walk| - 1 {
        assert longer[i + 1] == walk[i + 1] && walk[i + 1] in m[walk[i]];
      }
    }
    assert Leads(m, longer, a, c);
  }

  lemma BackIsCycle(m: Manifests, a: string, b: string)
    requires Reaches(m, a, b) && b in m && a in m[b]
    ensures IsCyclic(m)
  {
    var walk :| Leads(m, walk, a, b);
    var round := walk + [a];
    forall i | 0 <= i < |round| - 1 ensures round[i + 1] in m[round[i]] {
      if i < |walk| - 1 {
        assert round[i + 1] == walk[i + 1] && walk[i + 1] in m[walk[i]];
      }
    }
    assert IsCycle(m, round);
  }

  lemma {:induction false} ClosedHoldsWalk(m: Manifests, names: set<string>, walk: seq<string>, i: nat)
    requires IsWalk(m, walk) && i < |walk| && walk[0] in names
    requires forall n, dep :: n in names && n in m && dep in m[n] ==> dep in names
    ensures walk[i] in names
  {
    if i > 0 {
      ClosedHoldsWalk(m, names, walk, i - 1);
      assert walk[i - 1 + 1] in m[walk[i - 1]];
    }
  }

  // ---------------------------------------------------------------- the search

  ghost predicate Distinct(s: seq<string>) {
    forall i, j :: 0 <= i < j < |s| ==> s[i] != s[j]
  }

  ghost predicate RequirementsFirst(m: Manifests, order: seq<string>) {
    forall i, dep :: 0 <= i < |order| && order[i] in m && dep in m[order[i]] ==> dep in order[..i]
  }

  /** Entered, but not finished: the features on the search path. */
  ghost function Unfinished(seen: set<string>, order: seq<string>): set<string> {
    set n | n in seen && n !in order
  }

  ghost predicate Searching(m: Manifests, root: string, seen: set<string>, order: seq<string>) {
    && Distinct(order)
    && (forall n :: n in order ==> n in seen)
    && (forall n :: n in seen ==> n in m && Reaches(m, root, n))
    && (forall n, dep :: n in order && n in m && dep in m[n] ==> dep in seen)
    && (!IsCyclic(m) ==> RequirementsFirst(m, order))
  }

  ghost predicate OnPathTo(m: Manifests, path: set<string>, name: string) {
    forall n :: n in path ==> Reaches(m, n, name)
  }

  lemma FinishOrdered(m: Manifests, seen: set<string>, order: seq<string>, name: string)
    requires name in m && OnPathTo(m, Unfinished(seen, order), name) && RequirementsFirst(m, order) && !IsCyclic(m)
    requires forall dep :: dep in m[name] ==> dep in seen
    ensures RequirementsFirst(m, order + [name])
  {
    var next := order + [name];
    forall i, dep | 0 <= i < |next| && next[i] in m && dep in m[next[i]] ensures dep in next[..i] {
      if i < |order| {
        assert next[..i] == order[..i];
      } else {
        assert next[..i] == order;
        if dep !in order {
          assert dep in Unfinished(seen, order);
          BackIsCycle(m, dep, name);
        }
      }
    }
  }

  /** The step that closes a feature: everything it requires has been seen. */
  lemma Finish(m: Manifests, root: string, seen: set<string>, order: seq<string>, name: string)
    requires Searching(m, root, seen, order) && name in Unfinished(seen, order)
    requires OnPathTo(m, Unfinished(seen, order), name) && forall dep :: dep in m[name] ==> dep in seen
    ensures Searching(m, root, seen, order + [name])
    ensures Unfinished(seen, order + [name]) == Unfinished(seen, order) - {name}
  {
    if !IsCyclic(m) {
      FinishOrdered(m, seen, order, name);
    }
  }

  class Search {
    var seen: set<string>
    var order: seq<string>

    constructor ()
      ensures seen == {} && order == []
    {
      seen, order := {}, [];
    }

    /** Visit a feature after everything it requires. */
    method Visit(m: Manifests, name: string, ghost root: string) returns (ok: bool)
      requires name in m && Reaches(m, root, name)
      requires Searching(m, root, seen, order) && OnPathTo(m, Unfinished(seen, order), name)
      modifies this
      ensures !ok ==> Gap(m, root)
      ensures ok ==> Searching(m, root, seen, order) && old(seen) + {name} <= seen
      ensures ok ==> Unfinished(seen, order) == old(Unfinished(seen, order))
      ensures ok && name !in old(seen) ==> order != [] && order[|order| - 1] == name
      ensures ok && name in old(seen) ==> seen == old(seen) && order == old(order)
      decreases m.Keys - seen
    {
      if name in seen {
        return true;
      }
      ghost var path := Unfinished(seen, order) + {name};
      seen := seen + {name};
      Entered(m, root, old(seen), order, name);
      for i := 0 to |m[name]|
        invariant Searching(m, root, seen, order) && old(seen) + {name} <= seen
        invariant Unfinished(seen, order) == path
        invariant forall k :: 0 <= k < i ==> m[name][k] in seen
      {
        var dep := m[name][i];
        if dep !in m {
          return false;
        }
        PathGoesOn(m, root, path, name, dep);
        ok := Visit(m, dep, root);
        if !ok {
          return;
        }
      }
      Finish(m, root, seen, order, name);
      order := order + [name];
      ok := true;
    }
  }

  lemma Entered(m: Manifests, root: string, seen: set<string>, order: seq<string>, name: string)
    requires name in m && Reaches(m, root, name) && name !in seen
    requires Searching(m, root, seen, order) && OnPathTo(m, Unfinished(seen, order), name)
    ensures Searching(m, root, seen + {name}, order)
    ensures Unfinished(seen + {name}, order) == Unfinished(seen, order) + {name}
    ensures OnPathTo(m, Unfinished(seen, order) + {name}, name)
  {
    ReachesItself(m, name);
  }

  lemma PathGoesOn(m: Manifests, root: string, path: set<string>, name: string, dep: string)
    requires name in m && dep in m[name] && dep in m && Reaches(m, root, name) && OnPathTo(m, path, name)
    ensures Reaches(m, root, dep) && OnPathTo(m, path, dep)
  {
    ReachesOn(m, root, name, dep);
    forall n | n in path ensures Reaches(m, n, dep) {
      ReachesOn(m, n, name, dep);
    }
  }

  /** What the chain of a feature is: exactly its closure, once each, the feature itself last. */
  ghost predicate IsChain(m: Manifests, feature: string, chain: seq<string>) {
    && Distinct(chain)
    && (forall n :: n in chain <==> Reaches(m, feature, n))
    && (forall n :: n in chain ==> n in m)
    && chain != [] && chain[|chain| - 1] == feature
    && (!IsCyclic(m) ==> RequirementsFirst(m, chain))
  }

  lemma SearchedAll(m: Manifests, feature: string, seen: set<string>, order: seq<string>)
    requires Searching(m, feature, seen, order) && Unfinished(seen, order) == {} && feature in seen
    ensures forall n :: n in order <==> Reaches(m, feature, n)
    ensures !Gap(m, feature)
  {
    assert forall n :: n in seen ==> n in order || n in Unfinished(seen, order);
    forall n | Reaches(m, feature, n) ensures n in seen {
      var walk :| Leads(m, walk, feature, n);
      ClosedHoldsWalk(m, seen, walk, |walk| - 1);
    }
  }

  /** The whole chain of a feature, on any graph; it fails exactly at a gap. */
  method ResolveChain(m: Manifests, feature: string) returns (r: Answer<seq<string>>)
    ensures r == Refused(UnknownFeature) <==> feature !in m
    ensures r == Refused(MissingRequirement) <==> feature in m && Gap(m, feature)
    ensures r.Done? <==> feature in m && !Gap(m, feature)
    ensures r.Done? ==> IsChain(m, feature, r.value)
  {
    if feature !in m {
      return Refused(UnknownFeature);
    }
    ReachesItself(m, feature);
    var search := new Search();
    var ok := search.Visit(m, feature, feature);
    if !ok {
      return Refused(MissingRequirement);
    }
    SearchedAll(m, feature, search.seen, search.order);
    r := Done(search.order);
  }

  // ---------------------------------------------------------------- copying

  datatype Feature<Folder> = Feature(needs: seq<string>, core: seq<string>, folder: Folder)

  function Graph<Folder>(project: map<string, Feature<Folder>>): Manifests {
    map n | n in project :: project[n].needs
  }

  predicate LacksCore<Folder>(project: map<string, Feature<Folder>>, chain: seq<string>, core: set<string>)
    requires forall n :: n in chain ==> n in project
  {
    exists n, c :: n in chain && c in project[n].core && c !in core
  }

  ghost predicate NeedsCore<Folder>(project: map<string, Feature<Folder>>, feature: string, core: set<string>) {
    exists n, c :: n in project && Reaches(Graph(project), feature, n) && c in project[n].core && c !in core
  }

  /** What the copy loop has done with the first features of a chain. */
  ghost predicate CopiedSoFar<Folder(!new)>(project: map<string, Feature<Folder>>, feature: string, part: seq<string>,
                                            before: map<string, Folder>, now: map<string, Folder>) {
    && (forall n :: n in now <==> n in before || n in part)
    && (forall n :: n in before && !(n == feature && n in part) ==> n in now && now[n] == before[n])
    && (forall n :: n in part && n in now && n in project && (n !in before || n == feature) ==>
          now[n] == project[n].folder)
  }

  /** The features reported as copied: the absent ones, and the requested one. */
  ghost predicate Reported<Folder(!new)>(feature: string, part: seq<string>, before: map<string, Folder>,
                                         copied: seq<string>) {
    Distinct(copied) && forall n :: n in copied <==> n in part && (n !in before || n == feature)
  }

  /** Within a list no feature stands before one it requires. */
  ghost predicate InstallableInTurn(m: Manifests, list: seq<string>) {
    forall i, j :: 0 <= i < |list| && 0 <= j < |list| && list[i] in m && list[j] in m[list[i]] ==> j < i
  }

  lemma NotNeededBefore(m: Manifests, chain: seq<string>, i: nat, n: string)
    requires RequirementsFirst(m, chain) && Distinct(chain) && i < |chain| && n in m
    requires n in chain[..i] || n == chain[i]
    ensures chain[i] !in m[n]
  {
    var k :| 0 <= k <= i && chain[k] == n;
    assert chain[i] !in chain[..k];
  }

  lemma TurnKept(m: Manifests, chain: seq<string>, i: nat, copied: seq<string>)
    requires RequirementsFirst(m, chain) && Distinct(chain) && i < |chain|
    requires InstallableInTurn(m, copied) && forall n :: n in copied ==> n in chain[..i]
    ensures InstallableInTurn(m, copied + [chain[i]])
  {
    var next := copied + [chain[i]];
    forall n | n in next && n in m ensures chain[i] !in m[n] {
      NotNeededBefore(m, chain, i, n);
    }
    assert forall a :: 0 <= a < |next| ==> next[a] in next;
  }

  class Target<Folder(==, !new)> {
    const core: set<string>
    var modules: map<string, Folder>

    constructor (core: set<string>, modules: map<string, Folder>)
      ensures this.core == core && this.modules == modules
    {
      this.core, this.modules := core, modules;
    }

    /** Copy one feature of the chain, or leave an installed dependency alone. */
    method CopyOne(project: map<string, Feature<Folder>>, feature: string, force: bool, name: string,
                   copied: seq<string>) returns (r: Answer<seq<string>>)
      requires name in project
      modifies this
      ensures r.Refused? <==> name == feature && name in old(modules) && !force
      ensures r.Refused? ==> r.why == AlreadyInstalled && modules == old(modules)
      ensures r.Done? && name in old(modules) && name != feature ==> modules == old(modules) && r.value == copied
      ensures r.Done? && (name !in old(modules) || name == feature) ==>
                modules == old(modules)[name := project[name].folder] && r.value == copied + [name]
    {
      if name in modules {
        if name != feature {
          return Done(copied);
        }
        if !force {
          return Refused(AlreadyInstalled);
        }
        modules := modules - {name};
      }
      modules := modules[name := project[name].folder];
      r := Done(copied + [name]);
    }

    /**
     Copy a feature and what it requires. The four early refusals leave the target alone; the
     last one comes when the requirements have been copied already.
     */
    method AddFeature(project: map<string, Feature<Folder>>, feature: string, force: bool, same: bool)
      returns (r: Answer<seq<string>>)
      modifies this
      ensures r == Refused(SameProject) <==> same
      ensures r == Refused(UnknownFeature) <==> !same && feature !in project
      ensures r == Refused(MissingRequirement) <==> !same && feature in project && Gap(Graph(project), feature)
      ensures r == Refused(MissingCore) <==>
              !same && feature in project && !Gap(Graph(project), feature) && NeedsCore(project, feature, core)
      ensures r == Refused(AlreadyInstalled) <==>
              && !same && feature in project && !Gap(Graph(project), feature) && !NeedsCore(project, feature, core)
              && feature in old(modules) && !force
      ensures r.Refused? && r.why != AlreadyInstalled ==> modules == old(modules)
      ensures r.Done? || r.why == AlreadyInstalled ==>
                && (forall n :: n in modules <==> n in old(modules) || Reaches(Graph(project), feature, n))
                && (forall n :: n in old(modules) && (n != feature || r.Refused?) ==> modules[n] == old(modules)[n])
                && (forall n :: n in modules && n !in old(modules) ==> n in project && modules[n] == project[n].folder)
      ensures r.Done? ==> feature in project && feature in modules && modules[feature] == project[feature].folder
      ensures r.Done? ==> forall n :: n in r.value <==>
                                      Reaches(Graph(project), feature, n) && (n !in old(modules) || n == feature)
      ensures r.Done? ==> Distinct(r.value)
                          && (!IsCyclic(Graph(project)) ==> InstallableInTurn(Graph(project), r.value))
    {
      if same {
        return Refused(SameProject);
      }
      var chain := ResolveChain(Graph(project), feature);
      if chain.Refused? {
        return Refused(chain.why);
      }
      ChainCore(project, feature, chain.value, core);
      if LacksCore(project, chain.value, core) {
        return Refused(MissingCore);
      }
      r := CopyChain(project, feature, force, chain.value);
    }

    method CopyChain(project: map<string, Feature<Folder>>, feature: string, force: bool, chain: seq<string>)
      returns (r: Answer<seq<string>>)
      requires Distinct(chain) && chain != [] && chain[|chain| - 1] == feature
      requires forall n :: n in chain ==> n in project
      modifies this
      ensures r.Refused? <==> feature in old(modules) && !force
      ensures r.Refused? ==> r.why == AlreadyInstalled
      ensures r.Refused? ==> CopiedSoFar(project, feature, chain[..|chain| - 1], old(modules), modules)
      ensures r.Done? ==> CopiedSoFar(project, feature, chain, old(modules), modules)
      ensures r.Done? ==> Reported(feature, chain, old(modules), r.value)
      ensures r.Done? && RequirementsFirst(Graph(project), chain) ==> InstallableInTurn(Graph(project), r.value)
    {
      var copied: seq<string> := [];
      for i := 0 to |chain|
        invariant CopiedSoFar(project, feature, chain[..i], old(modules), modules)
        invariant Reported(feature, chain[..i], old(modules), copied)
        invariant RequirementsFirst(Graph(project), chain) ==> InstallableInTurn(Graph(project), copied)
        invariant i == |chain| ==> feature !in old(modules) || force
      {
        assert chain[i] in chain && chain[i] !in chain[..i];
        assert chain[..i + 1] == chain[..i] + [chain[i]];
        assert chain[i] == feature ==> i == |chain| - 1;
        if RequirementsFirst(Graph(project), chain) {
          TurnKept(Graph(project), chain, i, copied);
        }
        r := CopyOne(project, feature, force, chain[i], copied);
        if r.Refused? {
          return;
        }
        copied := r.value;
      }
      assert chain[..|chain|] == chain;
      r := Done(copied);
    }
  }

  lemma ChainCore<Folder>(project: map<string, Feature<Folder>>, feature: string, chain: seq<string>, core: set<string>)
    requires IsChain(Graph(project), feature, chain)
    ensures LacksCore(project, chain, core) <==> NeedsCore(project, feature, core)
  {
  }
}
