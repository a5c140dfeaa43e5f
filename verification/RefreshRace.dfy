/**
 Rotation against revocation, with rows visible at commit. A rotation marks its token in an open
 transaction and inserts the successor when it commits. A revoking statement works on the rows
 that were committed when it started; it waits for a rotation that has one of them locked, but a
 successor that was committed meanwhile is not among its rows.
 */
module RefreshRace {
  type Id = nat

  datatype Token = Token(rotated: bool, revoked: bool)

  /** The open transaction of a request that won the compare-and-set on `token`. */
  datatype Rotation = Rotation(token: Id, next: Id)

  /** One family: its committed tokens in order, open rotations, and the rows each revocation saw. */
  datatype State = State(
    tokens: map<Id, Token>,
    chain: seq<Id>,
    rotations: map<Id, Rotation>,
    revocations: map<Id, set<Id>>)

  datatype Step =
    | Swap(request: Id, token: Id, next: Id)
    | Commit(request: Id)
    | Abort(request: Id)
    | RevokeBegin(revocation: Id, scope: set<Id>)
    | RevokeEnd(revocation: Id)

  predicate Usable(s: State, token: Id) {
    token in s.tokens && !s.tokens[token].rotated && !s.tokens[token].revoked
  }

  predicate LockedBy(s: State, token: Id, request: Id) {
    request in s.rotations && s.rotations[request].token == token
  }

  ghost predicate Locked(s: State, token: Id) {
    exists request :: LockedBy(s, token, request)
  }

  ghost predicate NewId(s: State, id: Id) {
    id !in s.tokens && forall request :: request in s.rotations ==> s.rotations[request].next != id
  }

  function Marked(tokens: map<Id, Token>, rows: set<Id>): map<Id, Token> {
    map id | id in tokens :: if id in rows then tokens[id].(revoked := true) else tokens[id]
  }

  /** A revocation can finish once no row it saw is locked. */
  ghost predicate CanEnd(s: State, revocation: Id) {
    revocation in s.revocations && forall id :: id in s.revocations[revocation] ==> !Locked(s, id)
  }

  /** A step that would have to wait changes nothing. */
  ghost function Apply(s: State, step: Step): State {
    match step
    case Swap(request, token, next) =>
      if Usable(s, token) && !Locked(s, token) && request !in s.rotations && NewId(s, next)
      then s.(rotations := s.rotations[request := Rotation(token, next)])
      else s
    case Commit(request) =>
      if request in s.rotations then
        var r := s.rotations[request];
        if r.token in s.tokens then
          s.(tokens := s.tokens[r.token := s.tokens[r.token].(rotated := true)][r.next := Token(false, false)],
             chain := s.chain + [r.next], rotations := s.rotations - {request})
        else s
      else s
    case Abort(request) => s.(rotations := s.rotations - {request})
    case RevokeBegin(revocation, scope) =>
      if revocation in s.revocations then s else s.(revocations := s.revocations[revocation := scope * s.tokens.Keys])
    case RevokeEnd(revocation) =>
      if CanEnd(s, revocation)
      then s.(tokens := Marked(s.tokens, s.revocations[revocation]), revocations := s.revocations - {revocation})
      else s
  }

  ghost function Run(s: State, steps: seq<Step>): State {
    if steps == [] then s else Apply(Run(s, steps[..|steps| - 1]), steps[|steps| - 1])
  }

  /** A login: one token, nothing under way. */
  function Start(token: Id): State {
    State(map[token := Token(false, false)], [token], map[], map[])
  }

  // ---------------------------------------------------------------- the invariant

  function Head(s: State): Id
    requires s.chain != []
  {
    s.chain[|s.chain| - 1]
  }

  /** The committed tokens are a chain of which only the last is not rotated. */
  ghost predicate Chained(s: State) {
    && s.chain != []
    && (forall i, j :: 0 <= i < j < |s.chain| ==> s.chain[i] != s.chain[j])
    && (forall id :: id in s.tokens <==> id in s.chain)
    && (forall i :: 0 <= i < |s.chain| ==>
          s.chain[i] in s.tokens && (s.tokens[s.chain[i]].rotated <==> i < |s.chain| - 1))
  }

  /** A rotation under way has the current token locked, and that is not revoked. */
  ghost predicate RotatesHead(s: State)
    requires s.chain != []
  {
    && (forall request :: request in s.rotations ==>
          s.rotations[request].token == Head(s) && s.rotations[request].next !in s.tokens)
    && (forall a, b :: a in s.rotations && b in s.rotations ==> a == b)
    && (s.rotations != map[] ==> Head(s) in s.tokens && !s.tokens[Head(s)].revoked)
  }

  ghost predicate Inv(s: State) {
    && Chained(s) && RotatesHead(s)
    && (forall revocation :: revocation in s.revocations ==> s.revocations[revocation] <= s.tokens.Keys)
  }

  lemma UsableIsHead(s: State, token: Id)
    requires Chained(s) && token in s.tokens && !s.tokens[token].rotated
    ensures token == Head(s)
  {
    var i :| 0 <= i < |s.chain| && s.chain[i] == token;
  }

  lemma SwapKeeps(s: State, request: Id, token: Id, next: Id)
    requires Inv(s)
    ensures Inv(Apply(s, Swap(request, token, next)))
  {
    if Usable(s, token) && !Locked(s, token) && request !in s.rotations && NewId(s, next) {
      UsableIsHead(s, token);
      forall a | a in s.rotations ensures false {
        assert LockedBy(s, token, a);
      }
    }
  }

  /** The chain and its rows once `next` has been committed after the current token. */
  lemma ChainedMore(tokens: map<Id, Token>, chain: seq<Id>, next: Id, s: State, t: State)
    requires Chained(s) && s.tokens == tokens && s.chain == chain && next !in tokens
    requires t.chain == chain + [next]
    requires t.tokens == tokens[Head(s) := tokens[Head(s)].(rotated := true)][next := Token(false, false)]
    ensures Chained(t)
  {
    var n := |chain|;
    assert forall id :: id in t.chain <==> id in chain || id == next;
    forall i | 0 <= i < |t.chain|
      ensures t.chain[i] in t.tokens && (t.tokens[t.chain[i]].rotated <==> i < |t.chain| - 1) {
      if i < n {
        assert t.chain[i] == chain[i] && chain[i] in tokens;
      }
    }
  }

  lemma CommitKeeps(s: State, request: Id)
    requires Inv(s)
    ensures Inv(Apply(s, Commit(request)))
  {
    if request in s.rotations {
      var t := Apply(s, Commit(request));
      ChainedMore(s.tokens, s.chain, s.rotations[request].next, s, t);
      assert forall a :: a in s.rotations ==> a == request;
      assert t.rotations == map[];
    }
  }

  lemma RevokeEndKeeps(s: State, revocation: Id)
    requires Inv(s)
    ensures Inv(Apply(s, RevokeEnd(revocation)))
  {
    if CanEnd(s, revocation) && s.rotations != map[] {
      var request :| request in s.rotations;
      assert LockedBy(s, Head(s), request);
      assert Head(s) !in s.revocations[revocation];
    }
  }

  lemma ApplyKeeps(s: State, step: Step)
    requires Inv(s)
    ensures Inv(Apply(s, step))
  {
    match step
    case Swap(request, token, next) => SwapKeeps(s, request, token, next);
    case Commit(request) => CommitKeeps(s, request);
    case Abort(request) =>
      assert s.rotations - {request} != map[] ==> s.rotations != map[];
    case RevokeBegin(_, _) =>
    case RevokeEnd(revocation) => RevokeEndKeeps(s, revocation);
  }

  lemma {:induction false} RunKeeps(s: State, steps: seq<Step>)
    requires Inv(s)
    ensures Inv(Run(s, steps))
  {
    if steps != [] {
      RunKeeps(s, steps[..|steps| - 1]);
      ApplyKeeps(Run(s, steps[..|steps| - 1]), steps[|steps| - 1]);
    }
  }

  /** A refresh that ends, either way, lets go of the row, and a revocation that ends is over. */
  lemma EndedLetsGo(s: State, id: Id)
    requires Inv(s)
    ensures id !in Apply(s, Abort(id)).rotations && Apply(s, Abort(id)).tokens == s.tokens
    ensures id !in Apply(s, Commit(id)).rotations
    ensures CanEnd(s, id) ==> id !in Apply(s, RevokeEnd(id)).revocations
    ensures !CanEnd(s, id) ==> Apply(s, RevokeEnd(id)) == s
  {
  }

  // ---------------------------------------------------------------- what a revocation catches

  ghost predicate HasUsable(s: State) {
    exists token :: Usable(s, token)
  }

  lemma UsableExactly(s: State)
    requires Inv(s)
    ensures HasUsable(s) <==> !s.tokens[Head(s)].revoked
  {
    if HasUsable(s) {
      var token :| Usable(s, token);
      UsableIsHead(s, token);
    } else {
      assert !Usable(s, Head(s));
    }
  }

  /** Once no token is usable none ever is again, however the open transactions end. */
  lemma {:induction false} EndedForGood(s: State, steps: seq<Step>)
    requires Inv(s) && !HasUsable(s)
    ensures !HasUsable(Run(s, steps)) && Run(s, steps).chain == s.chain
  {
    if steps != [] {
      var before := Run(s, steps[..|steps| - 1]);
      EndedForGood(s, steps[..|steps| - 1]);
      RunKeeps(s, steps[..|steps| - 1]);
      RunKeeps(s, steps);
      EndedStep(before, steps[|steps| - 1]);
    }
  }

  lemma EndedStep(s: State, step: Step)
    requires Inv(s) && !HasUsable(s)
    ensures !HasUsable(Apply(s, step)) && Apply(s, step).chain == s.chain
  {
    ApplyKeeps(s, step);
    UsableExactly(s);
    UsableExactly(Apply(s, step));
    if step.Swap? {
      assert !Usable(s, step.token);
    }
    if s.rotations != map[] {
      assert false;
    }
  }

  /** Rotations only ever append to the chain, and a revocation keeps what it saw until it ends. */
  lemma {:induction false} ChainGrows(s: State, revocation: Id, steps: seq<Step>)
    requires Inv(s) && revocation in s.revocations && RevokeEnd(revocation) !in steps
    ensures var t := Run(s, steps);
            && s.chain <= t.chain
            && revocation in t.revocations && t.revocations[revocation] == s.revocations[revocation]
  {
    if steps != [] {
      ChainGrows(s, revocation, steps[..|steps| - 1]);
      RunKeeps(s, steps[..|steps| - 1]);
      GrowsStep(Run(s, steps[..|steps| - 1]), revocation, steps[|steps| - 1]);
    }
  }

  lemma GrowsStep(s: State, revocation: Id, step: Step)
    requires Inv(s) && revocation in s.revocations && step != RevokeEnd(revocation)
    ensures var t := Apply(s, step);
            && s.chain <= t.chain
            && revocation in t.revocations && t.revocations[revocation] == s.revocations[revocation]
  {
  }

  /**
   A family revocation that starts in `s` and finishes after any other steps, other revocations
   included, leaves a usable token if and only if a rotation committed in between and its successor
   is still usable when the revocation finishes: that successor is what it did not see.
   */
  lemma RevocationCatchesExactly(s: State, revocation: Id, steps: seq<Step>)
    requires Inv(s) && revocation !in s.revocations && RevokeEnd(revocation) !in steps
    requires CanEnd(Run(Apply(s, RevokeBegin(revocation, s.tokens.Keys)), steps), revocation)
    ensures var t := Run(Apply(s, RevokeBegin(revocation, s.tokens.Keys)), steps);
            HasUsable(Apply(t, RevokeEnd(revocation))) <==> t.chain != s.chain && HasUsable(t)
  {
    var begun := Apply(s, RevokeBegin(revocation, s.tokens.Keys));
    ApplyKeeps(s, RevokeBegin(revocation, s.tokens.Keys));
    RunKeeps(begun, steps);
    ChainGrows(begun, revocation, steps);
    var t := Run(begun, steps);
    var u := Apply(t, RevokeEnd(revocation));
    ApplyKeeps(t, RevokeEnd(revocation));
    UsableExactly(t);
    UsableExactly(u);
    assert begun.revocations[revocation] == s.tokens.Keys;
    HeadSeen(s, t);
  }

  /** The current token is one that was committed before exactly if the chain has not grown. */
  lemma HeadSeen(s: State, t: State)
    requires Chained(s) && Chained(t) && s.chain <= t.chain
    ensures Head(t) in s.tokens <==> t.chain == s.chain
  {
    if t.chain != s.chain {
      assert |s.chain| < |t.chain|;
      forall i | 0 <= i < |s.chain| ensures s.chain[i] != Head(t) {
        assert s.chain[i] == t.chain[i];
      }
    }
  }

  /** The race is real: a rotation that commits while the revocation waits for it survives. */
  lemma SuccessorEscapes(token: Id, next: Id)
    requires token != next
    ensures var s := Start(token);
            var steps := [Swap(0, token, next), RevokeBegin(1, {token}), Commit(0), RevokeEnd(1)];
            Usable(Run(s, steps), next)
  {
    var s0 := Start(token);
    var a, b, c, d := Swap(0, token, next), RevokeBegin(1, {token}), Commit(0), RevokeEnd(1);
    assert !Locked(s0, token);
    var s1 := State(s0.tokens, [token], map[0 := Rotation(token, next)], map[]);
    var s2 := s1.(revocations := map[1 := {token}]);
    var tokens := map[token := Token(true, false), next := Token(false, false)];
    var s3 := State(tokens, [token, next], map[], map[1 := {token}]);
    assert [a][..0] == [] && [a, b][..1] == [a] && [a, b, c][..2] == [a, b] && [a, b, c, d][..3] == [a, b, c];
    assert Run(s0, [a]) == Apply(s0, a) == s1;
    assert {token} * s1.tokens.Keys == {token};
    assert Run(s0, [a, b]) == Apply(s1, b) == s2;
    assert s2.rotations - {0} == map[];
    assert Apply(s2, c).tokens == tokens && Apply(s2, c).chain == [token, next];
    assert Run(s0, [a, b, c]) == Apply(s2, c) == s3;
    assert CanEnd(s3, 1);
    assert Run(s0, [a, b, c, d]) == Apply(s3, d);
  }
}
