/**
 Refresh-token families. A login opens a family; each refresh rotates the presented token by a
 compare-and-set and adds its successor. A refresh is two steps, the read and the rotation, so
 that other requests may come in between.
 */
module RefreshTokens {
  type Id = nat

  datatype Token = Token(user: Id, family: Id, expiresAt: int, rotated: bool, revoked: bool)

  /**
   `reading` holds the requests between their read and their rotation, by request. `chains` is the
   history of each family: its tokens in the order they were issued.
   */
  datatype State = State(
    tokens: map<Id, Token>,
    blocked: set<Id>,
    reading: map<Id, Id>,
    chains: map<Id, seq<Id>>)

  const START := State(map[], {}, map[], map[])

  datatype Step =
    | Login(user: Id, token: Id, family: Id, expiresAt: int)
    | Read(request: Id, token: Id, now: int)
    | Rotate(request: Id, newToken: Id, expiresAt: int)
    | Abort(request: Id)
    | Logout(token: Id)
    | ChangePassword(user: Id)
    | SetBlocked(user: Id, isBlocked: bool)

  // ---------------------------------------------------------------- transactions

  function Revoke(t: Token): Token {
    t.(revoked := true)
  }

  function FamilyRevoked(tokens: map<Id, Token>, family: Id): map<Id, Token> {
    map id | id in tokens :: if tokens[id].family == family then Revoke(tokens[id]) else tokens[id]
  }

  function UserRevoked(tokens: map<Id, Token>, user: Id): map<Id, Token> {
    map id | id in tokens :: if tokens[id].user == user then Revoke(tokens[id]) else tokens[id]
  }

  /** A new family; the ids are new. */
  function IssueTokens(s: State, user: Id, token: Id, family: Id, expiresAt: int): State {
    if token in s.tokens || family in s.chains then s
    else s.(tokens := s.tokens[token := Token(user, family, expiresAt, false, false)],
            chains := s.chains[family := [token]])
  }

  /** The checks of a refresh. A reused token or a blocked user costs the whole family. */
  function ReadToken(s: State, request: Id, token: Id, now: int): State {
    if token !in s.tokens then s
    else
      var t := s.tokens[token];
      if t.rotated || t.revoked then s.(tokens := FamilyRevoked(s.tokens, t.family))
      else if t.expiresAt <= now then s
      else if t.user in s.blocked then s.(tokens := FamilyRevoked(s.tokens, t.family))
      else s.(reading := s.reading[request := token])
  }

  /** The compare-and-set: only a token that is still neither rotated nor revoked gets a successor. */
  function RotateToken(s: State, request: Id, newToken: Id, expiresAt: int): State {
    if request !in s.reading then s
    else
      var token := s.reading[request];
      var done := s.(reading := s.reading - {request});
      if token !in s.tokens || s.tokens[token].rotated || s.tokens[token].revoked || newToken in s.tokens then done
      else
        var t := s.tokens[token];
        done.(tokens := s.tokens[token := t.(rotated := true)]
                                [newToken := Token(t.user, t.family, expiresAt, false, false)],
              chains := if t.family in s.chains then s.chains[t.family := s.chains[t.family] + [newToken]]
                else s.chains)
  }

  function LogoutToken(s: State, token: Id): State {
    if token !in s.tokens then s else s.(tokens := s.tokens[token := Revoke(s.tokens[token])])
  }

  function Apply(s: State, step: Step): State {
    match step
    case Login(user, token, family, expiresAt) => IssueTokens(s, user, token, family, expiresAt)
    case Read(request, token, now) => ReadToken(s, request, token, now)
    case Rotate(request, newToken, expiresAt) => RotateToken(s, request, newToken, expiresAt)
    case Abort(request) => s.(reading := s.reading - {request})
    case Logout(token) => LogoutToken(s, token)
    case ChangePassword(user) => s.(tokens := UserRevoked(s.tokens, user))
    case SetBlocked(user, isBlocked) => s.(blocked := if isBlocked then s.blocked + {user} else s.blocked - {user})
  }

  function Run(s: State, steps: seq<Step>): State {
    if steps == [] then s else Apply(Run(s, steps[..|steps| - 1]), steps[|steps| - 1])
  }

  // ---------------------------------------------------------------- families are chains

  predicate Usable(s: State, token: Id) {
    token in s.tokens && !s.tokens[token].rotated && !s.tokens[token].revoked
  }

  function Head(chain: seq<Id>): Id
    requires chain != []
  {
    chain[|chain| - 1]
  }

  /** One family: distinct tokens of one user, every one rotated but the last. */
  predicate IsChain(tokens: map<Id, Token>, family: Id, chain: seq<Id>) {
    && chain != []
    && (forall i, j :: 0 <= i < j < |chain| ==> chain[i] != chain[j])
    && (forall i :: 0 <= i < |chain| ==>
          && chain[i] in tokens && tokens[chain[i]].family == family
          && tokens[chain[i]].user == (if chain[0] in tokens then tokens[chain[0]].user else 0)
          && (tokens[chain[i]].rotated <==> i < |chain| - 1))
  }

  ghost predicate Inv(s: State) {
    && (forall family :: family in s.chains ==> IsChain(s.tokens, family, s.chains[family]))
    && (forall id :: id in s.tokens ==> s.tokens[id].family in s.chains && id in s.chains[s.tokens[id].family])
    && (forall request :: request in s.reading ==> s.reading[request] in s.tokens)
  }

  /** Rows may be revoked at will without touching the chains. */
  lemma RevokingKeeps(s: State, tokens: map<Id, Token>)
    requires Inv(s) && tokens.Keys == s.tokens.Keys
    requires forall id :: id in tokens ==> tokens[id].(revoked := s.tokens[id].revoked) == s.tokens[id]
    ensures Inv(s.(tokens := tokens))
  {
    forall family | family in s.chains ensures IsChain(tokens, family, s.chains[family]) {
      assert IsChain(s.tokens, family, s.chains[family]);
    }
  }

  lemma LoginKeeps(s: State, user: Id, token: Id, family: Id, expiresAt: int)
    requires Inv(s)
    ensures Inv(IssueTokens(s, user, token, family, expiresAt))
  {
    var t := IssueTokens(s, user, token, family, expiresAt);
    forall f | f in t.chains ensures IsChain(t.tokens, f, t.chains[f]) {
      if f in s.chains {
        assert IsChain(s.tokens, f, s.chains[f]);
      }
    }
  }

  /** The token table after a rotation. */
  function Succeeded(tokens: map<Id, Token>, token: Id, newToken: Id, expiresAt: int): map<Id, Token>
    requires token in tokens
  {
    var t := tokens[token];
    tokens[token := t.(rotated := true)][newToken := Token(t.user, t.family, expiresAt, false, false)]
  }

  lemma ChainGrows(tokens: map<Id, Token>, family: Id, chain: seq<Id>, newToken: Id, expiresAt: int)
    requires IsChain(tokens, family, chain) && newToken !in tokens
    ensures IsChain(Succeeded(tokens, Head(chain), newToken, expiresAt), family, chain + [newToken])
  {
  }

  lemma OtherChainStays(tokens: map<Id, Token>, family: Id, chain: seq<Id>, token: Id, newToken: Id, expiresAt: int)
    requires IsChain(tokens, family, chain) && newToken !in tokens && token in tokens && tokens[token].family != family
    ensures IsChain(Succeeded(tokens, token, newToken, expiresAt), family, chain)
  {
  }

  lemma UsableIsHead(s: State, token: Id)
    requires Inv(s) && Usable(s, token)
    ensures s.tokens[token].family in s.chains && s.chains[s.tokens[token].family] != []
    ensures token == Head(s.chains[s.tokens[token].family])
  {
    assert IsChain(s.tokens, s.tokens[token].family, s.chains[s.tokens[token].family]);
  }

  /** Only the head of a family can win the compare-and-set, and its successor is the new head. */
  lemma RotateKeeps(s: State, request: Id, newToken: Id, expiresAt: int)
    requires Inv(s)
    ensures Inv(RotateToken(s, request, newToken, expiresAt))
  {
    if request in s.reading && Usable(s, s.reading[request]) && newToken !in s.tokens {
      var u, token := RotateToken(s, request, newToken, expiresAt), s.reading[request];
      var family := s.tokens[token].family;
      UsableIsHead(s, token);
      assert u.tokens == Succeeded(s.tokens, token, newToken, expiresAt);
      forall f | f in u.chains ensures IsChain(u.tokens, f, u.chains[f]) {
        if f == family {
          ChainGrows(s.tokens, f, s.chains[f], newToken, expiresAt);
        } else {
          OtherChainStays(s.tokens, f, s.chains[f], token, newToken, expiresAt);
        }
      }
      assert newToken in u.chains[family] by {
        assert u.chains[family][|s.chains[family]|] == newToken;
      }
    }
  }

  lemma ReadKeeps(s: State, request: Id, token: Id, now: int)
    requires Inv(s)
    ensures Inv(Apply(s, Read(request, token, now)))
  {
    if token in s.tokens {
      RevokingKeeps(s, FamilyRevoked(s.tokens, s.tokens[token].family));
    }
  }

  lemma ApplyKeeps(s: State, step: Step)
    requires Inv(s)
    ensures Inv(Apply(s, step))
  {
    match step
    case Login(user, token, family, expiresAt) => LoginKeeps(s, user, token, family, expiresAt);
    case Read(request, token, now) => ReadKeeps(s, request, token, now);
    case Rotate(request, newToken, expiresAt) => RotateKeeps(s, request, newToken, expiresAt);
    case Abort(_) =>
    case Logout(token) =>
      if token in s.tokens {
        RevokingKeeps(s, s.tokens[token := Revoke(s.tokens[token])]);
      }
    case ChangePassword(user) => RevokingKeeps(s, UserRevoked(s.tokens, user));
    case SetBlocked(_, _) =>
  }

  lemma {:induction false} RunKeeps(s: State, steps: seq<Step>)
    requires Inv(s)
    ensures Inv(Run(s, steps))
  {
    if steps != [] {
      RunKeeps(s, steps[..|steps| - 1]);
      ApplyKeeps(Run(s, steps[..|steps| - 1]), steps[|steps| - 1]);
    }
  }

  function Family(s: State, family: Id): set<Id> {
    set id | id in s.tokens && s.tokens[id].family == family
  }

  function Rotated(s: State, family: Id): set<Id> {
    set id | id in s.tokens && s.tokens[id].family == family && s.tokens[id].rotated
  }

  function Elements(chain: seq<Id>): set<Id> {
    set id | id in chain
  }

  lemma {:induction false} DistinctCount(chain: seq<Id>)
    requires forall i, j :: 0 <= i < j < |chain| ==> chain[i] != chain[j]
    ensures |Elements(chain)| == |chain|
  {
    if chain != [] {
      var rest := chain[..|chain| - 1];
      DistinctCount(rest);
      assert Head(chain) !in rest;
      assert chain == rest + [Head(chain)];
      assert Elements(chain) == Elements(rest) + {Head(chain)};
    }
  }

  /**
   Under every interleaving a family is a linear chain: its tokens outnumber the rotated ones by
   exactly one, and at most its head is usable.
   */
  lemma FamiliesAreChains(steps: seq<Step>, family: Id)
    ensures var s := Run(START, steps);
            && (family in s.chains ==> |Family(s, family)| == |Rotated(s, family)| + 1)
            && (forall a, b :: Usable(s, a) && Usable(s, b) && s.tokens[a].family == s.tokens[b].family ==> a == b)
  {
    RunKeeps(START, steps);
    var s := Run(START, steps);
    if family in s.chains {
      var chain := s.chains[family];
      assert IsChain(s.tokens, family, chain);
      var rest := chain[..|chain| - 1];
      assert Family(s, family) == Elements(chain);
      assert Rotated(s, family) == Elements(rest) by {
        forall id | id in rest ensures id in Rotated(s, family) {
        }
      }
      DistinctCount(chain);
      DistinctCount(rest);
    }
    forall a, b | Usable(s, a) && Usable(s, b) && s.tokens[a].family == s.tokens[b].family ensures a == b {
      var chain := s.chains[s.tokens[a].family];
      assert IsChain(s.tokens, s.tokens[a].family, chain) && a in chain && b in chain;
    }
  }

  // ---------------------------------------------------------------- revocation is for good

  /** A family has ended when its current token is revoked. */
  predicate HasEnded(s: State, family: Id) {
    family in s.chains && s.chains[family] != [] && Head(s.chains[family]) in s.tokens
    && s.tokens[Head(s.chains[family])].revoked
  }

  lemma EndedStaysEnded(s: State, step: Step, family: Id)
    requires Inv(s) && HasEnded(s, family)
    ensures HasEnded(Apply(s, step), family) && Apply(s, step).chains[family] == s.chains[family]
  {
    assert IsChain(s.tokens, family, s.chains[family]);
    match step
    case Rotate(request, newToken, expiresAt) =>
      if request in s.reading && Usable(s, s.reading[request]) && newToken !in s.tokens {
        var t := s.tokens[s.reading[request]];
        assert IsChain(s.tokens, t.family, s.chains[t.family]) && s.reading[request] in s.chains[t.family];
        assert t.family != family;
      }
    case _ =>
  }

  /** Once a family has ended, no token it has or ever gets is usable again. */
  lemma {:induction false} RevocationIsForGood(s: State, steps: seq<Step>, family: Id)
    requires Inv(s) && HasEnded(s, family)
    ensures var t := Run(s, steps);
            && HasEnded(t, family) && t.chains[family] == s.chains[family]
            && forall id :: id in t.tokens && t.tokens[id].family == family ==> !Usable(t, id)
  {
    if steps != [] {
      var before := Run(s, steps[..|steps| - 1]);
      RevocationIsForGood(s, steps[..|steps| - 1], family);
      RunKeeps(s, steps[..|steps| - 1]);
      EndedStaysEnded(before, steps[|steps| - 1], family);
    }
    RunKeeps(s, steps);
    var t := Run(s, steps);
    assert IsChain(t.tokens, family, t.chains[family]);
    forall id | id in t.tokens && t.tokens[id].family == family ensures !Usable(t, id) {
      assert id in t.chains[family];
    }
  }

  /** Presenting a token that is not its family's current one ends the family. */
  lemma ReuseEndsTheFamily(s: State, request: Id, token: Id, now: int)
    requires Inv(s) && token in s.tokens && !Usable(s, token)
    ensures HasEnded(ReadToken(s, request, token, now), s.tokens[token].family)
  {
    assert IsChain(s.tokens, s.tokens[token].family, s.chains[s.tokens[token].family]);
  }

  /** A password change ends every family the user has. */
  lemma PasswordChangeEndsEveryFamily(s: State, user: Id, family: Id)
    requires Inv(s) && family in s.chains && s.chains[family][0] in s.tokens
             && s.tokens[s.chains[family][0]].user == user
    ensures HasEnded(Apply(s, ChangePassword(user)), family)
  {
    assert IsChain(s.tokens, family, s.chains[family]);
  }

  /** A logout ends its session exactly when it presents the current token, or it had ended already. */
  lemma LogoutEndsTheSessionExactly(s: State, token: Id)
    requires Inv(s) && token in s.tokens
    ensures var family := s.tokens[token].family;
            HasEnded(LogoutToken(s, token), family) <==> HasEnded(s, family) || !s.tokens[token].rotated
  {
    var family := s.tokens[token].family;
    assert IsChain(s.tokens, family, s.chains[family]) && token in s.chains[family];
  }

  /** So an old token's logout leaves the session usable. */
  lemma LogoutWithARotatedToken()
    ensures var s := Run(START, [Login(1, 10, 5, 99), Read(7, 10, 0), Rotate(7, 11, 99)]);
            var t := LogoutToken(s, 10);
            Usable(t, 11) && 10 in t.tokens && t.tokens[11].family == t.tokens[10].family
  {
    var steps := [Login(1, 10, 5, 99), Read(7, 10, 0), Rotate(7, 11, 99)];
    assert steps[..2][..1][..0] == [] && steps[..2][..1] == [steps[0]] && steps[..2] == [steps[0], steps[1]];
    var a := Run(START, [steps[0]]);
    assert Run(START, []) == START;
    assert a == Apply(START, steps[0]);
    var b := Run(START, steps[..2]);
    assert b == Apply(a, steps[1]);
    assert Run(START, steps) == Apply(b, steps[2]);
  }

  /** Two requests that both read a token as current get at most one successor between them. */
  lemma OneWinner(s: State, first: Id, second: Id, newFirst: Id, newSecond: Id, expiresAt: int)
    requires Inv(s) && first != second && first in s.reading && second in s.reading
             && s.reading[first] == s.reading[second]
    ensures var t := RotateToken(s, first, newFirst, expiresAt);
            var u := RotateToken(t, second, newSecond, expiresAt);
            newFirst !in s.tokens && newFirst in t.tokens ==> u.tokens == t.tokens
  {
  }

  /** An active user's current, unexpired token does get its successor. */
  lemma CurrentTokenRotates(s: State, request: Id, token: Id, now: int, newToken: Id, expiresAt: int)
    requires Inv(s) && Usable(s, token) && now < s.tokens[token].expiresAt && s.tokens[token].user !in s.blocked
    requires newToken !in s.tokens
    ensures var t := RotateToken(ReadToken(s, request, token, now), request, newToken, expiresAt);
            && Usable(t, newToken) && !Usable(t, token)
            && t.chains[s.tokens[token].family] == s.chains[s.tokens[token].family] + [newToken]
  {
    assert IsChain(s.tokens, s.tokens[token].family, s.chains[s.tokens[token].family]);
  }

  // ---------------------------------------------------------------- what ends, and what is spared

  /** A refresh that gives its family away: a token that is not current, or a blocked user's. */
  predicate GivesAway(s: State, token: Id, now: int) {
    && token in s.tokens
    && (!Usable(s, token) || (now < s.tokens[token].expiresAt && s.tokens[token].user in s.blocked))
  }

  /** The rows that a step revokes. */
  predicate RevokedBy(s: State, step: Step, id: Id)
    requires id in s.tokens
  {
    match step
    case Read(_, token, now) => GivesAway(s, token, now) && s.tokens[id].family == s.tokens[token].family
    case Logout(token) => id == token
    case ChangePassword(user) => s.tokens[id].user == user
    case _ => false
  }

  predicate RotatedBy(s: State, step: Step, id: Id) {
    && step.Rotate? && step.request in s.reading && s.reading[step.request] == id
    && Usable(s, id) && step.newToken !in s.tokens
  }

  /** What the step is to have done to the row. */
  predicate Spared(s: State, step: Step, t: State, id: Id)
    requires id in s.tokens
  {
    && id in t.tokens
    && t.tokens[id] == s.tokens[id].(revoked := s.tokens[id].revoked || RevokedBy(s, step, id),
                                     rotated := s.tokens[id].rotated || RotatedBy(s, step, id))
  }

  lemma ReadSpares(s: State, request: Id, token: Id, now: int, id: Id)
    requires id in s.tokens
    ensures Spared(s, Read(request, token, now), ReadToken(s, request, token, now), id)
  {
  }

  lemma RotateSpares(s: State, request: Id, newToken: Id, expiresAt: int, id: Id)
    requires id in s.tokens
    ensures Spared(s, Rotate(request, newToken, expiresAt), RotateToken(s, request, newToken, expiresAt), id)
  {
  }

  /** A step changes exactly the rows that it revokes or rotates; every other token stays as it is. */
  lemma StepSparesTheRest(s: State, step: Step, id: Id)
    requires id in s.tokens
    ensures Spared(s, step, Apply(s, step), id)
  {
    match step
    case Read(request, token, now) => ReadSpares(s, request, token, now, id);
    case Rotate(request, newToken, expiresAt) => RotateSpares(s, request, newToken, expiresAt, id);
    case _ =>
  }

  /** A request goes on to rotate exactly after reading a current, unexpired token of a user who is not blocked. */
  lemma StepReads(s: State, step: Step, request: Id)
    ensures var t := Apply(s, step);
            var accepted := step.Read? && step.request == request && Usable(s, step.token)
                            && step.now < s.tokens[step.token].expiresAt && s.tokens[step.token].user !in s.blocked;
            var over := (step.Rotate? || step.Abort?) && step.request == request;
            && (request in t.reading <==> accepted || (request in s.reading && !over))
            && (accepted ==> t.reading[request] == step.token)
            && (request in t.reading && !accepted ==> t.reading[request] == s.reading[request])
  {
  }

  lemma StepBlocks(s: State, step: Step, user: Id)
    ensures user in Apply(s, step).blocked
            <==> if step.SetBlocked? && step.user == user then step.isBlocked else user in s.blocked
  {
  }

  /** A token is new by a login or as the successor of the one a refresh presented, for the same user and family. */
  lemma NewTokens(s: State, step: Step, id: Id)
    requires Inv(s) && id !in s.tokens
    ensures var t := Apply(s, step);
            id in t.tokens <==> || (step.Login? && step.token == id && step.family !in s.chains)
                                || (step.Rotate? && step.newToken == id && step.request in s.reading
                                    && Usable(s, s.reading[step.request]))
    ensures var t := Apply(s, step);
            id in t.tokens ==> && Usable(t, id) && t.tokens[id].expiresAt == step.expiresAt
                               && (step.Login? ==> t.tokens[id].user == step.user && t.tokens[id].family == step.family)
                               && (step.Rotate? ==> var parent := s.tokens[s.reading[step.request]];
                                                    t.tokens[id].user == parent.user
                                                      && t.tokens[id].family == parent.family)
  {
  }

  /** What ends a session: a token of it given away, its current token logged out, its user's password changed. */
  ghost predicate EndedBy(s: State, step: Step, family: Id)
    requires Inv(s) && family in s.chains
  {
    assert IsChain(s.tokens, family, s.chains[family]);
    match step
    case Read(_, token, now) => GivesAway(s, token, now) && s.tokens[token].family == family
    case Logout(token) => token == Head(s.chains[family])
    case ChangePassword(user) => s.tokens[Head(s.chains[family])].user == user
    case _ => false
  }

  lemma StepEndsExactly(s: State, step: Step, family: Id)
    requires Inv(s) && family in s.chains
    ensures HasEnded(Apply(s, step), family) <==> HasEnded(s, family) || EndedBy(s, step, family)
  {
    var chain := s.chains[family];
    assert IsChain(s.tokens, family, chain);
    ApplyKeeps(s, step);
    var t, head := Apply(s, step), Head(chain);
    if RotatedBy(s, step, head) {
      UsableIsHead(s, head);
      NewTokens(s, step, step.newToken);
      assert t.chains[family] == chain + [step.newToken];
    } else {
      ChainStays(s, step, family);
      StepSparesTheRest(s, step, head);
    }
  }

  lemma ChainStays(s: State, step: Step, family: Id)
    requires Inv(s) && family in s.chains && s.chains[family] != [] && !RotatedBy(s, step, Head(s.chains[family]))
    ensures family in Apply(s, step).chains && Apply(s, step).chains[family] == s.chains[family]
  {
    if step.Rotate? && step.request in s.reading && Usable(s, s.reading[step.request]) {
      UsableIsHead(s, s.reading[step.request]);
    }
  }

  /** Somewhere in the run a step ended the family. */
  ghost predicate EndedWithin(s: State, steps: seq<Step>, family: Id)
    requires Inv(s)
  {
    exists i :: 0 <= i < |steps| && EndedAt(s, steps, i, family)
  }

  ghost predicate EndedAt(s: State, steps: seq<Step>, i: int, family: Id)
    requires Inv(s) && 0 <= i < |steps|
  {
    RunKeeps(s, steps[..i]);
    var before := Run(s, steps[..i]);
    family in before.chains && EndedBy(before, steps[i], family)
  }

  lemma EndedWithinMore(s: State, steps: seq<Step>, family: Id)
    requires Inv(s) && steps != []
    ensures var n := |steps| - 1;
            EndedWithin(s, steps, family) <==> EndedWithin(s, steps[..n], family) || EndedAt(s, steps, n, family)
  {
    var n := |steps| - 1;
    forall i | 0 <= i < n ensures EndedAt(s, steps[..n], i, family) <==> EndedAt(s, steps, i, family) {
      assert steps[..n][..i] == steps[..i];
    }
  }

  /**
   Over every run: a session has ended if and only if some step of the run was one of those three
   and concerned this very session. Nothing that happens to other families or users ends it.
   */
  lemma {:induction false} SessionEndsExactly(s: State, steps: seq<Step>, family: Id)
    requires Inv(s) && family in s.chains && !HasEnded(s, family)
    ensures family in Run(s, steps).chains
    ensures HasEnded(Run(s, steps), family) <==> EndedWithin(s, steps, family)
  {
    if steps != [] {
      var n := |steps| - 1;
      SessionEndsExactly(s, steps[..n], family);
      RunKeeps(s, steps[..n]);
      FamilyStays(Run(s, steps[..n]), steps[n], family);
      StepEndsExactly(Run(s, steps[..n]), steps[n], family);
      EndedWithinMore(s, steps, family);
    }
  }

  lemma FamilyStays(s: State, step: Step, family: Id)
    requires family in s.chains
    ensures family in Apply(s, step).chains
  {
  }

  // ---------------------------------------------------------------- the service

  /** The token table as the service updates it, statement by statement. */
  class TokenStore {
    var tokens: map<Id, Token>
    var blocked: set<Id>
    var reading: map<Id, Id>
    ghost var chains: map<Id, seq<Id>>

    ghost function View(): State
      reads this
    {
      State(tokens, blocked, reading, chains)
    }

    constructor ()
      ensures View() == START && Inv(View())
    {
      tokens, blocked, reading, chains := map[], {}, map[], map[];
    }

    method IssueTokens(user: Id, token: Id, family: Id, expiresAt: int) returns (issued: bool)
      requires Inv(View())
      modifies this
      ensures Inv(View()) && View() == Apply(old(View()), Login(user, token, family, expiresAt))
      ensures issued <==> token !in old(tokens) && forall id :: id in old(tokens) ==> old(tokens)[id].family != family
    {
      ApplyKeeps(View(), Login(user, token, family, expiresAt));
      FamilyKnown(View(), family);
      if token in tokens || exists id :: id in tokens && tokens[id].family == family {
        return false;
      }
      tokens := tokens[token := Token(user, family, expiresAt, false, false)];
      chains := chains[family := [token]];
      issued := true;
    }

    method RevokeFamily(family: Id)
      modifies this`tokens
      ensures tokens == FamilyRevoked(old(tokens), family)
    {
      tokens := map id | id in tokens :: if tokens[id].family == family then Revoke(tokens[id]) else tokens[id];
    }

    /** The first half of a refresh; true if the request may go on to rotate. */
    method ReadForRefresh(request: Id, token: Id, now: int) returns (accepted: bool)
      requires Inv(View())
      modifies this
      ensures Inv(View()) && View() == Apply(old(View()), Read(request, token, now))
      ensures accepted <==> Usable(old(View()), token) && now < old(tokens)[token].expiresAt
                            && old(tokens)[token].user !in blocked
    {
      ApplyKeeps(View(), Read(request, token, now));
      if token !in tokens {
        return false;
      }
      var row := tokens[token];
      if row.rotated || row.revoked {
        RevokeFamily(row.family);
        return false;
      }
      if row.expiresAt <= now {
        return false;
      }
      if row.user in blocked {
        RevokeFamily(row.family);
        return false;
      }
      reading := reading[request := token];
      accepted := true;
    }

    /** The second half: the compare-and-set and the successor, or nothing. */
    method Rotate(request: Id, newToken: Id, expiresAt: int) returns (rotated: bool)
      requires Inv(View()) && request in reading
      modifies this
      ensures Inv(View()) && View() == Apply(old(View()), Step.Rotate(request, newToken, expiresAt))
      ensures rotated <==> Usable(old(View()), old(reading)[request]) && newToken !in old(tokens)
    {
      ApplyKeeps(View(), Step.Rotate(request, newToken, expiresAt));
      var token := reading[request];
      reading := reading - {request};
      var row := tokens[token];
      if row.rotated || row.revoked || newToken in tokens {
        return false;
      }
      tokens := tokens[token := row.(rotated := true)];
      tokens := tokens[newToken := Token(row.user, row.family, expiresAt, false, false)];
      chains := chains[row.family := chains[row.family] + [newToken]];
      rotated := true;
    }

    method Logout(token: Id)
      requires Inv(View())
      modifies this
      ensures Inv(View()) && View() == Apply(old(View()), Step.Logout(token))
    {
      ApplyKeeps(View(), Step.Logout(token));
      if token in tokens {
        tokens := tokens[token := Revoke(tokens[token])];
      }
    }

    method RevokeAllUserTokens(user: Id)
      requires Inv(View())
      modifies this
      ensures Inv(View()) && View() == Apply(old(View()), ChangePassword(user))
    {
      ApplyKeeps(View(), ChangePassword(user));
      tokens := map id | id in tokens :: if tokens[id].user == user then Revoke(tokens[id]) else tokens[id];
    }
  }

  lemma FamilyKnown(s: State, family: Id)
    requires Inv(s)
    ensures family in s.chains <==> exists id :: id in s.tokens && s.tokens[id].family == family
  {
    if family in s.chains {
      assert IsChain(s.tokens, family, s.chains[family]);
      assert s.tokens[s.chains[family][0]].family == family;
    }
  }
}
