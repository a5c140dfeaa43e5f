/**
 Creating objects under a plan limit. Each creating transaction takes the advisory lock of its
 tenant and limit, counts, compares, creates, and lets the lock go when it ends. The lock can be
 left out of the protocol to see what it is there for.
 */
module Limits {
  import opened Base

  type TxId = nat

  /** `permits` is a passed check that has not been used yet; `added` are uncommitted objects. */
  datatype Tx = Tx(permits: bool, added: nat)

  datatype State = State(committed: nat, holder: Option<TxId>, txs: map<TxId, Tx>)

  datatype Step =
    | Begin(tx: TxId)
    | Lock(tx: TxId)
    | Check(tx: TxId)
    | Create(tx: TxId)
    | Commit(tx: TxId)
    | Rollback(tx: TxId)
    | Delete(count: nat)

  function Ended(s: State, t: TxId): State {
    s.(txs := s.txs - {t}, holder := if s.holder == Some(t) then None else s.holder)
  }

  /** The check counts the committed objects and the transaction's own. */
  function Checked(limit: nat, s: State, t: TxId): State
    requires t in s.txs
  {
    if s.committed + s.txs[t].added >= limit then Ended(s, t)
    else s.(txs := s.txs[t := s.txs[t].(permits := true)])
  }

  function Created(s: State, t: TxId): State
    requires t in s.txs
  {
    s.(txs := s.txs[t := Tx(false, s.txs[t].added + 1)])
  }

  /** A step that would have to wait, or makes no sense, changes nothing. */
  function Apply(locking: bool, limit: nat, s: State, step: Step): State {
    match step
    case Begin(t) => if t in s.txs then s else s.(txs := s.txs[t := Tx(false, 0)])
    case Lock(t) => if t in s.txs && s.holder == None then s.(holder := Some(t)) else s
    case Check(t) => if t in s.txs && (locking ==> s.holder == Some(t)) then Checked(limit, s, t) else s
    case Create(t) => if t in s.txs && s.txs[t].permits then Created(s, t) else s
    case Commit(t) => if t in s.txs then Ended(s.(committed := s.committed + s.txs[t].added), t) else s
    case Rollback(t) => if t in s.txs then Ended(s, t) else s
    case Delete(count) => if count <= s.committed then s.(committed := s.committed - count) else s
  }

  function Run(locking: bool, limit: nat, s: State, steps: seq<Step>): State {
    if steps == [] then s
    else Apply(locking, limit, Run(locking, limit, s, steps[..|steps| - 1]), steps[|steps| - 1])
  }

  function Start(committed: nat): State {
    State(committed, None, map[])
  }

  // ---------------------------------------------------------------- safety

  /** Only the holder of the lock has anything in hand, and that fits under the limit. */
  ghost predicate Inv(limit: nat, s: State) {
    && s.committed <= limit
    && (forall t :: t in s.txs && (s.txs[t].permits || s.txs[t].added > 0) ==>
          && s.holder == Some(t)
          && s.committed + s.txs[t].added + (if s.txs[t].permits then 1 else 0) <= limit)
  }

  lemma ApplyKeeps(limit: nat, s: State, step: Step)
    requires Inv(limit, s)
    ensures Inv(limit, Apply(true, limit, s, step))
  {
  }

  lemma {:induction false} RunKeeps(limit: nat, s: State, steps: seq<Step>)
    requires Inv(limit, s)
    ensures Inv(limit, Run(true, limit, s, steps))
  {
    if steps != [] {
      RunKeeps(limit, s, steps[..|steps| - 1]);
      ApplyKeeps(limit, Run(true, limit, s, steps[..|steps| - 1]), steps[|steps| - 1]);
    }
  }

  /** However the transactions interleave, the committed objects stay within the limit. */
  lemma LimitHolds(limit: nat, committed: nat, steps: seq<Step>)
    requires committed <= limit
    ensures Run(true, limit, Start(committed), steps).committed <= limit
  {
    RunKeeps(limit, Start(committed), steps);
  }

  lemma {:induction false} NothingFits(locking: bool, steps: seq<Step>)
    ensures var s := Run(locking, 0, Start(0), steps);
            s.committed == 0 && forall t :: t in s.txs ==> s.txs[t] == Tx(false, 0)
  {
    if steps != [] {
      NothingFits(locking, steps[..|steps| - 1]);
    }
  }

  lemma RunNext(locking: bool, limit: nat, s: State, steps: seq<Step>, step: Step)
    ensures Run(locking, limit, s, steps + [step]) == Apply(locking, limit, Run(locking, limit, s, steps), step)
  {
    assert (steps + [step])[..|steps|] == steps;
  }

  lemma {:induction false} RunOn(locking: bool, limit: nat, s: State, first: Step, rest: seq<Step>)
    ensures Run(locking, limit, s, [first] + rest) == Run(locking, limit, Apply(locking, limit, s, first), rest)
  {
    var all := [first] + rest;
    if rest == [] {
      assert all == [first] && all[..0] == [];
      RunNext(locking, limit, s, [], first);
    } else {
      RunOn(locking, limit, s, first, rest[..|rest| - 1]);
      assert all[..|all| - 1] == [first] + rest[..|rest| - 1];
    }
  }

  /** A creating transaction on its own: one object more exactly while there is room, and the lock is free again. */
  lemma OneMoreExactly(limit: nat, s: State, t: TxId)
    requires s.holder.None? && t !in s.txs
    ensures Run(true, limit, s, [Begin(t), Lock(t), Check(t), Create(t), Commit(t)])
            == s.(committed := s.committed + if s.committed < limit then 1 else 0)
  {
    Five(true, limit, s, Begin(t), Lock(t), Check(t), Create(t), Commit(t));
    assert s.txs[t := Tx(false, 0)] - {t} == s.txs;
    assert s.txs[t := Tx(false, 1)] - {t} == s.txs;
  }

  /** One that rolls back leaves nothing. */
  lemma RolledBackLeavesNothing(limit: nat, s: State, t: TxId)
    requires s.holder.None? && t !in s.txs
    ensures Run(true, limit, s, [Begin(t), Lock(t), Check(t), Create(t), Rollback(t)]) == s
  {
    Five(true, limit, s, Begin(t), Lock(t), Check(t), Create(t), Rollback(t));
    assert s.txs[t := Tx(false, 0)] - {t} == s.txs;
    assert s.txs[t := Tx(false, 1)] - {t} == s.txs;
  }

  /** What is deleted makes room. */
  lemma DeletedMakesRoom(locking: bool, limit: nat, s: State, count: nat)
    ensures Apply(locking, limit, s, Delete(count))
            == s.(committed := if count <= s.committed then s.committed - count else s.committed)
  {
  }

  lemma Five(locking: bool, limit: nat, s: State, a: Step, b: Step, c: Step, d: Step, e: Step)
    ensures Run(locking, limit, s, [a, b, c, d, e])
            == Apply(locking, limit, Apply(locking, limit, Apply(locking, limit, Apply(locking, limit,
                 Apply(locking, limit, s, a), b), c), d), e)
  {
    assert [a, b, c, d, e] == [a, b, c, d] + [e] && [a, b, c, d] == [a, b, c] + [d];
    assert [a, b, c] == [a, b] + [c] && [a, b] == [a] + [b] && [a] == [] + [a];
    RunNext(locking, limit, s, [a, b, c, d], e);
    RunNext(locking, limit, s, [a, b, c], d);
    RunNext(locking, limit, s, [a, b], c);
    RunNext(locking, limit, s, [a], b);
    RunNext(locking, limit, s, [], a);
  }

  /** Two transactions that count before either commits both pass at one below the limit. */
  lemma BothPass(limit: nat) returns (steps: seq<Step>)
    requires limit >= 1
    ensures Run(false, limit, Start(limit - 1), steps).committed == limit + 1
  {
    var c := limit - 1;
    var s1 := State(c, None, map[0 := Tx(false, 0)]);
    var s2 := State(c, None, map[0 := Tx(false, 0), 1 := Tx(false, 0)]);
    var s3 := State(c, None, map[0 := Tx(true, 0), 1 := Tx(false, 0)]);
    var s4 := State(c, None, map[0 := Tx(true, 0), 1 := Tx(true, 0)]);
    var s5 := State(c, None, map[0 := Tx(false, 1), 1 := Tx(true, 0)]);
    var s6 := State(c, None, map[0 := Tx(false, 1), 1 := Tx(false, 1)]);
    var s7 := State(c + 1, None, map[1 := Tx(false, 1)]);
    var p8 := [];
    var p7 := [Commit(1)] + p8;
    var p6 := [Commit(0)] + p7;
    var p5 := [Create(1)] + p6;
    var p4 := [Create(0)] + p5;
    var p3 := [Check(1)] + p4;
    var p2 := [Check(0)] + p3;
    var p1 := [Begin(1)] + p2;
    steps := [Begin(0)] + p1;
    assert Ended(s6.(committed := c + 1), 0).txs == s7.txs;
    assert Apply(false, limit, Start(c), Begin(0)) == s1 && Apply(false, limit, s1, Begin(1)) == s2;
    assert Apply(false, limit, s2, Check(0)) == s3 && Apply(false, limit, s3, Check(1)) == s4;
    assert Apply(false, limit, s4, Create(0)) == s5 && Apply(false, limit, s5, Create(1)) == s6;
    assert Apply(false, limit, s6, Commit(0)) == s7;
    RunOn(false, limit, Start(c), Begin(0), p1);
    RunOn(false, limit, s1, Begin(1), p2);
    RunOn(false, limit, s2, Check(0), p3);
    RunOn(false, limit, s3, Check(1), p4);
    RunOn(false, limit, s4, Create(0), p5);
    RunOn(false, limit, s5, Create(1), p6);
    RunOn(false, limit, s6, Commit(0), p7);
    RunOn(false, limit, s7, Commit(1), p8);
  }

  /** The limit holds in every run exactly when the lock is taken, or when nothing may be created. */
  lemma LimitHoldsExactly(locking: bool, limit: nat)
    ensures (forall committed: nat, steps ::
               committed <= limit ==> Run(locking, limit, Start(committed), steps).committed <= limit)
            <==> locking || limit == 0
  {
    if locking {
      forall committed: nat, steps | committed <= limit
        ensures Run(locking, limit, Start(committed), steps).committed <= limit
      {
        LimitHolds(limit, committed, steps);
      }
    } else if limit == 0 {
      forall committed: nat, steps | committed <= limit
        ensures Run(locking, limit, Start(committed), steps).committed <= limit
      {
        NothingFits(locking, steps);
      }
    } else {
      var steps := BothPass(limit);
    }
  }
}
