/**
 From emission to effect. Services queue events in their unit of work, which publishes them after
 its commit; the worker runs each handler on each event under a dedup row in the same transaction.
 */
module EventDelivery {
  // ---------------------------------------------------------------- unit of work

  type Service = nat

  datatype Event = Event(id: nat, source: Service)

  /**
   A unit of work with the services that use it: the registered callbacks in order, each service's
   queue of pending events, and what has been published.
   */
  datatype Unit = Unit(callbacks: seq<Service>, pending: map<Service, seq<Event>>, published: seq<Event>)

  const NEW_UNIT := Unit([], map[], [])

  function PendingOf(u: Unit, service: Service): seq<Event> {
    QueueOf(u.pending, service)
  }

  /** The first event a service queues registers its publication. */
  function Queued(u: Unit, e: Event): Unit {
    var queue := PendingOf(u, e.source);
    u.(callbacks := if queue == [] then u.callbacks + [e.source] else u.callbacks,
       pending := u.pending[e.source := queue + [e]])
  }

  function EmitAll(u: Unit, events: seq<Event>): Unit {
    if events == [] then u else Queued(EmitAll(u, events[..|events| - 1]), events[|events| - 1])
  }

  /** How far a queue is published: the first publication that raises loses the rest of it. */
  function Heard(queue: seq<Event>, raising: set<Event>): seq<Event> {
    if queue == [] || queue[0] in raising then [] else [queue[0]] + Heard(queue[1..], raising)
  }

  function QueueOf(pending: map<Service, seq<Event>>, service: Service): seq<Event> {
    if service in pending then pending[service] else []
  }

  /** What running the callbacks publishes: one service's queue after another. */
  function Flush(pending: map<Service, seq<Event>>, callbacks: seq<Service>, raising: set<Event>): seq<Event> {
    if callbacks == [] then []
    else Flush(pending, callbacks[..|callbacks| - 1], raising)
         + Heard(QueueOf(pending, callbacks[|callbacks| - 1]), raising)
  }

  /** Leaving the unit: a commit publishes and clears; a rollback does neither. */
  function Exit(u: Unit, committed: bool, raising: set<Event>): Unit {
    if committed then Unit([], map[], u.published + Flush(u.pending, u.callbacks, raising)) else u
  }

  /** One use of a unit; `raising` are the events whose publication raises, should it come to that. */
  datatype Attempt = Attempt(emitted: seq<Event>, committed: bool, raising: set<Event>)

  function Transact(u: Unit, a: Attempt): Unit {
    Exit(EmitAll(u, a.emitted), a.committed, a.raising)
  }

  function TransactAll(u: Unit, attempts: seq<Attempt>): Unit {
    if attempts == [] then u
    else Transact(TransactAll(u, attempts[..|attempts| - 1]), attempts[|attempts| - 1])
  }

  function By(events: seq<Event>, service: Service): seq<Event> {
    if events == [] then []
    else By(events[..|events| - 1], service)
         + if events[|events| - 1].source == service then [events[|events| - 1]] else []
  }

  lemma {:induction false} ByConcat(a: seq<Event>, b: seq<Event>, service: Service)
    ensures By(a + b, service) == By(a, service) + By(b, service)
  {
    if b == [] {
      assert a + b == a;
    } else {
      assert (a + b)[..|a + b| - 1] == a + b[..|b| - 1];
      ByConcat(a, b[..|b| - 1], service);
    }
  }

  lemma {:induction false} ByOwn(events: seq<Event>, owner: Service, service: Service)
    requires forall e :: e in events ==> e.source == owner
    ensures By(events, service) == if owner == service then events else []
  {
    if events != [] {
      ByOwn(events[..|events| - 1], owner, service);
      assert events == events[..|events| - 1] + [events[|events| - 1]];
    }
  }

  ghost predicate Distinct(callbacks: seq<Service>) {
    forall i, j :: 0 <= i < j < |callbacks| ==> callbacks[i] != callbacks[j]
  }

  ghost predicate OwnQueues(pending: map<Service, seq<Event>>) {
    forall s :: s in pending ==> OwnQueue(pending[s], s)
  }

  ghost predicate OwnQueue(queue: seq<Event>, owner: Service) {
    forall e :: e in queue ==> e.source == owner
  }

  /** Exactly the services with queued events are registered, each once, and queues hold their own events. */
  ghost predicate Registered(u: Unit) {
    && Distinct(u.callbacks) && OwnQueues(u.pending)
    && forall service :: service in u.callbacks <==> PendingOf(u, service) != []
  }

  lemma EmitPending(u: Unit, e: Event, service: Service)
    ensures PendingOf(Queued(u, e), service) == PendingOf(u, service) + By([e], service)
  {
    ByOwn([e], e.source, service);
  }

  lemma EmitRegisters(u: Unit, e: Event)
    requires Registered(u)
    ensures Registered(Queued(u, e))
  {
    var v := Queued(u, e);
    assert Distinct(v.callbacks) by {
      assert PendingOf(u, e.source) == [] ==> e.source !in u.callbacks;
    }
    assert OwnQueues(v.pending) by {
      assert OwnQueue(PendingOf(u, e.source), e.source);
    }
    assert forall service :: service in v.callbacks <==> service in u.callbacks || service == e.source;
  }

  lemma {:induction false} EmitAllRegisters(u: Unit, events: seq<Event>)
    requires Registered(u)
    ensures Registered(EmitAll(u, events)) && EmitAll(u, events).published == u.published
  {
    if events != [] {
      EmitAllRegisters(u, events[..|events| - 1]);
      EmitRegisters(EmitAll(u, events[..|events| - 1]), events[|events| - 1]);
    }
  }

  lemma {:induction false} EmitAllPending(u: Unit, events: seq<Event>, service: Service)
    ensures PendingOf(EmitAll(u, events), service) == PendingOf(u, service) + By(events, service)
  {
    if events != [] {
      var rest, last := events[..|events| - 1], events[|events| - 1];
      EmitAllPending(u, rest, service);
      EmitPending(EmitAll(u, rest), last, service);
      assert events == rest + [last];
      ByConcat(rest, [last], service);
      Regroup(PendingOf(u, service), By(rest, service), By([last], service));
    }
  }

  /** A queue is published whole exactly when none of its events raises; otherwise a proper prefix is. */
  lemma {:induction false} HeardExactly(queue: seq<Event>, raising: set<Event>)
    ensures Heard(queue, raising) <= queue
    ensures Heard(queue, raising) == queue <==> forall e :: e in queue ==> e !in raising
    ensures Heard(queue, raising) != queue ==>
              |Heard(queue, raising)| < |queue| && queue[|Heard(queue, raising)|] in raising
    ensures forall e :: e in Heard(queue, raising) ==> e in queue && e !in raising
  {
    if queue != [] && queue[0] !in raising {
      HeardExactly(queue[1..], raising);
      assert queue == [queue[0]] + queue[1..];
    } else if queue != [] {
      assert queue[0] in queue;
    }
  }

  /** Flushing publishes every registered queue in order, each up to the first event that raises. */
  lemma {:induction false} FlushBy(pending: map<Service, seq<Event>>, callbacks: seq<Service>, raising: set<Event>,
                                   service: Service)
    requires Distinct(callbacks) && OwnQueues(pending)
    ensures By(Flush(pending, callbacks, raising), service)
            == if service in callbacks then Heard(QueueOf(pending, service), raising) else []
  {
    if callbacks != [] {
      var rest, last := callbacks[..|callbacks| - 1], callbacks[|callbacks| - 1];
      FlushBy(pending, rest, raising, service);
      var queue := Heard(QueueOf(pending, last), raising);
      assert OwnQueue(QueueOf(pending, last), last);
      HeardExactly(QueueOf(pending, last), raising);
      ByConcat(Flush(pending, rest, raising), queue, service);
      ByOwn(queue, last, service);
      LastApart(callbacks, service);
      Join(By(Flush(pending, rest, raising), service), By(queue, service));
    }
  }

  lemma Join(a: seq<Event>, b: seq<Event>)
    ensures a == [] ==> a + b == b
    ensures b == [] ==> a + b == a
  {
  }

  lemma LastApart(callbacks: seq<Service>, service: Service)
    requires callbacks != [] && Distinct(callbacks)
    ensures var rest, last := callbacks[..|callbacks| - 1], callbacks[|callbacks| - 1];
            last !in rest && (service in callbacks <==> service in rest || service == last)
  {
    var rest, last := callbacks[..|callbacks| - 1], callbacks[|callbacks| - 1];
    assert callbacks == rest + [last];
    forall i | 0 <= i < |rest| ensures rest[i] != last {
      assert rest[i] == callbacks[i];
    }
  }

  /**
   A unit of work used for one transaction publishes nothing if it rolls back. If it commits it
   publishes each service's events once, in the order they were emitted, all of them exactly when
   none of them raises, and otherwise those before the first that does.
   */
  lemma PublishedAfterCommit(attempt: Attempt, service: Service)
    ensures var told := By(Transact(NEW_UNIT, attempt).published, service);
            var emitted := By(attempt.emitted, service);
            && (!attempt.committed ==> told == [])
            && (attempt.committed ==>
                  && told <= emitted
                  && (told == emitted <==> forall e :: e in emitted ==> e !in attempt.raising)
                  && (told != emitted ==> |told| < |emitted| && emitted[|told|] in attempt.raising))
  {
    AttemptPublishes(NEW_UNIT, attempt, service);
    Join([], By(attempt.emitted, service));
    Join([], Heard(By(attempt.emitted, service), attempt.raising));
    HeardExactly(By(attempt.emitted, service), attempt.raising);
  }

  lemma AttemptPublishes(u: Unit, attempt: Attempt, service: Service)
    requires Registered(u)
    ensures var v := Transact(u, attempt);
            var queue := PendingOf(u, service) + By(attempt.emitted, service);
            && Registered(v)
            && By(v.published, service)
               == By(u.published, service) + (if attempt.committed then Heard(queue, attempt.raising) else [])
            && PendingOf(v, service) == if attempt.committed then [] else queue
  {
    EmitAllRegisters(u, attempt.emitted);
    EmitAllPending(u, attempt.emitted, service);
    if attempt.committed {
      var mid := EmitAll(u, attempt.emitted);
      FlushBy(mid.pending, mid.callbacks, attempt.raising, service);
      ByConcat(mid.published, Flush(mid.pending, mid.callbacks, attempt.raising), service);
    }
  }

  /** What one service has queued since the last commit. */
  function Waiting(attempts: seq<Attempt>, service: Service): seq<Event> {
    if attempts == [] || attempts[|attempts| - 1].committed then []
    else Waiting(attempts[..|attempts| - 1], service) + By(attempts[|attempts| - 1].emitted, service)
  }

  /** What one service has published: at each commit, all it has waiting up to an event that raises. */
  function Told(attempts: seq<Attempt>, service: Service): seq<Event> {
    if attempts == [] then []
    else
      var rest, last := attempts[..|attempts| - 1], attempts[|attempts| - 1];
      Told(rest, service)
      + if last.committed then Heard(Waiting(rest, service) + By(last.emitted, service), last.raising) else []
  }

  /** A unit of work that is entered again publishes what its rolled-back attempts had queued. */
  lemma {:induction false} ReusedUnitPublishes(attempts: seq<Attempt>, service: Service)
    ensures var u := TransactAll(NEW_UNIT, attempts);
            Registered(u) && By(u.published, service) == Told(attempts, service)
              && PendingOf(u, service) == Waiting(attempts, service)
  {
    if attempts != [] {
      var rest, last := attempts[..|attempts| - 1], attempts[|attempts| - 1];
      ReusedUnitPublishes(rest, service);
      AttemptPublishes(TransactAll(NEW_UNIT, rest), last, service);
    }
  }

  // ---------------------------------------------------------------- published and committed

  /** All events emitted in the attempts up to and including the last commit. */
  function EmittedToLastCommit(attempts: seq<Attempt>): seq<Event> {
    if attempts == [] then []
    else if attempts[|attempts| - 1].committed then EmittedIn(attempts)
    else EmittedToLastCommit(attempts[..|attempts| - 1])
  }

  function EmittedIn(attempts: seq<Attempt>): seq<Event> {
    if attempts == [] then []
    else EmittedIn(attempts[..|attempts| - 1]) + attempts[|attempts| - 1].emitted
  }

  function CommittedEvents(attempts: seq<Attempt>): seq<Event> {
    if attempts == [] then []
    else CommittedEvents(attempts[..|attempts| - 1])
         + if attempts[|attempts| - 1].committed then attempts[|attempts| - 1].emitted else []
  }

  lemma Regroup(a: seq<Event>, b: seq<Event>, c: seq<Event>)
    ensures a + (b + c) == a + b + c && a + [] == a
  {
  }

  /** No event of these attempts raises when it is published. */
  ghost predicate NothingRaises(attempts: seq<Attempt>) {
    forall i, e :: 0 <= i < |attempts| && e in EmittedIn(attempts) ==> e !in attempts[i].raising
  }

  lemma NothingRaisedBefore(attempts: seq<Attempt>)
    requires attempts != [] && NothingRaises(attempts)
    ensures NothingRaises(attempts[..|attempts| - 1])
  {
    var rest := attempts[..|attempts| - 1];
    forall i, e | 0 <= i < |rest| && e in EmittedIn(rest) ensures e !in rest[i].raising {
      assert e in EmittedIn(attempts) && rest[i] == attempts[i];
    }
  }

  lemma {:induction false} ByOf(events: seq<Event>, service: Service, e: Event)
    ensures e in By(events, service) <==> e in events && e.source == service
    ensures multiset(By(events, service))[e] == if e.source == service then multiset(events)[e] else 0
  {
    if events != [] {
      var rest, last := events[..|events| - 1], events[|events| - 1];
      ByOf(rest, service, e);
      assert events == rest + [last];
    }
  }

  /** If nothing raises, a service has published all it emitted up to the last commit. */
  lemma {:induction false} ToldToLastCommit(attempts: seq<Attempt>, service: Service)
    requires NothingRaises(attempts)
    ensures Told(attempts, service) == By(EmittedToLastCommit(attempts), service)
    ensures Told(attempts, service) + Waiting(attempts, service) == By(EmittedIn(attempts), service)
  {
    if attempts != [] {
      var rest, last := attempts[..|attempts| - 1], attempts[|attempts| - 1];
      NothingRaisedBefore(attempts);
      ToldToLastCommit(rest, service);
      ByConcat(EmittedIn(rest), last.emitted, service);
      var queue := Waiting(rest, service) + By(last.emitted, service);
      Regroup(Told(rest, service), Waiting(rest, service), By(last.emitted, service));
      forall e | e in queue ensures e !in last.raising {
        QueuedWasEmitted(attempts, service, e);
      }
      HeardExactly(queue, last.raising);
    }
  }

  lemma QueuedWasEmitted(attempts: seq<Attempt>, service: Service, e: Event)
    requires attempts != [] && NothingRaises(attempts)
    requires var rest, last := attempts[..|attempts| - 1], attempts[|attempts| - 1];
             && Told(rest, service) + Waiting(rest, service) == By(EmittedIn(rest), service)
             && e in Waiting(rest, service) + By(last.emitted, service)
    ensures e !in attempts[|attempts| - 1].raising
  {
    var rest, last := attempts[..|attempts| - 1], attempts[|attempts| - 1];
    ByOf(EmittedIn(rest), service, e);
    ByOf(last.emitted, service, e);
    assert e in Waiting(rest, service) ==> e in Told(rest, service) + Waiting(rest, service);
    assert e in EmittedIn(attempts);
  }

  /** Every rolled-back attempt had queued nothing. */
  predicate RolledBackEmpty(attempts: seq<Attempt>) {
    forall i :: 0 <= i < |attempts| && !attempts[i].committed ==> attempts[i].emitted == []
  }

  /** No attempt that queued something rolled back before a later commit. */
  predicate NoRollbackBeforeCommit(attempts: seq<Attempt>) {
    forall i, j :: 0 <= i < j < |attempts| && !attempts[i].committed && attempts[j].committed
      ==> attempts[i].emitted == []
  }

  lemma NoRollbackMore(rest: seq<Attempt>, last: Attempt)
    ensures NoRollbackBeforeCommit(rest + [last])
            <==> NoRollbackBeforeCommit(rest) && (last.committed ==> RolledBackEmpty(rest))
  {
    var all := rest + [last];
    assert all[|rest|] == last && forall i :: 0 <= i < |rest| ==> all[i] == rest[i];
    if NoRollbackBeforeCommit(all) {
      forall i, j | 0 <= i < j < |rest| && !rest[i].committed && rest[j].committed ensures rest[i].emitted == [] {
        assert all[i] == rest[i] && all[j] == rest[j];
      }
    }
  }

  /** The committed events are at most the emitted ones, and fewer as soon as a rollback lost some. */
  lemma {:induction false} CommittedOfEmitted(attempts: seq<Attempt>)
    ensures |CommittedEvents(attempts)| <= |EmittedIn(attempts)|
    ensures CommittedEvents(attempts) == EmittedIn(attempts) <==> RolledBackEmpty(attempts)
    ensures |CommittedEvents(attempts)| == |EmittedIn(attempts)| ==> CommittedEvents(attempts) == EmittedIn(attempts)
  {
    if attempts != [] {
      var rest, last := attempts[..|attempts| - 1], attempts[|attempts| - 1];
      CommittedOfEmitted(rest);
      assert attempts == rest + [last];
      RolledBackMore(rest, last);
    }
  }

  lemma RolledBackMore(rest: seq<Attempt>, last: Attempt)
    ensures RolledBackEmpty(rest + [last]) <==> RolledBackEmpty(rest) && (!last.committed ==> last.emitted == [])
  {
    var all := rest + [last];
    assert all[|rest|] == last;
    if RolledBackEmpty(all) {
      forall i | 0 <= i < |rest| && !rest[i].committed ensures rest[i].emitted == [] {
        assert all[i] == rest[i];
      }
    }
  }

  /** All emissions up to the last commit were committed exactly if no queue was rolled back before it. */
  lemma {:induction false} EmittedAreCommittedExactly(attempts: seq<Attempt>)
    ensures EmittedToLastCommit(attempts) == CommittedEvents(attempts) <==> NoRollbackBeforeCommit(attempts)
    ensures |EmittedToLastCommit(attempts)| == |CommittedEvents(attempts)| ==>
              EmittedToLastCommit(attempts) == CommittedEvents(attempts)
  {
    if attempts != [] {
      var rest, last := attempts[..|attempts| - 1], attempts[|attempts| - 1];
      assert attempts == rest + [last];
      NoRollbackMore(rest, last);
      CommittedOfEmitted(rest);
      EmittedAreCommittedExactly(rest);
      if last.committed {
        EmptyHasNoRollback(rest);
        if EmittedIn(rest) + last.emitted == CommittedEvents(rest) + last.emitted {
          assert |EmittedIn(rest)| == |CommittedEvents(rest)|;
        }
      }
    }
  }

  ghost predicate SameByService(a: seq<Event>, b: seq<Event>) {
    forall service :: By(a, service) == By(b, service)
  }

  lemma SameByServiceSameLength(a: seq<Event>, b: seq<Event>)
    requires SameByService(a, b)
    ensures |a| == |b|
  {
    forall e: Event ensures multiset(a)[e] == multiset(b)[e] {
      ByOf(a, e.source, e);
      ByOf(b, e.source, e);
      assert By(a, e.source) == By(b, e.source);
    }
    assert multiset(a) == multiset(b);
    assert |multiset(a)| == |a| && |multiset(b)| == |b|;
  }

  /**
   When no publication raises, every service has published exactly the events of its committed
   attempts, in order, if and only if the unit of work was not committed again after a rollback
   that had queued events.
   */
  lemma PublishedQuietlyExactly(attempts: seq<Attempt>)
    requires NothingRaises(attempts)
    ensures SameByService(TransactAll(NEW_UNIT, attempts).published, CommittedEvents(attempts))
            <==> NoRollbackBeforeCommit(attempts)
  {
    var published := TransactAll(NEW_UNIT, attempts).published;
    forall service: Service ensures By(published, service) == By(EmittedToLastCommit(attempts), service) {
      ReusedUnitPublishes(attempts, service);
      ToldToLastCommit(attempts, service);
    }
    EmittedAreCommittedExactly(attempts);
    if SameByService(published, CommittedEvents(attempts)) {
      assert SameByService(EmittedToLastCommit(attempts), CommittedEvents(attempts));
      SameByServiceSameLength(EmittedToLastCommit(attempts), CommittedEvents(attempts));
    }
  }

  // Publications that raise. Each event is emitted once, as its id is new.

  function RolledBackEvents(attempts: seq<Attempt>): seq<Event> {
    if attempts == [] then []
    else RolledBackEvents(attempts[..|attempts| - 1])
         + if attempts[|attempts| - 1].committed then [] else attempts[|attempts| - 1].emitted
  }

  ghost predicate EmittedOnce(attempts: seq<Attempt>) {
    forall e :: multiset(EmittedIn(attempts))[e] <= 1
  }

  /** A commit that tells of its own events and no others: nothing waits, or the first that waits stops the rest. */
  predicate TellsOwn(waiting: seq<Event>, own: seq<Event>, raising: set<Event>) {
    || (waiting == [] && forall e :: e in own ==> e !in raising)
    || (waiting != [] && own == [] && waiting[0] in raising)
  }

  predicate Faithful(attempts: seq<Attempt>, service: Service) {
    attempts == [] ||
    var rest, last := attempts[..|attempts| - 1], attempts[|attempts| - 1];
    && Faithful(rest, service)
    && (last.committed ==> TellsOwn(Waiting(rest, service), By(last.emitted, service), last.raising))
  }

  lemma TellsOwnEnough(waiting: seq<Event>, own: seq<Event>, raising: set<Event>)
    requires TellsOwn(waiting, own, raising)
    ensures Heard(waiting + own, raising) == own
  {
    if waiting == [] {
      assert waiting + own == own;
      HeardExactly(own, raising);
    } else {
      assert waiting + own == waiting;
    }
  }

  /** A commit that tells of nothing it had waiting tells of no more than its own events, and of as many only so. */
  lemma TellsOwnNeeded(waiting: seq<Event>, own: seq<Event>, raising: set<Event>)
    requires forall e :: e in Heard(waiting + own, raising) ==> e !in waiting
    ensures |Heard(waiting + own, raising)| <= |own|
    ensures |Heard(waiting + own, raising)| == |own| ==> TellsOwn(waiting, own, raising)
  {
    var queue := waiting + own;
    HeardExactly(queue, raising);
    if waiting == [] {
      assert queue == own;
    } else {
      var first := queue[0];
      assert first == waiting[0] && first in waiting;
      assert first !in raising ==> first in Heard(queue, raising);
    }
  }

  lemma CommittedMore(attempts: seq<Attempt>, service: Service)
    requires attempts != []
    ensures var rest, last := attempts[..|attempts| - 1], attempts[|attempts| - 1];
            By(CommittedEvents(attempts), service)
            == By(CommittedEvents(rest), service) + if last.committed then By(last.emitted, service) else []
  {
    var rest, last := attempts[..|attempts| - 1], attempts[|attempts| - 1];
    ByConcat(CommittedEvents(rest), if last.committed then last.emitted else [], service);
  }

  lemma {:induction false} FaithfulTells(attempts: seq<Attempt>, service: Service)
    requires Faithful(attempts, service)
    ensures Told(attempts, service) == By(CommittedEvents(attempts), service)
  {
    if attempts != [] {
      var rest, last := attempts[..|attempts| - 1], attempts[|attempts| - 1];
      FaithfulTells(rest, service);
      CommittedMore(attempts, service);
      if last.committed {
        TellsOwnEnough(Waiting(rest, service), By(last.emitted, service), last.raising);
      }
    }
  }

  lemma {:induction false} WaitingWasRolledBack(attempts: seq<Attempt>, service: Service, e: Event)
    requires e in Waiting(attempts, service)
    ensures e in RolledBackEvents(attempts)
  {
    var rest, last := attempts[..|attempts| - 1], attempts[|attempts| - 1];
    ByOf(last.emitted, service, e);
    if e in Waiting(rest, service) {
      WaitingWasRolledBack(rest, service, e);
    }
  }

  /** A service that told of no rolled-back event told of no more than the committed ones. */
  lemma {:induction false} ToldIsFaithful(attempts: seq<Attempt>, service: Service)
    requires forall e :: e in Told(attempts, service) ==> e !in RolledBackEvents(attempts)
    ensures |Told(attempts, service)| <= |By(CommittedEvents(attempts), service)|
    ensures |Told(attempts, service)| == |By(CommittedEvents(attempts), service)| ==> Faithful(attempts, service)
  {
    if attempts != [] {
      var rest, last := attempts[..|attempts| - 1], attempts[|attempts| - 1];
      forall e | e in Told(rest, service) ensures e !in RolledBackEvents(rest) {
        assert e in Told(attempts, service);
      }
      ToldIsFaithful(rest, service);
      CommittedMore(attempts, service);
      if last.committed {
        LastIsFaithful(attempts, service);
      }
    }
  }

  lemma LastIsFaithful(attempts: seq<Attempt>, service: Service)
    requires attempts != [] && attempts[|attempts| - 1].committed
    requires forall e :: e in Told(attempts, service) ==> e !in RolledBackEvents(attempts)
    ensures var rest, last := attempts[..|attempts| - 1], attempts[|attempts| - 1];
            var waiting, own := Waiting(rest, service), By(last.emitted, service);
            && |Heard(waiting + own, last.raising)| <= |own|
            && (|Heard(waiting + own, last.raising)| == |own| ==> TellsOwn(waiting, own, last.raising))
  {
    var rest, last := attempts[..|attempts| - 1], attempts[|attempts| - 1];
    var waiting, own := Waiting(rest, service), By(last.emitted, service);
    forall e | e in Heard(waiting + own, last.raising) ensures e !in waiting {
      assert e in Told(attempts, service);
      if e in waiting {
        WaitingWasRolledBack(rest, service, e);
        assert false;
      }
    }
    TellsOwnNeeded(waiting, own, last.raising);
  }

  lemma {:induction false} EmittedSplits(attempts: seq<Attempt>, e: Event)
    ensures multiset(EmittedIn(attempts))[e]
            == multiset(CommittedEvents(attempts))[e] + multiset(RolledBackEvents(attempts))[e]
  {
    if attempts != [] {
      EmittedSplits(attempts[..|attempts| - 1], e);
    }
  }

  lemma FaithfulExactly(attempts: seq<Attempt>, service: Service)
    requires EmittedOnce(attempts)
    ensures Told(attempts, service) == By(CommittedEvents(attempts), service) <==> Faithful(attempts, service)
  {
    if Faithful(attempts, service) {
      FaithfulTells(attempts, service);
    }
    if Told(attempts, service) == By(CommittedEvents(attempts), service) {
      forall e | e in Told(attempts, service) ensures e !in RolledBackEvents(attempts) {
        ByOf(CommittedEvents(attempts), service, e);
        EmittedSplits(attempts, e);
      }
      ToldIsFaithful(attempts, service);
    }
  }

  /**
   Whatever raises, every service has published exactly the events of its committed attempts, in
   order, if and only if each commit of the unit told of its own events: none was waiting from a
   rollback and none of its own raised, or it had none and the first that was waiting raised.
   */
  lemma PublishedAreCommittedExactly(attempts: seq<Attempt>)
    requires EmittedOnce(attempts)
    ensures SameByService(TransactAll(NEW_UNIT, attempts).published, CommittedEvents(attempts))
            <==> forall service :: Faithful(attempts, service)
  {
    var published, committed := TransactAll(NEW_UNIT, attempts).published, CommittedEvents(attempts);
    forall service: Service ensures By(published, service) == Told(attempts, service) {
      ReusedUnitPublishes(attempts, service);
    }
    if SameByService(published, committed) {
      forall service: Service ensures Faithful(attempts, service) {
        assert By(published, service) == By(committed, service);
        FaithfulExactly(attempts, service);
      }
    } else {
      var service :| By(published, service) != By(committed, service);
      FaithfulExactly(attempts, service);
    }
  }

  lemma EmptyHasNoRollback(attempts: seq<Attempt>)
    ensures RolledBackEmpty(attempts) ==> NoRollbackBeforeCommit(attempts)
  {
  }

  /** A rolled-back event that is published after all. */
  lemma GhostEvent(e: Event)
    ensures var attempts := [Attempt([e], false, {}), Attempt([], true, {})];
            TransactAll(NEW_UNIT, attempts).published == [e] && CommittedEvents(attempts) == []
  {
    var first, second := Attempt([e], false, {}), Attempt([], true, {});
    var attempts := [first, second];
    var u := Unit([e.source], map[e.source := [e]], []);
    assert attempts[..1] == [first] && [first][..0] == [] && [e][..0] == [] && [e.source][..0] == [];
    assert PendingOf(NEW_UNIT, e.source) == [] && [] + [e] == [e] && [] + [e.source] == [e.source];
    assert Queued(NEW_UNIT, e).pending == u.pending;
    assert EmitAll(NEW_UNIT, [e]) == Queued(NEW_UNIT, e) == u;
    assert TransactAll(NEW_UNIT, [first]) == Transact(NEW_UNIT, first) == u;
    assert TransactAll(NEW_UNIT, attempts) == Exit(u, true, {});
    assert Flush(u.pending, [e.source], {}) == Heard([e], {}) == [e];
    assert CommittedEvents([first]) == [];
  }

  /** The unit of work and its services as they run: queues are appended to, swapped and cleared. */
  class UnitOfWork {
    var callbacks: seq<Service>
    var pending: map<Service, seq<Event>>
    var published: seq<Event>

    ghost function View(): Unit
      reads this
    {
      Unit(callbacks, pending, published)
    }

    constructor ()
      ensures View() == NEW_UNIT
    {
      callbacks, pending, published := [], map[], [];
    }

    method Emit(e: Event)
      modifies this
      ensures View() == Queued(old(View()), e)
    {
      var queue := if e.source in pending then pending[e.source] else [];
      if queue == [] {
        callbacks := callbacks + [e.source];
      }
      pending := pending[e.source := queue + [e]];
    }

    /** One service's queue; the exception of a publication ends its callback and goes no further. */
    method PublishPending(queue: seq<Event>, raising: set<Event>)
      modifies this`published
      ensures published == old(published) + Heard(queue, raising)
    {
      var k := 0;
      while k < |queue| && queue[k] !in raising
        invariant 0 <= k <= |queue|
        invariant published == old(published) + queue[..k]
        invariant Heard(queue, raising) == queue[..k] + Heard(queue[k..], raising)
      {
        published := published + [queue[k]];
        assert queue[k..][1..] == queue[k + 1..] && queue[..k + 1] == queue[..k] + [queue[k]];
        Regroup(queue[..k], [queue[k]], Heard(queue[k + 1..], raising));
        k := k + 1;
      }
    }

    /** A callback that fails is logged, and the others still run. */
    method Leave(committed: bool, raising: set<Event>)
      modifies this
      ensures View() == Exit(old(View()), committed, raising)
    {
      if !committed {
        return;
      }
      for i := 0 to |callbacks|
        invariant callbacks == old(callbacks) && pending == old(pending)
        invariant published == old(published) + Flush(pending, callbacks[..i], raising)
      {
        assert callbacks[..i + 1][..i] == callbacks[..i];
        PublishPending(if callbacks[i] in pending then pending[callbacks[i]] else [], raising);
        Regroup(old(published), Flush(pending, callbacks[..i], raising),
                Heard(QueueOf(pending, callbacks[i]), raising));
      }
      assert callbacks[..|callbacks|] == callbacks;
      callbacks, pending := [], map[];
    }
  }

  // ---------------------------------------------------------------- worker

  const MAX_TRIES := 5
  const RETRY_BASE_DELAY_SECONDS := 15

  /** One handler on one event. */
  datatype Key = Key(handler: string, event: nat)

  /** The dedup rows with their time, and the handler effects committed so far, in order. */
  datatype Ledger = Ledger(processed: map<Key, int>, effects: seq<Key>)

  const NEW_LEDGER := Ledger(map[], [])

  datatype Step =
    | Delivery(key: Key, now: int, succeeds: bool)
    | Purge(now: int)

  /** The dedup row and the handler's effects commit together or not at all. */
  function Dispatch(l: Ledger, key: Key, now: int, succeeds: bool): Ledger {
    if key in l.processed || !succeeds then l
    else Ledger(l.processed[key := now], l.effects + [key])
  }

  function Kept(processed: map<Key, int>, cutoff: int): map<Key, int> {
    map key | key in processed && processed[key] >= cutoff :: processed[key]
  }

  function Apply(l: Ledger, step: Step, retention: nat): Ledger {
    match step
    case Delivery(key, now, succeeds) => Dispatch(l, key, now, succeeds)
    case Purge(now) => l.(processed := Kept(l.processed, now - retention))
  }

  function Run(steps: seq<Step>, retention: nat): Ledger {
    if steps == [] then NEW_LEDGER
    else Apply(Run(steps[..|steps| - 1], retention), steps[|steps| - 1], retention)
  }

  function Count(effects: seq<Key>, key: Key): nat {
    if effects == [] then 0
    else Count(effects[..|effects| - 1], key) + if effects[|effects| - 1] == key then 1 else 0
  }

  /** How often the retention sweep dropped the key's dedup row. */
  function Drops(steps: seq<Step>, retention: nat, key: Key): nat {
    if steps == [] then 0
    else
      var before := Run(steps[..|steps| - 1], retention);
      Drops(steps[..|steps| - 1], retention, key)
      + if key in before.processed && key !in Apply(before, steps[|steps| - 1], retention).processed then 1 else 0
  }

  /**
   Over any deliveries, duplicates, failures, retries and sweeps: an effect is committed once for
   each time its dedup row was dropped, plus once if the row stands.
   */
  lemma {:induction false} EffectsMatchDedupRows(steps: seq<Step>, retention: nat, key: Key)
    ensures var l := Run(steps, retention);
            Count(l.effects, key) == Drops(steps, retention, key) + if key in l.processed then 1 else 0
  {
    if steps != [] {
      var before, last := Run(steps[..|steps| - 1], retention), steps[|steps| - 1];
      EffectsMatchDedupRows(steps[..|steps| - 1], retention, key);
      if last.Delivery? {
        assert (before.effects + [last.key])[..|before.effects|] == before.effects;
      }
    }
  }

  predicate TimeFlows(steps: seq<Step>) {
    forall i, j :: 0 <= i <= j < |steps| ==> steps[i].now <= steps[j].now
  }

  /** Every delivery of the key comes within the retention horizon of `first`. */
  predicate WithinHorizon(steps: seq<Step>, retention: nat, key: Key, first: int) {
    forall i :: 0 <= i < |steps| && steps[i].Delivery? && steps[i].key == key
      ==> first <= steps[i].now <= first + retention
  }

  lemma {:induction false} HorizonKeepsRow(steps: seq<Step>, retention: nat, key: Key, first: int)
    requires TimeFlows(steps) && WithinHorizon(steps, retention, key, first)
    ensures var l := Run(steps, retention);
            && (key in l.processed ==> l.processed[key] >= first && Drops(steps, retention, key) == 0)
            && Drops(steps, retention, key) <= 1
            && (Drops(steps, retention, key) == 1 ==> steps != [] && steps[|steps| - 1].now > first + retention)
  {
    if steps != [] {
      var rest, last := steps[..|steps| - 1], steps[|steps| - 1];
      HorizonKeepsRow(rest, retention, key, first);
      if rest != [] {
        assert rest[|rest| - 1].now <= last.now;
      }
    }
  }

  /** Within the retention horizon a handler's effect on an event is committed at most once. */
  lemma EffectivelyOnce(steps: seq<Step>, retention: nat, key: Key, first: int)
    requires TimeFlows(steps) && WithinHorizon(steps, retention, key, first)
    ensures Count(Run(steps, retention).effects, key) <= 1
  {
    EffectsMatchDedupRows(steps, retention, key);
    HorizonKeepsRow(steps, retention, key, first);
  }

  /** A duplicate after the row was swept is a second effect. */
  lemma TwiceAfterSweep(key: Key, retention: nat)
    ensures var steps := [Delivery(key, 0, true), Purge(retention + 1), Delivery(key, retention + 1, true)];
            TimeFlows(steps) && Count(Run(steps, retention).effects, key) == 2
  {
    var a, b, c := Delivery(key, 0, true), Purge(retention + 1), Delivery(key, retention + 1, true);
    RunMore([], a, retention);
    RunMore([a], b, retention);
    RunMore([a, b], c, retention);
    assert [] + [a] == [a] && [a] + [b] == [a, b] && [a, b] + [c] == [a, b, c];
    assert Run([a, b, c], retention).effects == [key, key];
    assert Count([key], key) == 1 by { assert [key][..0] == []; }
    assert Count([key, key], key) == 2 by { assert [key, key][..1] == [key]; }
  }

  lemma RunMore(steps: seq<Step>, last: Step, retention: nat)
    ensures Run(steps + [last], retention) == Apply(Run(steps, retention), last, retention)
  {
    assert (steps + [last])[..|steps|] == steps;
  }

  datatype Verdict = Done | Skipped | RetryIn(seconds: nat) | DeadLettered | Unregistered

  function Pow2(n: nat): nat {
    if n == 0 then 1 else 2 * Pow2(n - 1)
  }

  /** Seconds waited by a job that has failed `tries` times. */
  function Waited(tries: nat): nat {
    if tries == 0 then 0 else Waited(tries - 1) + RETRY_BASE_DELAY_SECONDS * Pow2(tries - 1)
  }

  /** The backoff of a job that fails every time doubles up to a total of fifteen (2^n - 1) seconds. */
  lemma {:induction false} BackoffTotal(tries: nat)
    ensures Waited(tries) == RETRY_BASE_DELAY_SECONDS * (Pow2(tries) - 1)
  {
    if tries > 0 {
      BackoffTotal(tries - 1);
    }
  }

  class Worker {
    var processed: map<Key, int>
    var effects: seq<Key>

    ghost function View(): Ledger
      reads this
    {
      Ledger(processed, effects)
    }

    constructor ()
      ensures View() == NEW_LEDGER
    {
      processed, effects := map[], [];
    }

    /**
     One delivery: dedup insert, handler and commit, or a rollback and a verdict on the job. A
     handler that this process does not know leaves no dedup row and is not retried.
     */
    method DispatchEvent(key: Key, registered: set<string>, now: int, jobTry: nat, succeeds: bool) returns (v: Verdict)
      requires jobTry >= 1
      modifies this
      ensures View() == if key.handler in registered then Dispatch(old(View()), key, now, succeeds) else old(View())
      ensures v == if key.handler !in registered then Unregistered
                   else if key in old(processed) then Skipped
                   else if succeeds then Done
                   else if jobTry >= MAX_TRIES then DeadLettered
                   else RetryIn(Waited(jobTry) - Waited(jobTry - 1))
    {
      if key.handler !in registered {
        return Unregistered;
      }
      var before := processed;
      if key in processed {
        return Skipped;
      }
      processed := processed[key := now];
      if succeeds {
        effects := effects + [key];
        return Done;
      }
      processed := before;
      if jobTry >= MAX_TRIES {
        return DeadLettered;
      }
      v := RetryIn(RETRY_BASE_DELAY_SECONDS * Pow2(jobTry - 1));
    }

    method PurgeProcessed(now: int, retention: nat) returns (deleted: nat)
      modifies this
      ensures View() == Apply(old(View()), Purge(now), retention)
      ensures deleted == |old(processed)| - |processed|
    {
      var kept := map key | key in processed && processed[key] >= now - retention :: processed[key];
      KeptIsSmaller(processed, now - retention);
      deleted := |processed| - |kept|;
      processed := kept;
    }
  }

  lemma KeptIsSmaller(processed: map<Key, int>, cutoff: int)
    ensures |Kept(processed, cutoff)| <= |processed|
  {
    var all, kept := processed.Keys, Kept(processed, cutoff).Keys;
    assert kept <= all;
    assert all == kept + (all - kept);
    assert |all| == |kept| + |all - kept|;
  }
}
