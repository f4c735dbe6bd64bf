/** Replay protection (`tree_agent/server/services/idempotency.py` and
  `tree_agent/server/repositories/idempotency.py`): reserve, produce, then store or release,
  each in a transaction of its own, interleaved with those of every other request. */
module Idempotency {
  import opened Base

  type Fingerprint = nat
  type Body = nat

  /** (user, request key) */
  type RequestKey = (Id, Id)

  const TTL_MS: nat := 86400000

  /** `status_code` of a reservation. */
  const IN_PROGRESS: nat := 0

  datatype Record = Record(fingerprint: Fingerprint, status: nat, body: Body, expiresAt: int)

  type Keys = map<RequestKey, Record>

  // ------------------------------------------------------------- transactions

  function Lookup(keys: Keys, k: RequestKey, now: int): Option<Record> {
    if k in keys && keys[k].expiresAt > now then Some(keys[k]) else None
  }

  function Remember(keys: Keys, k: RequestKey, fingerprint: Fingerprint, status: nat, body: Body, now: int): Keys {
    keys[k := Record(fingerprint, status, body, now + TTL_MS)]
  }

  function Unreserve(keys: Keys, k: RequestKey): Keys {
    if k in keys && keys[k].status == IN_PROGRESS then keys - {k} else keys
  }

  function Unexpired(keys: Keys, now: int): Keys { map k | k in keys && keys[k].expiresAt > now :: keys[k] }

  datatype Reservation = Reserved | Replay(body: Body) | Mismatch | InProgress

  function Reserving(keys: Keys, k: RequestKey, fingerprint: Fingerprint, now: int): Reservation {
    match Lookup(keys, k, now)
    case None => Reserved
    case Some(existing) =>
      if existing.fingerprint != fingerprint then Mismatch
      else if existing.status == IN_PROGRESS then InProgress
      else Replay(existing.body)
  }

  // ----------------------------------------------------------------- protocol

  /** What the caller of `run` gets; `Passed` is what `produce` raised, passed on. */
  datatype Reply = Returned(body: Body) | Raised(status: nat, body: Body) | Mismatched | Busy | Passed

  /** What the request that ran `produce` gets for a recorded outcome. */
  function FirstReply(status: nat, body: Body): Reply { if status == 200 then Returned(body) else Raised(status, body) }

  /** Where `run` stands: before the reservation; while `produce` runs; after it, with a
      result to store or a reservation to release; at its end. `until` is when the
      reservation expires. */
  datatype Phase =
    | Arrived
    | Producing(until: int)
    | Produced(until: int, status: nat, body: Body)
    | Failing(until: int)
    | Replied(reply: Reply)
    | Crashed

  datatype Request = Request(key: RequestKey, fingerprint: Fingerprint, phase: Phase)

  datatype World = World(keys: Keys, clock: int, requests: map<Id, Request>)

  datatype Event =
    | Arrive(id: Id, key: RequestKey, fingerprint: Fingerprint)
    | Reserve(id: Id)
    | Finish(id: Id, status: nat, body: Body)
    | Fail(id: Id)
    | Store(id: Id)
    | Release(id: Id)
    | Crash(id: Id)
    | Tick(ms: nat)
    | Sweep

  /** The outcomes `run` records: a result, or an error of the 4xx class. */
  predicate Recorded(status: nat) { status == 200 || 400 <= status < 500 }

  /** Holding a reservation: `produce` runs, or its end is not recorded yet. */
  predicate Holding(phase: Phase) { phase.Producing? || phase.Produced? || phase.Failing? }

  /** What can happen in a world, at any moment and to any request. */
  predicate Possible(w: World, e: Event) {
    match e
    case Arrive(id, key, fingerprint) => id !in w.requests
    case Reserve(id) => id in w.requests && w.requests[id].phase == Arrived
    case Finish(id, status, body) => id in w.requests && w.requests[id].phase.Producing? && Recorded(status)
    case Fail(id) => id in w.requests && w.requests[id].phase.Producing?
    case Store(id) => id in w.requests && w.requests[id].phase.Produced?
    case Release(id) => id in w.requests && w.requests[id].phase.Failing?
    case Crash(id) => id in w.requests
    case Tick(ms) => true
    case Sweep => true
  }

  function Become(w: World, id: Id, phase: Phase): World
    requires id in w.requests
  {
    w.(requests := w.requests[id := w.requests[id].(phase := phase)])
  }

  function Next(w: World, e: Event): World
    requires Possible(w, e)
  {
    match e
    case Arrive(id, key, fingerprint) => w.(requests := w.requests[id := Request(key, fingerprint, Arrived)])
    case Reserve(id) =>
      var q := w.requests[id];
      (match Reserving(w.keys, q.key, q.fingerprint, w.clock)
       case Reserved =>
         Become(w, id, Producing(w.clock + TTL_MS)).(keys := Remember(w.keys, q.key, q.fingerprint, IN_PROGRESS, 0, w.clock))
       case Replay(body) => Become(w, id, Replied(Returned(body)))
       case Mismatch => Become(w, id, Replied(Mismatched))
       case InProgress => Become(w, id, Replied(Busy)))
    case Finish(id, status, body) => Become(w, id, Produced(w.requests[id].phase.until, status, body))
    case Fail(id) => Become(w, id, Failing(w.requests[id].phase.until))
    case Store(id) =>
      var q := w.requests[id];
      Become(w, id, Replied(FirstReply(q.phase.status, q.phase.body))).(keys := Remember(w.keys, q.key, q.fingerprint, q.phase.status, q.phase.body, w.clock))
    case Release(id) => Become(w, id, Replied(Passed)).(keys := Unreserve(w.keys, w.requests[id].key))
    case Crash(id) => Become(w, id, Crashed)
    case Tick(ms) => w.(clock := w.clock + ms)
    case Sweep => w.(keys := Unexpired(w.keys, w.clock))
  }

  // ------------------------------------------------------------ one in flight

  /** A request whose reservation has not expired yet. */
  predicate InTime(w: World, id: Id)
    requires id in w.requests
  {
    Holding(w.requests[id].phase) && w.clock < w.requests[id].phase.until
  }

  predicate Under(w: World, id: Id, k: RequestKey) { id in w.requests && w.requests[id].key == k }

  /** The premise on time, for the requests under one key: `produce` ends before its
      reservation expires, and so does the release after a failure. A store may be as late
      as it likes. */
  ghost predicate Punctual(w: World, k: RequestKey, e: Event) {
    match e
    case Tick(ms) => forall id :: Under(w, id, k) && w.requests[id].phase.Producing? ==> w.clock + ms < w.requests[id].phase.until
    case Release(id) => Under(w, id, k) ==> InTime(w, id)
    case _ => true
  }

  /** A request in time finds under its key a record that lasts as long as its own
      reservation, and its own record unless a result is there. */
  ghost predicate Covered(w: World, id: Id)
    requires id in w.requests && Holding(w.requests[id].phase)
  {
    var q := w.requests[id];
    q.key in w.keys && w.keys[q.key].expiresAt >= q.phase.until
    && (w.keys[q.key].status == IN_PROGRESS ==> w.keys[q.key] == Record(q.fingerprint, IN_PROGRESS, 0, q.phase.until))
  }

  ghost predicate Exclusive(w: World, k: RequestKey) {
    (forall id :: Under(w, id, k) && Holding(w.requests[id].phase) ==> w.requests[id].phase.until <= w.clock + TTL_MS)
    && (forall id :: Under(w, id, k) && w.requests[id].phase.Producing? ==> InTime(w, id))
    && (forall id :: Under(w, id, k) && w.requests[id].phase.Produced? ==> w.requests[id].phase.status != IN_PROGRESS)
    && (forall id :: Under(w, id, k) && InTime(w, id) ==> Covered(w, id))
    && (forall a, b :: Under(w, a, k) && Under(w, b, k) && InTime(w, a) && InTime(w, b) ==> a == b)
  }

  /** Another request in time has its reservation under the key that `id` releases. */
  predicate Bystander(w: World, id: Id, other: Id)
    requires id in w.requests
  {
    other in w.requests && other != id && InTime(w, other) && w.requests[other].key == w.requests[id].key
    && w.requests[other].key in w.keys && w.keys[w.requests[other].key].status == IN_PROGRESS
  }

  /** A request moves on without touching the table: it lets go of its reservation, or keeps
      it with the outcome of `produce`. */
  lemma BecomeExclusive(w: World, k: RequestKey, id: Id, phase: Phase)
    requires Exclusive(w, k) && id in w.requests && (phase.Produced? ==> phase.status != IN_PROGRESS) && !phase.Producing?
    requires Holding(phase) ==> w.requests[id].phase.Producing? && phase.until == w.requests[id].phase.until
    ensures Exclusive(Become(w, id, phase), k)
  {
    var v := Become(w, id, phase);
    forall other | Under(v, other, k) && InTime(v, other) ensures InTime(w, other) && Covered(v, other) {
      assert Under(w, other, k) && InTime(w, other) && Covered(w, other);
    }
  }

  /** What happens under another key does not matter. */
  lemma ElsewhereExclusive(w: World, k: RequestKey, v: World, id: Id)
    requires Exclusive(w, k) && id in w.requests && w.requests[id].key != k
    requires v.clock == w.clock && v.requests.Keys == w.requests.Keys && v.requests[id].key == w.requests[id].key
    requires forall x :: x in w.requests && x != id ==> v.requests[x] == w.requests[x]
    requires (k in v.keys <==> k in w.keys) && (k in w.keys ==> v.keys[k] == w.keys[k])
    ensures Exclusive(v, k)
  {
    forall other | Under(v, other, k) ensures Under(w, other, k) && v.requests[other] == w.requests[other] {}
    forall other | Under(v, other, k) && InTime(v, other) ensures Covered(v, other) {
      assert InTime(w, other) && Covered(w, other);
    }
  }

  lemma NobodyInTime(w: World, k: RequestKey)
    requires Exclusive(w, k) && Lookup(w.keys, k, w.clock) == None
    ensures forall id :: Under(w, id, k) ==> !InTime(w, id)
  {}

  lemma BeginExclusive(w: World, k: RequestKey, id: Id)
    requires Exclusive(w, k) && Possible(w, Reserve(id)) && w.requests[id].key == k
    requires Reserving(w.keys, w.requests[id].key, w.requests[id].fingerprint, w.clock) == Reserved
    ensures Exclusive(Next(w, Reserve(id)), k)
  {
    var v, q := Next(w, Reserve(id)), w.requests[id];
    assert v == Become(w, id, Producing(w.clock + TTL_MS)).(keys := Remember(w.keys, k, q.fingerprint, IN_PROGRESS, 0, w.clock));
    NobodyInTime(w, k);
    hide Next, Reserving;
    forall other | Under(v, other, k) && other != id ensures Under(w, other, k) && !InTime(v, other) {}
  }

  lemma ReserveExclusive(w: World, k: RequestKey, id: Id)
    requires Exclusive(w, k) && Possible(w, Reserve(id))
    ensures Exclusive(Next(w, Reserve(id)), k)
  {
    hide Exclusive;
    if w.requests[id].key != k {
      ElsewhereExclusive(w, k, Next(w, Reserve(id)), id);
    } else {
      match Reserving(w.keys, w.requests[id].key, w.requests[id].fingerprint, w.clock)
      case Reserved => BeginExclusive(w, k, id);
      case Replay(body) => BecomeExclusive(w, k, id, Replied(Returned(body)));
      case Mismatch => BecomeExclusive(w, k, id, Replied(Mismatched));
      case InProgress => BecomeExclusive(w, k, id, Replied(Busy));
    }
  }

  lemma StoreExclusive(w: World, k: RequestKey, id: Id)
    requires Exclusive(w, k) && Possible(w, Store(id))
    ensures Exclusive(Next(w, Store(id)), k)
  {
    var v := Next(w, Store(id));
    if w.requests[id].key != k {
      ElsewhereExclusive(w, k, v, id);
    } else {
      forall other | Under(v, other, k) && other != id ensures Under(w, other, k) && v.requests[other] == w.requests[other] {}
      forall other | Under(v, other, k) && InTime(v, other) ensures InTime(w, other) && Covered(v, other) {
        assert Under(w, other, k) && Covered(w, other);
      }
    }
  }

  /** Time passes, expired records go. */
  lemma TimeExclusive(w: World, k: RequestKey, e: Event)
    requires Exclusive(w, k) && (e.Tick? || e.Sweep?) && Punctual(w, k, e)
    ensures Exclusive(Next(w, e), k)
  {
    var v := Next(w, e);
    forall id | Under(v, id, k) ensures Under(w, id, k) && v.requests[id] == w.requests[id] {}
    forall id | Under(v, id, k) && InTime(v, id) ensures InTime(w, id) && Covered(v, id) {
      assert Under(w, id, k) && InTime(w, id) && Covered(w, id);
    }
  }

  lemma ArriveExclusive(w: World, k: RequestKey, id: Id, key: RequestKey, fingerprint: Fingerprint)
    requires Exclusive(w, k) && id !in w.requests
    ensures Exclusive(Next(w, Arrive(id, key, fingerprint)), k)
  {
    var v := Next(w, Arrive(id, key, fingerprint));
    forall other | Under(v, other, k) && other != id ensures Under(w, other, k) && v.requests[other] == w.requests[other] {}
    forall other | Under(v, other, k) && InTime(v, other) ensures Covered(v, other) {
      assert Under(w, other, k) && InTime(w, other) && Covered(w, other);
    }
  }

  lemma StepExclusive(w: World, k: RequestKey, e: Event)
    requires Exclusive(w, k) && Possible(w, e) && !e.Release? && Punctual(w, k, e)
    ensures Exclusive(Next(w, e), k)
  {
    hide Exclusive, Become, Unexpired, Reserving, Remember;
    match e
    case Arrive(id, key, fingerprint) => ArriveExclusive(w, k, id, key, fingerprint);
    case Finish(id, status, body) => BecomeExclusive(w, k, id, Produced(w.requests[id].phase.until, status, body));
    case Fail(id) => BecomeExclusive(w, k, id, Failing(w.requests[id].phase.until));
    case Crash(id) => BecomeExclusive(w, k, id, Crashed);
    case Reserve(id) => ReserveExclusive(w, k, id);
    case Store(id) => StoreExclusive(w, k, id);
    case Tick(_) => TimeExclusive(w, k, e);
    case Sweep => TimeExclusive(w, k, e);
  }

  /** A release, early or late, keeps the others under its key covered exactly when it does
      not take the reservation of another request that is still in time. */
  lemma ReleaseExact(w: World, id: Id)
    requires Possible(w, Release(id)) && Exclusive(w, w.requests[id].key)
    ensures Exclusive(Next(w, Release(id)), w.requests[id].key) <==> !exists other :: Bystander(w, id, other)
  {
    var v, k := Next(w, Release(id)), w.requests[id].key;
    if exists other :: Bystander(w, id, other) {
      var other :| Bystander(w, id, other);
      assert v.requests[other] == w.requests[other] && w.requests[other].key !in v.keys;
      assert Under(v, other, k) && InTime(v, other) && !Covered(v, other);
    } else {
      forall other | Under(v, other, k) && InTime(v, other) ensures Under(w, other, k) && InTime(w, other) && Covered(v, other) {
        assert v.requests[other] == w.requests[other];
        assert Under(w, other, k) && InTime(w, other);
        assert Covered(w, other) && !Bystander(w, id, other);
      }
    }
  }

  lemma NextExclusive(w: World, k: RequestKey, e: Event)
    requires Exclusive(w, k) && Possible(w, e) && Punctual(w, k, e)
    ensures Exclusive(Next(w, e), k)
  {
    if e.Release? {
      if Under(w, e.id, k) {
        forall other ensures !Bystander(w, e.id, other) {}
        ReleaseExact(w, e.id);
      } else {
        ElsewhereExclusive(w, k, Next(w, e), e.id);
      }
    } else {
      StepExclusive(w, k, e);
    }
  }

  /** A run of the protocol from an empty table. */
  ghost predicate Run(worlds: seq<World>, events: seq<Event>) {
    |worlds| == |events| + 1 && worlds[0].keys == map[] && worlds[0].requests == map[]
    && forall i :: 0 <= i < |events| ==> Possible(worlds[i], events[i]) && worlds[i + 1] == Next(worlds[i], events[i])
  }

  /** In every run, under every interleaving of requests, crashes, sweeps and clock ticks,
      in which every `produce` under a (user, key) ends and every release there runs in time:
      at most one `produce` is in flight under it, whatever happens under other keys. */
  lemma {:induction false} OneProduceInFlight(worlds: seq<World>, events: seq<Event>, k: RequestKey, n: nat)
    requires Run(worlds, events) && n < |worlds| && forall i :: 0 <= i < n ==> Punctual(worlds[i], k, events[i])
    ensures Exclusive(worlds[n], k)
    ensures var q := worlds[n].requests;
            forall a, b :: a in q && b in q && q[a].phase.Producing? && q[b].phase.Producing? && q[a].key == q[b].key == k ==> a == b
    decreases n
  {
    if n > 0 {
      OneProduceInFlight(worlds, events, k, n - 1);
      NextExclusive(worlds[n - 1], k, events[n - 1]);
    }
    var w := worlds[n];
    forall a | a in w.requests && w.requests[a].phase.Producing? && w.requests[a].key == k ensures Under(w, a, k) && InTime(w, a) {}
  }

  /** `produce` starts exactly when the table has no unexpired record: never for a key whose
      record has another fingerprint, while another request in time holds the key, or while
      a result is kept. */
  lemma StartsAlone(w: World, e: Event, id: Id)
    requires Possible(w, e) && id in w.requests && Exclusive(w, w.requests[id].key) && Punctual(w, w.requests[id].key, e)
    ensures var k := w.requests[id].key;
            !w.requests[id].phase.Producing? && Next(w, e).requests[id].phase.Producing? ==>
              e == Reserve(id) && (k in w.keys ==> w.keys[k].expiresAt <= w.clock)
              && forall other :: other in w.requests && InTime(w, other) ==> w.requests[other].key != k
  {
    var k := w.requests[id].key;
    forall other | other in w.requests && w.requests[other].key == k && InTime(w, other) ensures Covered(w, other) {
      assert Under(w, other, k);
    }
  }

  // ------------------------------------------------------------------- replay

  ghost predicate HasResult(w: World, k: RequestKey, f: Fingerprint, body: Body, until: int) {
    k in w.keys && w.keys[k].status != IN_PROGRESS && w.keys[k].fingerprint == f && w.keys[k].body == body
    && w.clock < until <= w.keys[k].expiresAt && until <= w.clock + TTL_MS
  }

  /** No request can still store anything else under the key. */
  ghost predicate Uncontested(w: World, k: RequestKey, f: Fingerprint, body: Body) {
    forall id :: id in w.requests && w.requests[id].key == k ==>
      !w.requests[id].phase.Producing?
      && (w.requests[id].phase.Produced? ==>
            w.requests[id].fingerprint == f && w.requests[id].phase.body == body && w.requests[id].phase.status != IN_PROGRESS)
  }

  /** A history of any events, in time or not. */
  function History(w: World, events: seq<Event>): Option<World>
    decreases |events|
  {
    if events == [] then Some(w)
    else if !Possible(w, events[0]) then None
    else History(Next(w, events[0]), events[1..])
  }

  lemma ResultStays(w: World, e: Event, k: RequestKey, f: Fingerprint, body: Body, until: int)
    requires HasResult(w, k, f, body, until) && Uncontested(w, k, f, body) && Possible(w, e) && Next(w, e).clock < until
    ensures HasResult(Next(w, e), k, f, body, until) && Uncontested(Next(w, e), k, f, body)
  {}

  lemma ClockForward(w: World, e: Event)
    requires Possible(w, e)
    ensures Next(w, e).clock >= w.clock
  {}

  lemma {:induction false} HistoryForward(w: World, events: seq<Event>)
    requires History(w, events).Some?
    ensures History(w, events).value.clock >= w.clock
    decreases |events|
  {
    if events != [] {
      ClockForward(w, events[0]);
      HistoryForward(Next(w, events[0]), events[1..]);
    }
  }

  lemma {:induction false} ResultOutlives(w: World, events: seq<Event>, k: RequestKey, f: Fingerprint, body: Body, until: int)
    requires HasResult(w, k, f, body, until) && Uncontested(w, k, f, body)
    requires History(w, events).Some? && History(w, events).value.clock < until
    ensures HasResult(History(w, events).value, k, f, body, until)
    decreases |events|
  {
    hide Next, Possible, HasResult, Uncontested;
    if events != [] {
      var v := Next(w, events[0]);
      HistoryForward(v, events[1..]);
      ResultStays(w, events[0], k, f, body, until);
      ResultOutlives(v, events[1..], k, f, body, until);
    }
  }

  /** Whatever happens until then, the result is there. */
  ghost predicate Lasts(w: World, k: RequestKey, f: Fingerprint, body: Body, until: int) {
    forall events :: History(w, events).Some? && History(w, events).value.clock < until ==>
      HasResult(History(w, events).value, k, f, body, until)
  }

  /** Who can still store something else does so at once. */
  lemma ContestedStore(w: World, k: RequestKey, f: Fingerprint, body: Body, until: int) returns (events: seq<Event>)
    requires HasResult(w, k, f, body, until) && !Uncontested(w, k, f, body)
    ensures History(w, events).Some? && History(w, events).value.clock < until
    ensures !HasResult(History(w, events).value, k, f, body, until)
  {
    var id :| id in w.requests && w.requests[id].key == k
              && (w.requests[id].phase.Producing?
                  || (w.requests[id].phase.Produced?
                      && !(w.requests[id].fingerprint == f && w.requests[id].phase.body == body
                           && w.requests[id].phase.status != IN_PROGRESS)));
    if w.requests[id].phase.Producing? {
      events := [Finish(id, 200, body + 1), Store(id)];
      Steps(w, events);
      Steps(Next(w, Finish(id, 200, body + 1)), [Store(id)]);
    } else {
      events := [Store(id)];
      Steps(w, events);
    }
  }

  /** A stored result lasts until it expires, under every continuation, exactly when no
      request that may still store another one is left over from before. */
  lemma ResultLastsExactly(w: World, k: RequestKey, f: Fingerprint, body: Body, until: int)
    requires HasResult(w, k, f, body, until)
    ensures Lasts(w, k, f, body, until) <==> Uncontested(w, k, f, body)
  {
    hide Next, Possible, HasResult, Uncontested;
    if Uncontested(w, k, f, body) {
      forall events | History(w, events).Some? && History(w, events).value.clock < until
        ensures HasResult(History(w, events).value, k, f, body, until)
      {
        ResultOutlives(w, events, k, f, body, until);
      }
    } else {
      var events := ContestedStore(w, k, f, body, until);
    }
  }

  /** Every outcome under the key was recorded in time so far: no request that holds a
      reservation there has let it expire. */
  ghost predicate Prompt(w: World, k: RequestKey) {
    forall id :: Under(w, id, k) && Holding(w.requests[id].phase) ==> InTime(w, id)
  }

  /** Each reservation that is held there stands in the table. */
  ghost predicate Owned(w: World, k: RequestKey) {
    forall id :: Under(w, id, k) && Holding(w.requests[id].phase) ==>
      var q := w.requests[id];
      q.key in w.keys && w.keys[q.key] == Record(q.fingerprint, IN_PROGRESS, 0, q.phase.until)
  }

  ghost predicate Dated(w: World) { forall k :: k in w.keys ==> w.keys[k].expiresAt <= w.clock + TTL_MS }

  ghost predicate Single(w: World, k: RequestKey) {
    forall a, b :: Under(w, a, k) && Under(w, b, k) && Holding(w.requests[a].phase) && Holding(w.requests[b].phase) ==> a == b
  }

  lemma PromptOwns(w: World, k: RequestKey, e: Event)
    requires Owned(w, k) && Single(w, k) && Prompt(w, k) && Possible(w, e)
    ensures Owned(Next(w, e), k) && Single(Next(w, e), k)
  {
    var v := Next(w, e);
    forall id | Under(v, id, k) && id in w.requests ensures Under(w, id, k) {}
    forall id | Under(v, id, k) && Holding(v.requests[id].phase) && e != Reserve(id) ensures Under(w, id, k) && Holding(w.requests[id].phase) {}
  }

  lemma StaysDated(w: World, e: Event)
    requires Dated(w) && Possible(w, e)
    ensures Dated(Next(w, e))
  {}

  lemma {:induction false} PromptRunOwns(worlds: seq<World>, events: seq<Event>, k: RequestKey, n: nat)
    requires Run(worlds, events) && n < |worlds| && forall i :: 0 <= i < n ==> Prompt(worlds[i], k)
    ensures Owned(worlds[n], k) && Single(worlds[n], k) && Dated(worlds[n])
    decreases n
  {
    hide Next, Possible;
    if n > 0 {
      PromptRunOwns(worlds, events, k, n - 1);
      StaysDated(worlds[n - 1], events[n - 1]);
      PromptOwns(worlds[n - 1], k, events[n - 1]);
    }
  }

  lemma {:induction false} ResultOutlivesRun(worlds: seq<World>, events: seq<Event>, k: RequestKey, f: Fingerprint, body: Body,
                                            until: int, i: nat, j: nat)
    requires Run(worlds, events) && i <= j < |worlds| && worlds[j].clock < until
    requires HasResult(worlds[i], k, f, body, until) && Uncontested(worlds[i], k, f, body)
    ensures HasResult(worlds[j], k, f, body, until) && Uncontested(worlds[j], k, f, body)
    decreases j - i
  {
    hide Next, HasResult, Uncontested, Possible;
    if i < j {
      ClockForward(worlds[j - 1], events[j - 1]);
      ResultOutlivesRun(worlds, events, k, f, body, until, i, j - 1);
      ResultStays(worlds[j - 1], events[j - 1], k, f, body, until);
    }
  }

  /** If every outcome under a key was recorded in time until a result is stored there, every
      later request under the key is answered from it until it expires: with the same fingerprint by the
      same body, with another by a refusal; `produce` does not run again, and nothing that
      happens later can change that, in time or not. */
  lemma StoredResultReplays(worlds: seq<World>, events: seq<Event>, k: RequestKey, i: nat, j: nat, id: Id)
    requires Run(worlds, events) && i <= j < |events| && forall n :: 0 <= n < i ==> Prompt(worlds[n], k)
    requires k in worlds[i].keys && worlds[i].keys[k].status != IN_PROGRESS && worlds[j].clock < worlds[i].keys[k].expiresAt
    requires events[j] == Reserve(id) && worlds[j].requests[id].key == k
    ensures worlds[j + 1].keys == worlds[j].keys
    ensures worlds[j + 1].requests[id].phase ==
              Replied(if worlds[j].requests[id].fingerprint == worlds[i].keys[k].fingerprint
                      then Returned(worlds[i].keys[k].body) else Mismatched)
  {
    hide Run;
    RunSteps(worlds, events, j);
    PromptRunOwns(worlds, events, k, i);
    var row := worlds[i].keys[k];
    RunForward(worlds, events, i, j);
    assert HasResult(worlds[i], k, row.fingerprint, row.body, row.expiresAt);
    assert Uncontested(worlds[i], k, row.fingerprint, row.body) by {
      forall id | id in worlds[i].requests && worlds[i].requests[id].key == k ensures !Holding(worlds[i].requests[id].phase) {
        assert Under(worlds[i], id, k);
      }
    }
    ResultOutlivesRun(worlds, events, k, row.fingerprint, row.body, row.expiresAt, i, j);
  }

  lemma {:induction false} OutcomesRecorded(worlds: seq<World>, events: seq<Event>, n: nat)
    requires Run(worlds, events) && n < |worlds|
    ensures forall id :: id in worlds[n].requests && worlds[n].requests[id].phase.Produced? ==>
              Recorded(worlds[n].requests[id].phase.status)
    decreases n
  {
    if n > 0 {
      OutcomesRecorded(worlds, events, n - 1);
      OutcomeRecorded(worlds[n - 1], events[n - 1]);
    }
  }

  lemma OutcomeRecorded(w: World, e: Event)
    requires forall id :: id in w.requests && w.requests[id].phase.Produced? ==> Recorded(w.requests[id].phase.status)
    requires Possible(w, e)
    ensures var v := Next(w, e); forall id :: id in v.requests && v.requests[id].phase.Produced? ==> Recorded(v.requests[id].phase.status)
  {}

  /** A request stores its outcome, and a later one with the same key and fingerprint comes
      before that expires, with anything in between: it gets the reply the first one got
      exactly when the outcome was a result. A rejection it gets as an ordinary result. */
  lemma RetryAgreesExactly(worlds: seq<World>, events: seq<Event>, k: RequestKey, i: nat, j: nat, first: Id, retry: Id)
    requires Run(worlds, events) && i < j < |events| && forall n :: 0 <= n <= i ==> Prompt(worlds[n], k)
    requires events[i] == Store(first) && worlds[i].requests[first].key == k
    requires events[j] == Reserve(retry) && worlds[j].requests[retry].key == k && worlds[j].clock < worlds[i].clock + TTL_MS
    requires worlds[j].requests[retry].fingerprint == worlds[i].requests[first].fingerprint
    ensures var outcome := worlds[i].requests[first].phase;
            var was, later := worlds[i + 1].requests[first].phase, worlds[j + 1].requests[retry].phase;
            was == Replied(FirstReply(outcome.status, outcome.body)) && later == Replied(Returned(outcome.body))
            && (later == was <==> outcome.status == 200)
            && (outcome.status != 200 ==> 400 <= outcome.status < 500 && was == Replied(Raised(outcome.status, outcome.body)))
  {
    hide Run;
    RunSteps(worlds, events, i);
    RunSteps(worlds, events, j);
    OutcomesRecorded(worlds, events, i);
    StoredResultReplays(worlds, events, k, i + 1, j, retry);
  }

  lemma RunSteps(worlds: seq<World>, events: seq<Event>, j: nat)
    requires Run(worlds, events) && j < |events|
    ensures |worlds| == |events| + 1 && Possible(worlds[j], events[j]) && worlds[j + 1] == Next(worlds[j], events[j])
  {}

  lemma {:induction false} RunForward(worlds: seq<World>, events: seq<Event>, i: nat, j: nat)
    requires Run(worlds, events) && i <= j < |worlds|
    ensures worlds[i].clock <= worlds[j].clock
    decreases j - i
  {
    hide Next, Possible;
    if i < j {
      RunForward(worlds, events, i, j - 1);
      ClockForward(worlds[j - 1], events[j - 1]);
    }
  }

  // ------------------------------------------------------------------- `run`

  /** How `produce` ends: with a result, with an error of the 4xx class, or with anything
      else that is raised. */
  datatype Ended = Made(body: Body) | Rejected(status: nat, body: Body) | Broke

  /** The event `produce` ends with. */
  function Ending(id: Id, outcome: Ended): Event {
    match outcome
    case Made(body) => Finish(id, 200, body)
    case Rejected(status, body) => Finish(id, status, body)
    case Broke => Fail(id)
  }

  /** The table `idempotency_keys`. */
  class Store {
    var keys: Keys

    constructor ()
      ensures keys == map[]
    {
      keys := map[];
    }

    /** What other transactions make of the table meanwhile. */
    method Meanwhile(after: Keys)
      modifies this
      ensures keys == after
    {
      keys := after;
    }

    /** `run` with a request key: reserve, produce, then store or release, at `now` and at
        `later`; in between the table became `after`. Its two transactions are the protocol's
        events `Reserve`, then `Store` or `Release`, and its caller gets the reply they lead
        to: `OneProduceInFlight`, `StoredResultReplays` and `RetryAgreesExactly` are about it. */
    method Run(id: Id, k: RequestKey, fingerprint: Fingerprint, outcome: Ended, now: int, after: Keys, later: int) returns (reply: Reply)
      requires outcome.Rejected? ==> 400 <= outcome.status < 500
      modifies this
      ensures var w0 := World(old(keys), now, map[id := Request(k, fingerprint, Arrived)]);
              var w1 := Next(w0, Event.Reserve(id));
              if w1.requests[id].phase.Producing?
              then var w2 := Next(w1, Ending(id, outcome)).(keys := after, clock := later);
                   var w3 := Next(w2, if outcome.Broke? then Event.Release(id) else Event.Store(id));
                   keys == w3.keys && w3.requests[id].phase == Replied(reply)
              else keys == w1.keys == old(keys) && w1.requests[id].phase == Replied(reply)
    {
      var reservation := Reserve(k, fingerprint, now);
      match reservation {
        case Replay(body) => return Returned(body);
        case Mismatch => return Mismatched;
        case InProgress => return Busy;
        case Reserved =>
      }
      Meanwhile(after);
      match outcome {
        case Made(body) =>
          Keep(k, fingerprint, 200, body, later);
          reply := Returned(body);
        case Rejected(status, body) =>
          Keep(k, fingerprint, status, body, later);
          reply := Raised(status, body);
        case Broke =>
          Release(k);
          reply := Passed;
      }
    }

    /** `_reserve` */
    method Reserve(k: RequestKey, fingerprint: Fingerprint, now: int) returns (r: Reservation)
      modifies this
      ensures r == Reserving(old(keys), k, fingerprint, now)
      ensures keys == if r == Reserved then Remember(old(keys), k, fingerprint, IN_PROGRESS, 0, now) else old(keys)
    {
      var existing := Lookup(keys, k, now);
      if existing.Some? {
        if existing.value.fingerprint != fingerprint {
          return Mismatch;
        }
        if existing.value.status == IN_PROGRESS {
          return InProgress;
        }
        return Replay(existing.value.body);
      }
      keys := keys[k := Record(fingerprint, IN_PROGRESS, 0, now + TTL_MS)];
      r := Reserved;
    }

    /** `_store` */
    method Keep(k: RequestKey, fingerprint: Fingerprint, status: nat, body: Body, now: int)
      modifies this
      ensures keys == Remember(old(keys), k, fingerprint, status, body, now)
    {
      keys := keys[k := Record(fingerprint, status, body, now + TTL_MS)];
    }

    /** `_release` */
    method Release(k: RequestKey)
      modifies this
      ensures keys == Unreserve(old(keys), k)
    {
      if k in keys && keys[k].status == IN_PROGRESS {
        keys := keys - {k};
      }
    }
  }

  // -------------------------------------------------------------- late release

  /** The first request reserves and fails; after its reservation expired the second one
      reserves; the first has not released yet. */
  function SecondBegan(k: RequestKey, f: Fingerprint): World {
    World(map[k := Record(f, IN_PROGRESS, 0, TTL_MS + TTL_MS)], TTL_MS,
          map[1 := Request(k, f, Failing(TTL_MS)), 2 := Request(k, f, Producing(TTL_MS + TTL_MS))])
  }

  lemma SecondBegins(k: RequestKey, f: Fingerprint)
    ensures History(World(map[], 0, map[]), [Arrive(1, k, f), Reserve(1), Fail(1), Tick(TTL_MS), Arrive(2, k, f), Reserve(2)])
            == Some(SecondBegan(k, f))
  {
    var w := World(map[], 0, map[]);
    Steps(w, [Arrive(1, k, f), Reserve(1), Fail(1), Tick(TTL_MS), Arrive(2, k, f), Reserve(2)]);
    w := Next(w, Arrive(1, k, f));
    Steps(w, [Reserve(1), Fail(1), Tick(TTL_MS), Arrive(2, k, f), Reserve(2)]);
    w := Next(w, Reserve(1));
    Steps(w, [Fail(1), Tick(TTL_MS), Arrive(2, k, f), Reserve(2)]);
    w := Next(w, Fail(1));
    Steps(w, [Tick(TTL_MS), Arrive(2, k, f), Reserve(2)]);
    w := Next(w, Tick(TTL_MS));
    Steps(w, [Arrive(2, k, f), Reserve(2)]);
    w := Next(w, Arrive(2, k, f));
    Steps(w, [Reserve(2)]);
    assert Next(w, Reserve(2)) == SecondBegan(k, f);
  }

  /** It is not enough that `produce` ends before its reservation expires: a release must run
      in time, too. A late one deletes the reservation the next request made since, and a
      third request then runs beside the second. `ReleaseExact` says when. */
  lemma LateReleaseRunsTwice(k: RequestKey, f: Fingerprint)
    ensures History(World(map[], 0, map[]), [Arrive(1, k, f), Reserve(1), Fail(1), Tick(TTL_MS), Arrive(2, k, f), Reserve(2)])
            == Some(SecondBegan(k, f))
    ensures var v := History(SecondBegan(k, f), [Release(1), Arrive(3, k, f), Reserve(3)]);
            v.Some? && 2 in v.value.requests && 3 in v.value.requests
            && v.value.requests[2].phase.Producing? && v.value.requests[3].phase.Producing?
            && v.value.requests[2].key == v.value.requests[3].key
  {
    SecondBegins(k, f);
    var w := SecondBegan(k, f);
    Steps(w, [Release(1), Arrive(3, k, f), Reserve(3)]);
    w := Next(w, Release(1));
    Steps(w, [Arrive(3, k, f), Reserve(3)]);
    w := Next(w, Arrive(3, k, f));
    Steps(w, [Reserve(3)]);
  }

  /** The first request produces but does not store before its reservation expires; the
      second one produces and stores; then the first stores, and its result replaces the one
      that was already replayed. `ResultLastsExactly` says when. */
  lemma LateStoreReplaces(k: RequestKey, f: Fingerprint)
    ensures var begun := [Arrive(1, k, f), Reserve(1), Finish(1, 200, 1), Tick(TTL_MS), Arrive(2, k, f), Reserve(2), Finish(2, 200, 2)];
            var v := History(World(map[], 0, map[]), begun);
            v.Some? && Possible(v.value, Event.Store(2))
            && var stored := Next(v.value, Event.Store(2));
               HasResult(stored, k, f, 2, TTL_MS + TTL_MS) && Possible(stored, Event.Store(1))
               && HasResult(Next(stored, Event.Store(1)), k, f, 1, TTL_MS + TTL_MS)
  {
    var w := World(map[], 0, map[]);
    Steps(w, [Arrive(1, k, f), Reserve(1), Finish(1, 200, 1), Tick(TTL_MS), Arrive(2, k, f), Reserve(2), Finish(2, 200, 2)]);
    w := Next(w, Arrive(1, k, f));
    Steps(w, [Reserve(1), Finish(1, 200, 1), Tick(TTL_MS), Arrive(2, k, f), Reserve(2), Finish(2, 200, 2)]);
    w := Next(w, Reserve(1));
    Steps(w, [Finish(1, 200, 1), Tick(TTL_MS), Arrive(2, k, f), Reserve(2), Finish(2, 200, 2)]);
    w := Next(w, Finish(1, 200, 1));
    Steps(w, [Tick(TTL_MS), Arrive(2, k, f), Reserve(2), Finish(2, 200, 2)]);
    w := Next(w, Tick(TTL_MS));
    Steps(w, [Arrive(2, k, f), Reserve(2), Finish(2, 200, 2)]);
    w := Next(w, Arrive(2, k, f));
    Steps(w, [Reserve(2), Finish(2, 200, 2)]);
    w := Next(w, Reserve(2));
    Steps(w, [Finish(2, 200, 2)]);
  }

  /** The first request is rejected and stores that; the second one is told the rejection as
      an ordinary result. */
  lemma RejectionReplays(k: RequestKey, f: Fingerprint)
    ensures var v := History(World(map[], 0, map[]), [Arrive(1, k, f), Reserve(1), Finish(1, 409, 7), Event.Store(1), Arrive(2, k, f), Reserve(2)]);
            v.Some? && 1 in v.value.requests && 2 in v.value.requests
            && v.value.requests[1].phase == Replied(Raised(409, 7)) && v.value.requests[2].phase == Replied(Returned(7))
  {
    var w := World(map[], 0, map[]);
    Steps(w, [Arrive(1, k, f), Reserve(1), Finish(1, 409, 7), Event.Store(1), Arrive(2, k, f), Reserve(2)]);
    w := Next(w, Arrive(1, k, f));
    Steps(w, [Reserve(1), Finish(1, 409, 7), Event.Store(1), Arrive(2, k, f), Reserve(2)]);
    w := Next(w, Reserve(1));
    Steps(w, [Finish(1, 409, 7), Event.Store(1), Arrive(2, k, f), Reserve(2)]);
    w := Next(w, Finish(1, 409, 7));
    Steps(w, [Event.Store(1), Arrive(2, k, f), Reserve(2)]);
    w := Next(w, Event.Store(1));
    Steps(w, [Arrive(2, k, f), Reserve(2)]);
    w := Next(w, Arrive(2, k, f));
    Steps(w, [Reserve(2)]);
  }

  lemma Steps(w: World, events: seq<Event>)
    requires events != [] && Possible(w, events[0])
    ensures History(w, events) == History(Next(w, events[0]), events[1..])
  {}
}
