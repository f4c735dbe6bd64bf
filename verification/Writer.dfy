/** The single-writer queue (`WriterQueue` in `tree_agent/server/db.py`): one thread, one
  connection, strict first in first out, every job in a transaction of its own. */
module Writer {
  import opened Base

  const LOCK_RETRIES: nat := 5

  /** What a job made of the connection: the state it left, finished or not, and its value
      or exception. A job has no effect outside the database, so it is a function of it. */
  datatype Ran<S, V> = Ran(state: S, result: Result<V>)

  datatype Result<V> = Value(value: V) | Raised(error: nat)

  /** How the database answers a statement that takes or releases the write lock: done;
      locked or busy; another `OperationalError`; an exception of another class. */
  datatype Lock = Free | Busy | Broken(error: nat) | Alien(error: nat)

  datatype Attempt = Attempt(begin: Lock, commit: Lock)

  /** What `submit` returns or raises. */
  datatype Answer<V> = Returned(value: V) | Threw(error: nat) | StorageBusy | Closed

  // --------------------------------------------------------------- one job

  /** The attempts from the `i`-th on: the committed state, whether a transaction was left
      open, and the answer. */
  function Attempts<S, V>(committed: S, job: S -> Ran<S, V>, attempts: seq<Attempt>, i: nat): (S, bool, Answer<V>)
    requires i <= |attempts|
    decreases |attempts| - i
  {
    if i == |attempts| then (committed, false, StorageBusy)
    else
      match attempts[i].begin
      case Busy => Attempts(committed, job, attempts, i + 1)
      case Broken(e) => (committed, false, Threw(e))
      case Alien(e) => (committed, false, Threw(e))
      case Free =>
        match job(committed).result
        case Raised(e) => (committed, false, Threw(e))
        case Value(v) =>
          match attempts[i].commit
          case Free => (job(committed).state, false, Returned(v))
          case Busy => Attempts(committed, job, attempts, i + 1)
          case Broken(e) => (committed, false, Threw(e))
          case Alien(e) => (committed, true, Threw(e))
  }

  /** What BEGIN raises inside an open transaction; it names no lock, so it is not retried. */
  const NESTED: nat := 0

  /** One job, on a connection that may have been left inside a transaction. */
  function Served<S, V>(committed: S, stuck: bool, job: S -> Ran<S, V>, attempts: seq<Attempt>): (S, bool, Answer<V>) {
    if stuck then (committed, true, Threw(NESTED)) else Attempts(committed, job, attempts, 0)
  }

  /** A job that returned was applied exactly once, to the state its transaction began with;
      any other job left no trace, however far it got and however often it was tried. */
  lemma {:induction false} AppliedOnceOrNever<S, V>(committed: S, job: S -> Ran<S, V>, attempts: seq<Attempt>, i: nat)
    requires i <= |attempts|
    ensures var (after, open, answer) := Attempts(committed, job, attempts, i);
            match answer
            case Returned(v) => job(committed) == Ran(after, Value(v)) && !open
            case _ => after == committed
    decreases |attempts| - i
  {
    if i < |attempts| { AppliedOnceOrNever(committed, job, attempts, i + 1); }
  }

  /** Attempt `i` lost the write lock, at BEGIN or at COMMIT. */
  predicate LostLock(attempt: Attempt) { attempt.begin == Busy || (attempt.begin == Free && attempt.commit == Busy) }

  predicate GotThrough(attempt: Attempt) { attempt.begin == Free && attempt.commit == Free }

  /** COMMIT raised what the loop does not catch. */
  predicate Escaped(attempt: Attempt) { attempt.begin == Free && attempt.commit.Alien? }

  /** Attempt `k` decides: every earlier one, from the `i`-th on, lost the lock. */
  ghost predicate FirstToHold(attempts: seq<Attempt>, i: nat, k: nat) {
    i <= k < |attempts| && forall j :: i <= j < k ==> LostLock(attempts[j])
  }

  /** A job that raises nothing returns exactly when some attempt gets through and every
      earlier one lost the lock. */
  lemma {:induction false} ReturnsExactly<S, V>(committed: S, job: S -> Ran<S, V>, attempts: seq<Attempt>, i: nat)
    requires i <= |attempts| && job(committed).result.Value?
    ensures Attempts(committed, job, attempts, i).2.Returned?
            <==> exists k: nat :: FirstToHold(attempts, i, k) && GotThrough(attempts[k])
    decreases |attempts| - i
  {
    if i < |attempts| {
      ReturnsExactly(committed, job, attempts, i + 1);
      FirstOrLater(attempts, i);
      if exists k: nat :: FirstToHold(attempts, i, k) && GotThrough(attempts[k]) {
        var k: nat :| FirstToHold(attempts, i, k) && GotThrough(attempts[k]);
        assert k > i ==> FirstToHold(attempts, i + 1, k);
      }
    }
  }

  lemma FirstOrLater(attempts: seq<Attempt>, i: nat)
    requires i < |attempts|
    ensures FirstToHold(attempts, i, i)
    ensures LostLock(attempts[i]) ==> forall k: nat :: FirstToHold(attempts, i + 1, k) ==> FirstToHold(attempts, i, k)
  {}

  /** Only `OperationalError` is rolled back at COMMIT: a job that raises nothing leaves the
      transaction open exactly when another exception escapes there. */
  lemma {:induction false} LeftOpenExactly<S, V>(committed: S, job: S -> Ran<S, V>, attempts: seq<Attempt>, i: nat)
    requires i <= |attempts| && job(committed).result.Value?
    ensures Attempts(committed, job, attempts, i).1
            <==> exists k: nat :: FirstToHold(attempts, i, k) && Escaped(attempts[k])
    decreases |attempts| - i
  {
    if i < |attempts| {
      LeftOpenExactly(committed, job, attempts, i + 1);
      FirstOrLater(attempts, i);
      if exists k: nat :: FirstToHold(attempts, i, k) && Escaped(attempts[k]) {
        var k: nat :| FirstToHold(attempts, i, k) && Escaped(attempts[k]);
        assert k > i ==> FirstToHold(attempts, i + 1, k);
      }
    }
  }

  /** The connection of the writer thread. */
  class Connection<S(0), V> {
    var committed: S
    /** The state inside an open transaction. */
    var open: Option<S>

    constructor (initial: S)
      ensures committed == initial && open == None
    {
      committed, open := initial, None;
    }

    /** `_run`, with the lock's behaviour in `attempts`. */
    method Run(job: S -> Ran<S, V>, attempts: seq<Attempt>) returns (answer: Answer<V>)
      requires |attempts| == LOCK_RETRIES
      modifies this
      ensures (committed, open.Some?, answer) == Served(old(committed), old(open.Some?), job, attempts)
    {
      if open.Some? {
        return Threw(NESTED); // BEGIN IMMEDIATE inside a transaction
      }
      for i := 0 to LOCK_RETRIES
        invariant open == None && committed == old(committed)
        invariant Attempts(committed, job, attempts, i) == Attempts(committed, job, attempts, 0)
      {
        match attempts[i].begin {
          case Busy => continue;
          case Broken(e) => return Threw(e);
          case Alien(e) => return Threw(e);
          case Free => open := Some(committed); // BEGIN IMMEDIATE
        }
        var ran := job(open.value);
        open := Some(ran.state);
        if ran.result.Raised? {
          open := None; // ROLLBACK
          return Threw(ran.result.error);
        }
        match attempts[i].commit {
          case Busy =>
            open := None; // ROLLBACK
          case Broken(e) =>
            open := None; // ROLLBACK
            return Threw(e);
          case Alien(e) => return Threw(e);
          case Free =>
            committed, open := open.value, None; // COMMIT
            return Returned(ran.result.value);
        }
      }
      answer := StorageBusy;
    }
  }

  // -------------------------------------------------------------- the queue

  datatype Item = Job(client: Id) | Stop

  /** Where `submit` stands for one caller. */
  datatype Caller<V> = New | Checked | Waiting | Answered(answer: Answer<V>)

  /** `close` sets the flag `closed` before it queues the sentinel. `stuck`: a transaction was
      left open on the connection. `order` records the callers in the order they were
      queued. */
  datatype World<V> = World(queue: seq<Item>, closed: bool, stopQueued: bool, stopped: bool, stuck: bool,
                            callers: map<Id, Caller<V>>, order: seq<Id>)

  datatype Move =
    | Check(client: Id)
    | Put(client: Id)
    | Serve(attempts: seq<Attempt>)
    | SetClosed
    | PutStop

  type Jobs<!S, !V> = Id -> (S -> Ran<S, V>)

  predicate Possible<V>(w: World<V>, move: Move) {
    match move
    case Check(c) => c in w.callers && w.callers[c].New?
    case Put(c) => c in w.callers && w.callers[c].Checked?
    case Serve(attempts) => !w.stopped && w.queue != [] && |attempts| == LOCK_RETRIES
    case SetClosed => !w.closed
    case PutStop => w.closed && !w.stopQueued
  }

  /** One step of a caller, of the writer thread or of `close`, with the committed state. */
  function Next<S, V>(w: World<V>, committed: S, jobs: Jobs<S, V>, move: Move): (World<V>, S)
    requires Possible(w, move)
  {
    match move
    case Check(c) =>
      (w.(callers := w.callers[c := if w.closed then Answered(Closed) else Checked]), committed)
    case Put(c) => (w.(queue := w.queue + [Job(c)], callers := w.callers[c := Waiting], order := w.order + [c]), committed)
    case Serve(attempts) =>
      (match w.queue[0]
       case Stop => (w.(queue := w.queue[1..], stopped := true), committed)
       case Job(c) =>
         var (after, stuck, answer) := Served(committed, w.stuck, jobs(c), attempts);
         (w.(queue := w.queue[1..], stuck := stuck, callers := w.callers[c := Answered(answer)]), after))
    case SetClosed => (w.(closed := true), committed)
    case PutStop => (w.(queue := w.queue + [Stop], stopQueued := true), committed)
  }

  // ------------------------------------------------------------ serial result

  /** The jobs of `clients`, applied one after another. */
  function Fold<S, V>(initial: S, jobs: Jobs<S, V>, clients: seq<Id>): S
    decreases |clients|
  {
    if clients == [] then initial
    else jobs(clients[|clients| - 1])(Fold(initial, jobs, clients[..|clients| - 1])).state
  }

  /** Those of `order` whose `submit` returned, in order. */
  function Winners<V>(callers: map<Id, Caller<V>>, order: seq<Id>): seq<Id>
    decreases |order|
  {
    if order == [] then []
    else
      var c := order[|order| - 1];
      Winners(callers, order[..|order| - 1])
      + if c in callers && callers[c].Answered? && callers[c].answer.Returned? then [c] else []
  }

  function Queued(queue: seq<Item>): seq<Id>
    decreases |queue|
  {
    if queue == [] then [] else (if queue[0].Job? then [queue[0].client] else []) + Queued(queue[1..])
  }

  /** The first `served` callers of the order have their answers, the rest wait in the
      queue in that order, and no one waits twice. */
  ghost predicate Orderly<V>(w: World<V>, served: nat) {
    served <= |w.order| && Queued(w.queue) == w.order[served..]
    && (forall i, j :: 0 <= i < j < |w.order| ==> w.order[i] != w.order[j])
    && (forall i :: 0 <= i < |w.order| ==> w.order[i] in w.callers)
    && (forall i :: 0 <= i < served ==> w.callers[w.order[i]].Answered?)
    && (forall i :: served <= i < |w.order| ==> w.callers[w.order[i]].Waiting?)
    && (forall c :: c in w.callers && (w.callers[c].New? || w.callers[c].Checked?) ==> c !in w.order)
    && (forall c :: c in w.callers && w.callers[c].Waiting? ==> c in w.order)
  }

  ghost predicate Serial<S, V>(w: World<V>, committed: S, initial: S, jobs: Jobs<S, V>, served: nat) {
    Orderly(w, served) && committed == Fold(initial, jobs, Winners(w.callers, w.order[..served]))
  }

  lemma {:induction false} QueuedAppend(queue: seq<Item>, item: Item)
    ensures Queued(queue + [item]) == Queued(queue) + if item.Job? then [item.client] else []
    decreases |queue|
  {
    if queue != [] {
      assert (queue + [item])[1..] == queue[1..] + [item];
      QueuedAppend(queue[1..], item);
    }
  }

  lemma {:induction false} WinnersDependOn<V>(a: map<Id, Caller<V>>, b: map<Id, Caller<V>>, order: seq<Id>)
    requires forall i :: 0 <= i < |order| ==> order[i] in a && order[i] in b && a[order[i]] == b[order[i]]
    ensures Winners(a, order) == Winners(b, order)
    decreases |order|
  {
    if order != [] { WinnersDependOn(a, b, order[..|order| - 1]); }
  }

  lemma {:induction false} WaitingWinNothing<V>(callers: map<Id, Caller<V>>, order: seq<Id>, n: nat)
    requires n <= |order| && forall i :: n <= i < |order| ==> order[i] in callers && callers[order[i]].Waiting?
    ensures Winners(callers, order) == Winners(callers, order[..n])
    decreases |order|
  {
    if n < |order| {
      var most := order[..|order| - 1];
      WaitingWinNothing(callers, most, n);
      assert most[..n] == order[..n];
    } else {
      assert order[..n] == order;
    }
  }

  lemma PutKeeps<S, V>(w: World<V>, committed: S, initial: S, jobs: Jobs<S, V>, c: Id, served: nat)
    requires Serial(w, committed, initial, jobs, served) && Possible(w, Put(c))
    ensures Serial(Next(w, committed, jobs, Put(c)).0, committed, initial, jobs, served)
  {
    var v := Next(w, committed, jobs, Put(c)).0;
    QueuedAppend(w.queue, Job(c));
    assert v.order[served..] == w.order[served..] + [c] && v.order[..served] == w.order[..served];
    WinnersDependOn(w.callers, v.callers, w.order[..served]);
  }

  lemma CheckKeeps<S, V>(w: World<V>, committed: S, initial: S, jobs: Jobs<S, V>, c: Id, served: nat)
    requires Serial(w, committed, initial, jobs, served) && Possible(w, Check(c))
    ensures Serial(Next(w, committed, jobs, Check(c)).0, committed, initial, jobs, served)
  {
    var v := Next(w, committed, jobs, Check(c)).0;
    WinnersDependOn(w.callers, v.callers, w.order[..served]);
  }

  /** What one served job makes of the committed state. */
  lemma ServedOnceOrNever<S, V>(committed: S, stuck: bool, job: S -> Ran<S, V>, attempts: seq<Attempt>)
    ensures var (after, _, answer) := Served(committed, stuck, job, attempts);
            after == if answer.Returned? then job(committed).state else committed
  {
    AppliedOnceOrNever(committed, job, attempts, 0);
  }

  lemma ServeKeepsOrder<S, V>(w: World<V>, committed: S, jobs: Jobs<S, V>, attempts: seq<Attempt>, served: nat)
    requires Orderly(w, served) && Possible(w, Serve(attempts)) && w.queue[0].Job?
    ensures served < |w.order| && w.order[served] == w.queue[0].client
    ensures Orderly(Next(w, committed, jobs, Serve(attempts)).0, served + 1)
  {
    hide Served;
    assert w.order[served..][1..] == w.order[served + 1..];
  }

  lemma OneMoreWinner<V>(callers: map<Id, Caller<V>>, order: seq<Id>, n: nat)
    requires n < |order| && order[n] in callers && callers[order[n]].Answered?
    ensures Winners(callers, order[..n + 1])
            == if callers[order[n]].answer.Returned? then Winners(callers, order[..n]) + [order[n]] else Winners(callers, order[..n])
  {
    assert order[..n + 1][..n] == order[..n];
    assert Winners(callers, order[..n]) + [] == Winners(callers, order[..n]);
  }

  lemma FoldOneMore<S, V>(initial: S, jobs: Jobs<S, V>, clients: seq<Id>, c: Id)
    ensures Fold(initial, jobs, clients + [c]) == jobs(c)(Fold(initial, jobs, clients)).state
  {
    assert (clients + [c])[..|clients|] == clients;
  }

  lemma ServeJobKeeps<S, V>(w: World<V>, committed: S, initial: S, jobs: Jobs<S, V>, attempts: seq<Attempt>, served: nat)
    requires Serial(w, committed, initial, jobs, served) && Possible(w, Serve(attempts)) && w.queue[0].Job?
    ensures var (v, after) := Next(w, committed, jobs, Serve(attempts)); Serial(v, after, initial, jobs, served + 1)
  {
    var (v, after) := Next(w, committed, jobs, Serve(attempts));
    ServeKeepsOrder(w, committed, jobs, attempts, served);
    var c := w.queue[0].client;
    ServedOnceOrNever(committed, w.stuck, jobs(c), attempts);
    hide Served, Winners, Fold;
    WinnersDependOn(w.callers, v.callers, w.order[..served]);
    OneMoreWinner(v.callers, v.order, served);
    FoldOneMore(initial, jobs, Winners(w.callers, w.order[..served]), c);
  }

  /** One step, whoever takes it, keeps the queue serial. */
  lemma StepKeeps<S, V>(w: World<V>, committed: S, initial: S, jobs: Jobs<S, V>, move: Move, served: nat) returns (now: nat)
    requires Serial(w, committed, initial, jobs, served) && Possible(w, move)
    ensures var (v, after) := Next(w, committed, jobs, move); Serial(v, after, initial, jobs, now)
  {
    now := served;
    match move
    case Check(c) => CheckKeeps(w, committed, initial, jobs, c, served);
    case Put(c) => PutKeeps(w, committed, initial, jobs, c, served);
    case Serve(attempts) =>
      if w.queue[0].Job? {
        ServeJobKeeps(w, committed, initial, jobs, attempts, served);
        now := served + 1;
      }
    case SetClosed =>
    case PutStop => QueuedAppend(w.queue, Stop);
  }

  /** A run from an idle queue: any interleaving of callers, the writer thread and `close`,
      with any pattern of lock failures. */
  ghost predicate Run<S, V>(worlds: seq<World<V>>, states: seq<S>, moves: seq<Move>, jobs: Jobs<S, V>) {
    |worlds| == |states| == |moves| + 1 && worlds[0].queue == [] && worlds[0].order == []
    && (forall c :: c in worlds[0].callers ==> worlds[0].callers[c].New?)
    && forall i :: 0 <= i < |moves| ==>
         Possible(worlds[i], moves[i]) && (worlds[i + 1], states[i + 1]) == Next(worlds[i], states[i], jobs, moves[i])
  }

  lemma {:induction false} RunIsSerial<S, V>(worlds: seq<World<V>>, states: seq<S>, moves: seq<Move>, jobs: Jobs<S, V>, n: nat)
    returns (served: nat)
    requires Run(worlds, states, moves, jobs) && n < |worlds|
    ensures Serial(worlds[n], states[n], states[0], jobs, served)
    decreases n
  {
    if n == 0 {
      served := 0;
    } else {
      served := RunIsSerial(worlds, states, moves, jobs, n - 1);
      served := StepKeeps(worlds[n - 1], states[n - 1], states[0], jobs, moves[n - 1], served);
    }
  }

  /** At every moment of every run the committed state is the fold, in queue order, of
      exactly the jobs whose `submit` returned: each applied once whatever was retried, and
      nothing of any other. */
  lemma CommittedIsFold<S, V>(worlds: seq<World<V>>, states: seq<S>, moves: seq<Move>, jobs: Jobs<S, V>, n: nat)
    requires Run(worlds, states, moves, jobs) && n < |worlds|
    ensures states[n] == Fold(states[0], jobs, Winners(worlds[n].callers, worlds[n].order))
  {
    var served := RunIsSerial(worlds, states, moves, jobs, n);
    WaitingWinNothing(worlds[n].callers, worlds[n].order, served);
  }

  lemma StuckStays<S, V>(w: World<V>, committed: S, jobs: Jobs<S, V>, move: Move)
    requires Possible(w, move) && w.stuck
    ensures var (v, after) := Next(w, committed, jobs, move);
            v.stuck && after == committed
            && (move.Serve? && w.queue[0].Job? ==> v.callers[w.queue[0].client] == Answered(Threw(NESTED)))
  {}

  /** Once a transaction was left open, every job served from then on fails at BEGIN, and
      the committed state never changes again. */
  lemma {:induction false} StuckForEver<S, V>(worlds: seq<World<V>>, states: seq<S>, moves: seq<Move>, jobs: Jobs<S, V>, i: nat, j: nat)
    requires Run(worlds, states, moves, jobs) && i <= j < |worlds| && worlds[i].stuck
    ensures worlds[j].stuck && states[j] == states[i]
    ensures j < |moves| && moves[j].Serve? && worlds[j].queue[0].Job? ==>
              worlds[j + 1].callers[worlds[j].queue[0].client] == Answered(Threw(NESTED))
    decreases j - i
  {
    hide Next;
    if i < j {
      StuckForEver(worlds, states, moves, jobs, i, j - 1);
      StuckStays(worlds[j - 1], states[j - 1], jobs, moves[j - 1]);
    }
    if j < |moves| { StuckStays(worlds[j], states[j], jobs, moves[j]); }
  }

  const DONE: Attempt := Attempt(Free, Free)
  const AT_ONCE: Move := Serve([DONE, DONE, DONE, DONE, DONE])

  /** COMMIT raises what is not an `OperationalError`. */
  const ESCAPES: Move := Serve([Attempt(Free, Alien(7)), DONE, DONE, DONE, DONE])

  /** A run from a new queue that leaves the transaction open. `StuckForEver` says what
      becomes of every later caller. */
  lemma StuckInRun<S, V>(c: Id, initial: S, jobs: Jobs<S, V>) returns (worlds: seq<World<V>>, states: seq<S>)
    requires jobs(c)(initial).result.Value?
    ensures var moves := [Check(c), Put(c), ESCAPES];
            Run(worlds, states, moves, jobs) && Opened(worlds[0]) && |worlds| == 4
            && worlds[3].stuck && worlds[3].callers == map[c := Answered(Threw(7))] && states[3] == initial
  {
    var w0 := World([], false, false, false, false, map[c := New], []);
    var w1 := w0.(callers := map[c := Checked]);
    var w2 := w1.(queue := [Job(c)], callers := map[c := Waiting], order := [c]);
    var w3 := w2.(queue := [], stuck := true, callers := map[c := Answered(Threw(7))]);
    worlds, states := [w0, w1, w2, w3], [initial, initial, initial, initial];
    assert w0.callers[c := Checked] == w1.callers && w1.callers[c := Waiting] == w2.callers;
    assert w1.queue + [Job(c)] == w2.queue && w1.order + [c] == w2.order;
    assert w2.queue[1..] == w3.queue && w2.callers[c := Answered(Threw(7))] == w3.callers;
  }

  /** A queue that is new: not closed, no sentinel. */
  predicate Opened<V>(w: World<V>) { !w.closed && !w.stopQueued && !w.stopped && !w.stuck }

  // --------------------------------------------------------------- shutdown

  /** The caller's job is behind the sentinel, or the thread is gone. */
  ghost predicate Stranded<V>(w: World<V>, c: Id) {
    c in w.callers && w.callers[c].Waiting?
    && (w.stopped || exists i: nat :: StopFirst(w.queue, c, i))
  }

  predicate StopFirst(queue: seq<Item>, c: Id, i: nat) { i < |queue| && queue[i] == Stop && Job(c) !in queue[..i] }

  /** The caller's job is in the queue and no sentinel stands ahead of it. */
  ghost predicate Ahead<V>(w: World<V>, c: Id) {
    !w.stopped && exists i: nat :: FirstAt(w.queue, c, i)
  }

  predicate FirstAt(queue: seq<Item>, c: Id, i: nat) { i < |queue| && queue[i] == Job(c) && Stop !in queue[..i] && Job(c) !in queue[..i] }

  /** These moves are possible one after another, and at their end `c` has its answer. */
  predicate Answers<S, V>(w: World<V>, committed: S, jobs: Jobs<S, V>, moves: seq<Move>, c: Id)
    decreases |moves|
  {
    if moves == [] then c in w.callers && w.callers[c].Answered?
    else Possible(w, moves[0])
         && var (v, after) := Next(w, committed, jobs, moves[0]);
            Answers(v, after, jobs, moves[1..], c)
  }

  ghost predicate CanBeAnswered<S, V>(w: World<V>, committed: S, jobs: Jobs<S, V>, c: Id) {
    exists moves: seq<Move> :: Answers(w, committed, jobs, moves, c)
  }

  /** A stranded caller stays so, whatever anybody does. */
  lemma StrandedForEver<S, V>(w: World<V>, committed: S, jobs: Jobs<S, V>, move: Move, c: Id)
    requires Possible(w, move) && Stranded(w, c)
    ensures Stranded(Next(w, committed, jobs, move).0, c)
  {
    hide Served;
    var v := Next(w, committed, jobs, move).0;
    if !w.stopped {
      var i: nat :| StopFirst(w.queue, c, i);
      if move.Serve? {
        if i > 0 {
          assert v.queue == w.queue[1..] && v.queue[..i - 1] == w.queue[..i][1..];
          assert w.queue[0] == w.queue[..i][0];
          assert StopFirst(v.queue, c, i - 1);
        }
      } else {
        assert v.queue[..i] == w.queue[..i];
        assert StopFirst(v.queue, c, i);
      }
    }
  }

  lemma {:induction false} StrandedUnanswered<S, V>(w: World<V>, committed: S, jobs: Jobs<S, V>, moves: seq<Move>, c: Id)
    requires Stranded(w, c)
    ensures !Answers(w, committed, jobs, moves, c)
    decreases |moves|
  {
    if moves != [] && Possible(w, moves[0]) {
      StrandedForEver(w, committed, jobs, moves[0], c);
      var (v, after) := Next(w, committed, jobs, moves[0]);
      StrandedUnanswered(v, after, jobs, moves[1..], c);
    }
  }

  /** As many jobs served as stand before and at position `i`. */
  function Serves(n: nat): (moves: seq<Move>)
    ensures |moves| == n && forall k :: 0 <= k < n ==> moves[k] == AT_ONCE
  {
    seq(n, _ => AT_ONCE)
  }

  /** With its job at position `i`, the writer thread answers a caller in `i + 1` turns. */
  lemma {:induction false} AnsweredInTurn<S, V>(w: World<V>, committed: S, jobs: Jobs<S, V>, c: Id, i: nat)
    requires !w.stopped && FirstAt(w.queue, c, i)
    ensures Answers(w, committed, jobs, Serves(i + 1), c)
    decreases i
  {
    hide Served;
    var (v, after) := Next(w, committed, jobs, AT_ONCE);
    assert Serves(i + 1)[1..] == Serves(i);
    if i > 0 {
      assert w.queue[..i][0] == w.queue[0];
      assert v.queue[..i - 1] == w.queue[..i][1..];
      AnsweredInTurn(v, after, jobs, c, i - 1);
    }
  }

  lemma {:induction false} QueuedOnce(queue: seq<Item>, c: Id) returns (i: nat)
    requires c in Queued(queue)
    ensures i < |queue| && queue[i] == Job(c) && Job(c) !in queue[..i]
    decreases |queue|
  {
    if queue[0] == Job(c) {
      i := 0;
    } else {
      i := QueuedOnce(queue[1..], c);
      i := i + 1;
      assert queue[..i] == [queue[0]] + queue[1..][..i - 1];
    }
  }

  lemma WaitsInQueue<V>(w: World<V>, c: Id, served: nat) returns (i: nat)
    requires Orderly(w, served) && c in w.callers && w.callers[c].Waiting?
    ensures i < |w.queue| && w.queue[i] == Job(c) && Job(c) !in w.queue[..i]
  {
    var k :| 0 <= k < |w.order| && w.order[k] == c;
    assert w.order[served..][k - served] == c;
    i := QueuedOnce(w.queue, c);
  }

  /** A waiting caller is stranded, or its job stands ahead of any sentinel. */
  lemma StrandedOrAhead<V>(w: World<V>, c: Id, served: nat)
    requires Orderly(w, served) && c in w.callers && w.callers[c].Waiting?
    ensures Stranded(w, c) <==> !Ahead(w, c)
  {
    hide Orderly;
    var i := WaitsInQueue(w, c, served);
    if Stop in w.queue[..i] {
      var j :| 0 <= j < i && w.queue[..i][j] == Stop;
      assert w.queue[..j] == w.queue[..i][..j] && w.queue[j] == Stop;
      assert StopFirst(w.queue, c, j);
      forall n: nat ensures !FirstAt(w.queue, c, n) { OneOfThem(w.queue, c, n, j); }
    } else {
      assert FirstAt(w.queue, c, i);
      forall j: nat ensures !StopFirst(w.queue, c, j) { OneOfThem(w.queue, c, i, j); }
    }
  }

  /** Not both stand in the queue ahead of the other. */
  lemma OneOfThem(queue: seq<Item>, c: Id, i: nat, j: nat)
    ensures !(FirstAt(queue, c, i) && StopFirst(queue, c, j))
  {
    if j < i <= |queue| { assert queue[..i][j] == queue[j]; }
    if i < j <= |queue| { assert queue[..j][i] == queue[i]; }
  }

  /** A waiting caller can still be answered exactly when the thread has not stopped and no
      sentinel stands ahead of its job. */
  lemma AnswerableExactly<S, V>(w: World<V>, committed: S, jobs: Jobs<S, V>, c: Id, served: nat)
    requires Orderly(w, served) && c in w.callers && w.callers[c].Waiting?
    ensures CanBeAnswered(w, committed, jobs, c) <==> Ahead(w, c)
  {
    hide Orderly, Stranded;
    StrandedOrAhead(w, c, served);
    if Ahead(w, c) {
      var i: nat :| FirstAt(w.queue, c, i);
      AnsweredInTurn(w, committed, jobs, c, i);
    } else {
      forall moves ensures !Answers(w, committed, jobs, moves, c) { StrandedUnanswered(w, committed, jobs, moves, c); }
    }
  }

  predicate NoStop(queue: seq<Item>) { Stop !in queue }

  /** The sentinel stands in the queue from `PutStop` until the thread takes it and stops,
      and there is only one. */
  ghost predicate StopKept<V>(w: World<V>) {
    (w.stopQueued ==> w.stopped || !NoStop(w.queue)) && (!w.stopQueued || w.stopped ==> NoStop(w.queue))
    && (w.stopped ==> w.stopQueued)
    && forall i, j :: 0 <= i < j < |w.queue| ==> !(w.queue[i] == Stop == w.queue[j])
  }

  lemma StopStaysKept<S, V>(w: World<V>, committed: S, jobs: Jobs<S, V>, move: Move)
    requires StopKept(w) && Possible(w, move)
    ensures StopKept(Next(w, committed, jobs, move).0)
  {
    hide Served;
    if move.Serve? { assert w.queue == [w.queue[0]] + w.queue[1..]; }
  }

  lemma {:induction false} StopKeptInRun<S, V>(worlds: seq<World<V>>, states: seq<S>, moves: seq<Move>, jobs: Jobs<S, V>, n: nat)
    requires Run(worlds, states, moves, jobs) && Opened(worlds[0]) && n < |worlds|
    ensures StopKept(worlds[n])
    decreases n
  {
    hide Next, Possible;
    if n > 0 {
      StopKeptInRun(worlds, states, moves, jobs, n - 1);
      StopStaysKept(worlds[n - 1], states[n - 1], jobs, moves[n - 1]);
    } else {
      assert NoStop(worlds[0].queue);
    }
  }

  /** Answered, or waiting ahead of any sentinel. */
  ghost predicate Secured<V>(w: World<V>, c: Id) {
    c in w.callers && (w.callers[c].Answered? || (w.callers[c].Waiting? && Ahead(w, c)))
  }

  lemma StaysSecured<S, V>(w: World<V>, committed: S, jobs: Jobs<S, V>, move: Move, c: Id)
    requires Possible(w, move) && Secured(w, c)
    ensures Secured(Next(w, committed, jobs, move).0, c)
  {
    hide Served;
    var v := Next(w, committed, jobs, move).0;
    if w.callers[c].Waiting? {
      var i: nat :| FirstAt(w.queue, c, i);
      if move.Serve? {
        if i > 0 {
          assert w.queue[..i][0] == w.queue[0];
          assert v.queue == w.queue[1..] && v.queue[..i - 1] == w.queue[..i][1..];
          assert FirstAt(v.queue, c, i - 1);
        }
      } else {
        assert v.queue[..i] == w.queue[..i];
        assert FirstAt(v.queue, c, i);
      }
    }
  }

  /** Queued before the sentinel a caller is secured, queued after it stranded. */
  lemma PutDecides<S, V>(w: World<V>, committed: S, jobs: Jobs<S, V>, c: Id, served: nat)
    requires Possible(w, Put(c)) && StopKept(w) && Orderly(w, served)
    ensures var v := Next(w, committed, jobs, Put(c)).0;
            if w.stopQueued then Stranded(v, c) else Secured(v, c)
  {
    var v, n := Next(w, committed, jobs, Put(c)).0, |w.queue|;
    NotYetQueued(w.queue, c, w.order, served);
    assert v.queue[..n] == w.queue;
    if w.stopQueued && !w.stopped {
      var i :| 0 <= i < n && w.queue[i] == Stop;
      assert v.queue[..i] == w.queue[..i];
      assert StopFirst(v.queue, c, i);
    } else if !w.stopQueued {
      assert FirstAt(v.queue, c, n);
    }
  }

  lemma NotYetQueued(queue: seq<Item>, c: Id, order: seq<Id>, served: nat)
    requires served <= |order| && Queued(queue) == order[served..] && c !in order
    ensures Job(c) !in queue
  {
    JobIsQueued(queue, c);
    assert order == order[..served] + order[served..];
  }

  lemma {:induction false} JobIsQueued(queue: seq<Item>, c: Id)
    ensures Job(c) in queue ==> c in Queued(queue)
    decreases |queue|
  {
    if queue != [] { JobIsQueued(queue[1..], c); }
  }

  lemma {:induction false} PutDecidesRun<S, V>(worlds: seq<World<V>>, states: seq<S>, moves: seq<Move>, jobs: Jobs<S, V>, c: Id,
                                              j: nat, n: nat)
    requires Run(worlds, states, moves, jobs) && Opened(worlds[0]) && j < n < |worlds| && moves[j] == Put(c)
    ensures if worlds[j].stopQueued then Stranded(worlds[n], c) else Secured(worlds[n], c)
    decreases n
  {
    hide Next, Stranded, Secured, Orderly, Possible, StopKept;
    if n == j + 1 {
      StopKeptInRun(worlds, states, moves, jobs, j);
      var served := RunIsSerial(worlds, states, moves, jobs, j);
      PutDecides(worlds[j], states[j], jobs, c, served);
    } else {
      PutDecidesRun(worlds, states, moves, jobs, c, j, n - 1);
      if worlds[j].stopQueued {
        StrandedForEver(worlds[n - 1], states[n - 1], jobs, moves[n - 1], c);
      } else {
        StaysSecured(worlds[n - 1], states[n - 1], jobs, moves[n - 1], c);
      }
    }
  }

  /** At every moment after a caller was queued, it has its answer or can still get it
      exactly when it was queued before the sentinel. */
  lemma QueuedInTime<S, V>(worlds: seq<World<V>>, states: seq<S>, moves: seq<Move>, jobs: Jobs<S, V>, c: Id, j: nat, n: nat)
    requires Run(worlds, states, moves, jobs) && Opened(worlds[0]) && j < n < |worlds| && moves[j] == Put(c)
    ensures CanBeAnswered(worlds[n], states[n], jobs, c) <==> !worlds[j].stopQueued
  {
    hide Orderly, Ahead, Next, Possible;
    PutDecidesRun(worlds, states, moves, jobs, c, j, n);
    var served := RunIsSerial(worlds, states, moves, jobs, n);
    if worlds[n].callers[c].Answered? {
      assert Answers(worlds[n], states[n], jobs, [], c);
    } else {
      AnswerableExactly(worlds[n], states[n], jobs, c, served);
      StrandedOrAhead(worlds[n], c, served);
    }
  }

  /** A run that strands its only caller: it passes the check, `close` runs, and then it is
      queued. */
  lemma StrandedInRun<S, V>(c: Id, initial: S, jobs: Jobs<S, V>) returns (worlds: seq<World<V>>, states: seq<S>)
    ensures var moves := [Check(c), SetClosed, PutStop, Put(c)];
            Run(worlds, states, moves, jobs) && Opened(worlds[0]) && |worlds| == 5
            && Stranded(worlds[4], c) && !CanBeAnswered(worlds[4], states[4], jobs, c)
  {
    var w0 := World([], false, false, false, false, map[c := New], []);
    var w1 := w0.(callers := map[c := Checked]);
    var w2 := w1.(closed := true);
    var w3 := w2.(queue := [Stop], stopQueued := true);
    var w4 := w3.(queue := [Stop, Job(c)], callers := map[c := Waiting], order := [c]);
    worlds, states := [w0, w1, w2, w3, w4], [initial, initial, initial, initial, initial];
    assert w0.callers[c := Checked] == w1.callers && w3.callers[c := Waiting] == w4.callers;
    assert w2.queue + [Stop] == w3.queue && w3.queue + [Job(c)] == w4.queue && w3.order + [c] == w4.order;
    assert StopFirst(w4.queue, c, 0);
    forall moves: seq<Move> ensures !Answers(w4, initial, jobs, moves, c) { StrandedUnanswered(w4, initial, jobs, moves, c); }
  }
}
