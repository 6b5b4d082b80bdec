/** The compacting queue of messaging/limiter.py as a state machine over its atomic steps: a
    deque of keys, a map from key to (func, futures), one batch in flight, and the futures. */
module MessageQueue {
  import opened Base

  type Key = string
  type Func = nat
  type Future = nat

  /** A send either returns or raises; a flood error pauses the worker for `seconds`, unless the
      seconds it carries cannot be converted to a number. */
  datatype SendError = Plain | Flood(seconds: real) | FloodUnparsable
  datatype Outcome = Returned(value: int) | Failed(error: SendError)

  datatype Entry = Entry(func: Func, futures: seq<Future>)
  datatype Queue = Queue(order: seq<Key>, table: map<Key, Entry>)
  datatype Flight = Flight(key: Key, entry: Entry, poppedAt: nat)
  datatype Status = Pending | Done(outcome: Outcome) | Cancelled
  datatype Place = Queued(key: Key) | InFlight | Executed(run: nat)
  datatype Execution = Execution(flight: Flight, outcome: Outcome)

  /** The history the queue is judged against. */
  datatype Event = Enqueued(key: Key, func: Func, futures: seq<Future>, front: bool) | Popped(key: Key)

  datatype Machine = Machine(
    queue: Queue,
    flight: Option<Flight>,
    status: map<Future, Status>,
    place: map<Future, Place>,
    executions: seq<Execution>,
    log: seq<Event>)

  datatype Op =
    | Enqueue(func: Func, futures: seq<Future>, key: Key, front: bool)
    | Take
    | Finish(outcome: Outcome)
    | Cancel(future: Future)

  const START := Machine(Queue([], map[]), None, map[], map[], [], [])

  function EnqueueInto(q: Queue, func: Func, futures: seq<Future>, key: Key, front: bool): Queue {
    if key in q.table then
      q.(table := q.table[key := Entry(func, q.table[key].futures + futures)])
    else
      Queue(if front then [key] + q.order else q.order + [key], q.table[key := Entry(func, futures)])
  }

  function SettleAll(status: map<Future, Status>, futures: seq<Future>, outcome: Outcome): map<Future, Status> {
    map f | f in status :: if f in futures && status[f].Pending? then Done(outcome) else status[f]
  }

  function Move(place: map<Future, Place>, futures: seq<Future>, where: Place): map<Future, Place> {
    map f | f in place.Keys + (set g | g in futures) :: if f in futures then where else place[f]
  }

  /** Futures are created by the enqueuing call; the worker takes a batch only when it holds
      none and the queue is not empty. */
  predicate Enabled(m: Machine, op: Op) {
    match op
    case Enqueue(_, futures, _, _) => (forall f <- futures :: f !in m.status) && Distinct(futures)
    case Take => m.flight.None? && m.queue.order != [] && m.queue.order[0] in m.queue.table
    case Finish(_) => m.flight.Some?
    case Cancel(f) => f in m.status
  }

  function Step(m: Machine, op: Op): Machine {
    if !Enabled(m, op) then m
    else
      match op
      case Enqueue(func, futures, key, front) =>
        m.(queue := EnqueueInto(m.queue, func, futures, key, front),
           status := m.status + (map f | f in futures :: Pending),
           place := Move(m.place, futures, Queued(key)),
           log := m.log + [Enqueued(key, func, futures, front)])
      case Take =>
        var key := m.queue.order[0];
        var entry := m.queue.table[key];
        m.(queue := Rest(m.queue),
           flight := Some(Flight(key, entry, |m.log|)),
           place := Move(m.place, entry.futures, InFlight),
           log := m.log + [Popped(key)])
      case Finish(outcome) =>
        var flight := m.flight.value;
        m.(flight := None,
           status := SettleAll(m.status, flight.entry.futures, outcome),
           place := Move(m.place, flight.entry.futures, Executed(|m.executions|)),
           executions := m.executions + [Execution(flight, outcome)])
      case Cancel(f) =>
        if m.status[f].Pending? then m.(status := m.status[f := Cancelled]) else m
  }

  function Run(ops: seq<Op>): Machine {
    if ops == [] then START else Step(Run(ops[..|ops| - 1]), ops[|ops| - 1])
  }

  // What the history says about a key, without looking at the queue.

  /** The key was enqueued since it was last popped. */
  predicate IsPending(log: seq<Event>, k: Key) {
    log != [] &&
    var last := log[|log| - 1];
    if last.key == k then last.Enqueued? else IsPending(log[..|log| - 1], k)
  }

  /** The futures enqueued for the key since it was last popped, in order. */
  function BatchFutures(log: seq<Event>, k: Key): seq<Future> {
    if log == [] then []
    else
      var last := log[|log| - 1];
      if last == Popped(k) then []
      else BatchFutures(log[..|log| - 1], k) + if last.key == k && last.Enqueued? then last.futures else []
  }

  /** The func most recently enqueued for the key. */
  function LatestFunc(log: seq<Event>, k: Key): Func {
    if log == [] then 0
    else
      var last := log[|log| - 1];
      if last.key == k && last.Enqueued? then last.func else LatestFunc(log[..|log| - 1], k)
  }

  /** Position in service order of a pending key: the time of its first enqueue since its last
      pop, negated when that enqueue asked for the front. Later enqueues do not matter. */
  function Rank(log: seq<Event>, k: Key): int {
    if log == [] then 0
    else
      var last, before := log[|log| - 1], log[..|log| - 1];
      if last.key == k && last.Enqueued? && !IsPending(before, k) then
        if last.front then -|log| else |log|
      else Rank(before, k)
  }

  lemma {:induction false} RankBounds(log: seq<Event>, k: Key)
    ensures -|log| <= Rank(log, k) <= |log|
  {
    if log != [] {
      RankBounds(log[..|log| - 1], k);
    }
  }

  /** How each reading of the history changes when one event is appended. */
  lemma Appended(log: seq<Event>, e: Event, k: Key)
    ensures IsPending(log + [e], k) == if e.key == k then e.Enqueued? else IsPending(log, k)
    ensures BatchFutures(log + [e], k)
         == if e == Popped(k) then [] else BatchFutures(log, k) + if e.key == k then e.futures else []
    ensures LatestFunc(log + [e], k) == if e.key == k && e.Enqueued? then e.func else LatestFunc(log, k)
    ensures Rank(log + [e], k)
         == if e.key == k && e.Enqueued? && !IsPending(log, k) then (if e.front then -|log| - 1 else |log| + 1)
            else Rank(log, k)
  {
    assert (log + [e])[..|log|] == log;
  }

  /** The queue holds the key iff it is pending, with exactly its batch. */
  ghost predicate Tracks(q: Queue, log: seq<Event>, k: Key) {
    && (k in q.order <==> k in q.table)
    && (k in q.table <==> IsPending(log, k))
    && (k in q.table ==> q.table[k] == Entry(LatestFunc(log, k), BatchFutures(log, k)))
  }

  ghost predicate Ranked(order: seq<Key>, log: seq<Event>) {
    forall i, j :: 0 <= i < j < |order| ==> Rank(log, order[i]) < Rank(log, order[j])
  }

  /** Deque and map together are exactly the pending batches of the history, in rank order. */
  ghost predicate Explains(q: Queue, log: seq<Event>) {
    Distinct(q.order) && (forall k :: Tracks(q, log, k)) && Ranked(q.order, log)
  }

  lemma {:induction false} BatchEmptyUnlessPending(log: seq<Event>, k: Key)
    requires !IsPending(log, k)
    ensures BatchFutures(log, k) == []
  {
    if log != [] && log[|log| - 1].key != k {
      BatchEmptyUnlessPending(log[..|log| - 1], k);
    }
  }

  lemma EnqueueTracks(q: Queue, log: seq<Event>, func: Func, futures: seq<Future>, key: Key, front: bool, k: Key)
    requires Tracks(q, log, k) && Tracks(q, log, key)
    ensures Tracks(EnqueueInto(q, func, futures, key, front), log + [Enqueued(key, func, futures, front)], k)
  {
    Appended(log, Enqueued(key, func, futures, front), k);
    if !IsPending(log, key) {
      BatchEmptyUnlessPending(log, key);
      assert BatchFutures(log, key) + futures == futures;
    }
  }

  lemma EnqueueRanked(q: Queue, log: seq<Event>, func: Func, futures: seq<Future>, key: Key, front: bool)
    requires Distinct(q.order) && Ranked(q.order, log) && Tracks(q, log, key)
    ensures Distinct(EnqueueInto(q, func, futures, key, front).order)
    ensures Ranked(EnqueueInto(q, func, futures, key, front).order, log + [Enqueued(key, func, futures, front)])
  {
    var order' := EnqueueInto(q, func, futures, key, front).order;
    var log' := log + [Enqueued(key, func, futures, front)];
    forall i, j | 0 <= i < j < |order'|
      ensures Rank(log', order'[i]) < Rank(log', order'[j])
    {
      Appended(log, Enqueued(key, func, futures, front), order'[i]);
      Appended(log, Enqueued(key, func, futures, front), order'[j]);
      RankBounds(log, order'[i]);
      RankBounds(log, order'[j]);
    }
  }

  lemma EnqueueExplained(q: Queue, log: seq<Event>, func: Func, futures: seq<Future>, key: Key, front: bool)
    requires Explains(q, log)
    ensures Explains(EnqueueInto(q, func, futures, key, front), log + [Enqueued(key, func, futures, front)])
  {
    EnqueueRanked(q, log, func, futures, key, front);
    forall k
      ensures Tracks(EnqueueInto(q, func, futures, key, front), log + [Enqueued(key, func, futures, front)], k)
    {
      EnqueueTracks(q, log, func, futures, key, front, k);
    }
  }

  function Rest(q: Queue): Queue
    requires q.order != []
  {
    Queue(q.order[1..], q.table - {q.order[0]})
  }

  lemma PopTracks(q: Queue, log: seq<Event>, k: Key)
    requires q.order != [] && Distinct(q.order) && Tracks(q, log, k)
    ensures Tracks(Rest(q), log + [Popped(q.order[0])], k)
  {
    Appended(log, Popped(q.order[0]), k);
    assert q.order == [q.order[0]] + q.order[1..];
  }

  lemma PopExplained(q: Queue, log: seq<Event>)
    requires Explains(q, log) && q.order != []
    ensures q.order[0] in q.table
    ensures Explains(Rest(q), log + [Popped(q.order[0])])
  {
    var key := q.order[0];
    assert Tracks(q, log, key);
    forall k
      ensures Tracks(Rest(q), log + [Popped(key)], k)
    {
      PopTracks(q, log, k);
    }
    var order' := q.order[1..];
    forall i, j | 0 <= i < j < |order'|
      ensures Rank(log + [Popped(key)], order'[i]) < Rank(log + [Popped(key)], order'[j])
    {
      Appended(log, Popped(key), order'[i]);
      Appended(log, Popped(key), order'[j]);
      assert Rank(log, q.order[i + 1]) < Rank(log, q.order[j + 1]);
    }
  }

  /** Over every run the deque and the map describe one ordered map: same keys, no duplicates,
      batches complete, position fixed by the first enqueue. */
  lemma {:induction false} RunsExplained(ops: seq<Op>)
    ensures Explains(Run(ops).queue, Run(ops).log)
  {
    if ops != [] {
      var m, op := Run(ops[..|ops| - 1]), ops[|ops| - 1];
      RunsExplained(ops[..|ops| - 1]);
      if Enabled(m, op) {
        match op
        case Enqueue(func, futures, key, front) => EnqueueExplained(m.queue, m.log, func, futures, key, front);
        case Take => PopExplained(m.queue, m.log);
        case Finish(_) =>
        case Cancel(_) =>
      }
    }
  }

  /** The pop never misses, and serves a pending key that ranks before every other. */
  lemma ServesFirst(ops: seq<Op>, k: Key)
    requires Run(ops).flight.None? && IsPending(Run(ops).log, k)
    ensures var m := Run(ops); var m' := Step(m, Take);
            && m'.flight.Some? && IsPending(m.log, m'.flight.value.key)
            && Rank(m.log, m'.flight.value.key) <= Rank(m.log, k)
            && !IsPending(m'.log, m'.flight.value.key)
            && (k != m'.flight.value.key ==> IsPending(m'.log, k))
  {
    RunsExplained(ops);
    var m := Run(ops);
    assert Tracks(m.queue, m.log, k);
    var i :| 0 <= i < |m.queue.order| && m.queue.order[i] == k;
    var first := m.queue.order[0];
    assert Tracks(m.queue, m.log, first);
    Appended(m.log, Popped(first), k);
    Appended(m.log, Popped(first), first);
  }

  // Conservation of futures.

  /** The bookkeeping of one future: it is exactly where `place` says, and resolved exactly by
      the execution of its batch. */
  ghost predicate Placed(m: Machine, f: Future) {
    && (f in m.place <==> f in m.status)
    && (forall k :: k in m.queue.table ==> (f in m.queue.table[k].futures <==> f in m.place && m.place[f] == Queued(k)))
    && (m.flight.Some? ==> (f in m.flight.value.entry.futures <==> f in m.place && m.place[f].InFlight?))
    && (forall n :: 0 <= n < |m.executions| ==>
          (f in m.executions[n].flight.entry.futures <==> f in m.place && m.place[f] == Executed(n)))
    && (f in m.place && f in m.status ==> Standing(m, m.place[f], m.status[f]))
  }

  ghost predicate Standing(m: Machine, place: Place, status: Status) {
    match place
    case Queued(k) => k in m.queue.table && !status.Done?
    case InFlight => m.flight.Some? && !status.Done?
    case Executed(n) => n < |m.executions| && (status == Cancelled || status == Done(m.executions[n].outcome))
  }

  /** A batch is what the history held for its key when it was popped. */
  ghost predicate IsBatch(log: seq<Event>, flight: Flight) {
    && flight.poppedAt < |log| && log[flight.poppedAt] == Popped(flight.key)
    && var before := log[..flight.poppedAt];
       flight.entry == Entry(LatestFunc(before, flight.key), BatchFutures(before, flight.key))
  }

  ghost predicate Batches(m: Machine) {
    && (m.flight.Some? ==> IsBatch(m.log, m.flight.value))
    && (forall n :: 0 <= n < |m.executions| ==> IsBatch(m.log, m.executions[n].flight))
  }

  ghost predicate Conserved(m: Machine) {
    Explains(m.queue, m.log) && Batches(m) && forall f :: Placed(m, f)
  }

  lemma EnqueuePlaces(m: Machine, op: Op, f: Future)
    requires op.Enqueue? && Enabled(m, op) && Placed(m, f)
    ensures Placed(Step(m, op), f)
  {
    var m' := Step(m, op);
    if f in op.futures {
      assert f !in m.status;
    }
  }

  lemma TakePlaces(m: Machine, f: Future)
    requires Enabled(m, Take) && Placed(m, f)
    ensures Placed(Step(m, Take), f)
  {
  }

  lemma FinishPlaces(m: Machine, outcome: Outcome, f: Future)
    requires Enabled(m, Finish(outcome)) && Placed(m, f)
    ensures Placed(Step(m, Finish(outcome)), f)
  {
  }

  lemma BatchSurvives(log: seq<Event>, e: Event, flight: Flight)
    requires IsBatch(log, flight)
    ensures IsBatch(log + [e], flight)
  {
    assert (log + [e])[..flight.poppedAt] == log[..flight.poppedAt];
  }

  lemma BatchesSurvive(m: Machine, op: Op)
    requires Batches(m) && Explains(m.queue, m.log) && Enabled(m, op)
    ensures Batches(Step(m, op))
  {
    var m' := Step(m, op);
    match op
    case Enqueue(func, futures, key, front) =>
      var e := Enqueued(key, func, futures, front);
      if m.flight.Some? {
        BatchSurvives(m.log, e, m.flight.value);
      }
      forall n | 0 <= n < |m.executions| ensures IsBatch(m'.log, m'.executions[n].flight) {
        BatchSurvives(m.log, e, m.executions[n].flight);
      }
    case Take =>
      var key := m.queue.order[0];
      assert Tracks(m.queue, m.log, key);
      assert m'.log[..|m.log|] == m.log;
      forall n | 0 <= n < |m.executions| ensures IsBatch(m'.log, m'.executions[n].flight) {
        BatchSurvives(m.log, Popped(key), m.executions[n].flight);
      }
    case Finish(_) =>
    case Cancel(_) =>
  }

  lemma StepConserves(m: Machine, op: Op)
    requires Conserved(m)
    ensures Conserved(Step(m, op))
  {
    if Enabled(m, op) {
      BatchesSurvive(m, op);
      match op
      case Enqueue(func, futures, key, front) =>
        EnqueueExplained(m.queue, m.log, func, futures, key, front);
        forall f ensures Placed(Step(m, op), f) { EnqueuePlaces(m, op, f); }
      case Take =>
        PopExplained(m.queue, m.log);
        forall f ensures Placed(Step(m, op), f) { TakePlaces(m, f); }
      case Finish(outcome) =>
        forall f ensures Placed(Step(m, op), f) { FinishPlaces(m, outcome, f); }
      case Cancel(c) =>
        forall f ensures Placed(Step(m, op), f) { assert Placed(m, f); }
    }
  }

  lemma {:induction false} RunsConserve(ops: seq<Op>)
    ensures Conserved(Run(ops))
  {
    if ops == [] {
      forall k ensures Tracks(START.queue, START.log, k) {
      }
      forall f ensures Placed(START, f) {
      }
    } else {
      RunsConserve(ops[..|ops| - 1]);
      StepConserves(Run(ops[..|ops| - 1]), ops[|ops| - 1]);
    }
  }

  ghost predicate InQueue(m: Machine, f: Future) {
    exists k :: k in m.queue.table && f in m.queue.table[k].futures
  }

  ghost predicate OnFlight(m: Machine, f: Future) {
    m.flight.Some? && f in m.flight.value.entry.futures
  }

  ghost predicate WasExecuted(m: Machine, f: Future) {
    exists n :: 0 <= n < |m.executions| && f in m.executions[n].flight.entry.futures
  }

  /** Every future ever passed to the queue is in exactly one of queued, in flight, executed;
      it is unresolved before its execution, and resolved by it unless its waiter cancelled. */
  lemma OnePlaceEach(ops: seq<Op>, f: Future)
    requires f in Run(ops).status
    ensures var m := Run(ops);
            && (InQueue(m, f) || OnFlight(m, f) || WasExecuted(m, f))
            && !(InQueue(m, f) && OnFlight(m, f)) && !(InQueue(m, f) && WasExecuted(m, f))
            && !(OnFlight(m, f) && WasExecuted(m, f))
            && (m.status[f].Pending? ==> !WasExecuted(m, f))
            && (m.status[f].Done? ==> WasExecuted(m, f))
  {
    RunsConserve(ops);
    var m := Run(ops);
    assert Placed(m, f);
    match m.place[f]
    case Queued(k) => assert f in m.queue.table[k].futures;
    case InFlight =>
    case Executed(n) => assert f in m.executions[n].flight.entry.futures;
  }

  /** One execution per batch: it ran the func enqueued last, and every future compacted under
      the key since the previous pop got its outcome, unless cancelled. No other execution
      contains any of those futures. */
  lemma BatchSharesOutcome(ops: seq<Op>, n: nat, f: Future)
    requires n < |Run(ops).executions| && f in Run(ops).executions[n].flight.entry.futures
    ensures var m := Run(ops); var run := m.executions[n];
            && IsBatch(m.log, run.flight)
            && f in m.status && (m.status[f] == Done(run.outcome) || m.status[f] == Cancelled)
            && (forall n' :: 0 <= n' < |m.executions| && f in m.executions[n'].flight.entry.futures ==> n' == n)
  {
    RunsConserve(ops);
    assert Placed(Run(ops), f);
  }

  /** Resolved exactly once: a settled future never changes again. */
  lemma SettledForGood(ops: seq<Op>, op: Op, f: Future)
    requires f in Run(ops).status && !Run(ops).status[f].Pending?
    ensures var m := Step(Run(ops), op); f in m.status && m.status[f] == Run(ops).status[f]
  {
    var m := Run(ops);
    if op.Enqueue? && Enabled(m, op) {
      assert f !in op.futures;
    }
  }

  /** The finishing step resolves the whole batch: no waiter of it is left pending. */
  lemma FinishResolvesBatch(ops: seq<Op>, outcome: Outcome, f: Future)
    requires OnFlight(Run(ops), f)
    ensures var m := Run(ops); var m' := Step(m, Finish(outcome));
            && f in m.status && f in m'.status
            && m'.status[f] == if m.status[f].Pending? then Done(outcome) else Cancelled
  {
    RunsConserve(ops);
    assert Placed(Run(ops), f);
  }

  // What the calls achieve.

  /** An enqueue for a new key asking for the front is served next, with its own func and futures. */
  lemma FrontIsServedNext(ops: seq<Op>, func: Func, futures: seq<Future>, key: Key)
    requires Enabled(Run(ops), Enqueue(func, futures, key, true)) && !IsPending(Run(ops).log, key)
    requires Run(ops).flight.None?
    ensures var m := Step(Step(Run(ops), Enqueue(func, futures, key, true)), Take);
            m.flight.Some? && m.flight.value.key == key && m.flight.value.entry == Entry(func, futures)
  {
    RunsExplained(ops);
    assert Tracks(Run(ops).queue, Run(ops).log, key);
  }

  /** One that does not is served next only if nothing else is pending. */
  lemma BackIsServedLast(ops: seq<Op>, func: Func, futures: seq<Future>, key: Key)
    requires Enabled(Run(ops), Enqueue(func, futures, key, false)) && !IsPending(Run(ops).log, key)
    requires Run(ops).flight.None?
    ensures var m := Step(Step(Run(ops), Enqueue(func, futures, key, false)), Take);
            && m.flight.Some?
            && (m.flight.value.key == key <==> forall k :: !IsPending(Run(ops).log, k))
            && (m.flight.value.key == key ==> m.flight.value.entry == Entry(func, futures))
  {
    RunsExplained(ops);
    var m := Run(ops);
    assert Tracks(m.queue, m.log, key);
    if m.queue.order != [] {
      var first := m.queue.order[0];
      assert Tracks(m.queue, m.log, first);
      assert IsPending(m.log, first) && first != key;
      var m1 := Step(m, Enqueue(func, futures, key, false));
      assert m1.queue.order[0] == first && first in m1.queue.table;
      assert Step(m1, Take).flight.value.key == first;
      assert exists k :: IsPending(Run(ops).log, k);
    } else {
      forall k ensures !IsPending(m.log, k) {
        assert Tracks(m.queue, m.log, k);
      }
    }
  }

  /** Compaction: the key keeps its place, its batch takes the new func and gains the futures. */
  lemma CompactionKeepsPlace(ops: seq<Op>, func: Func, futures: seq<Future>, key: Key, front: bool)
    requires Enabled(Run(ops), Enqueue(func, futures, key, front)) && IsPending(Run(ops).log, key)
    ensures var q, q' := Run(ops).queue, Step(Run(ops), Enqueue(func, futures, key, front)).queue;
            && key in q.table && q'.order == q.order
            && q'.table == q.table[key := Entry(func, q.table[key].futures + futures)]
  {
    RunsExplained(ops);
    assert Tracks(Run(ops).queue, Run(ops).log, key);
  }

  /** Its futures start pending, and no other future is touched; a waiter that gives up is cancelled,
      alone. */
  lemma FuturesStartPending(m: Machine, func: Func, futures: seq<Future>, key: Key, front: bool, f: Future)
    requires Enabled(m, Enqueue(func, futures, key, front))
    ensures var m' := Step(m, Enqueue(func, futures, key, front));
            && (f in m'.status <==> f in m.status || f in futures)
            && (f in m'.status ==> m'.status[f] == if f in futures then Pending else m.status[f])
  {
  }

  lemma CancelIsAlone(m: Machine, f: Future, g: Future)
    requires f in m.status && g in m.status
    ensures var m' := Step(m, Cancel(f));
            && g in m'.status && m'.queue == m.queue && m'.flight == m.flight
            && m'.status[g] == if g == f && m.status[f].Pending? then Cancelled else m.status[g]
  {
  }
}
