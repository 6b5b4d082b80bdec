/** The messaging rate limiter object of messaging/limiter.py: the queue fields, the futures,
    the single worker, and the flood pause. Other tasks enqueue and cancel at every await. */
module MessageWorker {
  import opened Base
  import opened Time
  import opened SlidingWindow
  import opened MessageQueue

  /** One flood pause: it ends at `until`, and was set when `sends` sends had been made. */
  datatype Pause = Pause(until: real, sends: nat)

  /** No send made after a pause was set started before that pause ended; `latest` is the end
      of the latest pause. */
  ghost predicate Respected(pauses: seq<Pause>, latest: real, sends: seq<real>) {
    && (forall p :: 0 <= p < |pauses| ==> pauses[p].sends <= |sends|)
    && (forall p, q :: 0 <= p < q < |pauses| ==> pauses[p].sends < pauses[q].sends)
    && (forall p, i :: 0 <= p < |pauses| && pauses[p].sends <= i < |sends| ==> pauses[p].until <= sends[i])
    && (pauses != [] ==> latest == pauses[|pauses| - 1].until)
  }

  /** A send that waits for the latest pause alone respects every pause: between two pauses
      there was a send, which had waited for the first of them. */
  lemma NextSendRespects(pauses: seq<Pause>, latest: real, sends: seq<real>, start: real)
    requires Respected(pauses, latest, sends) && Sorted(sends + [start]) && latest <= start
    ensures Respected(pauses, latest, sends + [start])
  {
    var sends' := sends + [start];
    forall p, i | 0 <= p < |pauses| && pauses[p].sends <= i < |sends'|
      ensures pauses[p].until <= sends'[i]
    {
      if i < |sends| {
        assert pauses[p].until <= sends[i];
      } else if p < |pauses| - 1 {
        var j := pauses[p].sends;
        assert pauses[p].sends < pauses[|pauses| - 1].sends <= |sends|;
        assert pauses[p].until <= sends[j] && sends'[j] <= sends'[i];
      }
    }
  }

  lemma NextPauseRespects(pauses: seq<Pause>, latest: real, sends: seq<real>, until: real)
    requires Respected(pauses, latest, sends)
    requires pauses != [] ==> pauses[|pauses| - 1].sends < |sends|
    ensures Respected(pauses + [Pause(until, |sends|)], until, sends)
  {
    var pauses' := pauses + [Pause(until, |sends|)];
    forall p, q | 0 <= p < q < |pauses'|
      ensures pauses'[p].sends < pauses'[q].sends
    {
      if q == |pauses| && p < |pauses| - 1 {
        assert pauses[p].sends < pauses[|pauses| - 1].sends;
      }
    }
  }

  /** The turn took the batch the queue was due to serve, and executed it once. */
  ghost predicate ServedOne(before: Machine, after: Machine) {
    var taken := Step(before, Take);
    && taken.flight.Some? && after.flight.None?
    && |after.executions| == |before.executions| + 1 && before.executions <= after.executions
    && after.executions[|before.executions|].flight == taken.flight.value
  }

  /** A flood error sets the pause, counted from no earlier than `asked`; nothing else moves it. */
  ghost predicate PausedBy(outcome: Outcome, asked: real, before: seq<Pause>, pauses: seq<Pause>, sends: nat) {
    if outcome.Failed? && outcome.error.Flood?
    then |pauses| == |before| + 1 && pauses == before + [Pause(pauses[|before|].until, sends)]
         && asked + outcome.error.seconds <= pauses[|before|].until
    else pauses == before
  }

  class MessagingRateLimiter {
    const limiter: StrictSlidingWindowLimiter
    const clock: Clock
    var queueList: seq<Key>
    var queueMap: map<Key, Entry>
    var futures: map<Future, Status>
    var nextFuture: Future
    var pausedUntil: real
    ghost var machine: Machine
    ghost var pauses: seq<Pause>

    /** The fields are the state of the queue machine, and the pause field is the end of the
        latest pause. */
    ghost predicate Valid()
      reads this, limiter, clock
    {
      && Conserved(machine)
      && machine.queue == Queue(queueList, queueMap) && machine.status == futures
      && (forall f :: f in futures ==> f < nextFuture)
      && limiter.Valid() && limiter.lastReading <= clock.now
      && Respected(pauses, pausedUntil, limiter.granted)
    }

    /** The starts of all sends: the worker is the only user of the limiter, and calls the func
        without suspending once its slot is granted. */
    ghost function Sends(): seq<real>
      reads this, limiter
    {
      limiter.granted
    }

    constructor (limiter: StrictSlidingWindowLimiter, clock: Clock)
      requires limiter.Valid() && limiter.lastReading <= clock.now && limiter.granted == []
      ensures Valid() && this.limiter == limiter && this.clock == clock && machine == START
    {
      this.limiter, this.clock := limiter, clock;
      queueList, queueMap, futures, nextFuture, pausedUntil := [], map[], map[], 0, 0.0;
      machine, pauses := START, [];
      new;
      RunsConserve([]);
      assert Run([]) == START;
    }

    /** Compaction: a known key keeps its place, takes the new func, and collects the futures. */
    method EnqueueInternalMulti(func: Func, added: seq<Future>, key: Key, front: bool)
      requires Valid() && Enabled(machine, Enqueue(func, added, key, front))
      requires forall f <- added :: f < nextFuture
      modifies this`queueList, this`queueMap, this`futures, this`machine
      ensures Valid() && machine == Step(old(machine), Enqueue(func, added, key, front))
    {
      StepConserves(machine, Enqueue(func, added, key, front));
      machine := Step(machine, Enqueue(func, added, key, front));
      if key in queueMap {
        var oldFutures := queueMap[key].futures;
        queueMap := queueMap[key := Entry(func, oldFutures + added)];
      } else {
        queueMap := queueMap[key := Entry(func, added)];
        if front {
          queueList := [key] + queueList;
        } else {
          queueList := queueList + [key];
        }
      }
      futures := futures + (map f | f in added :: Pending);
    }

    /** `enqueue`: create a future, put it into the queue; the caller then awaits it. Without a
        dedup key a generated one is used: func identity and time, so not necessarily a new one. */
    method EnqueueOne(func: Func, dedupKey: Option<Key>, generated: Key) returns (f: Future)
      requires Valid()
      modifies this`queueList, this`queueMap, this`futures, this`machine, this`nextFuture
      ensures Valid() && f !in old(futures) && f in futures
      ensures var key := if dedupKey.Some? then dedupKey.value else generated;
              machine == Step(old(machine), Enqueue(func, [f], key, false))
    {
      var key := if dedupKey.Some? then dedupKey.value else generated;
      f := nextFuture;
      nextFuture := nextFuture + 1;
      EnqueueInternalMulti(func, [f], key, false);
    }

    method CancelFuture(f: Future)
      requires Valid() && f in futures
      modifies this`futures, this`machine
      ensures Valid() && machine == Step(old(machine), Cancel(f))
    {
      StepConserves(machine, Cancel(f));
      machine := Step(machine, Cancel(f));
      if futures[f].Pending? {
        futures := futures[f := Cancelled];
      }
    }

    /** What other tasks may do while the worker is suspended. They never touch the batch the
        worker holds, the limiter, or the pause. */
    method OtherTasks()
      requires Valid()
      modifies this`queueList, this`queueMap, this`futures, this`machine, this`nextFuture
      ensures Valid() && machine.flight == old(machine).flight && machine.executions == old(machine).executions
      ensures old(machine).log <= machine.log
    {
      var steps: nat := *;
      while steps > 0
        invariant Valid() && machine.flight == old(machine).flight && machine.executions == old(machine).executions
        invariant old(machine).log <= machine.log
      {
        var enqueues: bool := *;
        if enqueues {
          var func: Func, dedupKey: Option<Key>, generated: Key := *, *, *;
          var f := EnqueueOne(func, dedupKey, generated);
        } else {
          var f: Future := *;
          if f in futures {
            CancelFuture(f);
          }
        }
        steps := steps - 1;
      }
    }

    /** popleft plus map pop. */
    method TakeBatch() returns (key: Key, batch: Entry)
      requires Valid() && machine.flight.None? && queueList != []
      modifies this`queueList, this`queueMap, this`machine
      ensures Valid() && machine == Step(old(machine), Take)
      ensures machine.flight.Some? && machine.flight.value.key == key && machine.flight.value.entry == batch
    {
      PopExplained(machine.queue, machine.log);
      StepConserves(machine, Take);
      machine := Step(machine, Take);
      key := queueList[0];
      queueList := queueList[1..];
      batch := queueMap[key];
      queueMap := queueMap - {key};
    }

    /** The resolving loop: set every future of the batch that is not done yet. */
    method SetEach(waiters: seq<Future>, outcome: Outcome)
      requires forall f <- waiters :: f in futures
      modifies this`futures
      ensures futures == SettleAll(old(futures), waiters, outcome)
    {
      var i := 0;
      while i < |waiters|
        invariant 0 <= i <= |waiters|
        invariant futures == SettleAll(old(futures), waiters[..i], outcome)
      {
        var f := waiters[i];
        if futures[f].Pending? {
          futures := futures[f := Done(outcome)];
        }
        i := i + 1;
      }
      assert waiters[..i] == waiters;
    }

    method Resolve(batch: Entry, outcome: Outcome)
      requires Valid() && machine.flight.Some? && machine.flight.value.entry == batch
      modifies this`futures, this`machine
      ensures Valid() && machine == Step(old(machine), Finish(outcome))
    {
      forall f | f in batch.futures
        ensures f in futures
      {
        assert Placed(machine, f);
      }
      StepConserves(machine, Finish(outcome));
      SetEach(batch.futures, outcome);
      machine := Step(machine, Finish(outcome));
    }

    method SitOutPause()
      modifies clock
      ensures old(clock.now) <= clock.now && pausedUntil <= clock.now
    {
      var now := clock.Read();
      if pausedUntil > now {
        clock.Sleep(pausedUntil - now);
      }
    }

    /** Sit out the flood pause, then take a slot of the window; the send starts then. */
    method AwaitSlot()
      requires Valid()
      modifies this`queueList, this`queueMap, this`futures, this`machine, this`nextFuture, limiter, clock
      ensures Valid() && old(machine).log <= machine.log
      ensures machine.flight == old(machine).flight && machine.executions == old(machine).executions
      ensures |Sends()| == |old(Sends())| + 1 && old(Sends()) <= Sends()
      ensures pausedUntil <= Sends()[|old(Sends())|] && old(clock.now) <= clock.now
    {
      SitOutPause();
      OtherTasks();
      ghost var before := Sends();
      var start := limiter.AcquireAlone(clock);
      NextSendRespects(pauses, pausedUntil, before, start);
      OtherTasks();
    }

    method PauseUntil(until: real)
      requires Valid()
      requires pauses != [] ==> pauses[|pauses| - 1].sends < |Sends()|
      modifies this`pausedUntil, this`pauses
      ensures Valid() && pausedUntil == until && pauses == old(pauses) + [Pause(until, |Sends()|)]
    {
      NextPauseRespects(pauses, pausedUntil, Sends(), until);
      pausedUntil := until;
      pauses := pauses + [Pause(until, |Sends()|)];
    }

    /** Call the func and resolve the batch with its outcome. */
    method Execute(batch: Entry) returns (outcome: Outcome)
      requires Valid() && machine.flight.Some? && machine.flight.value.entry == batch
      modifies this`queueList, this`queueMap, this`futures, this`machine, this`nextFuture, clock
      ensures Valid() && machine.flight.None? && old(clock.now) <= clock.now
      ensures machine.executions == old(machine).executions + [Execution(old(machine).flight.value, outcome)]
    {
      outcome := *;
      clock.Drift();
      OtherTasks();
      Resolve(batch, outcome);
    }

    /** Call the func, resolve the batch, and remember a flood pause. */
    method SendAndResolve(batch: Entry)
      requires Valid() && machine.flight.Some? && machine.flight.value.entry == batch
      requires pauses != [] ==> pauses[|pauses| - 1].sends < |Sends()|
      modifies this, clock
      ensures Valid() && machine.flight.None? && Sends() == old(Sends())
      ensures |machine.executions| == |old(machine).executions| + 1 && old(machine).executions <= machine.executions
      ensures machine.executions[|old(machine).executions|].flight == old(machine).flight.value
      ensures var outcome := machine.executions[|old(machine).executions|].outcome;
              PausedBy(outcome, old(clock.now), old(pauses), pauses, |Sends()|)
    {
      var outcome := Execute(batch);
      if outcome.Failed? && outcome.error.Flood? {
        var now := clock.Read();
        PauseUntil(now + outcome.error.seconds);
      } else if outcome.Failed? && outcome.error.FloodUnparsable? {
        clock.Sleep(1.0);
      }
    }

    /** One turn of the worker loop. It reports false when it would wait for work instead. */
    method WorkerTurn() returns (worked: bool)
      requires Valid() && machine.flight.None?
      modifies this, limiter, clock
      ensures Valid() && machine.flight.None?
      ensures worked <==> old(queueList) != []
      ensures !worked ==> Sends() == old(Sends()) && machine == old(machine) && pauses == old(pauses)
      ensures worked ==> |Sends()| == |old(Sends())| + 1 && old(Sends()) <= Sends()
      ensures worked ==> ServedOne(old(machine), machine)
      ensures worked ==>
                var outcome := machine.executions[|old(machine).executions|].outcome;
                PausedBy(outcome, old(clock.now), old(pauses), pauses, |Sends()|)
    {
      if queueList == [] {
        return false;
      }
      var key, batch := TakeBatch();
      AwaitSlot();
      SendAndResolve(batch);
      return true;
    }
  }
}
