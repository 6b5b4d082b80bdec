/** The index coordinator object: enqueueing, the worker's turns, the drain, and the retry that
    halves the token budget. */
module IndexCoordinator {
  import opened Base
  import opened IndexQueue

  class GraphifyCoordinator {
    var indexQueue: seq<Job>
    var indexQueuePaths: set<Path>
    var indexCurrent: Option<Path>
    var indexCurrentFuture: Option<Future>
    var indexEvent: bool
    var workerRuns: bool
    var futures: map<Future, Status>
    var nextFuture: Future
    ghost var record: State

    /** The fields are the state of the queue machine. */
    ghost predicate Valid()
      reads this
    {
      && Mirrors()
      && Consistent(record) && Fifo(record) && Accounted(record)
      && (forall f :: f in futures ==> f < nextFuture)
    }

    ghost predicate Mirrors()
      reads this
    {
      && record.queue == indexQueue && record.paths == indexQueuePaths
      && record.current == indexCurrent && record.currentFuture == indexCurrentFuture
      && record.event == indexEvent && record.status == futures
      && (workerRuns <==> !record.worker.Absent?)
    }

    constructor ()
      ensures Valid() && record == IDLE
    {
      indexQueue, indexQueuePaths, indexCurrent, indexCurrentFuture, indexEvent := [], {}, None, None, false;
      futures, nextFuture, workerRuns, record := map[], 0, false, IDLE;
    }

    ghost method Advance(op: Op)
      requires Consistent(record) && Fifo(record) && Accounted(record)
      modifies this`record
      ensures record == Step(old(record), op) && Consistent(record) && Fifo(record) && Accounted(record)
    {
      StepConsistent(record, op);
      StepFifo(record, op);
      StepAccounted(record, op);
      record := Step(record, op);
    }

    /** `start_index_project`. An unregistered project makes the call raise (None), but only
        after it has been queued. */
    method StartIndexProject(path: Path, registered: bool) returns (reply: Option<Reply>)
      requires Valid()
      modifies this
      ensures Valid() && record == Step(old(record), Start(path, old(nextFuture), registered))
      ensures var answer := ReplyTo(old(record), path);
              reply == if answer == NowQueued && !registered then None else Some(answer)
    {
      var future := nextFuture;
      Advance(Start(path, future, registered));
      if indexCurrent == Some(path) {
        return Some(AlreadyRunning);
      }
      if path in indexQueuePaths {
        return Some(AlreadyQueued);
      }
      nextFuture := nextFuture + 1;
      futures := futures[future := Pending];
      indexQueue := indexQueue + [Job(path, future)];
      indexQueuePaths := indexQueuePaths + {path};
      if !registered {
        return None;
      }
      indexEvent := true;
      return Some(NowQueued);
    }

    /** `_start_index_worker`: at most one worker task. */
    method StartIndexWorker()
      requires Valid()
      modifies this
      ensures Valid() && record == Step(old(record), Launch) && !record.worker.Absent?
    {
      Advance(Launch);
      if workerRuns {
        return;
      }
      workerRuns := true;
    }

    /** The blocked worker resumes once the event is set, and goes back to the top of its loop. */
    method ResumeWorker() returns (resumed: bool)
      requires Valid() && record.worker.Blocked?
      modifies this
      ensures Valid() && record == Step(old(record), Wake)
      ensures resumed <==> record.worker.AtTop?
      ensures !resumed ==> record == old(record) && !indexEvent
    {
      Advance(Wake);
      resumed := indexEvent;
    }

    /** Top of the worker loop: clear the event, then wait or take the oldest job. */
    method WorkerTurn() returns (job: Option<Job>)
      requires Valid() && record.worker.AtTop?
      modifies this
      ensures Valid() && record == Step(old(record), Turn)
      ensures job == if old(indexQueue) == [] then None else Some(old(indexQueue)[0])
    {
      Advance(Turn);
      indexEvent := false;
      if indexQueue == [] {
        return None;
      }
      var taken := indexQueue[0];
      indexQueue := indexQueue[1..];
      indexQueuePaths := indexQueuePaths - {taken.path};
      indexCurrent := Some(taken.path);
      indexCurrentFuture := Some(taken.future);
      return Some(taken);
    }

    /** index_project returned or raised. */
    method FinishIndexing(job: Job, outcome: Status)
      requires Valid() && record.worker == Indexing(job) && !outcome.Pending?
      modifies this
      ensures Valid() && record == Step(old(record), Complete(outcome))
    {
      Advance(Complete(outcome));
      if futures[job.future].Pending? {
        futures := futures[job.future := outcome];
      }
      indexCurrent := None;
      indexCurrentFuture := None;
    }

    method StopQueued()
      requires forall j :: j in indexQueue ==> j.future in futures
      modifies this`indexQueue, this`futures
      ensures indexQueue == [] && futures == StopAll(old(futures), old(indexQueue))
    {
      while indexQueue != []
        invariant forall j :: j in indexQueue ==> j.future in futures
        invariant StopAll(futures, indexQueue) == StopAll(old(futures), old(indexQueue))
        decreases |indexQueue|
      {
        var job := indexQueue[0];
        assert indexQueue == [job] + indexQueue[1..];
        indexQueue := indexQueue[1..];
        if futures[job.future].Pending? {
          futures := futures[job.future := Stopped];
        }
      }
    }

    /** `_drain_index_queue`: cancel the worker, whose `finally` clears the current job first; the
        check of the in-flight future that follows therefore never finds one. Then resolve what
        is still queued. */
    method DrainIndexQueue()
      requires Valid()
      modifies this
      ensures Valid() && record == Step(old(record), Drain)
    {
      StopAllStops(futures, indexQueue);
      Advance(Drain);
      workerRuns := false;
      indexCurrent := None;
      indexCurrentFuture := None;
      assert indexCurrentFuture.None?;
      StopQueued();
      indexQueuePaths := {};
    }
  }

  // The extract retry.

  datatype ExtractResult = Extracted(output: string) | ExtractFailed(error: string, timedOut: bool)

  const MIN_BUDGET := 4096

  function Pow2(n: nat): nat {
    if n == 0 then 1 else 2 * Pow2(n - 1)
  }

  /** The run ends by itself at call n: it succeeded, or failed other than by timeout. */
  predicate Final(r: ExtractResult) {
    r.Extracted? || !r.timedOut
  }

  ghost predicate Halves(tried: seq<int>, budget: int) {
    && (tried != [] ==> tried[0] == budget)
    && (forall i :: 0 < i < |tried| ==> tried[i] == tried[i - 1] / 2)
    && (forall i :: 0 <= i < |tried| ==> tried[i] >= MIN_BUDGET)
  }

  /** n + 1 calls need a budget of at least 4096 * 2^n, so the loop is logarithmic. */
  lemma {:induction false} CallsAreLogarithmic(tried: seq<int>, budget: int, n: nat)
    requires Halves(tried, budget) && n < |tried|
    ensures tried[n] * Pow2(n) <= budget && MIN_BUDGET * Pow2(n) <= budget
  {
    if n > 0 {
      CallsAreLogarithmic(tried, budget, n - 1);
      Doubled(tried[n], tried[n - 1], Pow2(n - 1));
    }
    Monotone(MIN_BUDGET, tried[n], Pow2(n));
  }

  lemma Monotone(a: int, b: int, p: nat)
    requires a <= b
    ensures a * p <= b * p
  {
  }

  lemma Doubled(a: int, b: int, p: nat)
    requires 2 * a <= b
    ensures a * (2 * p) <= b * p
  {
    Monotone(2 * a, b, p);
    assert a * (2 * p) == (2 * a) * p;
  }

  /** `_run_extract_with_timeout_retry`: call n of the subprocess has outcome extract(n, budget).
      Budgets are halved after each timeout; the first final outcome is returned; when the budget
      falls below the minimum the last timeout error is returned. A budget that starts below the
      minimum runs nothing and fails with an empty error. */
  method RunExtractWithTimeoutRetry(budget: int, extract: (nat, int) -> ExtractResult)
    returns (r: ExtractResult, tried: seq<int>)
    ensures Halves(tried, budget) && (budget < MIN_BUDGET <==> tried == [])
    ensures forall i :: 0 <= i < |tried| - 1 ==> !Final(extract(i, tried[i]))
    ensures tried == [] ==> r == ExtractFailed("", true)
    ensures tried != [] ==>
              var last := extract(|tried| - 1, tried[|tried| - 1]);
              r == last && (Final(last) || tried[|tried| - 1] / 2 < MIN_BUDGET)
  {
    var tokenBudget := budget;
    var lastError := "";
    tried := [];
    while tokenBudget >= MIN_BUDGET
      invariant Halves(tried, budget)
      invariant tried == [] ==> tokenBudget == budget && lastError == ""
      invariant tried != [] ==>
                  && tokenBudget == tried[|tried| - 1] / 2
                  && extract(|tried| - 1, tried[|tried| - 1]) == ExtractFailed(lastError, true)
      invariant forall i :: 0 <= i < |tried| ==> !Final(extract(i, tried[i]))
      decreases tokenBudget
    {
      var result := extract(|tried|, tokenBudget);
      tried := tried + [tokenBudget];
      if result.Extracted? {
        return result, tried;
      }
      lastError := result.error;
      if !result.timedOut {
        return result, tried;
      }
      tokenBudget := tokenBudget / 2;
    }
    r := ExtractFailed(lastError, true);
  }
}
