/** The single-index queue of api/graphify/graphify_coordinator.py as a state machine over the
    steps between awaits: enqueue calls, the worker loop, and the drain. */
module IndexQueue {
  import opened Base

  type Path = string
  type Future = nat

  datatype Job = Job(path: Path, future: Future)

  datatype Status = Pending | Resolved(success: bool) | Raised | Stopped

  /** Where the worker task is suspended. */
  datatype Worker = Absent | AtTop | Blocked | Indexing(job: Job)

  /** The manager's fields, the futures, and three records for the theorems: all jobs accepted,
      all jobs taken off the queue, and the futures left behind by a drain. */
  datatype State = State(
    queue: seq<Job>,
    paths: set<Path>,
    current: Option<Path>,
    currentFuture: Option<Future>,
    event: bool,
    worker: Worker,
    status: map<Future, Status>,
    accepted: seq<Job>,
    taken: seq<Job>,
    abandoned: set<Future>)

  const IDLE := State([], {}, None, None, false, Absent, map[], [], [], {})

  /** Steps. `registered` says whether the registry knows the project: the status update between
      enqueueing and waking the worker raises when it does not. */
  datatype Op =
    | Start(path: Path, future: Future, registered: bool)
    | Launch
    | Turn
    | Wake
    | Complete(outcome: Status)
    | Drain

  datatype Reply = AlreadyRunning | AlreadyQueued | NowQueued

  function ReplyTo(s: State, path: Path): Reply {
    if s.current == Some(path) then AlreadyRunning else if path in s.paths then AlreadyQueued else NowQueued
  }

  predicate Enabled(s: State, op: Op) {
    match op
    case Start(_, f, _) => f !in s.status
    case Launch => s.worker.Absent?
    case Turn => s.worker.AtTop?
    case Wake => s.worker.Blocked? && s.event
    case Complete(outcome) => s.worker.Indexing? && !outcome.Pending?
    case Drain => true
  }

  function Settle(status: map<Future, Status>, f: Future, outcome: Status): map<Future, Status> {
    if f in status && status[f].Pending? then status[f := outcome] else status
  }

  function StopAll(status: map<Future, Status>, queue: seq<Job>): map<Future, Status> {
    if queue == [] then status else StopAll(Settle(status, queue[0].future, Stopped), queue[1..])
  }

  /** Cancelling the worker mid-index runs its `finally`, which forgets the in-flight future. */
  function CancelWorker(s: State): State {
    match s.worker
    case Indexing(job) =>
      s.(worker := Absent, current := None, currentFuture := None, abandoned := s.abandoned + {job.future})
    case _ => s.(worker := Absent)
  }

  function DrainTail(s: State): State {
    var status := if s.currentFuture.Some? then Settle(s.status, s.currentFuture.value, Stopped) else s.status;
    s.(status := StopAll(status, s.queue), queue := [], paths := {}, current := None, currentFuture := None,
       taken := s.taken + s.queue)
  }

  function Step(s: State, op: Op): State {
    if !Enabled(s, op) then s
    else
      match op
      case Start(path, f, registered) =>
        if ReplyTo(s, path) != NowQueued then s
        else s.(queue := s.queue + [Job(path, f)], paths := s.paths + {path},
                status := s.status[f := Pending], accepted := s.accepted + [Job(path, f)],
                event := s.event || registered)
      case Launch => s.(worker := AtTop)
      case Turn =>
        if s.queue == [] then s.(event := false, worker := Blocked)
        else
          var job := s.queue[0];
          s.(event := false, queue := s.queue[1..], paths := s.paths - {job.path},
             current := Some(job.path), currentFuture := Some(job.future),
             worker := Indexing(job), taken := s.taken + [job])
      case Wake => s.(worker := AtTop)
      case Complete(outcome) =>
        s.(status := Settle(s.status, s.worker.job.future, outcome),
           current := None, currentFuture := None, worker := AtTop)
      case Drain => DrainTail(CancelWorker(s))
  }

  function Run(ops: seq<Op>): State {
    if ops == [] then IDLE else Step(Run(ops[..|ops| - 1]), ops[|ops| - 1])
  }

  function PathsOf(queue: seq<Job>): (paths: set<Path>) {
    set j | j in queue :: j.path
  }

  /** Queue and path set agree, and nothing is queued twice or queued while it is indexed. */
  ghost predicate Consistent(s: State) {
    && s.paths == PathsOf(s.queue)
    && (forall i, j :: 0 <= i < j < |s.queue| ==> s.queue[i].path != s.queue[j].path)
    && (if s.worker.Indexing? then
          var job := s.worker.job;
          s.current == Some(job.path) && s.currentFuture == Some(job.future) && job.path !in s.paths
        else s.current == None && s.currentFuture == None)
  }

  /** Work leaves the queue in the order it was accepted. */
  ghost predicate Fifo(s: State) {
    s.accepted == s.taken + s.queue
  }

  /** A future is unresolved exactly while queued, in flight, or abandoned by a drain. */
  ghost predicate Accounted(s: State) {
    && (forall j :: j in s.queue ==> j.future in s.status && s.status[j.future].Pending?)
    && (forall i, j :: 0 <= i < j < |s.queue| ==> s.queue[i].future != s.queue[j].future)
    && (s.worker.Indexing? ==> var f := s.worker.job.future;
          f in s.status && s.status[f].Pending? && f !in s.abandoned && (forall j :: j in s.queue ==> j.future != f))
    && (forall f :: f in s.abandoned ==>
          f in s.status && s.status[f].Pending? && (forall j :: j in s.queue ==> j.future != f))
    && (forall f :: f in s.status && s.status[f].Pending? ==>
          || (exists j :: j in s.queue && j.future == f)
          || (s.worker.Indexing? && s.worker.job.future == f)
          || f in s.abandoned)
  }

  ghost predicate HasFuture(queue: seq<Job>, f: Future) {
    exists j :: j in queue && j.future == f
  }

  lemma {:induction false} StopAllStops(status: map<Future, Status>, queue: seq<Job>)
    ensures StopAll(status, queue).Keys == status.Keys
    ensures forall f :: f in status ==>
              StopAll(status, queue)[f] == (if status[f].Pending? && HasFuture(queue, f) then Stopped else status[f])
  {
    if queue != [] {
      StopAllStops(Settle(status, queue[0].future, Stopped), queue[1..]);
      assert queue == [queue[0]] + queue[1..];
      assert forall j :: j in queue <==> j == queue[0] || j in queue[1..];
    }
  }

  lemma StepConsistent(s: State, op: Op)
    requires Consistent(s)
    ensures Consistent(Step(s, op))
  {
    if op.Turn? && s.worker.AtTop? && s.queue != [] {
      assert s.queue == [s.queue[0]] + s.queue[1..];
      assert forall j :: j in s.queue <==> j == s.queue[0] || j in s.queue[1..];
      assert forall i :: 0 <= i < |s.queue[1..]| ==> s.queue[1..][i] == s.queue[i + 1];
    }
  }

  lemma StepFifo(s: State, op: Op)
    requires Fifo(s)
    ensures Fifo(Step(s, op))
  {
    if op.Turn? && s.worker.AtTop? && s.queue != [] {
      assert s.queue == [s.queue[0]] + s.queue[1..];
      assert s.taken + [s.queue[0]] + s.queue[1..] == s.taken + s.queue;
    }
  }

  lemma StartAccounted(s: State, op: Op)
    requires Accounted(s) && op.Start?
    ensures Accounted(Step(s, op))
  {
    var s' := Step(s, op);
    forall f | f in s'.status && s'.status[f].Pending?
      ensures || (exists j :: j in s'.queue && j.future == f)
              || (s'.worker.Indexing? && s'.worker.job.future == f)
              || f in s'.abandoned
    {
      if f in s.status && exists j :: j in s.queue && j.future == f {
        var j :| j in s.queue && j.future == f;
        assert j in s'.queue;
      } else if f !in s.status {
        assert Job(op.path, f) in s'.queue;
      }
    }
  }

  lemma TurnAccounted(s: State)
    requires Accounted(s)
    ensures Accounted(Step(s, Turn))
  {
    if s.worker.AtTop? && s.queue != [] {
      var rest := s.queue[1..];
      assert s.queue == [s.queue[0]] + rest;
      assert forall j :: j in s.queue <==> j == s.queue[0] || j in rest;
      assert forall i :: 0 <= i < |rest| ==> rest[i] == s.queue[i + 1];
    }
  }

  lemma DrainAccounted(s: State)
    requires Accounted(s) && Consistent(s)
    ensures Accounted(Step(s, Drain))
  {
    StopAllStops(CancelWorker(s).status, s.queue);
  }

  lemma StepAccounted(s: State, op: Op)
    requires Accounted(s) && Consistent(s)
    ensures Accounted(Step(s, op))
  {
    match op
    case Start(_, _, _) => StartAccounted(s, op);
    case Turn => TurnAccounted(s);
    case Drain => DrainAccounted(s);
    case _ =>
  }

  /** Over every interleaving: queue and path set agree, no project is queued twice or queued
      while being indexed, work is taken first in first out, and every future is accounted for. */
  lemma {:induction false} RunsConsistent(ops: seq<Op>)
    ensures Consistent(Run(ops)) && Fifo(Run(ops)) && Accounted(Run(ops))
  {
    if ops != [] {
      var s, op := Run(ops[..|ops| - 1]), ops[|ops| - 1];
      RunsConsistent(ops[..|ops| - 1]);
      StepConsistent(s, op);
      StepFifo(s, op);
      StepAccounted(s, op);
    }
  }

  /** A finished job gives its own future exactly its outcome, and no other future anything. */
  lemma CompleteSettles(ops: seq<Op>, outcome: Status)
    requires Run(ops).worker.Indexing? && !outcome.Pending?
    ensures var s, s' := Run(ops), Step(Run(ops), Complete(outcome)); var f := s.worker.job.future;
            && s'.status == s.status[f := outcome] && f in s.status && s.status[f].Pending?
            && s'.current == None && s'.worker.AtTop? && s'.queue == s.queue
  {
    RunsConsistent(ops);
  }

  /** The completion that ended the job of this future with this outcome. */
  ghost predicate EndedBy(ops: seq<Op>, k: nat, f: Future, outcome: Status) {
    && k < |ops| && ops[k] == Complete(outcome)
    && Run(ops[..k]).worker.Indexing? && Run(ops[..k]).worker.job.future == f
  }

  lemma StatusChange(s: State, op: Op, f: Future)
    requires Consistent(s) && f in Step(s, op).status
    requires !Step(s, op).status[f].Pending? && !Step(s, op).status[f].Stopped?
    ensures || (f in s.status && s.status[f] == Step(s, op).status[f])
            || (op.Complete? && s.worker.Indexing? && s.worker.job.future == f && op.outcome == Step(s, op).status[f])
  {
    if op.Drain? {
      var s1 := CancelWorker(s);
      StopAllStops(s1.status, s.queue);
    }
  }

  /** Over every run: a future that is neither pending nor stopped has the outcome of the completion
      that ended its own job. */
  lemma {:induction false} OutcomeIsOwn(ops: seq<Op>, f: Future) returns (k: nat)
    requires f in Run(ops).status && !Run(ops).status[f].Pending? && !Run(ops).status[f].Stopped?
    ensures EndedBy(ops, k, f, Run(ops).status[f])
  {
    if ops != [] {
      var before, op := ops[..|ops| - 1], ops[|ops| - 1];
      RunsConsistent(before);
      StatusChange(Run(before), op, f);
      if f in Run(before).status && Run(before).status[f] == Run(ops).status[f] {
        k := OutcomeIsOwn(before, f);
        assert ops[..k] == before[..k];
      } else {
        k := |before|;
      }
    }
  }

  /** A start queues a project that is neither queued nor being indexed, at the end and with a pending
      future; any other start changes nothing. */
  lemma StartQueues(ops: seq<Op>, path: Path, f: Future, registered: bool)
    requires f !in Run(ops).status
    ensures var s := Run(ops); var s' := Step(s, Start(path, f, registered));
            var known := (exists j :: j in s.queue && j.path == path)
                || (s.worker.Indexing? && s.worker.job.path == path);
            if known then s' == s
            else s'.queue == s.queue + [Job(path, f)] && s'.status == s.status[f := Pending] && s'.worker == s.worker
  {
    RunsConsistent(ops);
  }

  /** Work that is queued for a sleeping worker is taken up: with registered projects only it can wake,
      and its next turn takes the oldest job. */
  lemma SleeperTakesOldest(ops: seq<Op>)
    requires forall i :: 0 <= i < |ops| && ops[i].Start? ==> ops[i].registered
    requires Run(ops).worker.Blocked? && Run(ops).queue != []
    ensures var s := Run(ops); var s' := Step(Step(s, Wake), Turn);
            s'.worker == Indexing(s.queue[0]) && s'.current == Some(s.queue[0].path) && s'.queue == s.queue[1..]
  {
    RegisteredRunsNeverStall(ops);
  }

  /** Resolved at most once. */
  lemma ResolvedForGood(s: State, op: Op, f: Future)
    requires f in s.status && !s.status[f].Pending?
    ensures f in Step(s, op).status && Step(s, op).status[f] == s.status[f]
  {
    if op.Drain? {
      var s1 := CancelWorker(s);
      var status := if s1.currentFuture.Some? then Settle(s1.status, s1.currentFuture.value, Stopped) else s1.status;
      StopAllStops(status, s.queue);
    }
  }

  /** After a drain the queue and its path set are empty and every future that was queued is
      resolved with the stop error. */
  lemma DrainEmpties(ops: seq<Op>, f: Future)
    requires HasFuture(Run(ops).queue, f)
    ensures var s := Step(Run(ops), Drain);
            && s.queue == [] && s.paths == {} && s.current == None && s.worker.Absent?
            && f in s.status && s.status[f] == Stopped
  {
    RunsConsistent(ops);
    var s := Run(ops);
    StopAllStops(CancelWorker(s).status, s.queue);
  }

  ghost predicate AllResolved(s: State) {
    forall f :: f in s.status ==> !s.status[f].Pending?
  }

  /** The comment on the drain promises the in-flight future too. Over every run, a drain leaves no
      future unresolved iff it does not cancel the worker mid-index, whose own cleanup drops that
      future, and no earlier drain did. */
  lemma DrainResolvesAllIff(ops: seq<Op>)
    ensures AllResolved(Step(Run(ops), Drain)) <==> !Run(ops).worker.Indexing? && Run(ops).abandoned == {}
  {
    RunsConsistent(ops);
    var s := Run(ops);
    StopAllStops(CancelWorker(s).status, s.queue);
    if s.worker.Indexing? {
      var f := s.worker.job.future;
      assert Step(s, Drain).status[f].Pending?;
    }
    if f :| f in s.abandoned {
      assert !HasFuture(s.queue, f);
      assert Step(s, Drain).status[f].Pending?;
    }
  }

  /** A run that ends with nothing queued, nothing indexed, no worker, and a caller left waiting. */
  lemma DrainLeavesInFlight()
    ensures var s := Run([Start("p", 0, true), Launch, Turn, Drain]);
            s.worker.Absent? && s.queue == [] && s.current == None && s.status == map[0 := Pending]
  {
    var ops := [Start("p", 0, true), Launch, Turn, Drain];
    assert ops[..3][..2] == ops[..2] && ops[..2][..1] == ops[..1] && ops[..1][..0] == [];
    assert Run([]) == IDLE;
    assert Run(ops[..1]).queue == [Job("p", 0)] && Run(ops[..1]).status == map[0 := Pending];
    assert Run(ops[..2]).worker == AtTop;
    assert Run(ops[..3]).worker == Indexing(Job("p", 0)) && Run(ops[..3]).queue == [];
  }

  // Wake-ups.

  /** A blocked worker has nothing to do, or is about to be woken. */
  ghost predicate NoLostWakeup(s: State) {
    s.worker.Blocked? ==> s.queue == [] || s.event
  }

  /** A start keeps that, unless it queues an unregistered project for a sleeping worker: then
      the call raises after queueing, and the worker is never told. */
  lemma StartKeepsWakeupIff(s: State, path: Path, f: Future, registered: bool)
    requires NoLostWakeup(s) && Enabled(s, Start(path, f, registered))
    ensures NoLostWakeup(Step(s, Start(path, f, registered)))
       <==> !(s.worker.Blocked? && !s.event && ReplyTo(s, path) == NowQueued && !registered)
  {
  }

  /** With registered projects only, no run ever loses a wake-up. */
  lemma {:induction false} RegisteredRunsNeverStall(ops: seq<Op>)
    requires forall i :: 0 <= i < |ops| && ops[i].Start? ==> ops[i].registered
    ensures NoLostWakeup(Run(ops))
  {
    if ops != [] {
      RegisteredRunsNeverStall(ops[..|ops| - 1]);
    }
  }

  lemma UnregisteredStartStalls()
    ensures var s := Run([Launch, Turn, Start("p", 0, false)]);
            s.worker.Blocked? && s.queue == [Job("p", 0)] && !s.event && Step(s, Wake) == s
  {
    assert [Launch, Turn, Start("p", 0, false)][..2] == [Launch, Turn];
    assert [Launch, Turn][..1] == [Launch] && [Launch][..0] == [];
    assert Run([]) == IDLE;
    assert Run([Launch]) == IDLE.(worker := AtTop);
    assert Run([Launch, Turn]) == IDLE.(worker := Blocked);
  }
}
