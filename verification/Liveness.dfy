/** The engine never gets stuck and never runs forever: outside calls aside, every step uses up some of a finite amount
    of work, and as long as work is left and the runner context is alive some step is possible. In the end every task
    is counted or lost, and only certain steps lose one. */
module Liveness {
  import opened Text
  import opened Records
  import opened Retry
  import opened TransitionStore
  import opened OutboxReplay
  import opened Sections
  import opened Engine
  import opened Placement
  import opened Ledger
  import opened Limiters
  import opened Evidence
  import opened EngineInvariant
  import opened EngineSteps
  import opened EngineRuns
  import opened Lifecycles
  import opened Conservation
  import opened Exclusion

  // ---------------------------------------------------------------- the measure

  /** An upper bound on the steps a worker still makes for its task: attempts left, then polls left, then the writes. */
  function StageRank(l: Limits, at: Stage): int {
    match at
    case Fetched => 10 + l.polls + 2 * l.attempts
    case MarkingRunning(_) => 9 + l.polls + 2 * l.attempts
    case Marked => 8 + l.polls + 2 * l.attempts
    case Announcing => 7 + l.polls + 2 * l.attempts
    case Acquiring => 6 + l.polls + 2 * l.attempts
    case Executing(n) => 7 + l.polls + 2 * (l.attempts - n)
    case BackingOff(n) => 6 + l.polls + 2 * (l.attempts - n)
    case Verifying(_, _, done) => 6 + l.polls - done
    case Completing(_, _, _) => 6
    case Writing(_) => 5
    case Recording(_) => 4
    case Finalizing(_) => 3
    case Releasing => 2
  }

  function Rank(l: Limits, wk: Worker): int {
    if wk.Busy? then StageRank(l, wk.at) else if wk.Idle? then 1 else 0
  }

  function Ranks(l: Limits, workers: seq<Worker>): int {
    if workers == [] then 0 else Ranks(l, workers[..|workers| - 1]) + Rank(l, workers[|workers| - 1])
  }

  function WaitingTasks(s: State): set<string> {
    set t | t in s.places && s.places[t].Waiting?
  }

  function Unregistered(calls: map<string, Call>): set<string> {
    set id | id in calls && calls[id].Registering?
  }

  function Others(calls: map<string, Call>, aborts: map<string, Transition>): int {
    |calls| + |Unregistered(calls)| + |aborts|
  }

  /** Work left: tasks not offered, tasks queued, what the workers are at, open calls and pending abort writes. */
  function WorkLeft(s: State): int {
    Sum(s.limits, |WaitingTasks(s)|, |s.queue|, Ranks(s.limits, s.workers), Others(s.calls, s.aborts))
  }

  function Sum(l: Limits, waiting: int, queued: int, ranks: int, others: int): int {
    var full := 10 + l.polls + 2 * l.attempts;
    waiting * (full + 2) + queued * (full + 1) + ranks + others
  }

  // ---------------------------------------------------------------- a worker's step

  /** What a worker's stage is bounded by. */
  ghost predicate Bounded(l: Limits, wk: Worker) {
    wk.Busy? ==>
      && StageRank(l, wk.at) >= 2
      && (wk.at.Executing? ==> wk.at.attempt <= l.attempts)
      && (wk.at.BackingOff? ==> wk.at.attempt < l.attempts)
      && (wk.at.Verifying? ==> wk.at.done < l.polls)
  }

  lemma DutyBounds(s: State, w: nat)
    requires Inv(s)
    ensures Bounded(s.limits, WorkerAt(s.workers, w))
  {
    hide Inv, Sound, Placed, Counts, Evident, Stored, Ordered, Published, PublishedOK, RestOK, SameRoute, RowOK,
         Reached;
    Parts(s);
    if Working(s, w) {
      Duty(s, w);
    }
  }

  /** Every action brings the worker nearer to the end of its task. */
  lemma WorkerRank(s: State, w: nat, act: Action)
    requires CanAct(s, w, act) && !act.Dequeue? && ValidLimits(s.limits) && Bounded(s.limits, WorkerAt(s.workers, w))
    ensures Rank(s.limits, NextWorker(s, WorkerAt(s.workers, w), act)) < Rank(s.limits, WorkerAt(s.workers, w))
  {
    hide TrimSpace, EqualFold, MarkOf, FinalOf, Update, SavedRow, SettledRow, ContextEnded, NextTask;
  }

  // ---------------------------------------------------------------- the work left falls

  lemma {:induction false} RanksUpdate(l: Limits, workers: seq<Worker>, w: nat, wk: Worker)
    requires w < |workers|
    ensures Ranks(l, workers[w := wk]) == Ranks(l, workers) - Rank(l, workers[w]) + Rank(l, wk)
  {
    hide Rank;
    var n := |workers| - 1;
    if w < n {
      RanksUpdate(l, workers[..n], w, wk);
      assert workers[w := wk][..n] == workers[..n][w := wk];
    } else {
      assert workers[w := wk][..n] == workers[..n];
    }
  }

  /** Which tasks wait after a step. */
  lemma WaitingStep(s: State, step: Step, t: string)
    requires Inv(s) && Enabled(s, step) && !step.CreateStep?
    ensures t in WaitingTasks(Apply(s, step)) <==>
            t in WaitingTasks(s) && !Offers(s, step, t) && !(IsLoss(s, step, t) && !step.WorkerStep?)
  {
    hide Inv, Apply, Enabled, IsLoss, Offers, Takes, CountsTask, TaskFacts;
    StepInv(s, step);
    Facts(s, t);
    Facts(Apply(s, step), t);
    SameMade(s, step);
    if t in s.made {
      StepPlace(s, step, t);
    }
  }

  lemma WorkerWaiting(s: State, step: Step)
    requires Inv(s) && Enabled(s, step) && step.WorkerStep?
    ensures WaitingTasks(Apply(s, step)) == WaitingTasks(s)
  {
    hide Inv, Apply, Enabled, WaitingTasks, IsLoss;
    forall t ensures t in WaitingTasks(Apply(s, step)) <==> t in WaitingTasks(s) { WaitingStep(s, step, t); }
  }

  lemma Multiply(a: int, b: int, full: int)
    ensures a == b - 1 ==> a * full == b * full - full
    ensures 0 <= a <= b && full >= 0 ==> 0 <= a * full <= b * full
  {
  }

  lemma WorkerWork(s: State, w: nat, act: Action)
    requires Inv(s) && CanAct(s, w, act)
    ensures WorkLeft(Apply(s, WorkerStep(w, act))) < WorkLeft(s)
  {
    hide Inv, Sound, Apply, CanMove, WaitingTasks, Ranks, NextWorker, StageRank, Counts, Placed, Evident, Ordered,
         Published, Stored;
    var step := WorkerStep(w, act);
    Parts(s);
    Components(s, step);
    WorkerWaiting(s, step);
    RanksUpdate(s.limits, s.workers, w, NextWorker(s, s.workers[w], act));
    if act.Dequeue? {
      TakenRank(s.limits, s.queue[0]);
      assert NextWorker(s, s.workers[w], act) == Busy(s.queue[0], s.queue[0].task, "", Fetched) by { Taken(s, w, act); }
      Multiply(|NextQueue(s, step)|, |s.queue|, 11 + s.limits.polls + 2 * s.limits.attempts);
    } else {
      DutyBounds(s, w);
      WorkerRank(s, w, act);
    }
  }

  lemma Taken(s: State, w: nat, act: Action)
    requires w < |s.workers| && act.Dequeue? && s.queue != []
    ensures NextWorker(s, s.workers[w], act) == Busy(s.queue[0], s.queue[0].task, "", Fetched)
  {
  }

  lemma TakenRank(l: Limits, item: Item)
    ensures Rank(l, Busy(item, item.task, "", Fetched)) == 10 + l.polls + 2 * l.attempts
  {
  }

  // ---------------------------------------------------------------- calls

  lemma Without<T>(m: map<string, T>, k: string, v: T)
    requires k in m
    ensures |m - {k}| == |m| - 1 && |m[k := v]| == |m|
  {
    assert (m - {k}).Keys == m.Keys - {k};
    assert m[k := v].Keys == m.Keys;
    Sizes(m);
    Sizes(m - {k});
    Sizes(m[k := v]);
  }

  lemma Sizes<T>(m: map<string, T>)
    ensures |m| == |m.Keys|
  {
  }

  /** A call goes on, or ends, without becoming one that has yet to register. */
  lemma CallShrinks(calls: map<string, Call>, id: string, c: Call)
    requires id in calls && !c.Registering?
    ensures |calls[id := c]| == |calls| && |calls - {id}| == |calls| - 1
    ensures |Unregistered(calls - {id})| <= |Unregistered(calls)|
    ensures |Unregistered(calls[id := c])| == |Unregistered(calls)| - (if calls[id].Registering? then 1 else 0)
  {
    Without(calls, id, c);
    var u := Unregistered(calls);
    assert Unregistered(calls - {id}) == u - {id} && Unregistered(calls[id := c]) == u - {id};
    Larger(u - {id}, u);
    assert id in u <==> calls[id].Registering?;
  }

  /** Registering, giving up, finishing and writing an abort leave less to do; offering a task, no more. */
  lemma OthersFall(s: State, step: Step)
    requires Enabled(s, step) && Internal(step) && !step.WorkerStep?
    ensures Others(NextCalls(s, step), NextAborts(s, step)) <=
            Others(s.calls, s.aborts) - (if step.EnqueueStep? then 0 else 1)
  {
    hide Unregistered, CanAct;
    if step.AbortWriteStep? {
      Without(s.aborts, step.id, s.aborts[step.id]);
    } else if step.EnqueueStep? && |s.calls[step.id].items| > 1 {
      CallShrinks(s.calls, step.id, Enqueueing(s.calls[step.id].items[1..]));
    } else if step.RegisterStep? {
      CallShrinks(s.calls, step.id, Enqueueing(s.calls[step.id].items));
    } else {
      CallShrinks(s.calls, step.id, Enqueueing([]));
    }
  }

  lemma OfferedWaits(s: State, step: Step) returns (t: string)
    requires Inv(s) && Enabled(s, step) && step.EnqueueStep?
    ensures Offers(s, step, t) && t in WaitingTasks(s)
  {
    hide Inv, Sound, Placed, Counts, Evident, Stored, Ordered, Published, Known;
    Parts(s);
    FirstOffered(s, step.id);
    t := s.calls[step.id].items[0].task.id;
  }

  lemma CallQueue(s: State, step: Step)
    requires Enabled(s, step) && !step.WorkerStep?
    ensures |NextQueue(s, step)| == |s.queue| + (if step.EnqueueStep? then 1 else 0)
    ensures NextWorkers(s, step) == s.workers
  {
    hide CanAct;
  }

  lemma CallWaiting(s: State, step: Step)
    requires Inv(s) && Enabled(s, step) && Internal(step) && !step.WorkerStep?
    ensures |WaitingTasks(Apply(s, step))| <= |WaitingTasks(s)| - (if step.EnqueueStep? then 1 else 0)
  {
    hide Inv, Apply, WaitingTasks, IsLoss, Offers, Enabled;
    forall t | t in WaitingTasks(Apply(s, step)) ensures t in WaitingTasks(s) && !Offers(s, step, t) {
      WaitingStep(s, step, t);
    }
    if step.EnqueueStep? {
      var t := OfferedWaits(s, step);
      Larger(WaitingTasks(Apply(s, step)), WaitingTasks(s) - {t});
    } else {
      Larger(WaitingTasks(Apply(s, step)), WaitingTasks(s));
    }
  }

  /** The steps the engine takes by itself; the others are calls from outside. */
  predicate Internal(step: Step) {
    step.WorkerStep? || step.RegisterStep? || step.EnqueueStep? || step.EnqueueFailStep? || step.FinishStep? ||
      step.AbortWriteStep?
  }

  lemma CallWork(s: State, step: Step)
    requires Inv(s) && Enabled(s, step) && Internal(step) && !step.WorkerStep?
    ensures WorkLeft(Apply(s, step)) < WorkLeft(s)
  {
    hide Inv, Apply, Enabled, WaitingTasks, Ranks, Others, NextQueue, NextWorkers;
    Components(s, step);
    OthersFall(s, step);
    CallWaiting(s, step);
    CallQueue(s, step);
    var full := 10 + s.limits.polls + 2 * s.limits.attempts;
    var w, w' := |WaitingTasks(s)|, |WaitingTasks(Apply(s, step))|;
    if step.EnqueueStep? {
      Multiply(w', w - 1, full + 2);
      Multiply(w - 1, w, full + 2);
      Multiply(|s.queue|, |s.queue| + 1, full + 1);
    } else {
      Multiply(w', w, full + 2);
    }
  }

  /** Each step the engine takes by itself uses up work, in every state it can be in. */
  lemma StepUsesWork(s: State, step: Step)
    requires Inv(s) && Enabled(s, step) && Internal(step)
    ensures WorkLeft(Apply(s, step)) < WorkLeft(s)
  {
    hide Inv, WorkLeft, Apply, CanAct;
    if step.WorkerStep? {
      WorkerWork(s, step.w, step.act);
      assert step == WorkerStep(step.w, step.act);
    } else {
      CallWork(s, step);
    }
  }

  lemma {:induction false} RanksPositive(s: State, n: nat)
    requires Inv(s) && n <= |s.workers|
    ensures Ranks(s.limits, s.workers[..n]) >= 0
  {
    hide Inv;
    if n > 0 {
      RanksPositive(s, n - 1);
      assert s.workers[..n][..n - 1] == s.workers[..n - 1];
      DutyBounds(s, n - 1);
    }
  }

  lemma WorkIsFinite(s: State)
    requires Inv(s)
    ensures WorkLeft(s) >= 0
  {
    hide Inv, WaitingTasks, Unregistered;
    RanksPositive(s, |s.workers|);
    assert s.workers[..|s.workers|] == s.workers;
    Multiply(0, |WaitingTasks(s)|, 10 + s.limits.polls + 2 * s.limits.attempts + 2);
    Multiply(0, |s.queue|, 10 + s.limits.polls + 2 * s.limits.attempts + 1);
  }

  // ---------------------------------------------------------------- workers stay until the context ends

  /** While the runner context is alive no worker has exited and the queue is open. */
  ghost predicate Awake(s: State) {
    s.shutdown || (!s.queueClosed && forall w :: 0 <= w < |s.workers| ==> !s.workers[w].Exited?)
  }

  lemma WorkerStays(s: State, w: nat, act: Action)
    requires CanAct(s, w, act) && !s.shutdown
    ensures !NextWorker(s, WorkerAt(s.workers, w), act).Exited?
  {
    hide CanMove, NextStage, NextTask, GivesUpTask;
  }

  lemma StepStaysAwake(s: State, step: Step)
    requires Awake(s) && Enabled(s, step)
    ensures Awake(Apply(s, step))
  {
    hide Apply, CanAct, NextWorker;
    Components(s, step);
    if step.WorkerStep? && !s.shutdown {
      WorkerStays(s, step.w, step.act);
    }
  }

  lemma {:induction false} RunAwake(l: Limits, steps: seq<Step>, s: State)
    requires ValidLimits(l) && Run(l, steps, s)
    ensures Inv(s) && Awake(s)
    decreases |steps|
  {
    hide Apply, Enabled, Inv, Continues;
    RunInv(l, steps, s);
    if steps == [] {
      NoStep(Init(l), s);
    } else {
      hide Awake, Init;
      var front, before, step := LastStep(Init(l), steps, s);
      RunAwake(l, front, before);
      StepStaysAwake(before, step);
    }
  }

  // ---------------------------------------------------------------- some step is possible

  /** A step the engine can take by itself without giving a task up. */
  ghost predicate Possible(s: State, step: Step) {
    Internal(step) && !step.EnqueueFailStep? && Enabled(s, step)
  }

  ghost predicate Blocked(s: State, w: nat) {
    IsBusy(s, w) && At(s, w).Acquiring? && !CanAcquire(s, w)
  }

  /** What the invariant says about who is there, the tasks in hand and the head of the queue. */
  ghost predicate Manned(s: State) {
    && |s.workers| == s.limits.workers > 0 && |s.queue| <= s.limits.queueSize && s.limits.queueSize > 0
    && (forall w: nat :: IsBusy(s, w) ==> KnownTask(s, w))
    && (s.queue != [] ==> s.queue[0].task.id in s.work)
    && (forall id :: id in s.calls && s.calls[id].Enqueueing? ==> s.calls[id].items != [])
  }

  lemma MannedNow(s: State)
    requires Inv(s)
    ensures Manned(s)
  {
    hide Inv, Sound, Placed, Counts, Evident, Stored, Ordered, Published, Logged;
    Parts(s);
    forall w: nat | IsBusy(s, w) ensures KnownTask(s, w) { Own(s, w); }
    if s.queue != [] {
      HeadOfQueue(s);
    }
    forall id | id in s.calls && s.calls[id].Enqueueing? ensures s.calls[id].items != [] { CallHasItems(s, id); }
  }

  lemma CallHasItems(s: State, id: string)
    requires Placed(s) && id in s.calls && s.calls[id].Enqueueing?
    ensures s.calls[id].items != []
  {
    hide Known, AllKnown, QueueOK, WaitingFound, WorkersOK;
    assert CallOK(s.places, id, s.calls[id]);
  }

  /** Every stage but a wait for a full limiter has a next step, whatever the backends answer. */
  lemma BusyCanAct(s: State, w: nat)
    requires KnownTask(s, w) && !Blocked(s, w)
    ensures exists act :: CanAct(s, w, act)
  {
    hide CanAcquire;
    match At(s, w)
    case Fetched => assert CanAct(s, w, Mark(0));
    case MarkingRunning(_) => assert CanAct(s, w, RunningWrite(0, NoFault));
    case Marked => assert CanAct(s, w, Check(0));
    case Announcing => assert CanAct(s, w, Announce(0, NoFault));
    case Acquiring => assert CanAct(s, w, Acquire);
    case Executing(_) => assert CanAct(s, w, Execute(CallResult.Ok, ""));
    case BackingOff(_) => assert CanAct(s, w, Wake(false));
    case Verifying(_, _, _) => assert CanAct(s, w, ReadError("", false));
    case Completing(_, _, _) => assert CanAct(s, w, Settle(true, 0));
    case Writing(_) => assert CanAct(s, w, TaskWrite(0, NoFault));
    case Recording(_) => assert CanAct(s, w, Record(0));
    case Finalizing(_) => assert CanAct(s, w, FinalWrite(0, NoFault));
    case Releasing => assert CanAct(s, w, Release);
  }

  /** A holder never waits for a second limiter: whoever a blocked worker waits for can go on. */
  lemma BlockedByARunner(s: State, w: nat) returns (v: nat)
    requires Inv(s) && Blocked(s, w)
    ensures IsBusy(s, v) && !Blocked(s, v)
  {
    hide Inv, Sound, Placed, Counts, Evident, Stored, Ordered, Published, Logged, Occupancies, TrimSpace;
    Parts(s);
    var b := TrimSpace(s.workers[w].task.bmcID);
    Occupied(s, b);
    SomeHolder(Holders(s.workers, b));
    v :| v in Holders(s.workers, b);
    assert HoldsRight(s.workers[v]);
  }

  lemma SomeHolder(a: set<nat>)
    requires |a| > 0
    ensures exists v :: v in a
  {
  }

  lemma SomeoneActs(s: State, w: nat) returns (v: nat, act: Action)
    requires Inv(s) && Manned(s) && IsBusy(s, w)
    ensures CanAct(s, v, act)
  {
    hide Inv, CanAct, Blocked;
    v := w;
    if Blocked(s, w) {
      v := BlockedByARunner(s, w);
    }
    BusyCanAct(s, v);
    act :| CanAct(s, v, act);
  }

  lemma CallPossible(s: State, id: string)
    requires Manned(s) && !s.queueClosed && s.queue == [] && id in s.calls
    ensures exists step :: Possible(s, step)
  {
    match s.calls[id]
    case Registering(_, _) => assert Possible(s, RegisterStep(id));
    case Enqueueing(_) => assert Possible(s, EnqueueStep(id));
    case Finishing(_) => assert Possible(s, FinishStep(id, 0, NoFault));
  }

  /** Nothing is queued, held, offered or waiting to be written. */
  ghost predicate Quiescent(s: State) {
    && s.queue == [] && (forall w :: 0 <= w < |s.workers| ==> !s.workers[w].Busy?)
    && (forall id :: id !in s.calls) && (forall id :: id !in s.aborts)
  }

  /** Deadlock freedom: in every reachable state with a live context some worker can act as long as a task is queued or
      a worker has one, and the engine can go on by itself as long as besides a call is open or an abort has to be
      written. */
  lemma NeverStuck(l: Limits, steps: seq<Step>, s: State)
    requires ValidLimits(l) && Run(l, steps, s) && !s.shutdown && !Quiescent(s)
    ensures s.queue != [] || (exists w :: IsBusy(s, w)) ==> exists w, act :: CanAct(s, w, act)
    ensures exists step :: Possible(s, step)
  {
    hide Run, Inv, CanMove;
    RunAwake(l, steps, s);
    MannedNow(s);
    if w: nat :| IsBusy(s, w) {
      var v, act := SomeoneActs(s, w);
      assert Possible(s, WorkerStep(v, act));
    } else if s.queue != [] {
      assert !IsBusy(s, 0);
      assert CanAct(s, 0, Dequeue);
      assert Possible(s, WorkerStep(0, Dequeue));
    } else if id :| id in s.calls {
      CallPossible(s, id);
    } else {
      forall w | 0 <= w < |s.workers| ensures !s.workers[w].Busy? { assert !IsBusy(s, w); }
      var id :| id in s.aborts;
      assert Possible(s, AbortWriteStep(id, 0, NoFault));
    }
  }

  // ---------------------------------------------------------------- where it ends

  lemma RestPlaces(s: State, t: string)
    requires Inv(s) && Quiescent(s) && t in s.made
    ensures AtRest(s, t)
  {
    hide Inv, Sound, Counts, Evident, Stored, Ordered, Published, Logged, Known;
    Parts(s);
  }

  /** In a quiescent state every task is counted or dropped, and a registered transition is closed exactly if none of
      its tasks was dropped. */
  lemma QuiescentMeans(l: Limits, steps: seq<Step>, s: State, id: string)
    requires ValidLimits(l) && Run(l, steps, s) && Quiescent(s) && IsRegistered(s, id)
    ensures forall t :: t in s.made ==> AtRest(s, t)
    ensures id in s.closed <==> forall t :: t in Targets(s, id) ==> CountedTask(s, t)
  {
    hide Run, Inv, Quiescent;
    RunInv(l, steps, s);
    forall t | t in s.made ensures AtRest(s, t) { RestPlaces(s, t); }
    ClosedExactlyWhenCounted(l, steps, s, id);
    RestUncounted(s, id);
  }

  lemma RestUncounted(s: State, id: string)
    requires forall t :: t in s.made ==> AtRest(s, t)
    ensures Uncounted(s, id) == {} <==> forall t :: t in Targets(s, id) ==> CountedTask(s, t)
  {
    forall t | t in Targets(s, id) ensures t in Uncounted(s, id) <==> !CountedTask(s, t) { assert AtRest(s, t); }
  }

  ghost predicate AllInternal(steps: seq<Step>) {
    forall step :: step in steps ==> Internal(step)
  }

  /** Termination: left to itself the engine takes at most `WorkLeft(s)` steps from any reachable state `s`, whatever
      the order of steps and whatever the backends answer. */
  lemma {:induction false} WorkEnds(l: Limits, run: seq<Step>, s: State, steps: seq<Step>, s': State)
    requires ValidLimits(l) && Run(l, run, s) && Continues(s, steps, s')
    requires AllInternal(steps)
    ensures |steps| <= WorkLeft(s) - WorkLeft(s') && WorkLeft(s') >= 0
    decreases |steps|
  {
    hide Run, Inv, Apply, Enabled, WorkLeft, Internal, Continues;
    RunInv(l, run, s);
    ContinuedInv(s, steps, s');
    WorkIsFinite(s');
    if steps == [] {
      NoStep(s, s');
    } else {
      var front, before, step := LastStep(s, steps, s');
      WorkEnds(l, run, s, front, before);
      ContinuedInv(s, front, before);
      StepUsesWork(before, step);
    }
  }

  /** Every maximal run of the engine by itself, from any reachable state, is finite and ends with the queue drained,
      all workers idle, every task counted or dropped, and every registered transition without a dropped task closed. */
  lemma MaximalRunsFinish(l: Limits, run: seq<Step>, s: State, steps: seq<Step>, s': State, id: string)
    requires ValidLimits(l) && Run(l, run, s) && Continues(s, steps, s')
    requires AllInternal(steps)
    requires !s'.shutdown && forall step :: !Possible(s', step)
    ensures |steps| <= WorkLeft(s) && Quiescent(s')
    ensures forall t :: t in s'.made ==> AtRest(s', t)
    ensures IsRegistered(s', id) ==>
              (id in s'.closed <==> forall t :: t in Targets(s', id) ==> CountedTask(s', t))
  {
    hide Run, Continues, AllInternal, Possible, WorkLeft, Inv, AtRest;
    WorkEnds(l, run, s, steps, s');
    RunsOn(l, run, s, steps, s');
    if !Quiescent(s') {
      NeverStuck(l, run + steps, s');
    }
    RunInv(l, run + steps, s');
    forall t | t in s'.made ensures AtRest(s', t) { RestPlaces(s', t); }
    if IsRegistered(s', id) {
      QuiescentMeans(l, run + steps, s', id);
    }
  }

  /** A task lost to a failed enqueue or a failed "running" write keeps its transition open: whatever happens
      afterwards, the transition is never closed. */
  lemma LostNeverCloses(l: Limits, run: seq<Step>, s: State, steps: seq<Step>, s': State, id: string, t: string)
    requires ValidLimits(l) && Run(l, run, s) && Continues(s, steps, s')
    requires t in Targets(s, id) && AtRest(s, t) && !CountedTask(s, t)
    ensures id !in s'.closed
  {
    hide Run, Inv, Continues;
    CountedOnce(l, run, s, steps, s', t);
    RunsOn(l, run, s, steps, s');
    assert t in Uncounted(s', id);
    if id in s'.closed {
      ClosedExactlyWhenCounted(l, run + steps, s', id);
    }
  }

  // ---------------------------------------------------------------- which steps lose a task

  /** Task `t` is lost. */
  predicate Lost(s: State, t: string) {
    t in s.places && s.places[t].Dropped?
  }

  /** A task becomes lost by a call that gives up before it has offered it, or by a "running" write that fails,
      committed or not, and by nothing else; and a lost task stays lost. */
  lemma StepLoses(s: State, step: Step, t: string)
    requires Inv(s) && Enabled(s, step) && t in s.made
    ensures Lost(Apply(s, step), t) <==> Lost(s, t) || IsLoss(s, step, t)
  {
    hide Inv, Apply, Enabled, IsLoss, Offers, Takes, CountsTask;
    StepPlace(s, step, t);
  }

  /** A task is not lost when it is created. */
  lemma NotBornLost(s: State, step: Step, t: string)
    requires Inv(s) && Enabled(s, step) && t !in s.made
    ensures !Lost(Apply(s, step), t)
  {
    hide Inv, Apply, Enabled, TaskFacts;
    StepInv(s, step);
    Facts(Apply(s, step), t);
    SameMade(s, step);
    if step.CreateStep? {
      CreateKeeps(s, step, t);
    }
  }

  // ---------------------------------------------------------------- lost tasks along a run

  /** The step loses some task of transition `id`: its call gives up, or its "running" write fails. */
  ghost predicate Lossy(s: State, step: Step, id: string) {
    || (step.EnqueueFailStep? && step.id == id)
    || (step.WorkerStep? && step.act.RunningWrite? && !step.act.fault.NoFault? && IsBusy(s, step.w) &&
          TransitionOf(s, step.w) == id)
  }

  ghost predicate Lossless(steps: seq<Step>, states: seq<State>, id: string) {
    |states| == |steps| + 1 && forall i {:trigger steps[i]} :: 0 <= i < |steps| ==> !Lossy(states[i], steps[i], id)
  }

  /** Some task of transition `id` is lost. */
  ghost predicate SomeLost(s: State, id: string) {
    exists t :: t in Targets(s, id) && Lost(s, t)
  }

  /** A lossy step loses a task of its transition. */
  lemma LossyTask(s: State, step: Step, id: string) returns (t: string)
    requires Inv(s) && Enabled(s, step) && Lossy(s, step, id)
    ensures t in Targets(s, id) && IsLoss(s, step, t)
  {
    hide Inv, Sound, Placed, Counts, Limited, Evident, Stored, Ordered, Published, Logged, Known, CanAct;
    Parts(s);
    if step.EnqueueFailStep? {
      t := s.calls[step.id].items[0].task.id;
      FirstOffered(s, step.id);
      KnownKeys(s.made, s.calls[step.id].items[0]);
    } else {
      t := TaskOf(s, step.w);
      Own(s, step.w);
      KnownKeys(s.made, s.workers[step.w].item);
    }
  }

  lemma LossIsLossy(s: State, step: Step, t: string, id: string)
    requires Inv(s) && t in Targets(s, id) && IsLoss(s, step, t)
    ensures Lossy(s, step, id)
  {
    hide Inv, Sound, Placed, Counts, Limited, Evident, Stored, Ordered, Published, Logged, Known, CanAct;
    Parts(s);
    if step.WorkerStep? {
      Own(s, step.w);
      KnownKeys(s.made, s.workers[step.w].item);
    }
  }

  /** After a step a transition has a lost task if it had one before, or the step loses one. */
  lemma StepLost(s: State, step: Step, id: string)
    requires Inv(s) && Enabled(s, step)
    ensures SomeLost(Apply(s, step), id) <==> SomeLost(s, id) || Lossy(s, step, id)
  {
    hide Inv, Enabled, Apply, Lossy, IsLoss, Lost;
    var s' := Apply(s, step);
    if SomeLost(s, id) {
      var t :| t in Targets(s, id) && Lost(s, t);
      StepLoses(s, step, t);
      StepKeepsTask(s, step, t);
      assert t in Targets(s', id) && Lost(s', t);
    }
    if Lossy(s, step, id) {
      var t := LossyTask(s, step, id);
      StepLoses(s, step, t);
      StepKeepsTask(s, step, t);
      assert t in Targets(s', id) && Lost(s', t);
    }
    if SomeLost(s', id) {
      var t :| t in Targets(s', id) && Lost(s', t);
      if t in s.made {
        StepLoses(s, step, t);
        StepKeepsTask(s, step, t);
        if IsLoss(s, step, t) {
          LossIsLossy(s, step, t, id);
        }
      } else {
        NotBornLost(s, step, t);
      }
    }
  }

  lemma LosslessStep(steps: seq<Step>, states: seq<State>, s: State, step: Step, s': State, id: string)
    requires |states| == |steps|
    ensures Lossless(steps + [step], states + [s] + [s'], id) <==>
            Lossless(steps, states + [s], id) && !Lossy(s, step, id)
  {
    hide Lossy;
    var n, all, after := |steps|, steps + [step], states + [s] + [s'];
    assert all[n] == step && after[n] == s;
    assert forall j :: 0 <= j < n ==> all[j] == steps[j] && after[j] == (states + [s])[j];
  }

  lemma {:induction false} LostAlong(l: Limits, steps: seq<Step>, states: seq<State>, id: string)
    requires ValidLimits(l) && Course(l, steps, states)
    ensures SomeLost(EndOf(l, states), id) <==> !Lossless(steps, states, id)
    decreases |steps|
  {
    hide Inv, Course, Enabled, Apply, Run, Lossy;
    CourseRun(l, steps, states);
    if steps != [] {
      hide EndOf, Init, SomeLost, Lossless;
      var front, before, step := CourseStep(l, steps, states);
      LostAlong(l, front, before, id);
      CourseRun(l, front, before);
      RunInv(l, front, EndOf(l, before));
      StepLost(EndOf(l, before), step, id);
      Whole(l, before);
      LosslessStep(front, before[..|front|], EndOf(l, before), step, EndOf(l, states), id);
    }
  }

  /** At rest a registered transition is closed if and only if, in the whole run, its call never gave up and no
      "running" write of it failed: nothing else keeps it open. */
  lemma ClosedUnlessLost(l: Limits, steps: seq<Step>, states: seq<State>, id: string)
    requires ValidLimits(l) && Course(l, steps, states)
    requires Quiescent(EndOf(l, states)) && IsRegistered(EndOf(l, states), id)
    ensures id in EndOf(l, states).closed <==> Lossless(steps, states, id)
  {
    hide Inv, Course, EndOf, Quiescent, Lossless, Run;
    var s := EndOf(l, states);
    CourseRun(l, steps, states);
    LostAlong(l, steps, states, id);
    QuiescentMeans(l, steps, s, id);
    forall t | t in Targets(s, id) ensures CountedTask(s, t) <==> !Lost(s, t) { assert AtRest(s, t); }
  }
}
