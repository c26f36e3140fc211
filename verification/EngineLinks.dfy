/** The steps of the engine do what the queue and the verifier do: what their methods may answer is what the steps
    allow. */
module EngineLinks {
  import opened Text
  import opened Records
  import opened PowerStates
  import opened Retry
  import TaskQueue
  import Verification
  import opened TransitionStore
  import opened Sections
  import opened Engine
  import opened EngineInvariant
  import opened EngineRuns
  import opened Liveness

  // ---------------------------------------------------------------- the queue

  /** `item` is the next task that call `id` has to offer. */
  predicate NextItem(s: State, id: string, item: Item) {
    CanEnqueue(s, id) && s.calls[id].items[0] == item
  }

  /** A StartTransition call that offers its next task: accepted, it is the enqueue step; refused, the call can give up;
      and it has to wait exactly when the enqueue step has to. */
  lemma OffersLikeTheQueue(l: Limits, steps: seq<Step>, s: State, id: string, item: Item, callerDone: bool,
                           r: TaskQueue.Sent, after: seq<Item>)
    requires ValidLimits(l) && Run(l, steps, s) && NextItem(s, id, item)
    requires TaskQueue.OfferAnswer(s.queue, s.queueClosed, s.limits.queueSize, item, callerDone, r, after)
    ensures r.Accepted? ==> Enabled(s, EnqueueStep(id)) && Apply(s, EnqueueStep(id)).queue == after
    ensures r.Closed? || r.CallerDone? ==>
              Enabled(s, EnqueueFailStep(id)) && Apply(s, EnqueueFailStep(id)).queue == after
    ensures !callerDone && !s.queueClosed ==> (r.Blocked? <==> !Enabled(s, EnqueueStep(id)))
  {
    hide Run, Inv, Apply;
    RunInv(l, steps, s);
    MannedNow(s);
    Components(s, EnqueueStep(id));
    Components(s, EnqueueFailStep(id));
    hide NextDb, NextMade, NextPlaces, NextWork, NextCalls, NextProgress, NextClosed, NextWorkers, NextLimiters;
  }

  /** Worker `w` has just taken the item that was received. */
  predicate Took(s: State, w: nat, r: TaskQueue.Received<Item>) {
    r.Item? && IsBusy(s, w) && At(s, w).Fetched? && s.workers[w].item == r.value
  }

  /** An idle worker that asks for a task: an item is the head the dequeue step takes; a drained queue or an ended
      context lets the worker exit; and it has to wait exactly when it can do neither. */
  lemma TakesLikeTheQueue(l: Limits, steps: seq<Step>, s: State, w: nat, r: TaskQueue.Received<Item>, after: seq<Item>)
    requires ValidLimits(l) && Run(l, steps, s) && w < |s.workers| && WorkerAt(s.workers, w).Idle?
    requires TaskQueue.TakeAnswer(s.queue, s.queueClosed, s.shutdown, r, after)
    ensures r.Item? ==>
              && CanAct(s, w, Dequeue) && Apply(s, WorkerStep(w, Dequeue)).queue == after
              && Took(Apply(s, WorkerStep(w, Dequeue)), w, r)
    ensures r.Drained? || r.WorkerDone? ==> CanAct(s, w, Exit) && Apply(s, WorkerStep(w, Exit)).queue == after
    ensures r.Waiting? <==> !CanAct(s, w, Dequeue) && !CanAct(s, w, Exit)
  {
    hide Run, Inv, Apply, CanMove;
    RunAwake(l, steps, s);
    MannedNow(s);
    Components(s, WorkerStep(w, Dequeue));
    Components(s, WorkerStep(w, Exit));
    hide NextDb, NextMade, NextPlaces, NextWork, NextCalls, NextProgress, NextClosed, NextLimiters;
  }

  // ---------------------------------------------------------------- the sections

  /** The section that marks a transition running is the mark step of the worker. */
  lemma MarksLikeTheRunner(s: State, w: nat, now: Time, r: Mark, after: map<string, Progress>)
    requires IsBusy(s, w) && MarkAnswer(s.progress, TransitionOf(s, w), now, r, after)
    ensures var s' := Apply(s, WorkerStep(w, Mark(now)));
            && s'.progress == after && s'.canceled == s.canceled
            && (r.NoEntry? ==> !IsBusy(s', w)) && (r.Skip? ==> IsBusy(s', w) && At(s', w).Marked?)
            && (r.Persist? ==> IsBusy(s', w) && At(s', w) == MarkingRunning(r.snapshot))
  {
    hide NextDb, NextMade, NextPlaces, NextWork, NextCalls, NextClosed, NextAborts, NextQueue, NextLimiters, MarkOf,
         AfterMark, NextTask;
  }

  /** AbortTransition is the abort step: it goes through exactly when the step is enabled, ends the context, and leaves
      the same snapshot to be written; otherwise it changes nothing. */
  lemma AbortsLikeTheRunner(s: State, id: string, now: Time, r: AbortResult, after: map<string, Progress>,
                            canceled: set<string>)
    requires AbortAnswer(s.progress, s.canceled, id, now, r, after, canceled)
    ensures r.PersistAbort? <==> Enabled(s, AbortStep(id, now))
    ensures var s' := Apply(s, AbortStep(id, now));
            && s'.progress == after && s'.canceled == (if r.PersistAbort? then canceled else canceled + {id})
            && s'.aborts == if r.PersistAbort? then s.aborts[id := r.snapshot] else s.aborts
    ensures !r.PersistAbort? ==> after == s.progress && canceled == s.canceled
  {
    hide NextDb, NextMade, NextPlaces, NextWork, NextCalls, NextClosed, NextMarkers, NextQueue, NextWorkers,
         NextLimiters;
  }

  /** Counting an outcome is the record step of the worker, which then writes the final snapshot if there is one. */
  lemma RecordsLikeTheRunner(s: State, w: nat, now: Time, persist: Option<Transition>, after: map<string, Progress>,
                             canceled: set<string>)
    requires IsBusy(s, w)
    requires RecordAnswer(s.progress, s.canceled, TransitionOf(s, w), OutcomeAt(At(s, w)), now, persist, after,
                          canceled)
    ensures var s' := Apply(s, WorkerStep(w, Record(now)));
            && s'.progress == after && s'.canceled == canceled && IsBusy(s', w)
            && At(s', w) == if persist.Some? then Finalizing(persist.value) else Releasing
  {
    hide NextDb, NextMade, NextPlaces, NextWork, NextCalls, NextClosed, NextMarkers, NextAborts, NextQueue,
         NextLimiters, AfterRecord, FinalOf, NextTask;
  }

  // ---------------------------------------------------------------- executeTask and completeTask

  /** The check: with an ended context the task is completed as canceled, as it is; otherwise it is announced as
      running, from now on. */
  lemma ChecksLikeTheRunner(s: State, w: nat, now: Time)
    requires KnownTask(s, w) && At(s, w).Marked?
    ensures var wk, wk' := WorkerAt(s.workers, w), WorkerAt(Apply(s, WorkerStep(w, Check(now))).workers, w);
            && wk.Busy? && wk'.Busy? && wk'.item == wk.item
            && if ContextEnded(s, TransitionOf(s, w))
               then wk'.at == Completing(0, "", CanceledBy("context canceled")) && wk'.task == wk.task
               else wk'.at == Announcing &&
                    wk'.task == wk.task.(state := Running, startedAt := Some(now), updatedAt := now)
  {
    hide NextDb, NextMade, NextPlaces, NextWork, NextCalls, NextProgress, NextClosed, NextAborts, NextQueue,
         NextLimiters, ContextEnded;
  }

  /** `executeWithRetry` and what follows it: a retryable failure before the last attempt is followed by a wait; another
      one ends the task as failed, or as canceled if the context had ended; a success is verified, unless no state is
      known for the operation, which fails the task. */
  lemma ExecutesLikeTheRunner(s: State, w: nat, r: CallResult, detail: string)
    requires KnownTask(s, w) && At(s, w).Executing?
    ensures var n, at := At(s, w).attempt, At(Apply(s, WorkerStep(w, Execute(r, detail))), w);
            match r
            case Ok =>
              if s.workers[w].item.operation.Other? then at.Completing? && at.attempts == n && at.result.FailedBy?
              else at == Verifying(n, "", 0)
            case Retryable =>
              at == if n == s.limits.attempts then Completing(n, "", FailedBy(detail)) else BackingOff(n)
            case Fatal => at == Completing(n, "", FailedBy(detail))
            case Expired => at == Completing(n, "", CanceledBy(detail))
  {
    hide NextDb, NextMade, NextPlaces, NextWork, NextCalls, NextProgress, NextClosed, NextAborts, NextQueue,
         NextLimiters, NextTask;
  }

  /** A wait that ends early cancels the task; otherwise the next attempt follows. */
  lemma WakesLikeTheRunner(s: State, w: nat, interrupted: bool)
    requires KnownTask(s, w) && At(s, w).BackingOff?
    ensures var n, at := At(s, w).attempt, At(Apply(s, WorkerStep(w, Wake(interrupted))), w);
            if interrupted then at.Completing? && at.attempts == n && at.result.CanceledBy? else at == Executing(n + 1)
  {
    hide NextDb, NextMade, NextPlaces, NextWork, NextCalls, NextProgress, NextClosed, NextAborts, NextQueue,
         NextLimiters, NextTask;
  }

  /** Whether `completeTask` tells SMD, and it refuses. */
  ghost predicate SMDRefuses(l: Limits, t: Task, power: string, patched: bool) {
    l.updater && !t.dryRun && (Blank(t.nodeID) || !(SaysOn(power) || SaysOff(power)) || !patched)
  }

  /** `completeTask`: what it writes, by how the execution ended. */
  ghost predicate CompletedRow(l: Limits, wk: Worker, patched: bool, now: Time, row: Task)
    requires wk.Busy? && wk.at.Completing?
  {
    var t := wk.task;
    && row.attemptCount == wk.at.attempts && row.completedAt == Some(now) && row.updatedAt == now
    && row.startedAt == t.startedAt && row.finalPowerState == TrimSpace(wk.at.power)
    && match wk.at.result
       case CanceledBy(detail) => row.state.Canceled? && row.errorDetail == TrimSpace(detail)
       case FailedBy(detail) => row.state.Failed? && row.errorDetail == TrimSpace(detail)
       case Success => if SMDRefuses(l, t, wk.at.power, patched) then row.state.Failed? && row.errorDetail != ""
                       else row.state.Succeeded? && row.errorDetail == t.errorDetail
  }

  lemma CompletesLikeTheRunner(s: State, w: nat, patched: bool, now: Time)
    requires KnownTask(s, w) && At(s, w).Completing?
    ensures var s' := Apply(s, WorkerStep(w, Settle(patched, now)));
            && IsBusy(s', w) && At(s', w).Writing?
            && CompletedRow(s.limits, s.workers[w], patched, now, At(s', w).row)
            && TaskOf(s, w) in s'.work
            && s'.work[TaskOf(s, w)].patched ==
               (var told := s.limits.updater && !s.workers[w].task.dryRun && At(s, w).result.Success? &&
                            !SMDRefuses(s.limits, s.workers[w].task, At(s, w).power, patched);
                if told then Some(if SaysOn(At(s, w).power) then "Ready" else "Off") else None)
  {
    hide NextDb, NextMade, NextPlaces, NextCalls, NextProgress, NextClosed, NextAborts, NextQueue, NextLimiters,
         TrimSpace, SaysOn, SaysOff, Blank, ComponentState, ExpectedState, Reaches, Told, EqualFold, CanAct,
         UpdateNodePowerState;
    var wk := s.workers[w];
    UpdateMeans(wk.task.nodeID, TrimSpace(wk.at.power), patched);
    SaysTrimmed(wk.at.power);
  }

  // ---------------------------------------------------------------- what the environment may do

  /** The worker wants the limiter of a BMC. */
  predicate Waiting(s: State, w: nat) {
    At(s, w).Acquiring? && IsBusy(s, w) && !Blank(s.workers[w].task.bmcID)
  }

  /** No answer of a backend is left out: whatever the executor, the timer, the reader, SMD and the database say, a
      worker that has asked can go on with it; and a worker that waits for a limiter can give up once its context has
      ended. */
  ghost predicate AnyAnswer(s: State, w: nat) {
    && (At(s, w).Executing? ==> forall r, detail :: CanAct(s, w, Execute(r, detail)))
    && (At(s, w).BackingOff? ==> forall interrupted :: CanAct(s, w, Wake(interrupted)))
    && (At(s, w).Verifying? ==> forall detail, ended :: CanAct(s, w, ReadError(detail, ended)))
    && (At(s, w).Completing? ==> forall patched, now :: CanAct(s, w, Settle(patched, now)))
    && (At(s, w).MarkingRunning? ==> forall now, fault :: CanAct(s, w, RunningWrite(now, fault)))
    && (At(s, w).Announcing? ==> forall now, fault :: CanAct(s, w, Announce(now, fault)))
    && (At(s, w).Writing? ==> forall now, fault :: CanAct(s, w, TaskWrite(now, fault)))
    && (At(s, w).Finalizing? ==> forall now, fault :: CanAct(s, w, FinalWrite(now, fault)))
    && (Waiting(s, w) && ContextEnded(s, TransitionOf(s, w)) ==> CanAct(s, w, AcquireCanceled))
  }

  lemma BackendsAnswerFreely(s: State, w: nat)
    requires KnownTask(s, w)
    ensures AnyAnswer(s, w)
  {
    hide TrimSpace, Blank, ContextEnded, CanAcquire;
    BlankMeans(s.workers[w].task.bmcID);
  }

  /** The same of the writes that no worker makes; and the runner can stop at any time, once, and its queue is closed
      after that. */
  lemma StopsLikeTheRunner(s: State, id: string, now: Time, fault: Fault)
    ensures Enabled(s, FinishStep(id, now, fault)) <==> CanFinish(s, id)
    ensures Enabled(s, AbortWriteStep(id, now, fault)) <==> id in s.aborts
    ensures Enabled(s, ShutdownStep) <==> !s.shutdown
    ensures Enabled(s, CloseStep) <==> s.shutdown && !s.queueClosed
    ensures Apply(s, ShutdownStep).shutdown && Apply(s, CloseStep).queueClosed
  {
    hide NextDb, NextMade, NextPlaces, NextWork, NextCalls, NextProgress, NextClosed, NextMarkers, NextCanceled,
         NextAborts, NextQueue, NextWorkers, NextLimiters;
  }

  // ---------------------------------------------------------------- the verifier

  /** Worker `w`, whose task is in the books, waits for the power state of operation `op`: it has made `k` reads,
      none of which matched. */
  ghost predicate Waits(s: State, w: nat, op: Operation, n: nat, polls: nat, read: nat -> Verification.Read, k: nat) {
    && KnownTask(s, w) && s.limits.polls == polls && s.workers[w].item.operation == op
    && At(s, w) == Verifying(n, Verification.LastState(read, k), k)
  }

  /** The worker's verification is over. */
  predicate Ends(s: State, w: nat, n: nat, last: string, err: Option<Verification.VerifyError>) {
    && KnownTask(s, w) && At(s, w).Completing? && At(s, w).attempts == n && At(s, w).power == last
    && EndsLike(At(s, w).result, err)
  }

  /** How the engine ends a verification with result `err`. */
  predicate EndsLike(e: Ending, err: Option<Verification.VerifyError>) {
    match err
    case None => e.Success?
    case Some(x) => if x.ContextEnded? then e.CanceledBy? else e.FailedBy?
  }

  /** What a worker that reads leaves alone. */
  lemma ReadShape(s: State, w: nat, act: Action)
    requires KnownTask(s, w) && (act.Read? || act.ReadError?)
    ensures var s' := Apply(s, WorkerStep(w, act));
            && KnownTask(s', w) && s'.limits == s.limits && s'.workers[w].item == s.workers[w].item
            && At(s', w) == NextStage(s, s.workers[w], act)
  {
    hide Apply, NextStage, NextTask;
    Components(s, WorkerStep(w, act));
    hide NextDb, NextMade, NextPlaces, NextCalls, NextProgress, NextClosed, NextLimiters, NextQueue;
  }

  lemma ReadsOnce(s: State, w: nat, op: Operation, n: nat, polls: nat, read: nat -> Verification.Read, k: nat)
    returns (act: Action)
    requires Waits(s, w, op, n, polls, read, k) && k + 1 < polls && Verification.Mismatch(op, read(k).answer)
    ensures CanAct(s, w, act) && Waits(Apply(s, WorkerStep(w, act)), w, op, n, polls, read, k + 1)
  {
    hide Apply, TrimSpace, EqualFold;
    ReachesMeans(op, read(k).answer.power);
    act := Read(read(k).answer.power, false);
    ReadShape(s, w, act);
  }

  lemma {:induction false} ReadsInVain(s: State, w: nat, op: Operation, n: nat, polls: nat,
                                       read: nat -> Verification.Read, k: nat)
    returns (steps: seq<Step>, s': State)
    requires Waits(s, w, op, n, polls, read, 0) && k < polls && Verification.Missed(op, read, k)
    ensures |steps| == k && Continues(s, steps, s') && Waits(s', w, op, n, polls, read, k)
    decreases k
  {
    hide Continues, Waits, CanAct, Apply, Verification.Mismatch;
    if k == 0 {
      steps, s' := [], s;
      NoStep(s, s);
    } else {
      var before: State;
      steps, before := ReadsInVain(s, w, op, n, polls, read, k - 1);
      var act := ReadsOnce(before, w, op, n, polls, read, k - 1);
      OneStepMore(s, steps, before, WorkerStep(w, act));
      steps, s' := steps + [WorkerStep(w, act)], Apply(before, WorkerStep(w, act));
    }
  }

  lemma LastRead(s: State, w: nat, op: Operation, n: nat, polls: nat, read: nat -> Verification.Read, last: string,
                 err: Option<Verification.VerifyError>, k: nat)
    returns (act: Action)
    requires Waits(s, w, op, n, polls, read, k) && !op.Other?
    requires Verification.Polled(op, read, last, err, k + 1)
    ensures CanAct(s, w, act) && Ends(Apply(s, WorkerStep(w, act)), w, n, last, err)
  {
    hide Apply, TrimSpace, EqualFold;
    var answer := read(k).answer;
    ReachesMeans(op, if answer.State? then answer.power else "");
    act := if answer.State? then Read(answer.power, err.Some?)
           else ReadError("", err == Some(Verification.ContextEnded));
    ReadShape(s, w, act);
  }

  /** With `polls` as many reads as fit into the window, whatever the verifier's loop returns after `k` reads, the
      engine reaches by `k` steps of the worker, with the same last state and the ending that the error stands for. */
  lemma EngineVerifies(s: State, w: nat, op: Operation, n: nat, window: int, poll: int, read: nat -> Verification.Read,
                       last: string, err: Option<Verification.VerifyError>, k: nat)
    returns (steps: seq<Step>, s': State)
    requires poll > 0 && 0 < k <= Verification.MostReads(window, poll)
    requires Waits(s, w, op, n, Verification.MostReads(window, poll), read, 0) && !op.Other?
    requires Verification.Polled(op, read, last, err, k)
    ensures |steps| == k && Continues(s, steps, s') && Ends(s', w, n, last, err)
  {
    hide Continues, Waits, Ends, CanAct, Apply, Verification.Mismatch, Verification.Match,
         Verification.LastState;
    var before: State;
    steps, before := ReadsInVain(s, w, op, n, Verification.MostReads(window, poll), read, k - 1);
    var act := LastRead(before, w, op, n, Verification.MostReads(window, poll), read, last, err, k - 1);
    OneStepMore(s, steps, before, WorkerStep(w, act));
    steps, s' := steps + [WorkerStep(w, act)], Apply(before, WorkerStep(w, act));
  }
}
