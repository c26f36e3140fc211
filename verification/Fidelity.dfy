/** What the task table and the outbox say about a task in the end, and what that rests on: from the mapping a request
    was planned with to the calls the executor gets, and from the executor's answers to the outcome that is counted. */
module Fidelity {
  import opened Text
  import opened Records
  import opened PowerStates
  import opened Retry
  import opened Planning
  import opened TransitionStore
  import opened OutboxReplay
  import opened Engine
  import opened Placement
  import Ledger
  import Sections
  import opened Evidence
  import opened Trails
  import opened EngineInvariant
  import opened Creation
  import opened EngineRuns
  import opened Lifecycles
  import opened ExactReplay

  // ---------------------------------------------------------------- row and result

  /** The row of task `t` and its one result agree on every stored column. */
  ghost predicate PublishedAsStored(s: State, t: string) {
    && t in s.db.tasks && Results(s.db.outbox, t) == [s.db.tasks[t].state]
    && t in ReplayedResults(s.db.outbox) && Columns(ReplayedResults(s.db.outbox)[t]) == s.db.tasks[t]
  }

  /** The row of task `t` is terminal. */
  predicate RowEnds(s: State, t: string) {
    t in s.db.tasks && Terminal(s.db.tasks[t].state)
  }

  /** A task is published exactly when its row is terminal, once, with the row as the result; and an executable one
      exactly when the last write of its row was saved. Until then nothing is published. */
  lemma ResultOnce(l: Limits, steps: seq<Step>, s: State, t: string)
    requires ValidLimits(l) && Run(l, steps, s) && t in s.made
    ensures if RowEnds(s, t) then PublishedAsStored(s, t) else Results(s.db.outbox, t) == []
    ensures Executable(s, t) ==> (RowEnds(s, t) <==> WorkOn(s.work, t).recorded.Saved?)
  {
    hide Run, Inv, Results, RowOK, ReplayedResults, Replayed, Columns, TidyRoute, DutyOK, Routed, SameKeys;
    RunInv(l, steps, s);
    ReplayInEveryRun(l, steps, s);
    Facts(s, t);
    SavedRowFacts(s, t);
    ColumnsKeep(s.made[t].task);
  }

  lemma ColumnsKeep(t: Task)
    ensures Columns(t).state == t.state
  {
  }

  /** The row of a counted task, by whether its last write was saved. */
  ghost predicate CountedRow(s: State, t: string) {
    && t in s.db.tasks && t in s.work && t in s.places && s.places[t].Done? && !s.work[t].recorded.Untried?
    && (s.places[t].outcome.Succeeded? || s.places[t].outcome.Failed? || s.places[t].outcome.Canceled?)
    && if s.work[t].recorded.Saved? then
         var row := s.db.tasks[t];
         && row.state == s.places[t].outcome && row.attemptCount == |s.work[t].calls| && row.completedAt.Some?
         && PublishedAsStored(s, t)
       else !RowEnds(s, t) && Results(s.db.outbox, t) == []
  }

  /** An executable task is counted only after the last write of its row was tried, succeeded, failed or canceled. If
      the write was saved, the row and the result carry the counted outcome, the number of attempts made and a
      completion time; otherwise the row is not terminal and nothing is published. */
  lemma CountedAsWritten(l: Limits, steps: seq<Step>, s: State, t: string)
    requires ValidLimits(l) && Run(l, steps, s) && Executable(s, t) && CountedTask(s, t)
    ensures CountedRow(s, t)
  {
    hide Run, Inv, Results, DutyOK, Routed, TidyRoute, Proven, PublishedOK, SameRoute, PublishedAsStored;
    RunInv(l, steps, s);
    Facts(s, t);
    SavedRowFacts(s, t);
    ResultOnce(l, steps, s, t);
  }

  /** Task `t` was taken from the queue when its transition's context had ended. */
  predicate Late(s: State, t: string) {
    t in s.work && s.work[t].late
  }

  ghost predicate NeverExecuted(s: State, t: string) {
    && t in s.work && s.work[t].requests == []
    && t in s.places && (s.places[t].Done? ==> s.places[t].outcome == Canceled)
    && t in s.db.tasks
    && (RowEnds(s, t) ==>
          s.db.tasks[t].state.Canceled? && s.db.tasks[t].attemptCount == 0 && PublishedAsStored(s, t))
  }

  /** A task whose transition had been aborted, or whose runner was shutting down, when a worker took it from the queue
      never reaches the executor; its row and its result, if they are written, say canceled after 0 attempts, and so
      does the count. */
  lemma LateNeverExecutes(l: Limits, steps: seq<Step>, s: State, t: string)
    requires ValidLimits(l) && Run(l, steps, s) && t in s.made && Late(s, t)
    ensures NeverExecuted(s, t)
  {
    hide Run, Inv, Results, TidyRoute, Proven, PublishedOK, SameRoute, Reached, PublishedAsStored;
    RunInv(l, steps, s);
    Facts(s, t);
    SavedRowFacts(s, t);
    ResultOnce(l, steps, s, t);
  }

  // ---------------------------------------------------------------- a transition whose context has ended

  /** The step ends the execution context of transition `id`: an abort, a call that gives up, or the shutdown. */
  predicate Cancels(step: Step, id: string) {
    (step.AbortStep? && step.id == id) || (step.EnqueueFailStep? && step.id == id) || step.ShutdownStep?
  }

  function TransitionOfTask(s: State, t: string): string {
    if t in s.made then s.made[t].task.transitionID else ""
  }

  function HolderStage(s: State, t: string): Stage {
    if t in s.places && s.places[t].Held? then At(s, s.places[t].worker) else Releasing
  }

  /** No worker has looked at the context of task `t` yet. */
  predicate Unchecked(s: State, t: string) {
    && t in s.places
    && (s.places[t].Waiting? || s.places[t].Queued? || s.places[t].Dropped?
        || (s.places[t].Held? && (HolderStage(s, t).Fetched? || HolderStage(s, t).MarkingRunning? ||
                                    HolderStage(s, t).Marked?)))
  }

  predicate EndedFor(s: State, t: string) {
    t in s.made && ContextEnded(s, s.made[t].task.transitionID)
  }

  /** Between the check of the context and the end of verification. */
  predicate Underway(at: Stage) {
    at.Announcing? || at.Acquiring? || at.Executing? || at.BackingOff? || at.Verifying?
  }

  predicate Ending(at: Stage) {
    at.Completing? || at.Writing? || at.Recording?
  }

  /** The context has ended and the task has not been executed, and is not about to be. */
  predicate Cold(s: State, t: string) {
    EndedFor(s, t) && WorkOn(s.work, t).calls == [] && !Underway(HolderStage(s, t))
  }

  /** If task `t` ends, or has ended, without being executed, its context has ended. */
  predicate Explained(s: State, t: string) {
    WorkOn(s.work, t).calls == [] && (CountedTask(s, t) || Ending(HolderStage(s, t))) ==> EndedFor(s, t)
  }

  /** Both survive the change from `s` to `s'`. */
  predicate FateKept(s: State, s': State, t: string) {
    (Cold(s, t) ==> Cold(s', t)) && (Explained(s, t) ==> Explained(s', t))
  }

  lemma UnmovedFate(s: State, s': State, t: string)
    requires TaskOK(s, t) && Unmoved(s, s', t)
    ensures FateKept(s, s', t)
  {
    hide RestOK, DutyOK;
  }

  lemma HeadFate(s: State, w: nat)
    requires Placed(s) && CanDequeue(s, w) && TaskOK(s, Subject(s, w, Dequeue))
    ensures FateKept(s, Apply(s, WorkerStep(w, Dequeue)), Subject(s, w, Dequeue))
  {
    hide NextDb, NextCalls, NextProgress, NextClosed, NextMarkers, NextAborts, NextQueue, NextLimiters, StageOK, RestOK,
         Placed;
    HeadOfQueue(s);
  }

  /** A worker goes on to execute its task only if the context has not ended, and ends it unexecuted only if it has. */
  lemma StageFate(s: State, w: nat, act: Action, m: Made, k: Work)
    requires CanAct(s, w, act) && IsBusy(s, w) && DutyOK(s.limits, s.workers[w], m, k)
    ensures var wk := s.workers[w];
            var at', k' := NextStage(s, wk, act), NextNote(s, wk, k, act);
            && (ContextEnded(s, wk.item.transitionID) && k.calls == [] && !Underway(wk.at) ==>
                  k'.calls == [] && !Underway(at'))
            && (k'.calls == [] && Ending(at') && !Ending(wk.at) ==> ContextEnded(s, wk.item.transitionID))
            && (k'.calls == [] ==> k.calls == [])
  {
    hide UpdateTask, SavedRow, SMDAnswer, RowOK, Reached, SameRoute, ContextEnded, SettledRow, TrimSpace, EqualFold;
  }

  lemma OwnFate(s: State, w: nat, act: Action)
    requires Placed(s) && CanAct(s, w, act) && TaskOK(s, TaskOf(s, w)) && Working(s, w)
    ensures FateKept(s, Apply(s, WorkerStep(w, act)), TaskOf(s, w))
  {
    hide Apply, DutyOK, RestOK, Placed, Known, CanAct, NextNote, GivesUpTask, NextStage, NextTask, ContextEnded;
    var t := TaskOf(s, w);
    Own(s, w);
    KnownKeys(s.made, s.workers[w].item);
    Evidence.Announcing(s, w, act);
    OwnHandled(s, w, act);
    StageFate(s, w, act, s.made[t], s.work[t]);
    Recorded(s, w, act);
  }

  /** A task is counted by a worker that is recording it. */
  lemma Recorded(s: State, w: nat, act: Action)
    requires CanAct(s, w, act)
    ensures act.Record? ==> At(s, w).Recording?
  {
  }

  lemma CallFate(s: State, step: Step, t: string)
    requires Placed(s) && Enabled(s, step) && !step.CreateStep? && !step.WorkerStep? && TaskOK(s, t)
    ensures FateKept(s, Apply(s, step), t)
  {
    hide NextDb, NextPlaces, NextCalls, NextProgress, NextClosed, NextMarkers, NextAborts, NextQueue, NextLimiters,
         Placed, RestOK, DutyOK;
    CallPlaces(s, step, t);
  }

  lemma CreateFate(s: State, step: Step, t: string)
    requires Inv(s) && Enabled(s, step) && step.CreateStep? && t in s.made
    ensures FateKept(s, Apply(s, step), t)
  {
    hide Inv, Apply, Enabled, NextDb, NextMade, NextPlaces, NextWork, NextCalls, NextProgress, NextClosed, NextMarkers,
         NextAborts, NextQueue, NextLimiters, Results;
    CreateKeeps(s, step, t);
    CreateLeaves(s, step);
  }

  lemma CreateLeaves(s: State, step: Step)
    requires step.CreateStep?
    ensures var s' := Apply(s, step);
            s'.workers == s.workers && s'.canceled == s.canceled && s'.shutdown == s.shutdown
  {
    hide NextDb, NextMade, NextPlaces, NextWork, NextCalls, NextProgress, NextClosed, NextMarkers, NextAborts,
         NextQueue, NextLimiters;
  }

  lemma WorkerFate(s: State, w: nat, act: Action, t: string)
    requires Placed(s) && CanAct(s, w, act) && TaskOK(s, t)
    ensures FateKept(s, Apply(s, WorkerStep(w, act)), t)
  {
    hide Apply, Placed, TaskOK, FateKept;
    if NotAbout(s, w, act, t) {
      OtherUnmoved(s, w, act, t);
      UnmovedFate(s, Apply(s, WorkerStep(w, act)), t);
    } else if act.Dequeue? {
      HeadFate(s, w);
      assert WorkerStep(w, act) == WorkerStep(w, Dequeue);
    } else {
      OwnsStill(s, w, act);
      OwnFate(s, w, act);
    }
  }

  lemma StepFate(s: State, step: Step, t: string)
    requires Inv(s) && Enabled(s, step) && t in s.made
    ensures FateKept(s, Apply(s, step), t)
  {
    hide Inv, Sound, Apply, Placed, Ledger.Counts, Evident, Stored, Ordered, Published, Logged, TaskOK, CanAct,
         FateKept, PublishedOK;
    Parts(s);
    Facts(s, t);
    if step.CreateStep? {
      CreateFate(s, step, t);
    } else if step.WorkerStep? {
      WorkerFate(s, step.w, step.act, t);
      assert step == WorkerStep(step.w, step.act);
    } else {
      CallFate(s, step, t);
    }
  }

  lemma {:induction false} ColdForever(s: State, steps: seq<Step>, s': State, t: string)
    requires Inv(s) && Continues(s, steps, s') && Cold(s, t)
    ensures Cold(s', t)
    decreases |steps|
  {
    hide Inv, Apply, Enabled, Continues, Cold, Explained;
    if steps == [] {
      NoStep(s, s');
    } else {
      var front, before, step := LastStep(s, steps, s');
      ColdForever(s, front, before, t);
      ContinuedInv(s, front, before);
      ColdKnown(before, t);
      StepFate(before, step, t);
    }
  }

  lemma ColdKnown(s: State, t: string)
    requires Cold(s, t)
    ensures t in s.made
  {
  }

  /** Ending the context before a worker has looked at it makes the task cold. */
  lemma Chills(s: State, step: Step, t: string)
    requires Inv(s) && Enabled(s, step) && t in s.made && Cancels(step, TransitionOfTask(s, t)) && Unchecked(s, t)
    ensures Cold(Apply(s, step), t)
  {
    hide Inv, Sound, Apply, Placed, Ledger.Counts, Evident, Stored, Ordered, Published, Logged, TaskOK, PublishedOK,
         Enabled;
    Parts(s);
    Facts(s, t);
    UncheckedUncalled(s, t);
    CallPlaces(s, step, t);
    Components(s, step);
    CanceledStep(s, step, TransitionOfTask(s, t));
    hide NextDb, NextPlaces, NextCalls, NextProgress, NextClosed, NextQueue, NextLimiters;
  }

  lemma UncheckedUncalled(s: State, t: string)
    requires TaskOK(s, t) && Unchecked(s, t)
    ensures WorkOn(s.work, t).calls == []
  {
    hide RowOK, SameRoute, TidyRoute, Routed;
  }

  /** A cold task was never requested; it is counted and stored as canceled after 0 attempts, if it is. */
  lemma ColdMeans(l: Limits, run: seq<Step>, s: State, t: string)
    requires ValidLimits(l) && Run(l, run, s) && Cold(s, t) && Executable(s, t)
    ensures NeverExecuted(s, t)
  {
    hide Run, Inv, Results, TidyRoute, Proven, PublishedOK, SameRoute, Reached, PublishedAsStored;
    RunInv(l, run, s);
    Facts(s, t);
    SavedRowFacts(s, t);
    ResultOnce(l, run, s, t);
  }

  /** Once a transition is aborted, its call has given up, or the runner shuts down, no task of it whose context no
      worker has looked at yet is ever executed: whatever follows, the executor gets no request for it, and it is
      counted, stored and published as canceled after 0 attempts, if it is. */
  lemma CanceledNeverExecutes(l: Limits, run: seq<Step>, s: State, step: Step, steps: seq<Step>, s': State, t: string)
    requires ValidLimits(l) && Run(l, run, s) && Enabled(s, step) && Continues(Apply(s, step), steps, s')
    requires Executable(s, t) && Cancels(step, TransitionOfTask(s, t)) && Unchecked(s, t)
    ensures Executable(s', t) && NeverExecuted(s', t)
  {
    hide Run, Inv, Apply, Enabled, Continues, Cancels, Unchecked, Cold, NeverExecuted, Executable, TransitionOfTask;
    RunInv(l, run, s);
    ExecutableKnown(s, t);
    Chills(s, step, t);
    StepInv(s, step);
    ColdForever(Apply(s, step), steps, s', t);
    RunGoesOn(l, run, s, step, steps, s');
    StepKeepsTask(s, step, t);
    TaskStays(Apply(s, step), steps, s', t);
    SameExecutable(s, Apply(s, step), s', t);
    ColdMeans(l, run + [step] + steps, s', t);
  }

  lemma ExecutableKnown(s: State, t: string)
    requires Executable(s, t)
    ensures t in s.made
  {
  }

  lemma SameExecutable(s: State, s1: State, s2: State, t: string)
    requires Executable(s, t) && SameTask(s, s1, t) && SameTask(s1, s2, t)
    ensures Executable(s2, t)
  {
  }

  lemma RunGoesOn(l: Limits, run: seq<Step>, s: State, step: Step, steps: seq<Step>, s': State)
    requires Run(l, run, s) && Enabled(s, step) && Continues(Apply(s, step), steps, s')
    ensures Run(l, run + [step] + steps, s')
  {
    hide Enabled, Apply, Continues, Init;
    OneStepMore(Init(l), run, s, step);
    RunsOn(l, run + [step], Apply(s, step), steps, s');
  }

  /** The context of a transition has been canceled if and only if it was aborted, its call gave up, or it is closed. */
  lemma {:induction false} CanceledExactly(l: Limits, steps: seq<Step>, s: State, id: string)
    requires Run(l, steps, s)
    ensures id in s.canceled <==>
            id in s.closed || exists step :: step in steps && !step.ShutdownStep? && Cancels(step, id)
    decreases |steps|
  {
    hide Apply, Enabled, Continues, Cancels;
    if steps == [] {
      NoStep(Init(l), s);
    } else {
      hide Init;
      var front, before, step := LastStep(Init(l), steps, s);
      CanceledExactly(l, front, before, id);
      CanceledStep(before, step, id);
    }
  }

  /** The step closes transition `id`. */
  predicate ClosesNow(s: State, step: Step, id: string) {
    && step.WorkerStep? && step.act.Record? && TransitionOf(s, step.w) == id
    && Sections.FinalOf(s.progress, id, OutcomeAt(At(s, step.w)), step.act.now).Some?
  }

  lemma CanceledStep(s: State, step: Step, id: string)
    ensures var s' := Apply(s, step);
            && (id in s'.closed <==> id in s.closed || ClosesNow(s, step, id))
            && (id in s'.canceled <==>
                  id in s.canceled || ClosesNow(s, step, id) || (!step.ShutdownStep? && Cancels(step, id)))
  {
    hide NextDb, NextMade, NextPlaces, NextWork, NextCalls, NextProgress, NextMarkers, NextAborts, NextQueue,
         NextWorkers, NextLimiters, Sections.FinalOf, Sections.Closed, Sections.Counted;
  }

  lemma NewExplained(s: State, step: Step, t: string)
    requires Inv(s) && Enabled(s, step) && t !in s.made && Executable(Apply(s, step), t)
    ensures Explained(Apply(s, step), t)
  {
    hide Inv, Apply, Enabled, PublishedOK, DutyOK, SameRoute, TidyRoute, Routed, Proven;
    StepInv(s, step);
    Facts(Apply(s, step), t);
    SameMade(s, step);
    if step.CreateStep? {
      CreateKeeps(s, step, t);
    }
  }

  /** A task that is counted without having been executed was canceled with its context: its transition was aborted, its
      call gave up, or the runner is shutting down. */
  lemma {:induction false} UnexecutedMeans(l: Limits, steps: seq<Step>, s: State, t: string)
    requires ValidLimits(l) && Run(l, steps, s) && Executable(s, t)
    ensures Explained(s, t)
    decreases |steps|
  {
    hide Apply, Enabled, Inv, Continues, Explained, Cold;
    if steps == [] {
      NoStep(Init(l), s);
    } else {
      hide Init;
      var front, before, step := LastStep(Init(l), steps, s);
      RunInv(l, front, before);
      if t in before.made {
        StepKeepsTask(before, step, t);
        UnexecutedMeans(l, front, before, t);
        StepFate(before, step, t);
      } else {
        NewExplained(before, step, t);
      }
    }
  }

  // ---------------------------------------------------------------- where a task comes from

  /** Task `t` was planned with `routing`'s mapping of `node`. */
  predicate MappedBy(routing: Routing, node: string, t: Task) {
    && node !in routing.missing && node in routing.mappings
    && var m := routing.mappings[node];
    && t.bmcID == TrimSpace(m.bmcID) && t.bmcEndpoint == TrimSpace(m.endpoint)
    && t.credentialID == TrimSpace(m.credentialID) && t.insecureSkipVerify == m.insecureSkipVerify
  }

  /** Why node `node` gets a failed task. */
  function FailureOf(routing: Routing, node: string): string {
    if node in routing.missing then routing.missing[node].detail else MissingNode(node).detail
  }

  /** Task `m` is the one that call `step` planned for its `i`-th node. */
  ghost predicate PlannedBy(step: Step, i: nat, m: Made) {
    && step.CreateStep? && i < |step.nodeIDs| && m.operation == step.req.operation && m.task.dryRun == step.req.dryRun
    && m.task.nodeID == TrimSpace(step.nodeIDs[i]) && m.task.operation == TrimSpace(OperationName(step.req.operation))
    && (Unroutable(step.routing, step.nodeIDs[i]) ==>
          m.task.state.Failed? && m.task.errorDetail == TrimSpace(FailureOf(step.routing, step.nodeIDs[i])))
    && (m.task.state.Pending? <==> !step.req.dryRun && !Unroutable(step.routing, step.nodeIDs[i]))
    && (m.task.state.Planned? <==> step.req.dryRun && !Unroutable(step.routing, step.nodeIDs[i]))
    && (!Unroutable(step.routing, step.nodeIDs[i]) ==> MappedBy(step.routing, step.nodeIDs[i], m.task))
  }

  lemma PlannedTask(routing: Routing, node: string, op: Operation, dryRun: bool, now: Time, id: string, uuid: Uuid)
    ensures var t := NewTask(PlanTask(routing, node, op, dryRun, now), id, uuid, now);
            && t.dryRun == dryRun && t.nodeID == TrimSpace(node) && t.operation == TrimSpace(OperationName(op))
            && (Unroutable(routing, node) ==>
                  t.state.Failed? && t.errorDetail == TrimSpace(FailureOf(routing, node)))
            && (t.state.Pending? <==> !dryRun && !Unroutable(routing, node))
            && (t.state.Planned? <==> dryRun && !Unroutable(routing, node))
            && (!Unroutable(routing, node) ==> MappedBy(routing, node, t))
  {
    hide TrimSpace, MissingNode, OperationName;
    if !Unroutable(routing, node) {
      var m := routing.mappings[node];
      assert TrimSpace(TrimSpace(m.bmcID)) == TrimSpace(m.bmcID) &&
             TrimSpace(TrimSpace(m.endpoint)) == TrimSpace(m.endpoint);
    }
  }

  lemma CreatedAt(s: State, step: Step, row: Transition, news: seq<Task>, n: Task) returns (i: nat)
    requires Creates(s, step, row, news) && n in news
    ensures step.CreateStep? && PlannedBy(step, i, Made(n, step.req.operation))
  {
    hide Born, RowOf, AsPlanned, PlanTask, NewTask, NewTasks, MappedBy, Unroutable, Tidy, FirstCall, Apply;
    i :| 0 <= i < |news| && news[i] == n;
    NewTaskTidy(TasksOf(step), row.id, step.ids, step.now, i);
    PlannedTask(step.routing, step.nodeIDs[i], step.req.operation, step.req.dryRun, step.now, row.id, step.ids[i]);
  }

  /** The creation step `step` of state `s` adds task `t`, planned for its `i`-th node. */
  ghost predicate Adds(s: State, step: Step, s': State, t: string, i: nat) {
    t !in s.made && t in s'.made && PlannedBy(step, i, s'.made[t])
  }

  lemma StepAdds(s: State, step: Step, t: string) returns (i: nat)
    requires Inv(s) && Enabled(s, step) && t !in s.made && t in Apply(s, step).made
    ensures Adds(s, step, Apply(s, step), t, i)
  {
    hide Inv, Sound, Placed, Stored, Ordered, Logged, Apply, Enabled, Created, PlannedBy, NewTasksIn, Unheard, NewCall,
         RowOf, AsPlanned, Elsewhere, TasksOf, FirstCall, RowAt, GoodTask, Results, TrailOf;
    Parts(s);
    SameMade(s, step);
    if Created(s, step).None? {
      NothingCreated(s, step);
    }
    var (row, news) := Created(s, step).value;
    CreationStep(s, step, row, news);
    var n := Appears(s, Apply(s, step), row.id, step.req.operation, news, t);
    i := CreatedAt(s, step, row, news, n);
  }

  /** On the way exactly that step brought task `t` that planned it, for one of its nodes. */
  ghost predicate Planned(steps: seq<Step>, states: seq<State>, t: string, m: Made) {
    && |states| == |steps| + 1
    && exists k, i :: 0 <= k < |steps| && 0 <= i && t !in states[k].made && t in states[k + 1].made &&
         PlannedBy(steps[k], i, m)
  }

  lemma PlannedLater(steps: seq<Step>, states: seq<State>, step: Step, s': State, t: string, m: Made)
    requires Planned(steps, states, t, m)
    ensures Planned(steps + [step], states + [s'], t, m)
  {
    hide PlannedBy;
    var all, after := steps + [step], states + [s'];
    var k, i :| 0 <= k < |steps| && 0 <= i && t !in states[k].made && t in states[k + 1].made &&
      PlannedBy(steps[k], i, m);
    assert after[k] == states[k] && after[k + 1] == states[k + 1] && PlannedBy(all[k], i, m);
  }

  lemma PlannedNow(steps: seq<Step>, states: seq<State>, s: State, step: Step, s': State, t: string, i: nat)
    requires |states| == |steps| && Adds(s, step, s', t, i)
    ensures Planned(steps + [step], states + [s] + [s'], t, s'.made[t])
  {
    hide PlannedBy;
    var n, all, after := |steps|, steps + [step], states + [s] + [s'];
    assert after[n] == s && after[n + 1] == s' && PlannedBy(all[n], i, s'.made[t]);
  }

  /** Every task the engine knows at the end of a run was planned by the StartTransition call that brought it, for one
      of its nodes. */
  ghost predicate AllPlanned(s: State, steps: seq<Step>, states: seq<State>) {
    forall t :: t in s.made ==> Planned(steps, states, t, s.made[t])
  }

  lemma {:induction false} TasksArePlanned(l: Limits, steps: seq<Step>, states: seq<State>)
    requires ValidLimits(l) && Course(l, steps, states)
    ensures AllPlanned(EndOf(l, states), steps, states)
    decreases |steps|
  {
    hide Inv, Course, Enabled, Apply, Planned, Run, Adds;
    CourseRun(l, steps, states);
    if steps != [] {
      hide EndOf, Init;
      var front, before, step := CourseStep(l, steps, states);
      TasksArePlanned(l, front, before);
      CourseRun(l, front, before);
      var s, s' := EndOf(l, before), EndOf(l, states);
      RunInv(l, front, s);
      Whole(l, before);
      forall t | t in s'.made ensures Planned(steps, states, t, s'.made[t]) {
        if t in s.made {
          StepKeepsTask(s, step, t);
          PlannedLater(front, before, step, s', t, s.made[t]);
        } else {
          var i := StepAdds(s, step, t);
          PlannedNow(front, before[..|front|], s, step, s', t, i);
        }
      }
    }
  }

  /** The row of task `t` names the task as it was created. */
  predicate RowNames(s: State, t: string) {
    t in s.made && t in s.db.tasks && SameKeys(s.db.tasks[t], s.made[t].task)
  }

  /** Whatever was written, in every reachable state the row of a task says which task it is: its transition, node,
      route, operation and times of creation, without the credential and the TLS flag. */
  lemma RowsNameTasks(l: Limits, steps: seq<Step>, s: State, t: string)
    requires ValidLimits(l) && Run(l, steps, s) && t in s.made
    ensures RowNames(s, t)
  {
    hide Run, Inv, TaskOK, Results, SameKeys;
    RunInv(l, steps, s);
    Facts(s, t);
  }

  // ---------------------------------------------------------------- what the executor is asked

  /** Request `r` is what call `step` resolved for its `i`-th node. */
  ghost predicate Asked(step: Step, i: nat, r: ExecutionRequest) {
    && step.CreateStep? && i < |step.nodeIDs|
    && var node := step.nodeIDs[i];
    && node !in step.routing.missing && node in step.routing.mappings
    && var m := step.routing.mappings[node];
    && r.nodeID == TrimSpace(node) && r.bmcID == TrimSpace(m.bmcID) && r.endpoint == TrimSpace(m.endpoint)
    && r.credentialID == TrimSpace(m.credentialID) && r.insecureSkipVerify == m.insecureSkipVerify
    && r.operation == step.req.operation
  }

  /** Request `r` for task `t` is what the call that brought the task resolved for the task's node. */
  ghost predicate AskedByOwner(steps: seq<Step>, states: seq<State>, t: string, r: ExecutionRequest) {
    && |states| == |steps| + 1
    && exists k, i :: 0 <= k < |steps| && 0 <= i && t !in states[k].made && t in states[k + 1].made &&
         Asked(steps[k], i, r)
  }

  /** Each request made for task `t` names the task, its transition and what its own call resolved. */
  ghost predicate RoutedByOwner(s: State, steps: seq<Step>, states: seq<State>, t: string) {
    t in s.made && t in s.work ==>
      forall j :: 0 <= j < |s.work[t].requests| ==>
        var r := s.work[t].requests[j];
        && r.taskID == t && r.transitionID == s.made[t].task.transitionID && r.nodeID == s.made[t].task.nodeID
        && AskedByOwner(steps, states, t, r)
  }

  lemma PlannedAsked(step: Step, i: nat, m: Made)
    requires PlannedBy(step, i, m) && m.task.state.Pending?
    ensures Asked(step, i, RequestFor(m.task.transitionID, m.task, m.operation))
  {
    hide TrimSpace;
  }

  lemma OwnerAsked(steps: seq<Step>, states: seq<State>, t: string, m: Made)
    requires Planned(steps, states, t, m) && m.task.state.Pending?
    ensures AskedByOwner(steps, states, t, RequestFor(m.task.transitionID, m.task, m.operation))
  {
    hide PlannedBy, Asked, RequestFor;
    var k, i :| 0 <= k < |steps| && 0 <= i && t !in states[k].made && t in states[k + 1].made &&
      PlannedBy(steps[k], i, m);
    PlannedAsked(steps[k], i, m);
  }

  /** Routing fidelity: every request the executor gets for a task names the task's transition and node, and the
      endpoint, the credential and the TLS flag of the mapping that the task's own StartTransition call resolved for the
      node, although the task's row stores neither of the last two. */
  lemma RoutingFidelity(l: Limits, steps: seq<Step>, states: seq<State>, t: string)
    requires ValidLimits(l) && Course(l, steps, states)
    ensures RoutedByOwner(EndOf(l, states), steps, states, t)
  {
    hide Inv, Course, EndOf, Run, Planned, AskedByOwner, DutyOK, RowOK, TidyRoute, PublishedOK;
    CourseRun(l, steps, states);
    var s := EndOf(l, states);
    RunInv(l, steps, s);
    TasksArePlanned(l, steps, states);
    if t in s.made {
      Facts(s, t);
      if s.made[t].task.state.Pending? {
        OwnerAsked(steps, states, t, s.made[t]);
      }
    }
  }

  // ---------------------------------------------------------------- what a success rests on

  ghost predicate WithinPolicy(attempts: int, calls: seq<CallResult>) {
    |calls| <= attempts && (calls != [] ==> AllRetryable(calls[..|calls| - 1]))
  }

  /** The calls made for a counted task follow the retry policy: at most `attempts`, and all but the last failed in a
      way that may be retried. */
  lemma CallsWithinPolicy(l: Limits, steps: seq<Step>, s: State, t: string)
    requires ValidLimits(l) && Run(l, steps, s) && t in s.made && CountedTask(s, t)
    ensures WithinPolicy(l.attempts, WorkOn(s.work, t).calls)
  {
    hide Run, Inv, PublishedOK, DutyOK, Proven, TidyRoute, SameRoute;
    RunInv(l, steps, s);
    Facts(s, t);
  }

  /** The outcome of an executable task follows from the executor's answers unless the last one was a success: canceled
      if there was none or the context ended, failed if the last was final or the attempts were used up. */
  lemma OutcomeFollowsCalls(l: Limits, steps: seq<Step>, s: State, t: string)
    requires ValidLimits(l) && Run(l, steps, s) && Executable(s, t) && CountedTask(s, t)
    ensures Verdict(l.attempts, WorkOn(s.work, t).calls, OutcomeOf(s, t))
  {
    hide Run, Inv, PublishedOK, DutyOK, Proven, TidyRoute, SameRoute;
    RunInv(l, steps, s);
    Facts(s, t);
  }

  function OutcomeOf(s: State, t: string): TaskState {
    if CountedTask(s, t) then s.places[t].outcome else Pending
  }

  /** The executor's last call for the task succeeded, `power` says "On" after an operation that turns the node on and
      "Off" after one that turns it off, and SMD, if it is to be told, accepted "Ready" or "Off", whichever belongs to
      it. */
  ghost predicate Verified(s: State, t: string, power: string) {
    && t in s.made && t in s.work
    && var op := s.made[t].operation;
    && LastOk(s.work[t].calls)
    && ((TurnsOn(op) && SaysOn(power)) || (TurnsOff(op) && SaysOff(power)))
    && (s.limits.updater && !s.made[t].task.dryRun ==>
          s.work[t].patched == Some(if TurnsOn(op) then "Ready" else "Off"))
  }

  lemma ProvenIsVerified(s: State, t: string, power: string)
    requires TaskFacts(s, t) && Proven(s.limits, s.made[t], s.work[t], power)
    ensures Verified(s, t, power)
  {
    hide ComponentState, EqualFold, ExpectedState, TaskOK, PublishedOK, TurnsOn, TurnsOff, SaysOn, SaysOff, TrimSpace;
    assert TrimSpace(power) == power;
    ReachesMeans(s.made[t].operation, power);
  }

  /** The row of task `t` says succeeded, with power state `power`. */
  predicate StoredSuccess(s: State, t: string, power: string) {
    t in s.made && t in s.db.tasks && s.db.tasks[t].state.Succeeded? && s.db.tasks[t].finalPowerState == power
  }

  /** A row says succeeded, and a result does, only with a power state that was verified. */
  lemma SuccessEvidence(l: Limits, steps: seq<Step>, s: State, t: string, power: string)
    requires ValidLimits(l) && Run(l, steps, s) && StoredSuccess(s, t, power)
    ensures Verified(s, t, power) && PublishedAsStored(s, t)
  {
    hide Run, Inv, DutyOK, TidyRoute, SameRoute, Proven, Verified, PublishedAsStored, Results, Routed;
    RunInv(l, steps, s);
    Facts(s, t);
    SavedRowFacts(s, t);
    ProvenIsVerified(s, t, power);
    ResultOnce(l, steps, s, t);
  }

  /** The row with which task `t` was to be completed says `power`. */
  predicate ReportedPower(s: State, t: string, power: string) {
    t in s.work && s.work[t].row.Some? && s.work[t].row.value.finalPowerState == power
  }

  /** So does the count, whether or not the row could be written. */
  lemma CountedSuccess(l: Limits, steps: seq<Step>, s: State, t: string) returns (power: string)
    requires ValidLimits(l) && Run(l, steps, s) && CountedTask(s, t) && OutcomeOf(s, t).Succeeded?
    ensures ReportedPower(s, t, power) && Verified(s, t, power)
  {
    hide Run, Inv, PublishedOK, DutyOK, TidyRoute, SameRoute, Proven, Verified;
    RunInv(l, steps, s);
    Facts(s, t);
    power := s.work[t].row.value.finalPowerState;
    ProvenIsVerified(s, t, power);
  }
}
