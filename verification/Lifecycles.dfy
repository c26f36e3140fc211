/** The life of one task: what a step does to its place, the record of its writes and its row; which states its row goes
    through along a run; and that it is counted or lost once and for all. */
module Lifecycles {
  import opened Text
  import opened Records
  import opened TransitionStore
  import opened OutboxReplay
  import opened Sections
  import opened Engine
  import opened Placement
  import opened Ledger
  import opened Evidence
  import opened Trails
  import opened EngineInvariant
  import opened EngineSteps
  import opened Creation
  import opened EngineRuns

  // ---------------------------------------------------------------- old and new tasks

  /** What the invariant says of one task. */
  ghost predicate TaskFacts(s: State, t: string) {
    && t in s.made && t in s.places && t in s.work && t in s.db.tasks && s.made[t].task.id == t
    && TaskOK(s, t) && PublishedOK(s, t)
  }

  lemma Facts(s: State, t: string)
    requires Inv(s)
    ensures t in s.made ==> TaskFacts(s, t)
    ensures t in s.made <==> t in s.places
    ensures t in s.made <==> t in s.db.tasks
  {
    hide Inv, Sound, Counts, Ordered, Logged, TaskOK, PublishedOK, AllKnown, QueueOK, CallsOK, WaitingFound, WorkersOK,
         KnownID, FinishingOK;
    Parts(s);
  }

  /** A creation leaves the other tasks alone, and a task that appears was created, waits or is counted, and has no
      writes. */
  ghost predicate CreationKeeps(s: State, s': State, t: string) {
    if t in s.made then OldAt(s, s', t)
    else t in s'.made ==>
           t in s'.places && (s'.places[t].Waiting? || s'.places[t].Done?) && t in s'.work && s'.work[t] == NO_WORK
  }

  lemma CreateKeeps(s: State, step: Step, t: string)
    requires Inv(s) && Enabled(s, step) && step.CreateStep?
    ensures CreationKeeps(s, Apply(s, step), t)
  {
    hide Inv, Sound, Placed, Stored, Ordered, Logged, Apply, Enabled, Created, NewTasksIn, Unheard, NewCall, RowOf,
         AsPlanned, FirstCall, TasksOf, Results, GoodTask, RowAt, Elsewhere, Counts;
    Parts(s);
    if Created(s, step).None? {
      NothingCreated(s, step);
      SameIsOld(s, t) by { Facts(s, t); }
    } else {
      var (row, news) := Created(s, step).value;
      var s', op := Apply(s, step), step.req.operation;
      CreationStep(s, step, row, news);
      BornStays(s, s', row.id, op, news, t);
      if t in s'.made && t !in s.made {
        var n := Appears(s, s', row.id, op, news, t);
      }
    }
  }

  lemma SameIsOld(s: State, t: string)
    requires t in s.made ==> TaskFacts(s, t)
    ensures OldAt(s, s, t)
  {
    hide TaskOK, PublishedOK, Results;
  }

  /** A task stays known, as it was created. */
  ghost predicate SameTask(s: State, s': State, t: string) {
    t in s.made && t in s'.made && s'.made[t] == s.made[t]
  }

  lemma StepKeepsTask(s: State, step: Step, t: string)
    requires Inv(s) && Enabled(s, step) && t in s.made
    ensures SameTask(s, Apply(s, step), t)
  {
    hide Inv, Apply, Enabled, Results;
    SameMade(s, step);
    if step.CreateStep? {
      CreateKeeps(s, step, t);
    }
  }

  lemma {:induction false} TaskStays(s: State, steps: seq<Step>, s': State, t: string)
    requires Inv(s) && Continues(s, steps, s') && t in s.made
    ensures SameTask(s, s', t)
    decreases |steps|
  {
    hide Inv, Apply, Enabled, Continues;
    if steps == [] {
      NoStep(s, s');
    } else {
      var front, before, step := LastStep(s, steps, s');
      TaskStays(s, front, before, t);
      ContinuedInv(s, front, before);
      StepKeepsTask(before, step, t);
    }
  }

  // ---------------------------------------------------------------- the two writes of its row

  function ByFault(fault: Fault): Attempt {
    if fault.NoFault? then Saved else Refused
  }

  function FaultOf(step: Step): Fault {
    if step.WorkerStep? && step.act.Announce? then step.act.fault
    else if step.WorkerStep? && step.act.TaskWrite? then step.act.fault
    else if step.WorkerStep? && step.act.RunningWrite? then step.act.fault
    else NoFault
  }

  /** The database refuses neither write by itself. */
  lemma WriteAnswer(s: State, step: Step, t: Task, now: Time, fault: Fault)
    requires Inv(s) && Enabled(s, step) && OpOf(s, step) == Some(UpdateTaskOp(t, now, fault))
    ensures OwnWrite(s, step, t) && Tried(UpdateTask(s.db, t, now, fault).1) == ByFault(fault)
  {
    hide Inv, Sound, Placed, Counts, Evident, Stored, Published, Ordered, Enabled, OpOf, UpdateTask, TaskOK, RowOK,
         Results;
    Parts(s);
    WrittenTask(s, step, t, now, fault);
    OnlyFaultsRefuse(s.db, t, now, fault);
  }

  /** How a step changes the record of task `t`'s writes from `k` to `k'`: each of the two writes is made once, the
      announcement first, and is saved exactly if the environment lets it. */
  ghost predicate WorkChange(s: State, step: Step, t: string, k: Work, k': Work) {
    if Announces(s, step, t) then
      && k.announced.Untried? && k.recorded.Untried?
      && k'.announced == ByFault(FaultOf(step)) && k'.recorded.Untried?
    else if Completes(s, step, t) then
      && k.recorded.Untried? && k'.announced == k.announced
      && k'.recorded == ByFault(FaultOf(step)) && k'.row.Some?
      && (k'.row.value.state.Succeeded? || k'.row.value.state.Failed? || k'.row.value.state.Canceled?)
    else SameWrites(k, k')
  }

  lemma WriteChange(s: State, step: Step, t: string)
    requires Inv(s) && Enabled(s, step) && (Announces(s, step, t) || Completes(s, step, t))
    ensures WorkChange(s, step, t, WorkOn(s.work, t), WorkOn(NextWork(s, step), t))
    ensures TaskFacts(s, t) && s.made[t].task.state.Pending?
  {
    hide Inv, UpdateTask, RowOK, Results, TaskOK, PublishedOK, TidyRoute, SameRoute, CanAcquire;
    var op := OpOf(s, step).value;
    WriteAnswer(s, step, op.task, op.now, op.fault);
    Facts(s, t);
    if step.act.TaskWrite? {
      SavedEnding(s.limits, s.made[t], s.work[t], s.db, op.task, op.now, op.fault);
    }
  }

  /** The row a worker is left with after its last write says how the task ended. */
  lemma SavedEnding(l: Limits, m: Made, k: Work, db: Database, row: Task, now: Time, fault: Fault)
    requires RowOK(l, m, k, row) && TidyRoute(row)
    ensures var saved := SavedRow(db, row, now, fault);
            saved.state.Succeeded? || saved.state.Failed? || saved.state.Canceled?
  {
    hide UpdateTask, Proven, SameRoute, TidyRoute;
    UpdateTaskReturns(db, row, now, fault);
  }

  /** Every step of the engine, for every task. */
  lemma StepChange(s: State, step: Step, t: string)
    requires Inv(s) && Enabled(s, step) && t in s.made
    ensures SameTask(s, Apply(s, step), t)
    ensures WorkChange(s, step, t, WorkOn(s.work, t), WorkOn(Apply(s, step).work, t))
  {
    hide Inv, Enabled, NextDb, NextMade, NextPlaces, NextWork, NextCalls, NextProgress, NextClosed, NextMarkers,
         NextCanceled, NextAborts, NextQueue, NextWorkers, NextLimiters, Announces, Completes, Results, TaskOK,
         PublishedOK;
    Facts(s, t);
    StepKeepsTask(s, step, t);
    if Announces(s, step, t) || Completes(s, step, t) {
      WriteChange(s, step, t);
    } else if step.CreateStep? {
      CreateKeeps(s, step, t);
    } else {
      KeptWrites(s, step, t);
    }
  }

  // ---------------------------------------------------------------- its place

  function PlaceOn(places: map<string, Place>, t: string): Place {
    if t in places then places[t] else Waiting
  }

  /** Step `step` of state `s` loses task `t`: its call gives up before offering it, or the "running" write that its
      worker is in charge of fails, committed or not. */
  ghost predicate IsLoss(s: State, step: Step, t: string) {
    || (step.EnqueueFailStep? && t in s.made && s.made[t].task.transitionID == step.id && t in s.places &&
          s.places[t].Waiting?)
    || (step.WorkerStep? && step.act.RunningWrite? && !step.act.fault.NoFault? && IsBusy(s, step.w) &&
          TaskOf(s, step.w) == t)
  }

  predicate Offers(s: State, step: Step, t: string) {
    step.EnqueueStep? && CanEnqueue(s, step.id) && s.calls[step.id].items[0].task.id == t
  }

  predicate Takes(s: State, step: Step, t: string) {
    step.WorkerStep? && step.act.Dequeue? && s.queue != [] && s.queue[0].task.id == t
  }

  predicate CountsTask(s: State, step: Step, t: string) {
    step.WorkerStep? && step.act.Record? && IsBusy(s, step.w) && TaskOf(s, step.w) == t
  }

  /** The way of a task: from its call to the queue, to a worker, to its count; or lost on the way. */
  ghost predicate PlaceChange(s: State, step: Step, t: string, p: Place, p': Place) {
    if IsLoss(s, step, t) then p == (if step.WorkerStep? then Held(step.w) else Waiting) && p' == Dropped
    else if Offers(s, step, t) then p == Waiting && p' == Queued
    else if Takes(s, step, t) then p == Queued && p' == Held(WorkerIn(step))
    else if CountsTask(s, step, t) then p == Held(WorkerIn(step)) && p'.Done?
    else p' == p
  }

  /** A worker always finds the entry of its transition. */
  lemma EntryFound(s: State, w: nat, now: Time)
    requires Inv(s) && IsBusy(s, w) && At(s, w).Fetched?
    ensures !MarkOf(s.progress, TransitionOf(s, w), now).NoEntry?
  {
    hide Inv, Sound, Placed, Counts, Ordered, Active, Started;
    Parts(s);
    HeldIsActive(s, w);
  }

  /** The "running" write fails only if the environment fails it. */
  lemma RunningAnswer(s: State, w: nat, now: Time, fault: Fault)
    requires Inv(s) && IsBusy(s, w)
    ensures At(s, w).MarkingRunning? ==> (Update(s.db, At(s, w).snapshot, now, fault).1.Ok? <==> fault.NoFault?)
  {
    hide Inv, Placed, Counts, Evident, Published, Stored, EntryOK, MarkerOK, AbortOK, UnderwayOK, Logged, Update, Trail,
         Trimmed, Committed, Sent;
    Parts(s);
    if At(s, w).MarkingRunning? {
      assert WriterOK(s, w);
      assert KnownID(s.db, TransitionOf(s, w)) by { RegisteredKnown(s, TransitionOf(s, w)); }
      UpdateEffect(s.db, At(s, w).snapshot, now, fault);
    }
  }

  lemma RegisteredKnown(s: State, id: string)
    requires Stored(s) && IsRegistered(s, id)
    ensures KnownID(s.db, id)
  {
    hide KnownID, FinishingOK;
  }

  lemma WorkerLoses(s: State, w: nat, act: Action)
    requires Inv(s) && CanAct(s, w, act)
    ensures LosesTask(s, WorkerStep(w, act)) <==>
            act.RunningWrite? && FaultOf(WorkerStep(w, act)) != NoFault && IsBusy(s, w)
  {
    hide Inv, Update, MarkOf;
    if act.Mark? {
      EntryFound(s, w, act.now);
    } else if act.RunningWrite? {
      RunningAnswer(s, w, act.now, act.fault);
    }
  }

  lemma WorkerPlace(s: State, w: nat, act: Action, t: string)
    requires Inv(s) && Placed(s) && CanAct(s, w, act) && t in s.places
    ensures PlaceChange(s, WorkerStep(w, act), t, PlaceOn(s.places, t), PlaceOn(NextPlaces(s, WorkerStep(w, act)), t))
  {
    hide Inv, Placed, CanMove, GivesUpTask, OutcomeAt, Known;
    WorkerLoses(s, w, act);
    OwnsStill(s, w, act);
    if act.Dequeue? {
      HeadOfQueue(s);
    } else if IsBusy(s, w) {
      Own(s, w);
    }
  }

  lemma StepPlace(s: State, step: Step, t: string)
    requires Inv(s) && Enabled(s, step) && t in s.made
    ensures t in s.places && t in Apply(s, step).places
    ensures PlaceChange(s, step, t, PlaceOn(s.places, t), PlaceOn(Apply(s, step).places, t))
  {
    hide *;
    Facts(s, t);
    Parts(s);
    Components(s, step);
    if step.CreateStep? {
      CreateKeeps(s, step, t);
      CreationPlace(s, step, t);
    } else if step.WorkerStep? {
      assert step == WorkerStep(step.w, step.act);
      ActsOnly(s, step);
      WorkerPlace(s, step.w, step.act, t);
      WorkerKeys(s, step.w, step.act);
    } else {
      CallPlaces(s, step, t);
      CallPlace(s, step, t);
    }
  }

  lemma ActsOnly(s: State, step: Step)
    requires Enabled(s, step)
    ensures step.WorkerStep? ==> CanAct(s, step.w, step.act)
    ensures step.WorkerStep? && step.w < |s.workers| ==> NextPlaces(s, step) == WorkerPlaces(s, step.w, step.act)
  {
    hide CanAct, WorkerPlaces;
  }

  lemma CreationPlace(s: State, step: Step, t: string)
    requires step.CreateStep? && t in s.made && CreationKeeps(s, Apply(s, step), t)
    ensures t in Apply(s, step).places
    ensures PlaceChange(s, step, t, PlaceOn(s.places, t), PlaceOn(Apply(s, step).places, t))
  {
    hide Apply, Results;
  }

  lemma CallPlace(s: State, step: Step, t: string)
    requires Placed(s) && Enabled(s, step) && !step.CreateStep? && !step.WorkerStep? && t in s.made && t in s.places
    ensures PlaceChange(s, step, t, PlaceOn(s.places, t), PlaceOn(NextPlaces(s, step), t))
  {
    hide Placed, DropAll;
    if step.EnqueueStep? {
      FirstOffered(s, step.id);
    } else if step.EnqueueFailStep? {
      GivesUp(s, step.id);
    }
  }

  // ---------------------------------------------------------------- the row

  /** Pending, running, one terminal state. A task skips "running" when it is canceled before it starts, or when the
      write that announces it fails. */
  predicate RowMove(a: TaskState, b: TaskState) {
    || a == b
    || (a.Pending? && b.Running?)
    || ((a.Pending? || a.Running?) && (b.Succeeded? || b.Failed? || b.Canceled?))
  }

  /** The state in the row of task `t`. */
  function RowStateOf(s: State, t: string): TaskState {
    if t in s.db.tasks then s.db.tasks[t].state else Pending
  }

  lemma StepMovesRow(s: State, step: Step, t: string)
    requires Inv(s) && Enabled(s, step) && t in s.made
    ensures t in Apply(s, step).made && RowMove(RowStateOf(s, t), RowStateOf(Apply(s, step), t))
  {
    hide Inv, Apply, Enabled, Announces, Completes, TaskOK, SameKeys, Results;
    StepInv(s, step);
    Facts(s, t);
    Facts(Apply(s, step), t);
    StepChange(s, step, t);
    if Announces(s, step, t) || Completes(s, step, t) {
      WriteChange(s, step, t);
    }
  }

  lemma {:induction false} RowMoves(s: State, steps: seq<Step>, s': State, t: string)
    requires Inv(s) && Continues(s, steps, s') && t in s.made
    ensures t in s'.made && RowMove(RowStateOf(s, t), RowStateOf(s', t))
    decreases |steps|
  {
    hide Inv, Enabled, Apply, Continues, RowStateOf;
    if steps == [] {
      NoStep(s, s');
    } else {
      var front, before, step := LastStep(s, steps, s');
      RowMoves(s, front, before, t);
      ContinuedInv(s, front, before);
      StepMovesRow(before, step, t);
    }
  }

  /** From any reachable state on, the row of a task only moves forward, whatever happens: a terminal row is never
      overwritten with another state. */
  lemma RowMovesForward(l: Limits, run: seq<Step>, s: State, steps: seq<Step>, s': State, t: string)
    requires ValidLimits(l) && Run(l, run, s) && Continues(s, steps, s') && t in s.made
    ensures t in s.db.tasks && t in s'.db.tasks && RowMove(RowStateOf(s, t), RowStateOf(s', t))
  {
    hide *;
    RunInv(l, run, s);
    ContinuedInv(s, steps, s');
    RowMoves(s, steps, s', t);
    Facts(s, t);
    Facts(s', t);
  }

  // ---------------------------------------------------------------- counted once

  /** Task `t` is counted, or lost. */
  predicate AtRest(s: State, t: string) {
    t in s.places && (s.places[t].Done? || s.places[t].Dropped?)
  }

  predicate CountedTask(s: State, t: string) {
    t in s.places && s.places[t].Done?
  }

  /** Task `t` is known, and where it was. */
  ghost predicate Stays(s: State, s': State, t: string) {
    SameTask(s, s', t) && t in s.places && t in s'.places && s'.places[t] == s.places[t]
  }

  lemma StepKeepsRest(s: State, step: Step, t: string)
    requires Inv(s) && Enabled(s, step) && AtRest(s, t)
    ensures Stays(s, Apply(s, step), t)
  {
    hide Inv, Apply, Enabled, IsLoss, Offers, Takes, CountsTask, TaskFacts;
    Facts(s, t);
    StepPlace(s, step, t);
    StepKeepsTask(s, step, t);
  }

  lemma {:induction false} Rests(s: State, steps: seq<Step>, s': State, t: string)
    requires Inv(s) && Continues(s, steps, s') && AtRest(s, t)
    ensures Stays(s, s', t)
    decreases |steps|
  {
    hide Inv, Enabled, Apply, Continues, TaskFacts;
    if steps == [] {
      NoStep(s, s');
      Facts(s, t);
    } else {
      var front, before, step := LastStep(s, steps, s');
      Rests(s, front, before, t);
      ContinuedInv(s, front, before);
      StepKeepsRest(before, step, t);
    }
  }

  /** Once counted, always counted, with the same outcome: no task is counted twice. A lost task is never found
      again. */
  lemma CountedOnce(l: Limits, run: seq<Step>, s: State, steps: seq<Step>, s': State, t: string)
    requires ValidLimits(l) && Run(l, run, s) && Continues(s, steps, s') && AtRest(s, t)
    ensures Stays(s, s', t)
  {
    hide *;
    RunInv(l, run, s);
    Rests(s, steps, s', t);
  }

  // ---------------------------------------------------------------- its row along a run

  /** The states the row of task `t` has had, each change once. */
  function RowHistory(states: seq<State>, t: string): seq<TaskState> {
    if states == [] then []
    else
      var before, db := RowHistory(states[..|states| - 1], t), states[|states| - 1].db;
      if t in db.tasks then Noted(before, db.tasks[t].state) else before
  }

  /** The history with state `x` at its end. */
  function Noted(history: seq<TaskState>, x: TaskState): seq<TaskState> {
    if history != [] && history[|history| - 1] == x then history else history + [x]
  }

  datatype Write = AnnounceTry | AnnounceSave | CompletionSave

  /** The step makes write `x` for task `t`. */
  ghost predicate Makes(s: State, step: Step, t: string, x: Write) {
    match x
    case AnnounceTry => Announces(s, step, t)
    case AnnounceSave => Announces(s, step, t) && FaultOf(step).NoFault?
    case CompletionSave => Completes(s, step, t) && FaultOf(step).NoFault?
  }

  ghost predicate Wrote(steps: seq<Step>, states: seq<State>, t: string, x: Write) {
    |states| == |steps| + 1 && exists i {:trigger steps[i]} :: 0 <= i < |steps| && Makes(states[i], steps[i], t, x)
  }

  lemma WroteStep(steps: seq<Step>, states: seq<State>, s: State, step: Step, s': State, t: string, x: Write)
    requires |states| == |steps|
    ensures Wrote(steps + [step], states + [s] + [s'], t, x) <==>
            Wrote(steps, states + [s], t, x) || Makes(s, step, t, x)
  {
    hide Makes;
    var n, all, after := |steps|, steps + [step], states + [s] + [s'];
    assert all[n] == step && after[n] == s;
    assert forall i :: 0 <= i < n ==> all[i] == steps[i] && after[i] == (states + [s])[i];
  }

  /** The announcement of task `t` was tried, or saved; its completion was saved. */
  ghost predicate AnnounceTried(steps: seq<Step>, states: seq<State>, t: string) {
    Wrote(steps, states, t, AnnounceTry)
  }

  ghost predicate AnnounceSaved(steps: seq<Step>, states: seq<State>, t: string) {
    Wrote(steps, states, t, AnnounceSave)
  }

  ghost predicate CompletionSaved(steps: seq<Step>, states: seq<State>, t: string) {
    Wrote(steps, states, t, CompletionSave)
  }

  /** The states that the row of a task has, by what was saved for it. */
  function RowStates(m: Made, k: Work): seq<TaskState> {
    if !m.task.state.Pending? then [m.task.state]
    else [Pending] + (if k.announced.Saved? then [Running] else [])
         + (if k.recorded.Saved? && k.row.Some? then [k.row.value.state] else [])
  }

  lemma StatesEnd(m: Made, k: Work, row: Task, results: seq<TaskState>)
    requires TableOK(m, k, row, results)
    ensures RowStates(m, k) != [] && RowStates(m, k)[|RowStates(m, k)| - 1] == row.state
  {
    hide SameKeys;
  }

  /** A step appends the new state of the row, if it changes it. */
  lemma StatesStep(s: State, step: Step, t: string, m: Made, k: Work, row: Task, results: seq<TaskState>,
                   k': Work, row': Task, results': seq<TaskState>)
    requires TableOK(m, k, row, results) && TableOK(m, k', row', results') && WorkChange(s, step, t, k, k')
    requires m.task.state.Pending? || SameWrites(k, k')
    ensures RowStates(m, k') == Noted(RowStates(m, k), row'.state)
  {
    hide Announces, Completes, SameKeys;
    StatesEnd(m, k, row, results);
    StatesEnd(m, k', row', results');
  }

  lemma HistoryStep(states: seq<State>, s: State, t: string)
    ensures RowHistory(states + [s], t) ==
            if t in s.db.tasks then Noted(RowHistory(states, t), s.db.tasks[t].state) else RowHistory(states, t)
  {
    hide Noted;
    assert (states + [s])[..|states|] == states;
  }

  /** The states of the row so far are what was saved for the task. */
  ghost predicate HistoryIs(s: State, states: seq<State>, t: string) {
    && (t in s.made ==> RowHistory(states, t) == RowStates(s.made[t], WorkOn(s.work, t)))
    && (t !in s.made ==> RowHistory(states, t) == [])
  }

  lemma NotWritten(s: State, step: Step, t: string, k: Work, k': Work)
    requires WorkChange(s, step, t, k, k') && !Announces(s, step, t) && !Completes(s, step, t)
    ensures SameWrites(k, k')
  {
    hide Announces, Completes, SameWrites;
  }

  lemma OldHistory(s: State, step: Step, states: seq<State>, t: string)
    requires Inv(s) && Enabled(s, step) && Inv(Apply(s, step)) && t in s.made && HistoryIs(s, states, t)
    ensures HistoryIs(Apply(s, step), states + [Apply(s, step)], t)
  {
    hide Inv, Enabled, Apply, Announces, Completes, RowHistory, RowStates, TableOK, Results, SameWrites, TaskOK,
         WorkChange, SameKeys, Noted;
    var s' := Apply(s, step);
    StepChange(s, step, t);
    Facts(s, t);
    Facts(s', t);
    if Announces(s, step, t) || Completes(s, step, t) {
      WriteChange(s, step, t);
    } else {
      NotWritten(s, step, t, s.work[t], s'.work[t]);
    }
    StatesStep(s, step, t, s.made[t], s.work[t], s.db.tasks[t], Results(s.db.outbox, t), s'.work[t], s'.db.tasks[t],
               Results(s'.db.outbox, t));
    HistoryStep(states, s', t);
  }

  lemma NewHistory(s: State, step: Step, states: seq<State>, t: string)
    requires Inv(s) && Enabled(s, step) && Inv(Apply(s, step)) && t !in s.made && HistoryIs(s, states, t)
    ensures HistoryIs(Apply(s, step), states + [Apply(s, step)], t)
    ensures WorkOn(Apply(s, step).work, t) == NO_WORK
  {
    hide Inv, Enabled, Apply, RowHistory, Results, SameKeys, TaskOK;
    var s' := Apply(s, step);
    Facts(s', t);
    HistoryStep(states, s', t);
    NewWork(s, step, t);
    if t in s'.made {
      StatesEnd(s'.made[t], s'.work[t], s'.db.tasks[t], Results(s'.db.outbox, t));
    }
  }

  /** A task that is new, or still unknown, has no writes. */
  lemma NewWork(s: State, step: Step, t: string)
    requires Inv(s) && Enabled(s, step) && Inv(Apply(s, step)) && t !in s.made
    ensures WorkOn(Apply(s, step).work, t) == NO_WORK
  {
    hide Inv, Sound, Enabled, Apply, TaskFacts;
    Unknown(Apply(s, step), t);
    SameMade(s, step);
    if step.CreateStep? {
      CreateKeeps(s, step, t);
    }
  }

  lemma Unknown(s: State, t: string)
    requires Inv(s)
    ensures t !in s.made ==> t !in s.work
  {
    hide Inv, Sound, Counts, Evident, Stored, Ordered, Published, Logged, AllKnown, QueueOK, CallsOK, WaitingFound,
         WorkersOK;
    Parts(s);
  }

  /** What was saved for the task is what the steps say. */
  ghost predicate Tracked(s: State, steps: seq<Step>, states: seq<State>, t: string) {
    var k := WorkOn(s.work, t);
    && HistoryIs(s, states, t)
    && (t !in s.made ==> k == NO_WORK)
    && (k.announced.Untried? <==> !AnnounceTried(steps, states, t))
    && (k.announced.Saved? <==> AnnounceSaved(steps, states, t))
    && (k.recorded.Saved? <==> CompletionSaved(steps, states, t))
  }

  lemma TrackedStep(s: State, step: Step, steps: seq<Step>, states: seq<State>, t: string)
    requires Inv(s) && Enabled(s, step) && |states| == |steps| && Tracked(s, steps, states + [s], t)
    ensures Tracked(Apply(s, step), steps + [step], states + [s] + [Apply(s, step)], t)
  {
    hide Inv, Enabled, Apply, Announces, Completes, HistoryIs, Wrote, TaskFacts;
    var s' := Apply(s, step);
    StepInv(s, step);
    WroteStep(steps, states, s, step, s', t, AnnounceTry);
    WroteStep(steps, states, s, step, s', t, AnnounceSave);
    WroteStep(steps, states, s, step, s', t, CompletionSave);
    OnlyOneKind(s, step, t);
    if t in s.made {
      OldHistory(s, step, states + [s], t);
      StepChange(s, step, t);
    } else {
      NewHistory(s, step, states + [s], t);
      if Announces(s, step, t) || Completes(s, step, t) {
        WriteChange(s, step, t);
        FactsKnown(s, t);
      }
    }
  }

  lemma FactsKnown(s: State, t: string)
    requires TaskFacts(s, t)
    ensures t in s.made
  {
    hide TaskOK, PublishedOK;
  }

  lemma OnlyOneKind(s: State, step: Step, t: string)
    ensures !(Announces(s, step, t) && Completes(s, step, t))
  {
  }

  lemma {:induction false} AlwaysTracked(l: Limits, steps: seq<Step>, states: seq<State>, t: string)
    requires ValidLimits(l) && Course(l, steps, states)
    ensures Tracked(EndOf(l, states), steps, states, t)
    decreases |steps|
  {
    hide Inv, Course, Enabled, Apply, Tracked, Run;
    CourseRun(l, steps, states);
    if steps == [] {
      StartTracked(l, states, t);
    } else {
      hide EndOf, Init;
      var front, before, step := CourseStep(l, steps, states);
      AlwaysTracked(l, front, before, t);
      CourseRun(l, front, before);
      RunInv(l, front, EndOf(l, before));
      Whole(l, before);
      TrackedStep(EndOf(l, before), step, front, before[..|front|], t);
    }
  }

  lemma StartTracked(l: Limits, states: seq<State>, t: string)
    requires |states| == 1 && EndOf(l, states) == Init(l)
    ensures Tracked(Init(l), [], states, t)
  {
    assert states == [] + [Init(l)];
    HistoryStep([], Init(l), t);
  }

  // ---------------------------------------------------------------- the course of a row

  /** The completed row of an executable task is the one its worker wrote. */
  ghost predicate RowSaved(s: State, t: string) {
    && t in s.made && t in s.work && t in s.db.tasks
    && (s.made[t].task.state.Pending? ==>
          && (Terminal(s.db.tasks[t].state) <==> s.work[t].recorded.Saved?)
          && (s.work[t].recorded.Saved? ==>
                s.work[t].row.Some? && s.db.tasks[t] == Columns(s.work[t].row.value) &&
                RowOK(s.limits, s.made[t], s.work[t], s.work[t].row.value)))
  }

  lemma SavedRowFacts(s: State, t: string)
    requires Inv(s) && t in s.made
    ensures RowSaved(s, t)
  {
    hide Inv, Results, RowOK, TidyRoute, SameRoute, Routed;
    Facts(s, t);
    if s.made[t].task.state.Pending? && s.work[t].recorded.Saved? {
      EndedTask(s.limits, s.made[t], s.work[t], s.work[t].row.value);
    }
  }

  lemma EndedTask(l: Limits, m: Made, k: Work, row: Task)
    ensures RowOK(l, m, k, row) ==> Terminal(row.state)
  {
    hide Proven, SameRoute;
  }

  /** The row of task `t` was pending, then running if and only if its announcement was saved, and then has its terminal
      state if and only if its completion was saved. */
  ghost predicate CourseOf(s: State, steps: seq<Step>, states: seq<State>, t: string) {
    t in s.db.tasks &&
      var row := s.db.tasks[t];
      && (Terminal(row.state) <==> CompletionSaved(steps, states, t))
      && RowHistory(states, t) ==
         [Pending] + (if AnnounceSaved(steps, states, t) then [Running] else [])
         + (if Terminal(row.state) then [row.state] else [])
      && (Terminal(row.state) && !AnnounceTried(steps, states, t) ==>
            row.state.Canceled? && row.attemptCount == 0)
  }

  predicate Executable(s: State, t: string) {
    t in s.made && s.made[t].task.state.Pending?
  }

  /** The life of a task row. A row that is executable is pending; it is running once the write that announces it is
      saved, and terminal once the write that completes it is; each happens exactly if the environment lets the write
      through. So a completed row was pending, running and `o` if the announcement was saved, and pending and `o`
      otherwise; and if the announcement was never tried, `o` is canceled and no attempt was made. */
  lemma RowCourse(l: Limits, steps: seq<Step>, states: seq<State>, t: string)
    requires ValidLimits(l) && Course(l, steps, states) && Executable(EndOf(l, states), t)
    ensures CourseOf(EndOf(l, states), steps, states, t)
  {
    hide Inv, Course, EndOf, Run, RowHistory, AnnounceTried, AnnounceSaved, CompletionSaved, Proven, SameRoute;
    CourseRun(l, steps, states);
    RunInv(l, steps, EndOf(l, states));
    AlwaysTracked(l, steps, states, t);
    SavedRowFacts(EndOf(l, states), t);
  }

  /** In every reachable state the database refuses a worker's write of its row if and only if the environment fails
      it. */
  lemma RowWritesGoThrough(l: Limits, steps: seq<Step>, s: State, step: Step, t: Task, now: Time, fault: Fault)
    requires ValidLimits(l) && Run(l, steps, s) && Enabled(s, step)
    requires OpOf(s, step) == Some(UpdateTaskOp(t, now, fault))
    ensures UpdateTask(s.db, t, now, fault).1.Ok? <==> fault.NoFault?
  {
    hide Run, Inv, Enabled, OpOf, UpdateTask, OwnWrite;
    RunInv(l, steps, s);
    WriteAnswer(s, step, t, now, fault);
  }
}
