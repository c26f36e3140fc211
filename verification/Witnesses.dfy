/** Runs that show what can go wrong: a row that never says running, a task that is lost, and a completed transition
    whose row says canceled. One call asks for one node, and one worker does what there is to do. */
module Witnesses {
  import opened Text
  import opened Records
  import opened PowerStates
  import opened Retry
  import opened Planning
  import opened TransitionStore
  import opened OutboxReplay
  import opened Sections
  import opened Engine
  import opened Placement
  import opened Ledger
  import opened Evidence
  import opened Trails
  import opened EngineInvariant
  import opened EngineSteps
  import opened EngineRuns
  import opened Lifecycles
  import opened Conservation
  import opened Histories
  import opened Liveness

  const LIMITS := Limits(1, 1, 1, 1, 1, false)
  const REQUEST := Request("", "", On, ["n"], false)
  const ROUTING := Routing(map["n" := Mapping("n", "b", "e", "c", false)], map[])
  const CREATE := CreateStep(REQUEST, ["n"], ROUTING, "t", ["k"], 1, NoFault)

  // ---------------------------------------------------------------- the start

  /** The one task as the store returns it. */
  function TheTask(): Task {
    NewTask(PlanTask(ROUTING, "n", On, false, 1), "t", "k", 1)
  }

  lemma TheTaskFacts()
    ensures TheTask().id == "k" && TheTask().transitionID == "t" && TheTask().state.Pending?
  {
    assert Trimmed("t");
    assert TrimSpace("t") == "t" && TrimSpace("") == "";
    hide TrimSpace, OperationName;
  }

  lemma ThePlan()
    ensures PlanTasks(ROUTING, ["n"], On, false, 1) == [PlanTask(ROUTING, "n", On, false, 1)]
  {
    hide PlanTask;
  }

  lemma TheRow(tasks: seq<Task>)
    ensures var row := NewTransitionRow(PlanTransition(REQUEST, tasks, 1), "t", 1);
            row.id == "t" && LifecycleEvent(row).Ok?
  {
    assert TrimSpace("") == "" && TrimSpace("t") == "t" by { assert Trimmed("t"); }
    hide TrimSpace, OperationName;
  }

  /** A single pending task can always be created in an empty database. */
  lemma CreatesOne(transition: Transition, task: Task, id: Uuid, uuid: Uuid, now: Time, row: Transition)
    requires row == NewTransitionRow(transition, id, now) && LifecycleEvent(row).Ok?
    requires NewTask(task, row.id, uuid, now).state.Pending?
    requires NewTask(task, row.id, uuid, now).transitionID == row.id
    ensures Create(EMPTY, transition, [task], id, [uuid], now, NoFault).1 ==
            Result.Ok((row, [NewTask(task, row.id, uuid, now)]))
  {
    hide NewTask, NewTransitionRow, LifecycleEvent, Columns;
    var news := NewTasks([task], row.id, [uuid], now);
    assert [task][..0] == [] && [uuid][..0] == [];
    assert news == [NewTask(task, row.id, uuid, now)];
    assert news[..0] == [];
    var transitions := EMPTY.transitions[row.id := row];
    assert InsertTasks(EMPTY.tasks, transitions, news[..0]) == Some(EMPTY.tasks);
    assert Insertable(EMPTY.tasks, transitions, news[0]);
    assert InsertTasks(EMPTY.tasks, transitions, news).Some?;
    assert CreationEvents(news) == Result.Ok([]);
    hide NewTasks, InsertTasks, CreationEvents;
  }

  lemma CreatedOne() returns (row: Transition)
    ensures Created(Init(LIMITS), CREATE) == Some((row, [TheTask()])) && row.id == "t"
    ensures FirstCall(REQUEST, row, [TheTask()]) == Registering(row, [Item("t", On, TheTask())])
  {
    hide PlanTask, PlanTransition, NewTransitionRow, LifecycleEvent, NewTask, PlanTasks, Create;
    var tasks := PlanTasks(ROUTING, ["n"], On, false, 1);
    ThePlan();
    TheTaskFacts();
    TheRow(tasks);
    row := NewTransitionRow(PlanTransition(REQUEST, tasks, 1), "t", 1);
    CreatesOne(PlanTransition(REQUEST, tasks, 1), PlanTask(ROUTING, "n", On, false, 1), "t", "k", 1, row);
    assert [TheTask()][..0] == [];
    assert CountState([TheTask()], Pending) == 1;
  }

  /** Nothing has happened but that task "k" of transition "t" was created. */
  ghost predicate Untouched(steps: seq<Step>, s: State) {
    && Run(LIMITS, steps, s)
    && s.limits == LIMITS && s.workers == [Idle] && !s.shutdown && !s.queueClosed && s.canceled == {}
    && s.limiters == map[] && s.closed == map[] && s.aborts == map[] && s.made == map["k" := Made(TheTask(), On)]
    && s.work.Keys == {"k"} == s.places.Keys
  }

  /** No worker has begun with transition "t". */
  predicate Unmarked(s: State) {
    "t" in s.progress && !s.progress["t"].started && !s.progress["t"].aborted
  }

  lemma RunsOneMore(steps: seq<Step>, s: State, step: Step)
    requires Run(LIMITS, steps, s) && Enabled(s, step)
    ensures Run(LIMITS, steps + [step], Apply(s, step))
  {
    hide Apply, Enabled, Init, Continues;
    OneStepMore(Init(LIMITS), steps, s, step);
  }

  lemma Creates() returns (s: State, row: Transition)
    ensures Untouched([CREATE], s) && s.queue == [] && s.progress == map[] && row.id == "t"
    ensures s.calls == map["t" := Registering(row, [Item("t", On, TheTask())])]
  {
    hide Create, TheTask, CountState, PendingItems, Continues, PlanTasks, PlanTransition, FirstCall, OpOf;
    var s0 := Init(LIMITS);
    NoStep(s0, s0);
    TheTaskFacts();
    row := CreatedOne();
    hide Created;
    assert [TheTask()][..0] == [];
    RunsOneMore([], s0, CREATE);
    assert [] + [CREATE] == [CREATE];
    s := Apply(s0, CREATE);
  }

  lemma Registers() returns (steps: seq<Step>, s: State)
    ensures Untouched(steps, s) && s.queue == [] && Unmarked(s)
    ensures s.calls == map["t" := Enqueueing([Item("t", On, TheTask())])]
  {
    hide TheTask, Run;
    var before, row := Creates();
    RunsOneMore([CREATE], before, RegisterStep("t"));
    steps, s := [CREATE] + [RegisterStep("t")], Apply(before, RegisterStep("t"));
  }

  /** A call creates a transition, registers it and gives up before it has offered the task. The engine is at rest, the
      task is lost, and the transition stays open. */
  lemma LosesTask() returns (steps: seq<Step>, s: State)
    ensures Run(LIMITS, steps, s) && Quiescent(s) && IsRegistered(s, "t") && "t" !in s.closed
    ensures "k" in Targets(s, "t") && Lost(s, "k")
  {
    hide TheTask, Run;
    TheTaskFacts();
    var before: State;
    steps, before := Registers();
    RunsOneMore(steps, before, EnqueueFailStep("t"));
    steps, s := steps + [EnqueueFailStep("t")], Apply(before, EnqueueFailStep("t"));
    assert [Item("t", On, TheTask())][..0] == [];
  }

  // ---------------------------------------------------------------- the worker

  /** The one worker, and the stage it is at. */
  function Hand(s: State): Worker {
    WorkerAt(s.workers, 0)
  }

  function Now(s: State): Stage {
    At(s, 0)
  }

  function Note(s: State): Work {
    WorkOn(s.work, "k")
  }

  predicate HasTask(s: State) {
    && KnownTask(s, 0) && TaskOf(s, 0) == "k" && TransitionOf(s, 0) == "t" && s.workers[0].item.operation == On
    && s.limits == LIMITS && s.made.Keys == {"k"} && !ContextEnded(s, "t") && Abortable(s.progress, "t")
  }

  /** The one worker has the task, its transition is not aborted, and nothing ended its context. */
  ghost predicate Solo(steps: seq<Step>, s: State) {
    Run(LIMITS, steps, s) && Inv(s) && HasTask(s)
  }

  lemma Begins() returns (steps: seq<Step>, s: State)
    ensures Solo(steps, s) && Now(s).Fetched? && Unmarked(s) && s.limiters == map[]
  {
    hide TheTask, Run, Inv, NextDb, NextCalls, NextMarkers, NextAborts, NextClosed, Created;
    TheTaskFacts();
    var idle: State;
    steps, idle := Registers();
    RunsOneMore(steps, idle, EnqueueStep("t"));
    var queued := Apply(idle, EnqueueStep("t"));
    steps := steps + [EnqueueStep("t")];
    RunsOneMore(steps, queued, WorkerStep(0, Dequeue));
    steps, s := steps + [WorkerStep(0, Dequeue)], Apply(queued, WorkerStep(0, Dequeue));
    RunInv(LIMITS, steps, s);
  }

  /** An action with which the worker goes on with its task. */
  ghost predicate GoesOn(s: State, act: Action) {
    CanAct(s, 0, act) && !act.Dequeue? && !act.Exit? && !act.Release? && !act.Record? && !GivesUpTask(s, Hand(s), act)
  }

  function StageAfter(s: State, act: Action): Stage {
    if Hand(s).Busy? then NextStage(s, Hand(s), act) else Releasing
  }

  function NoteAfter(s: State, act: Action): Work {
    NextNote(s, Hand(s), Note(s), act)
  }

  /** The action leads to stage `at`, and only the announcement changes whether the task is announced. */
  ghost predicate Leads(s: State, act: Action, at: Stage) {
    && GoesOn(s, act) && StageAfter(s, act) == at
    && (act.Announce? || NoteAfter(s, act).announced == Note(s).announced)
  }

  lemma Acts(steps: seq<Step>, s: State, act: Action) returns (more: seq<Step>, s': State)
    requires Solo(steps, s) && GoesOn(s, act)
    ensures Solo(more, s') && Now(s') == StageAfter(s, act) && Note(s') == NoteAfter(s, act)
    ensures (!act.Mark? ==> s'.progress == s.progress) && (!act.Acquire? ==> s'.limiters == s.limiters)
  {
    hide Run, Inv, CanMove, GivesUpTask, NextDb, NextCalls, NextPlaces, NextMarkers, NextAborts, NextQueue, NextStage,
         NextTask, NextClosed, FinalOf, UpdateTask, SMDAnswer, SavedRow, TrimSpace;
    RunsOneMore(steps, s, WorkerStep(0, act));
    more, s' := steps + [WorkerStep(0, act)], Apply(s, WorkerStep(0, act));
    RunInv(LIMITS, more, s');
  }

  lemma SeesOn()
    ensures TrimSpace("On") == "On" && EqualFold("On", "On")
  {
    hide ToLower;
    assert Trimmed("On");
  }

  /** Where the actions that write nothing lead. */
  lemma Onward(s: State)
    requires HasTask(s)
    ensures Now(s).Marked? ==> Leads(s, Check(1), Announcing)
    ensures Now(s).Acquiring? && s.limiters == map[] ==> Leads(s, Acquire, Executing(1))
    ensures Now(s) == Executing(1) ==> Leads(s, Execute(CallResult.Ok, ""), Verifying(1, "", 0))
    ensures Now(s) == Verifying(1, "", 0) ==> Leads(s, Read("On", false), Completing(1, "On", Success))
  {
    hide TrimSpace, EqualFold;
    SeesOn();
  }

  lemma Marks(s: State)
    requires HasTask(s) && Now(s).Fetched? && Unmarked(s)
    ensures Leads(s, Mark(1), StageAfter(s, Mark(1))) && StageAfter(s, Mark(1)).MarkingRunning?
  {
  }

  lemma MarksRunning(s: State)
    requires HasTask(s) && Inv(s) && Now(s).MarkingRunning?
    ensures Leads(s, RunningWrite(1, NoFault), Marked)
  {
    hide Inv, Update;
    RunningAnswer(s, 0, 1, NoFault);
  }

  lemma Tells(s: State, fault: Fault)
    requires HasTask(s) && Inv(s) && Now(s).Announcing?
    ensures Leads(s, Announce(1, fault), Acquiring)
    ensures NoteAfter(s, Announce(1, fault)).announced == ByFault(fault)
  {
    hide Inv, UpdateTask;
    WriteAnswer(s, WorkerStep(0, Announce(1, fault)), Hand(s).task, 1, fault);
  }

  lemma Settles(s: State) returns (row: Task)
    requires HasTask(s) && Now(s) == Completing(1, "On", Success)
    ensures Leads(s, Settle(true, 1), Writing(row)) && row.state.Succeeded?
  {
    hide TrimSpace;
    row := SettledRow(LIMITS, Hand(s), true, 1);
  }

  lemma WrittenState(db: Database, t: Task, now: Time)
    ensures SavedRow(db, t, now, NoFault).state == t.state
  {
    hide TrimSpace, Updatable;
  }

  /** The last write of the row is saved. */
  predicate Concluded(k: Work) {
    k.recorded.Saved? && k.row.Some? && k.row.value.state.Succeeded?
  }

  lemma Concludes(s: State, row: Task)
    requires HasTask(s) && Inv(s) && Now(s) == Writing(row) && row.state.Succeeded?
    ensures Leads(s, TaskWrite(1, NoFault), Recording(Succeeded))
    ensures Concluded(NoteAfter(s, TaskWrite(1, NoFault)))
  {
    hide Inv, UpdateTask;
    WriteAnswer(s, WorkerStep(0, TaskWrite(1, NoFault)), row, 1, NoFault);
    hide SavedRow;
    WrittenState(s.db, row, 1);
  }

  /** The transition is marked running, the task announced or not, executed, verified and recorded. */
  lemma Succeeds(steps: seq<Step>, s: State, fault: Fault) returns (more: seq<Step>, s': State)
    requires Solo(steps, s) && Now(s).Fetched? && Unmarked(s) && s.limiters == map[]
    ensures Solo(more, s') && Now(s') == Recording(Succeeded)
    ensures Note(s').announced == ByFault(fault) && Concluded(Note(s'))
  {
    hide Run, Inv, HasTask, GoesOn, StageAfter, NoteAfter, Now, Note, Hand, ByFault, Unmarked, Concluded, LIMITS;
    Marks(s);
    more, s' := Acts(steps, s, Mark(1));
    MarksRunning(s');
    more, s' := Acts(more, s', RunningWrite(1, NoFault));
    Onward(s');
    more, s' := Acts(more, s', Check(1));
    Tells(s', fault);
    more, s' := Acts(more, s', Announce(1, fault));
    Onward(s');
    more, s' := Acts(more, s', Acquire);
    Onward(s');
    more, s' := Acts(more, s', Execute(CallResult.Ok, ""));
    Onward(s');
    more, s' := Acts(more, s', Read("On", false));
    var row := Settles(s');
    more, s' := Acts(more, s', Settle(true, 1));
    Concludes(s', row);
    more, s' := Acts(more, s', TaskWrite(1, NoFault));
  }

  // ---------------------------------------------------------------- a row that never says running

  lemma StatesOf(steps: seq<Step>, s: State) returns (states: seq<State>)
    requires Run(LIMITS, steps, s)
    ensures Course(LIMITS, steps, states) && EndOf(LIMITS, states) == s
  {
    hide Enabled, Apply;
    states :| Path(steps, states) && states[0] == Init(LIMITS) && states[|steps|] == s;
  }

  lemma HandsTask(s: State)
    requires Inv(s) && HasTask(s)
    ensures Lifecycles.Executable(s, "k")
  {
    hide Inv, Sound, Ledger.Counts, Evident, Stored, Published, Ordered, Logged, Known;
    Parts(s);
    Own(s, 0);
    KnownKeys(s.made, s.workers[0].item);
  }

  lemma SkipsRunning(s: State, states: seq<State>)
    requires HistoryIs(s, states, "k") && Lifecycles.Executable(s, "k")
    requires Note(s).announced == ByFault(BeforeCommit) && Concluded(Note(s))
    ensures RowHistory(states, "k") == [Pending, Succeeded]
  {
    hide RowHistory;
  }

  /** The task is announced and the database fails; it is executed, verified and recorded all the same, so its row goes
      from pending to succeeded. */
  lemma SucceededWithoutRunning() returns (steps: seq<Step>, states: seq<State>)
    ensures Course(LIMITS, steps, states) && Lifecycles.Executable(EndOf(LIMITS, states), "k")
    ensures RowHistory(states, "k") == [Pending, Succeeded]
  {
    hide Course, EndOf, Run, Inv, HasTask, HistoryIs, AnnounceTried, AnnounceSaved, CompletionSaved, Concluded, ByFault,
         RowHistory, Unmarked, Now, Note, Lifecycles.Executable, LIMITS;
    var s: State;
    steps, s := Begins();
    steps, s := Succeeds(steps, s, BeforeCommit);
    states := StatesOf(steps, s);
    assert ValidLimits(LIMITS) by { GoodLimits(); }
    AlwaysTracked(LIMITS, steps, states, "k");
    HandsTask(s);
    SkipsRunning(s, states);
  }

  lemma GoodLimits()
    ensures ValidLimits(LIMITS)
  {
  }

  // ---------------------------------------------------------------- an abort that is written last

  /** The task has succeeded and is not counted; its transition is aborted, which is not written yet. */
  ghost predicate Aborting(steps: seq<Step>, s: State) {
    Run(LIMITS, steps, s) && Inv(s) && AbortedLate(s)
  }

  predicate AbortedLate(s: State) {
    && KnownTask(s, 0) && TaskOf(s, 0) == "k" && TransitionOf(s, 0) == "t" && At(s, 0) == Recording(Succeeded)
    && s.made.Keys == {"k"} && "t" in s.progress && "t" in s.aborts && s.aborts["t"].state == TCanceled
  }

  lemma AbortsNow(steps: seq<Step>, s: State) returns (more: seq<Step>, s': State)
    requires Solo(steps, s) && Now(s) == Recording(Succeeded)
    ensures Aborting(more, s')
  {
    hide Run, Inv, NextDb, NextMarkers, NextClosed, NextLimiters;
    RunsOneMore(steps, s, AbortStep("t", 1));
    more, s' := steps + [AbortStep("t", 1)], Apply(s, AbortStep("t", 1));
    RunInv(LIMITS, more, s');
  }

  /** The task is the last one. */
  lemma LastOpen(s: State)
    requires Inv(s) && AbortedLate(s)
    ensures FinalOf(s.progress, "t", Succeeded, 1).Some?
  {
    hide Inv, Sound, Placed, Evident, Stored, Ordered, Published, Logged, Members, Closed;
    Parts(s);
    EntryActive(s, "t");
    Larger(Members(s.made, s.places, "t", Open), {"k"}) by { OnlyK(s); }
  }

  lemma OnlyK(s: State)
    requires s.made.Keys == {"k"}
    ensures Members(s.made, s.places, "t", Open) <= {"k"}
  {
  }

  /** Both writes of the closed transition are pending, and its one task succeeded. */
  ghost predicate Racing(s: State) {
    && Inv(s) && BothPending(s, 0, "t") && "t" in s.closed && Finished(s)
    && "t" in s.aborts && s.aborts["t"].id == "t" && s.aborts["t"].state == TCanceled
  }

  predicate Finished(s: State) {
    s.made.Keys == {"k"} && "k" in s.places && s.places["k"] == Done(Succeeded)
  }

  lemma Closes(steps: seq<Step>, s: State) returns (more: seq<Step>, s': State)
    requires Aborting(steps, s)
    ensures Run(LIMITS, more, s') && Racing(s')
  {
    hide Run, Inv, NextDb, NextCalls, NextMarkers, NextProgress, NextLimiters, FinalState;
    LastOpen(s);
    RunsOneMore(steps, s, WorkerStep(0, Record(1)));
    more, s' := steps + [WorkerStep(0, Record(1))], Apply(s, WorkerStep(0, Record(1)));
    RunInv(LIMITS, more, s');
    AbortIs(s', "t");
  }

  lemma AbortIs(s: State, id: string)
    requires Inv(s) && id in s.aborts
    ensures s.aborts[id].id == id
  {
    hide Inv, Sound, Placed, Evident, Stored, Counts, Published, Logged, EntryOK, MarkerOK, WriterOK, UnderwayOK, Trail;
    Parts(s);
    assert AbortOK(s, id);
  }

  const FINAL := WorkerStep(0, FinalWrite(1, NoFault))
  const ABORT := AbortWriteStep("t", 1, NoFault)

  /** What the two writes leave alone, and what the second one writes. */
  lemma RaceKeeps(s: State)
    requires Racing(s)
    ensures var s1 := Apply(s, FINAL);
            var s2 := Apply(s1, ABORT);
            && s2.closed == s.closed && Finished(s2) && OpOf(s1, ABORT) == Some(UpdateOp(s.aborts["t"], 1, NoFault))
  {
    hide Inv, Apply, Update;
    Components(s, FINAL);
    Components(Apply(s, FINAL), ABORT);
    hide NextDb, NextCalls, NextProgress, NextWorkers, NextLimiters, NextQueue;
  }

  /** A committed abort write leaves the row canceled. */
  lemma RaceRow(s: State, t: Transition)
    requires Inv(s) && OpOf(s, ABORT) == Some(UpdateOp(t, 1, NoFault)) && WritesFor(s, ABORT, "t") && Commits(s, ABORT)
    requires IsRegistered(s, "t") && t.state == TCanceled && Enabled(s, ABORT)
    ensures RowState(Apply(s, ABORT), "t") == TCanceled
  {
    hide Inv, Sound, Placed, Counts, Evident, Stored, Ordered, Published, Logged, Apply, OpOf, WritesFor, Commits,
         NextDb, Enabled;
    Parts(s);
    RegisteredKnown(s, "t");
    StepRow(s, ABORT, "t");
    Components(s, ABORT);
  }

  lemma Race(steps: seq<Step>, s: State) returns (more: seq<Step>, s': State)
    requires Run(LIMITS, steps, s) && Racing(s)
    ensures Run(LIMITS, more, s') && "t" in s'.closed && Finished(s') && RowState(s', "t") == TCanceled
    ensures TrailOf(s', "t") == TrailOf(s, "t") + [AsFinal, AsAborted]
  {
    hide Run, Inv, Enabled, Apply, OpOf, RowState, TrailOf, WritesFor, Commits, Finished, LIMITS;
    assert ValidLimits(LIMITS) by { GoodLimits(); }
    var s1 := Apply(s, FINAL);
    AbortRacesFinal(LIMITS, steps, s, 0, "t", 1);
    IndependentWrites(s, 0, "t", 1);
    StepInv(s, FINAL);
    WriteIs(s1, ABORT, "t");
    RaceKeeps(s);
    Components(s, FINAL);
    RaceRow(s1, s.aborts["t"]) by { assert s1.closed == s.closed; }
    RunsOneMore(steps, s, FINAL);
    RunsOneMore(steps + [FINAL], s1, ABORT);
    more, s' := steps + [FINAL] + [ABORT], Apply(s1, ABORT);
  }

  lemma OnlyTarget(l: Limits, steps: seq<Step>, s: State)
    requires ValidLimits(l) && Run(l, steps, s) && "t" in s.closed && Finished(s)
    ensures AllEnded(s, "t", Succeeded) && ClosedState(s, "t") == TCompleted
  {
    hide Run, ClosedState;
    FinalStateExact(l, steps, s, "t");
  }

  /** The run: its only target succeeded and the runner closed it as completed, yet the last write committed is the
      abort's and the row says canceled. So the stored state after an abort does not follow from the outcomes. */
  lemma CanceledThoughCompleted() returns (steps: seq<Step>, s: State, before: seq<WriteKind>)
    ensures Run(LIMITS, steps, s) && "t" in s.closed && ClosedState(s, "t") == TCompleted && AllEnded(s, "t", Succeeded)
    ensures RowState(s, "t") == TCanceled && TrailOf(s, "t") == before + [AsFinal, AsAborted]
  {
    hide Run, Inv, Solo, Aborting, Racing, Now, LIMITS, ClosedState, AllEnded, RowState, TrailOf, Finished, Unmarked,
         Concluded, ByFault;
    assert ValidLimits(LIMITS) by { GoodLimits(); }
    steps, s := Begins();
    steps, s := Succeeds(steps, s, NoFault);
    steps, s := AbortsNow(steps, s);
    steps, s := Closes(steps, s);
    before := TrailOf(s, "t");
    steps, s := Race(steps, s);
    OnlyTarget(LIMITS, steps, s);
  }
}
