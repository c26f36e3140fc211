/** The order in which the writes of one transition are committed, and what its row says in the end: when it is
    complete, when it stays so, and what the row of a transition says that is never registered. */
module Histories {
  import opened Text
  import opened Records
  import opened PowerStates
  import opened Planning
  import opened TransitionStore
  import opened OutboxReplay
  import opened Engine
  import opened Placement
  import opened Ledger
  import opened Evidence
  import opened Trails
  import opened EngineInvariant
  import opened EngineSteps
  import opened Creation
  import opened EngineRuns
  import opened Conservation

  // ---------------------------------------------------------------- with or without an abort

  /** Every committed history is one of the legal ones: creation first, "running" and the closing write at most once and
      in this order, the abort write at most once and anywhere after the creation. */
  lemma HistoryLegal(l: Limits, steps: seq<Step>, s: State, id: string)
    requires ValidLimits(l) && Run(l, steps, s) && IsRegistered(s, id)
    ensures Legal(TrailOf(s, id))
    ensures AsFinal in TrailOf(s, id) ==> id in s.closed
    ensures AsAborted in TrailOf(s, id) ==> EntryAborted(s.progress, s.closed, id)
  {
    hide Run, Inv, TrailOf, Legal;
    RunInv(l, steps, s);
    EntryNow(s, id);
  }

  lemma EntryNow(s: State, id: string)
    requires Inv(s)
    ensures EntryOK(s, id)
  {
    hide Inv, Sound, Placed, Counts, Evident, Stored, Published, Logged, EntryOK, MarkerOK, WriterOK, AbortOK,
         UnderwayOK;
    Parts(s);
  }

  ghost predicate NeverAborted(steps: seq<Step>, id: string) {
    forall step :: step in steps ==> !IsAbortOf(step, id)
  }

  lemma {:induction false} OnlyAbortAborts(l: Limits, steps: seq<Step>, s: State, id: string)
    requires ValidLimits(l) && Run(l, steps, s) && NeverAborted(steps, id)
    ensures !EntryAborted(s.progress, s.closed, id)
    decreases |steps|
  {
    hide Enabled, Inv, Continues, NextDb, NextMade, NextPlaces, NextWork, NextCalls, NextProgress, NextClosed,
         NextMarkers, NextCanceled, NextAborts, NextQueue, NextWorkers, NextLimiters, EntryOK, IsAbortOf, Counts;
    if steps == [] {
      NoStep(Init(l), s);
    } else {
      hide EntryAborted, Init;
      var front, before, step := LastStep(Init(l), steps, s);
      OnlyAbortAborts(l, front, before, id);
      RunInv(l, front, before);
      EntryNow(before, id);
      Ledgers(before);
      AbortedStep(before, step, id);
    }
  }

  /** Without an abort call the states committed for a registered transition are pending, running, final, in this order,
      up to some point; and it is not closed before "running" is committed. */
  lemma UndisturbedHistory(l: Limits, steps: seq<Step>, s: State, id: string)
    requires ValidLimits(l) && Run(l, steps, s) && IsRegistered(s, id) && NeverAborted(steps, id)
    ensures TrailOf(s, id) <= [AsCreated, AsRunning, AsFinal] && TrailOf(s, id) != []
    ensures id in s.closed ==> AsRunning in TrailOf(s, id)
  {
    hide Run, Inv, TrailOf;
    RunInv(l, steps, s);
    OnlyAbortAborts(l, steps, s, id);
    EntryNow(s, id);
  }

  // ---------------------------------------------------------------- what the row says

  predicate Complete(db: Database, id: string) {
    id in db.transitions && db.transitions[id].completedAt.Some?
  }

  /** A stored row with a completion time, if its transition was closed by a worker, is the one the worker closed it
      with. */
  ghost predicate ClosedRow(db: Database, closed: map<string, Closing>, id: string) {
    id in closed && Complete(db, id) ==> SameEnd(db.transitions[id], closed[id].progress.transition)
  }

  /** A transition that is still active has no completion time in its row. */
  lemma ActiveRow(s: State, id: string)
    requires EntryOK(s, id) && Logged(s.db) && id in s.progress
    ensures !Complete(s.db, id)
  {
    hide Logged, Trail, Legal;
    RowIsLast(s.db, id);
    OnlyFinalEnds(s, id);
  }

  lemma OnlyFinalEnds(s: State, id: string)
    requires EntryOK(s, id) && id in s.progress
    ensures AsFinal !in TrailOf(s, id)
  {
    hide TrailOf, Legal;
  }

  ghost predicate EndsAsClosed(closed: map<string, Closing>, id: string, row: Transition) {
    id in closed && SameEnd(row, closed[id].progress.transition)
  }

  /** Which writes complete a row: the closing one does, those before it and the abort's take the time away. */
  lemma WriteCompletes(s: State, step: Step, id: string, row: Transition)
    requires Sound(s) && Enabled(s, step) && WritesFor(s, step, id) && IsRegistered(s, id) && IsWritten(s, step, row)
    ensures IsFinalWrite(s, step, id) <==> row.completedAt.Some?
    ensures IsFinalWrite(s, step, id) ==> EndsAsClosed(s.closed, id, row)
    ensures IsFinalWrite(s, step, id) || IsAbortWrite(s, step, id) || (IsRunningWrite(s, step, id) && id in s.progress)
  {
    hide Placed, Counts, Evident, Stored, Published, EntryOK, MarkerOK, AbortOK, UnderwayOK, TrailOf, CanAcquire;
    WritesInTurn(s, step, id);
    if step.WorkerStep? {
      assert WriterOK(s, step.w);
    }
  }

  lemma StepKeepsClosedRow(s: State, step: Step, id: string)
    requires Sound(s) && Logged(s.db) && Enabled(s, step) && ClosedRow(s.db, s.closed, id)
    ensures ClosedRow(NextDb(s, step), NextClosed(s, step), id)
  {
    hide Placed, Counts, Evident, Stored, Published, Ordered, Logged, Enabled, NextDb, NextProgress, NextClosed,
         SameEnd, IsWritten, InTurn, Closes, FlagChange, WritesFor, Commits, EntryOK;
    SoundEntry(s, id);
    EntryStep(s, step, id);
    StepRow(s, step, id);
    if id in s.progress {
      ActiveRow(s, id);
    }
    if IsRegistered(s, id) && WritesFor(s, step, id) && Commits(s, step) {
      WritesInTurn(s, step, id);
      WriteOrChange(s, step, id);
      WriteCompletes(s, step, id, NextDb(s, step).transitions[id]);
    }
  }

  lemma SoundEntry(s: State, id: string)
    requires Sound(s)
    ensures EntryOK(s, id) && Counts(s)
    ensures IsRegistered(s, id) ==> id in s.db.transitions
  {
    hide Placed, Counts, Evident, Published, EntryOK, MarkerOK, WriterOK, AbortOK, UnderwayOK;
  }

  lemma {:induction false} ClosedRowAlways(l: Limits, steps: seq<Step>, s: State, id: string)
    requires ValidLimits(l) && Run(l, steps, s)
    ensures ClosedRow(s.db, s.closed, id)
    decreases |steps|
  {
    hide Enabled, Inv, Continues, NextDb, NextMade, NextPlaces, NextWork, NextCalls, NextProgress, NextClosed,
         NextMarkers, NextCanceled, NextAborts, NextQueue, NextWorkers, NextLimiters, Sound, Logged, SameEnd, Counts;
    if steps == [] {
      NoStep(Init(l), s);
    } else {
      hide ClosedRow, Init;
      var front, before, step := LastStep(Init(l), steps, s);
      RunInv(l, front, before);
      ClosedRowAlways(l, front, before, id);
      Parts(before);
      StepKeepsClosedRow(before, step, id);
    }
  }

  function RowState(s: State, id: string): TransitionState {
    if id in s.db.transitions then s.db.transitions[id].state else TPending
  }

  /** The counts of the stored row add up to the targets. */
  ghost predicate RowAddsUp(s: State, id: string) {
    id in s.db.transitions &&
      var row := s.db.transitions[id];
      row.successCount + row.failureCount == row.targetCount == |Targets(s, id)|
  }

  /** What the table says once a row is complete: only a transition all of whose targets are counted has a completion
      time, its stored counts add up to its targets, and its stored state is the one the outcomes determine. */
  lemma StoredFinalState(l: Limits, steps: seq<Step>, s: State, id: string)
    requires ValidLimits(l) && Run(l, steps, s) && IsRegistered(s, id) && Complete(s.db, id)
    ensures Uncounted(s, id) == {} && RowAddsUp(s, id) && Determined(s, id, RowState(s, id))
  {
    hide Run, Inv, Determined, Uncounted, Targets, Sound, Logged, EntryOK;
    RunInv(l, steps, s);
    if id in s.progress {
      Parts(s);
      EntryNow(s, id);
      ActiveRow(s, id);
    }
    ClosedRowAlways(l, steps, s, id);
    ClosedExactlyWhenCounted(l, steps, s, id);
    FinalStateExact(l, steps, s, id);
  }

  // ---------------------------------------------------------------- the abort write and the closing write race

  /** The two writes of a transition that is aborted and complete. */
  ghost predicate BothPending(s: State, w: nat, id: string) {
    KnownTask(s, w) && At(s, w).Finalizing? && TransitionOf(s, w) == id && id in s.aborts
  }

  /** A write that the environment lets through is the last one in the history then. */
  lemma PendingWrite(s: State, step: Step, id: string)
    requires Inv(s) && Enabled(s, step) && WritesFor(s, step, id) && Commits(s, step)
    ensures TrailOf(Apply(s, step), id) == TrailOf(s, id) + [KindWritten(s, step)]
    ensures IsAbortWrite(s, step, id) ==> KindWritten(s, step) == AsAborted
    ensures IsFinalWrite(s, step, id) ==> KindWritten(s, step) == AsFinal
    ensures Inv(Apply(s, step))
  {
    hide Inv, Placed, Counts, Evident, Stored, Published, Ordered, Trail, Enabled, NextDb, NextMade, NextPlaces,
         NextWork, NextCalls, NextProgress, NextClosed, NextMarkers, NextCanceled, NextAborts, NextQueue, NextWorkers,
         NextLimiters, KindWritten, WritesFor, Commits, Terminal;
    Parts(s);
    WritesInTurn(s, step, id);
    StepKeeps(s, step, id) by { NotCreation(s, step, id); }
    StepInv(s, step);
  }

  lemma NotCreation(s: State, step: Step, id: string)
    requires WritesFor(s, step, id)
    ensures !step.CreateStep?
  {
  }

  /** What the two steps leave of each other's writes. */
  lemma IndependentWrites(s: State, w: nat, id: string, now: Time)
    requires BothPending(s, w, id)
    ensures var a, f := AbortWriteStep(id, now, NoFault), WorkerStep(w, FinalWrite(now, NoFault));
            && Enabled(s, a) && Enabled(s, f) && Enabled(Apply(s, a), f) && Enabled(Apply(s, f), a)
            && Commits(s, a) && Commits(s, f) && Commits(Apply(s, a), f) && Commits(Apply(s, f), a)
            && IsAbortWrite(s, a, id) && IsFinalWrite(s, f, id)
            && IsFinalWrite(Apply(s, a), f, id) && IsAbortWrite(Apply(s, f), a, id)
  {
    hide Update;
  }

  lemma WriteIs(s: State, step: Step, id: string)
    requires Inv(s) && (IsAbortWrite(s, step, id) || IsFinalWrite(s, step, id))
    ensures WritesFor(s, step, id)
  {
    hide Inv, Placed, Counts, Evident, Stored, Published, EntryOK, MarkerOK, UnderwayOK, Trail, TrailOf;
    Parts(s);
    assert AbortOK(s, id);
    if step.WorkerStep? {
      assert WriterOK(s, step.w);
    }
  }

  /** "canceled" in the table is not absorbing: nothing orders the abort write and the closing write of a transition
      that has both pending, and whichever is committed last decides what the history, and so the row, ends with. */
  lemma AbortRacesFinal(l: Limits, steps: seq<Step>, s: State, w: nat, id: string, now: Time)
    requires ValidLimits(l) && Run(l, steps, s) && BothPending(s, w, id)
    ensures var a, f := AbortWriteStep(id, now, NoFault), WorkerStep(w, FinalWrite(now, NoFault));
            && Enabled(s, a) && Enabled(Apply(s, a), f)
            && TrailOf(Apply(Apply(s, a), f), id) == TrailOf(s, id) + [AsAborted, AsFinal]
            && Enabled(s, f) && Enabled(Apply(s, f), a)
            && TrailOf(Apply(Apply(s, f), a), id) == TrailOf(s, id) + [AsFinal, AsAborted]
  {
    hide *;
    RunInv(l, steps, s);
    var a, f := AbortWriteStep(id, now, NoFault), WorkerStep(w, FinalWrite(now, NoFault));
    IndependentWrites(s, w, id, now);
    WriteIs(s, a, id);
    PendingWrite(s, a, id);
    WriteIs(Apply(s, a), f, id);
    PendingWrite(Apply(s, a), f, id);
    WriteIs(s, f, id);
    PendingWrite(s, f, id);
    WriteIs(Apply(s, f), a, id);
    PendingWrite(Apply(s, f), a, id);
    assert TrailOf(s, id) + [AsAborted] + [AsFinal] == TrailOf(s, id) + [AsAborted, AsFinal];
    assert TrailOf(s, id) + [AsFinal] + [AsAborted] == TrailOf(s, id) + [AsFinal, AsAborted];
  }

  // ---------------------------------------------------------------- when a row is complete

  /** The closing write of transition `id` is committed, whether or not the worker is told so. */
  ghost predicate FinalCommitted(s: State, step: Step, id: string) {
    IsFinalWrite(s, step, id) && Commits(s, step)
  }

  ghost predicate AbortCommitted(s: State, step: Step, id: string) {
    IsAbortWrite(s, step, id) && Commits(s, step)
  }

  /** Transition `id` is registered and its row has a completion time. */
  ghost predicate RowEnded(s: State, id: string) {
    IsRegistered(s, id) && Complete(s.db, id)
  }

  /** A transition about to be registered has no completion time in its row. */
  lemma FreshRow(s: State, id: string)
    requires EntryOK(s, id) && Logged(s.db) && CanRegister(s, id)
    ensures !Complete(s.db, id)
  {
    hide Logged, Trail, EntryFits;
    RowIsLast(s.db, id);
  }

  lemma WrittenEnds(s: State, step: Step, id: string)
    requires Sound(s) && Logged(s.db) && Enabled(s, step) && WritesFor(s, step, id) && Commits(s, step)
    requires IsRegistered(s, id)
    ensures Complete(NextDb(s, step), id) <==>
            FinalCommitted(s, step, id) || (Complete(s.db, id) && !AbortCommitted(s, step, id))
  {
    hide Placed, Counts, Evident, Stored, Published, Ordered, Logged, Enabled, NextDb, SameEnd, IsWritten, WritesFor,
         Commits, EntryOK;
    SoundEntry(s, id);
    StepRow(s, step, id);
    WriteCompletes(s, step, id, NextDb(s, step).transitions[id]);
    if id in s.progress {
      ActiveRow(s, id);
    }
  }

  ghost predicate EndedAfter(s: State, step: Step, id: string) {
    (id in NextProgress(s, step) || id in NextClosed(s, step)) && Complete(NextDb(s, step), id)
  }

  lemma AfterIs(s: State, step: Step, id: string)
    ensures RowEnded(Apply(s, step), id) <==> EndedAfter(s, step, id)
  {
    hide NextDb, NextMade, NextPlaces, NextWork, NextCalls, NextProgress, NextClosed, NextMarkers, NextCanceled,
         NextAborts, NextQueue, NextWorkers, NextLimiters, Complete;
  }

  /** A step that commits no write of the transition. */
  lemma UnwrittenEnds(s: State, step: Step, id: string)
    requires Sound(s) && Logged(s.db) && Enabled(s, step) && !(WritesFor(s, step, id) && Commits(s, step))
    ensures EndedAfter(s, step, id) <==> RowEnded(s, id)
  {
    hide Placed, Counts, Evident, Stored, Published, Ordered, Logged, Enabled, NextDb, NextProgress, NextClosed,
         WritesFor, Commits, IsWritten, EntryOK;
    SoundEntry(s, id);
    StaysRegistered(s, step, id);
    StepRow(s, step, id);
    if step == RegisterStep(id) {
      assert CanRegister(s, id) by { Registers(s, step, id); }
      FreshRow(s, id);
      CallKnown(s, id);
    }
  }

  lemma Registers(s: State, step: Step, id: string)
    requires Enabled(s, step) && step == RegisterStep(id)
    ensures CanRegister(s, id)
  {
  }

  lemma CallKnown(s: State, id: string)
    requires Sound(s) && id in s.calls
    ensures id in s.db.transitions
  {
    hide Placed, Counts, Evident, Published, Ordered;
  }

  lemma StepEnds(s: State, step: Step, id: string)
    requires Inv(s) && Enabled(s, step)
    ensures RowEnded(Apply(s, step), id) <==>
            FinalCommitted(s, step, id) || (RowEnded(s, id) && !AbortCommitted(s, step, id))
  {
    hide Apply, Inv, Sound, Logged, Enabled, NextDb, NextProgress, NextClosed, Commits, IsFinalWrite, IsAbortWrite,
         WritesFor, InTurn, Complete, Placed, Counts, Evident, Stored, Ordered, Published,
         IsWritten;
    AfterIs(s, step, id);
    Parts(s);
    if IsFinalWrite(s, step, id) || IsAbortWrite(s, step, id) {
      WriteIs(s, step, id);
    }
    if WritesFor(s, step, id) && Commits(s, step) {
      WritesInTurn(s, step, id);
      WriteOrChange(s, step, id);
      if IsRegistered(s, id) {
        WrittenEnds(s, step, id);
      } else {
        NotItsTurn(s, step, id);
      }
    } else {
      UnwrittenEnds(s, step, id);
    }
  }

  lemma NotItsTurn(s: State, step: Step, id: string)
    requires InTurn(s, step, id) && !IsRegistered(s, id)
    ensures !IsFinalWrite(s, step, id) && !IsAbortWrite(s, step, id)
  {
    hide TrailOf;
  }

  /** On the way a closing write of transition `id` was committed, and no abort write of it since. */
  ghost predicate EndStands(steps: seq<Step>, states: seq<State>, id: string) {
    && |states| == |steps| + 1
    && exists k {:trigger steps[k]} :: 0 <= k < |steps| && FinalCommitted(states[k], steps[k], id) &&
         forall j {:trigger steps[j]} :: k < j < |steps| ==> !AbortCommitted(states[j], steps[j], id)
  }

  lemma EndStep(steps: seq<Step>, states: seq<State>, s: State, step: Step, s': State, id: string)
    requires |states| == |steps|
    ensures EndStands(steps + [step], states + [s] + [s'], id) <==>
            FinalCommitted(s, step, id) || (EndStands(steps, states + [s], id) && !AbortCommitted(s, step, id))
  {
    hide FinalCommitted, AbortCommitted;
    var n, all, after := |steps|, steps + [step], states + [s] + [s'];
    assert all[n] == step && after[n] == s;
    assert forall j :: 0 <= j < n ==> all[j] == steps[j] && after[j] == (states + [s])[j];
    if EndStands(steps, states + [s], id) && !AbortCommitted(s, step, id) {
      var k :| 0 <= k < n && FinalCommitted((states + [s])[k], steps[k], id) &&
        forall j {:trigger steps[j]} :: k < j < n ==> !AbortCommitted((states + [s])[j], steps[j], id);
      assert FinalCommitted(after[k], all[k], id);
    }
    if EndStands(all, after, id) && !FinalCommitted(s, step, id) {
      var k :| 0 <= k <= n && FinalCommitted(after[k], all[k], id) &&
        forall j {:trigger all[j]} :: k < j <= n ==> !AbortCommitted(after[j], all[j], id);
      assert FinalCommitted((states + [s])[k], steps[k], id);
    }
  }

  lemma {:induction false} EndsAlong(l: Limits, steps: seq<Step>, states: seq<State>, id: string)
    requires ValidLimits(l) && Course(l, steps, states)
    ensures RowEnded(EndOf(l, states), id) <==> EndStands(steps, states, id)
    decreases |steps|
  {
    hide Inv, Course, Enabled, Apply, Path, FinalCommitted, AbortCommitted, Run;
    CourseRun(l, steps, states);
    if steps != [] {
      hide RowEnded, EndStands, Init, EndOf;
      var front, before, step := CourseStep(l, steps, states);
      EndsAlong(l, front, before, id);
      CourseRun(l, front, before);
      RunInv(l, front, EndOf(l, before));
      StepEnds(EndOf(l, before), step, id);
      Whole(l, before);
      EndStep(front, before[..|front|], EndOf(l, before), step, EndOf(l, states), id);
    }
  }

  /** The row of a registered transition is complete if and only if its closing write was committed, reported or not,
      and no abort write of it was committed afterwards; in particular a closed transition whose closing write the
      database fails keeps a row without a completion time. */
  lemma CompleteUnlessOverwritten(l: Limits, steps: seq<Step>, states: seq<State>, id: string)
    requires ValidLimits(l) && Course(l, steps, states) && IsRegistered(EndOf(l, states), id)
    ensures Complete(EndOf(l, states).db, id) <==> EndStands(steps, states, id)
  {
    hide Course, Complete, EndStands;
    EndsAlong(l, steps, states, id);
  }

  // ---------------------------------------------------------------- when it stays so

  /** Transition `id` is closed, its row is complete, and no AbortTransition call has its write before it. */
  ghost predicate Safe(s: State, id: string, row: Transition) {
    && id in s.closed && id !in s.aborts
    && id in s.db.transitions && s.db.transitions[id] == row && row.completedAt.Some?
  }

  /** The closing write of a transition whose row is complete has been made, and no other write has its turn. */
  lemma NothingLeft(s: State, step: Step, id: string)
    requires Sound(s) && Logged(s.db) && id in s.closed && id !in s.aborts && Complete(s.db, id)
    ensures !InTurn(s, step, id)
  {
    hide Placed, Counts, Evident, Stored, Published, MarkerOK, WriterOK, AbortOK, UnderwayOK, Logged, Trail, Legal,
         KindWritten;
    assert EntryOK(s, id);
    RowIsLast(s.db, id);
  }

  lemma StepKeepsSafe(s: State, step: Step, id: string, row: Transition)
    requires Inv(s) && Enabled(s, step) && Safe(s, id, row)
    ensures Safe(Apply(s, step), id, row)
  {
    hide Inv, Placed, Counts, Evident, Stored, Published, Ordered, Logged, NextDb, NextMade, NextPlaces, NextWork,
         NextCalls, NextProgress, NextClosed, NextMarkers, NextCanceled, NextQueue, NextWorkers, NextLimiters,
         WritesFor, Commits, IsWritten, InTurn, EntryOK, CanAct;
    Parts(s);
    SoundEntry(s, id);
    StaysClosed(s, step, id);
    StepRow(s, step, id);
    NothingLeft(s, step, id);
    if WritesFor(s, step, id) {
      WritesInTurn(s, step, id);
    }
  }

  lemma StaysClosed(s: State, step: Step, id: string)
    requires Counts(s) && EntryOK(s, id) && Enabled(s, step) && id in s.closed
    ensures id in NextClosed(s, step) && id !in s.progress
  {
    hide Counts, TrailOf, Enabled, NextProgress, NextClosed, Fits;
    EntryStep(s, step, id);
  }

  lemma {:induction false} SafeForever(s: State, steps: seq<Step>, s': State, id: string, row: Transition)
    requires Inv(s) && Continues(s, steps, s') && Safe(s, id, row)
    ensures Safe(s', id, row)
    decreases |steps|
  {
    hide *;
    if steps == [] {
      NoStep(s, s');
    } else {
      var front, before, step := LastStep(s, steps, s');
      SafeForever(s, front, before, id, row);
      ContinuedInv(s, front, before);
      StepKeepsSafe(before, step, id, row);
    }
  }

  /** The row of transition `id` is as in `s`. */
  ghost predicate SameRow(s: State, s': State, id: string) {
    id in s.db.transitions && id in s'.db.transitions && s'.db.transitions[id] == s.db.transitions[id]
  }

  /** A pending abort write can take the completion time away. */
  lemma AbortOverwrites(s: State, id: string) returns (steps: seq<Step>, s': State)
    requires Inv(s) && id in s.aborts && id in s.closed && Complete(s.db, id)
    ensures Continues(s, steps, s') && !SameRow(s, s', id)
  {
    hide Inv, Continues, Complete, NextDb, NextMade, NextPlaces, NextWork, NextCalls, NextProgress, NextClosed,
         NextMarkers, NextCanceled, NextAborts, NextQueue, NextWorkers, NextLimiters, IsFinalWrite, OpOf;
    var step := AbortWriteStep(id, 0, NoFault);
    steps, s' := [step], Apply(s, step);
    NoStep(s, s);
    OneStepMore(s, [], s, step);
    assert [] + [step] == [step];
    StepEnds(s, step, id);
    AbortLands(s, id);
    assert RowEnded(s, id) && !RowEnded(s', id);
    SameCompletion(s, s', id);
  }

  lemma AbortLands(s: State, id: string)
    requires id in s.aborts
    ensures AbortCommitted(s, AbortWriteStep(id, 0, NoFault), id)
    ensures !FinalCommitted(s, AbortWriteStep(id, 0, NoFault), id)
    ensures IsRegistered(s, id) ==> IsRegistered(Apply(s, AbortWriteStep(id, 0, NoFault)), id)
  {
    hide NextDb, NextWorkers;
  }

  lemma SameCompletion(s: State, s': State, id: string)
    requires IsRegistered(s', id) && RowEnded(s, id) && !RowEnded(s', id)
    ensures !SameRow(s, s', id)
  {
  }

  /** Once the row of a closed transition is complete it is never changed again, by any continuation of the run, if and
      only if no AbortTransition call stands between its section and its write. */
  lemma StoredOutcomeStays(l: Limits, run: seq<Step>, s: State, id: string)
    requires ValidLimits(l) && Run(l, run, s) && id in s.closed && Complete(s.db, id)
    ensures id !in s.aborts <==> forall steps, s' :: Continues(s, steps, s') ==> SameRow(s, s', id)
  {
    hide Run, Inv, Continues;
    RunInv(l, run, s);
    if id !in s.aborts {
      forall steps, s' | Continues(s, steps, s') ensures SameRow(s, s', id) {
        SafeForever(s, steps, s', id, s.db.transitions[id]);
      }
    } else {
      var steps, s' := AbortOverwrites(s, id);
    }
  }

  /** The targets that could not be routed. */
  function Unrouted(s: State, id: string): set<string> {
    set t | t in s.made && s.made[t].task.transitionID == id && s.made[t].task.state.Failed?
  }

  /** A row whose counts are those of the creation. */
  ghost predicate CountsAsCreated(s: State, id: string, row: Transition) {
    row.targetCount == |Targets(s, id)| && row.successCount == 0 && row.failureCount == |Unrouted(s, id)|
  }

  /** The row of a transition without executable task is complete from the start: planned in a dry run, failed
      otherwise. */
  ghost predicate CompleteAsCreated(s: State, id: string, row: Transition) {
    && row.completedAt.Some? && row.state == (if row.dryRun then TPlanned else TFailed)
    && forall t :: t in Targets(s, id) ==> !s.made[t].task.state.Pending?
  }

  /** The row of a transition that is not registered: as it was created, pending as long as its call has yet to register
      it, and complete if there is nothing to execute. */
  ghost predicate RowAsCreated(s: State, id: string) {
    id in s.db.transitions && !IsRegistered(s, id) ==>
      var row := s.db.transitions[id];
      && CountsAsCreated(s, id, row)
      && (if CanRegister(s, id) then row == s.calls[id].transition && row.state.TPending? && row.completedAt.None?
          else CompleteAsCreated(s, id, row))
      && (CanFinish(s, id) ==> SameEnd(s.calls[id].transition, row))
  }

  // ---------------------------------------------------------------- rows of transitions that are not registered

  lemma NewTarget(s: State, s': State, id: string, op: Operation, news: seq<Task>, i: nat)
    requires NewTasksIn(s, s', id, op, news) && i < |news|
    ensures news[i].id in Targets(s', id) && (news[i].id in Unrouted(s', id) <==> news[i].state.Failed?)
    ensures news[i].id in s'.made && s'.made[news[i].id].task == news[i]
  {
    hide OldAt, RowAt, TidyRoute;
    assert NewAt(s', op, news[i]) && GoodTask(id, news[i]);
  }

  lemma TargetIsNew(s: State, s': State, id: string, op: Operation, news: seq<Task>, t: string)
    requires NewTasksIn(s, s', id, op, news) && Unheard(s, id) && t in Targets(s', id)
    ensures exists i :: 0 <= i < |news| && news[i].id == t
  {
    hide RowAt, GoodTask, NewAt;
    assert OldAt(s, s', t);
    Unrelated(s, s', id, t);
    var n := Appears(s, s', id, op, news, t);
  }

  lemma BornTargets(s: State, s': State, id: string, op: Operation, news: seq<Task>)
    requires NewTasksIn(s, s', id, op, news) && Unheard(s, id)
    ensures |Targets(s', id)| == |news| && |Unrouted(s', id)| == CountState(news, Failed)
  {
    hide NewTasksIn, Unheard, OwnIDs, CountState;
    BornOwn(s, s', id, op, news);
    forall i | 0 <= i < |news|
      ensures news[i].id in Targets(s', id) && (news[i].id in Unrouted(s', id) <==> news[i].state.Failed?)
    {
      NewTarget(s, s', id, op, news, i);
    }
    forall t | t in Targets(s', id) ensures exists i :: 0 <= i < |news| && news[i].id == t {
      TargetIsNew(s, s', id, op, news, t);
    }
    hide Targets;
    assert Unrouted(s', id) <= Targets(s', id) by { UnroutedTargets(s', id); }
    hide Unrouted;
    assert Targets(s', id) == AllIDs(news);
    assert Unrouted(s', id) == IDsIn(news, Failed);
    CountAll(news);
    CountIDs(news, Failed);
  }

  lemma UnroutedTargets(s: State, id: string)
    ensures Unrouted(s, id) <= Targets(s, id)
  {
  }

  /** Old transitions have the targets they had. */
  lemma OldTargets(s: State, s': State, id: string, op: Operation, news: seq<Task>, c: string)
    requires NewTasksIn(s, s', id, op, news) && c != id
    ensures Targets(s', c) == Targets(s, c) && Unrouted(s', c) == Unrouted(s, c)
    ensures forall t :: t in Targets(s, c) ==> t in s'.made && s'.made[t] == s.made[t]
  {
    hide NewTasksIn;
    forall t
      ensures t in s.made ==> t in s'.made && s'.made[t] == s.made[t]
      ensures t in s'.made && t !in s.made ==> s'.made[t].task.transitionID == id
    {
      BornStays(s, s', id, op, news, t);
      if t in s'.made {
        BornPlace(s, s', id, op, news, t);
      }
    }
  }

  lemma BornRowAsCreated(s: State, s': State, row: Transition, req: Request, tasks: seq<Task>, news: seq<Task>, c: Call)
    requires Born(s, s', row, req.operation, news, c) && RowOf(req, tasks, row) && AsPlanned(req, tasks, row.id, news)
    requires c == FirstCall(req, row, news)
    ensures RowAsCreated(s', row.id)
  {
    hide NewTasksIn, Unheard, OldAt, GoodNews, PendingItems, TrailOf, Trimmed;
    BornTargets(s, s', row.id, req.operation, news);
    SameCount(news, tasks, Failed);
    SameCount(news, tasks, Pending);
    NoneCounted(news, Pending);
    hide CountState;
    forall t | t in Targets(s', row.id)
      ensures exists i :: 0 <= i < |news| && t in s'.made && s'.made[t].task == news[i]
    {
      TargetIsNew(s, s', row.id, req.operation, news, t);
      var i :| 0 <= i < |news| && news[i].id == t;
      NewTarget(s, s', row.id, req.operation, news, i);
    }
    hide Unrouted;
  }

  lemma OldRowAsCreated(s: State, s': State, row: Transition, op: Operation, news: seq<Task>, c: Call, id: string)
    requires Born(s, s', row, op, news, c) && id != row.id && RowAsCreated(s, id)
    ensures RowAsCreated(s', id)
  {
    hide NewTasksIn, Unheard, NewCall, TrailOf, Trimmed;
    OldTargets(s, s', row.id, op, news, id);
    hide Unrouted;
  }

  // ---------------------------------------------------------------- such a row and the other steps

  /** No write of an unregistered transition has its turn but the closing update of its own call. */
  lemma UnregisteredWrite(s: State, step: Step, id: string)
    requires Sound(s) && Enabled(s, step) && !IsRegistered(s, id) && WritesFor(s, step, id)
    ensures CanFinish(s, id) && forall row :: IsWritten(s, step, row) ==> SameEnd(row, s.calls[id].transition)
  {
    hide Placed, Counts, Evident, Stored, Published, Ordered, TrailOf, KindWritten, CanAct;
    WritesInTurn(s, step, id);
  }

  lemma StepRowAsCreated(s: State, step: Step, id: string)
    requires Sound(s) && Enabled(s, step) && !step.CreateStep? && RowAsCreated(s, id)
    ensures RowAsCreated(Apply(s, step), id)
  {
    hide Placed, Counts, Evident, Stored, Published, Ordered, NextDb, NextPlaces, NextWork, NextCalls, NextProgress,
         NextClosed, NextMarkers, NextCanceled, NextAborts, NextQueue, NextWorkers, NextLimiters, CanAct, Commits,
         WritesFor, IsWritten, Unrouted, TrailGrows, WritesTask, NextMade;
    StaysRegistered(s, step, id);
    StepRow(s, step, id);
    StepKeeps(s, step, id);
    SameTargets(s, step, id);
    if id in NextCalls(s, step) {
      CallsStay(s, step, id);
    }
    if CanRegister(s, id) && step != RegisterStep(id) {
      StaysFresh(s, step, id);
    }
    if !IsRegistered(s, id) && WritesFor(s, step, id) {
      UnregisteredWrite(s, step, id);
    }
  }

  lemma StaysFresh(s: State, step: Step, id: string)
    requires Enabled(s, step) && !step.CreateStep? && CanRegister(s, id) && step != RegisterStep(id)
    ensures id in NextCalls(s, step) && NextCalls(s, step)[id] == s.calls[id]
  {
    hide CanAct;
  }

  lemma SameTargets(s: State, step: Step, id: string)
    requires !step.CreateStep?
    ensures Apply(s, step).made == s.made
    ensures Unrouted(Apply(s, step), id) == Unrouted(s, id) && Targets(Apply(s, step), id) == Targets(s, id)
  {
    SameMade(s, step);
    hide Apply;
  }

  lemma CreateRowAsCreated(s: State, step: Step, id: string)
    requires Inv(s) && Enabled(s, step) && step.CreateStep? && RowAsCreated(s, id)
    ensures RowAsCreated(Apply(s, step), id)
  {
    hide Inv, Sound, Placed, Stored, Ordered, Logged, Apply, Enabled, Created, Born, RowOf, AsPlanned, RowAsCreated,
         FirstCall, TasksOf, Counts;
    Parts(s);
    if Created(s, step).None? {
      NothingCreated(s, step);
    } else {
      var (row, news) := Created(s, step).value;
      var s', c := Apply(s, step), FirstCall(step.req, row, news);
      CreationStep(s, step, row, news);
      if id == row.id {
        BornRowAsCreated(s, s', row, step.req, TasksOf(step), news, c);
      } else {
        OldRowAsCreated(s, s', row, step.req.operation, news, c, id);
      }
    }
  }

  lemma {:induction false} AlwaysAsCreated(l: Limits, steps: seq<Step>, s: State, id: string)
    requires ValidLimits(l) && Run(l, steps, s)
    ensures RowAsCreated(s, id)
    decreases |steps|
  {
    hide Inv, Sound, Apply, Enabled, Continues, RowAsCreated, Counts;
    if steps == [] {
      NoStep(Init(l), s);
      StartAsCreated(l, id);
    } else {
      hide Init;
      var front, before, step := LastStep(Init(l), steps, s);
      RunInv(l, front, before);
      AlwaysAsCreated(l, front, before, id);
      Parts(before);
      if step.CreateStep? {
        CreateRowAsCreated(before, step, id);
      } else {
        StepRowAsCreated(before, step, id);
      }
    }
  }

  lemma StartAsCreated(l: Limits, id: string)
    ensures RowAsCreated(Init(l), id)
  {
  }

  /** Over any run the row of a transition that is not registered says what its creation found out: all targets, no
      success, a failure for each node that could not be routed. It is pending while its call is about to register it,
      and otherwise complete, planned in a dry run and failed if no node could be routed, whether or not the closing
      update of its call was made or went through. */
  lemma UnregisteredRow(l: Limits, steps: seq<Step>, s: State, id: string)
    requires ValidLimits(l) && Run(l, steps, s) && id in s.db.transitions && !IsRegistered(s, id)
    ensures RowAsCreated(s, id)
    ensures CanRegister(s, id) || Idle(s, id)
  {
    hide Run, Targets, Unrouted;
    AlwaysAsCreated(l, steps, s, id);
  }

  /** The row of `id` has its final state and counts from the creation on. */
  ghost predicate Idle(s: State, id: string) {
    id in s.db.transitions && CountsAsCreated(s, id, s.db.transitions[id]) &&
      CompleteAsCreated(s, id, s.db.transitions[id])
  }
}
