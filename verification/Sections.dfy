/** The critical sections of the runner: what happens to the `progress` map while `progressMu` is held, and to the
    BMC limiters (engine/runner.go). Each section is given as a function, and the class does it with assignments. */
module Sections {
  import opened Text
  import opened Records

  /** `transitionProgress`. Whether its context has been canceled is kept in the runner's `canceled` set. */
  datatype Progress = Progress(
    transition: Transition,
    remaining: int,
    executableTotal: int,
    canceledCount: int,
    started: bool,
    aborted: bool)

  function Registered(t: Transition, executable: nat): Progress {
    Progress(t, executable, executable, 0, false, false)
  }

  // ---------------------------------------------------------------- markTransitionRunning

  datatype Mark = NoEntry | Skip | Persist(snapshot: Transition)

  function Started(p: Progress, now: Time): Progress {
    p.(started := true, transition := p.transition.(state := TRunning, startedAt := Some(now), updatedAt := now))
  }

  function MarkOf(progress: map<string, Progress>, id: string, now: Time): Mark {
    if id !in progress then NoEntry
    else if progress[id].aborted || progress[id].started then Skip
    else Persist(Started(progress[id], now).transition)
  }

  function AfterMark(progress: map<string, Progress>, id: string, now: Time): map<string, Progress> {
    if MarkOf(progress, id, now).Persist? then progress[id := Started(progress[id], now)] else progress
  }

  // ---------------------------------------------------------------- AbortTransition

  function Aborted(p: Progress, now: Time): Progress {
    p.(aborted := true, transition := p.transition.(state := TCanceled, updatedAt := now))
  }

  predicate Abortable(progress: map<string, Progress>, id: string) {
    id in progress && !progress[id].aborted
  }

  function AfterAbort(progress: map<string, Progress>, id: string, now: Time): map<string, Progress> {
    if Abortable(progress, id) then progress[id := Aborted(progress[id], now)] else progress
  }

  // ---------------------------------------------------------------- recordTaskOutcome

  /** `finalTransitionState`. */
  function FinalState(p: Progress): TransitionState {
    if && p.executableTotal > 0
       && p.canceledCount == p.executableTotal
       && p.transition.successCount == 0
       && p.transition.failureCount == p.canceledCount
    then TCanceled
    else if p.transition.failureCount == 0 then TCompleted
    else if p.transition.successCount == 0 then TFailed
    else TPartial
  }

  function Counted(p: Progress, outcome: TaskState): Progress {
    var t := if outcome.Succeeded? then p.transition.(successCount := p.transition.successCount + 1)
             else p.transition.(failureCount := p.transition.failureCount + 1);
    p.(transition := t, canceledCount := p.canceledCount + (if outcome.Canceled? then 1 else 0),
       remaining := p.remaining - 1)
  }

  lemma StateIgnoresTimes(p: Progress, now: Time)
    ensures FinalState(p.(transition := p.transition.(completedAt := Some(now), updatedAt := now))) == FinalState(p)
  {
  }

  function Closed(p: Progress, now: Time): Progress {
    p.(transition := p.transition.(completedAt := Some(now), updatedAt := now, state := FinalState(p)))
  }

  /** The snapshot to write if this outcome was the last one. */
  function FinalOf(progress: map<string, Progress>, id: string, outcome: TaskState, now: Time): Option<Transition> {
    if id !in progress then None
    else
      var p := Counted(progress[id], outcome);
      if p.remaining <= 0 then Some(Closed(p, now).transition) else None
  }

  function AfterRecord(progress: map<string, Progress>, id: string, outcome: TaskState): map<string, Progress> {
    if id !in progress then progress
    else
      var p := Counted(progress[id], outcome);
      if p.remaining <= 0 then progress - {id} else progress[id := p]
  }

  // ---------------------------------------------------------------- the runner's shared state

  datatype AbortResult = TransitionNotFound | AlreadyAborted | PersistAbort(snapshot: Transition)

  /** What each section answers, and what it leaves: for `markTransitionRunning`, `AbortTransition` with an identifier
      that is trimmed and not blank, and `recordTaskOutcome`. */
  predicate MarkAnswer(progress: map<string, Progress>, id: string, now: Time, r: Mark, after: map<string, Progress>) {
    && r == MarkOf(progress, id, now) && after == AfterMark(progress, id, now)
    && (r.NoEntry? <==> id !in progress)
    && (r.Persist? <==> id in progress && !progress[id].aborted && !progress[id].started)
    && (r.Persist? ==>
          && r.snapshot == progress[id].transition.(state := TRunning, startedAt := Some(now), updatedAt := now)
          && after == progress[id := progress[id].(started := true, transition := r.snapshot)])
    && (!r.Persist? ==> after == progress)
  }

  predicate AbortAnswer(progress: map<string, Progress>, canceled: set<string>, id: string, now: Time, r: AbortResult,
                        after: map<string, Progress>, canceled': set<string>)
  {
    && (r.TransitionNotFound? <==> id !in progress)
    && (r.PersistAbort? <==> id in progress && !progress[id].aborted)
    && (r.PersistAbort? ==>
          && r.snapshot == progress[id].transition.(state := TCanceled, updatedAt := now)
          && after == progress[id := progress[id].(aborted := true, transition := r.snapshot)])
    && (!r.PersistAbort? ==> after == progress)
    && canceled' == if r.PersistAbort? then canceled + {id} else canceled
  }

  predicate RecordAnswer(progress: map<string, Progress>, canceled: set<string>, id: string, outcome: TaskState,
                         now: Time, persist: Option<Transition>, after: map<string, Progress>, canceled': set<string>)
  {
    && after == AfterRecord(progress, id, outcome)
    && persist == FinalOf(progress, id, outcome, now)
    && (persist.Some? <==> id in progress && progress[id].remaining <= 1)
    && (persist.Some? ==>
          && persist.value.completedAt == Some(now) && persist.value.updatedAt == now
          && persist.value.startedAt == progress[id].transition.startedAt && after == progress - {id})
    && canceled' == if persist.Some? then canceled + {id} else canceled
  }

  class Runner {
    var progress: map<string, Progress>
    /** Transitions whose execution context has been canceled. */
    var canceled: set<string>
    /** Occupancy of each BMC's channel; a BMC without an entry has no channel yet. */
    var bmcLimiters: map<string, nat>
    const perBMCConcurrency: nat

    ghost predicate Valid()
      reads this
    {
      perBMCConcurrency > 0 && forall b :: b in bmcLimiters ==> bmcLimiters[b] <= perBMCConcurrency
    }

    constructor (perBMC: nat)
      requires perBMC > 0
      ensures Valid() && progress == map[] && canceled == {} && bmcLimiters == map[] && perBMCConcurrency == perBMC
    {
      perBMCConcurrency := perBMC;
      progress, canceled, bmcLimiters := map[], {}, map[];
    }

    /** The section of StartTransition that makes the transition known to the workers. */
    method Register(t: Transition, executable: nat)
      modifies this`progress
      ensures progress == old(progress)[t.id := Registered(t, executable)]
    {
      progress := progress[t.id := Progress(t, executable, executable, 0, false, false)];
    }

    method MarkTransitionRunning(id: string, now: Time) returns (r: Mark)
      modifies this`progress
      ensures MarkAnswer(old(progress), id, now, r, progress)
    {
      if id !in progress {
        return NoEntry;
      }
      var p := progress[id];
      if p.aborted {
        return Skip;
      }
      r := Skip;
      if !p.started {
        p := p.(started := true);
        p := p.(transition := p.transition.(state := TRunning, startedAt := Some(now), updatedAt := now));
        progress := progress[id := p];
        r := Persist(p.transition);
      }
    }

    method AbortTransition(transitionID: string, now: Time) returns (r: AbortResult)
      modifies this`progress, this`canceled
      ensures if Blank(transitionID) then
                r.TransitionNotFound? && progress == old(progress) && canceled == old(canceled)
              else AbortAnswer(old(progress), old(canceled), TrimSpace(transitionID), now, r, progress, canceled)
    {
      var id := TrimSpace(transitionID);
      BlankMeans(transitionID);
      if id == "" || id !in progress {
        return TransitionNotFound;
      }
      var p := progress[id];
      if p.aborted {
        return AlreadyAborted;
      }
      p := p.(aborted := true);
      canceled := canceled + {id};
      p := p.(transition := p.transition.(state := TCanceled, updatedAt := now));
      progress := progress[id := p];
      return PersistAbort(p.transition);
    }

    method RecordTaskOutcome(id: string, outcome: TaskState, now: Time) returns (persist: Option<Transition>)
      modifies this`progress, this`canceled
      ensures RecordAnswer(old(progress), old(canceled), id, outcome, now, persist, progress, canceled)
    {
      hide FinalState;
      if id !in progress {
        return None;
      }
      var p := progress[id];
      match outcome {
        case Succeeded =>
          p := p.(transition := p.transition.(successCount := p.transition.successCount + 1));
        case Canceled =>
          p := p.(transition := p.transition.(failureCount := p.transition.failureCount + 1));
          p := p.(canceledCount := p.canceledCount + 1);
        case _ =>
          p := p.(transition := p.transition.(failureCount := p.transition.failureCount + 1));
      }
      p := p.(remaining := p.remaining - 1);
      if p.remaining > 0 {
        progress := progress[id := p];
        return None;
      }
      StateIgnoresTimes(p, now);
      p := p.(transition := p.transition.(completedAt := Some(now), updatedAt := now));
      p := p.(transition := p.transition.(state := FinalState(p)));
      canceled := canceled + {id};
      progress := progress - {id};
      return Some(p.transition);
    }

    /** `bmcLimiter` and a send on the channel: false means the caller keeps waiting. A blank id has no channel. */
    method AcquireBMC(bmcID: string) returns (acquired: bool)
      requires Valid()
      modifies this`bmcLimiters
      ensures Valid()
      ensures var b := TrimSpace(bmcID);
              if b == "" then acquired && bmcLimiters == old(bmcLimiters)
              else
                var n := if b in old(bmcLimiters) then old(bmcLimiters)[b] else 0;
                && (acquired <==> n < perBMCConcurrency)
                && bmcLimiters == old(bmcLimiters)[b := if acquired then n + 1 else n]
    {
      var b := TrimSpace(bmcID);
      if b == "" {
        return true;
      }
      if b !in bmcLimiters {
        bmcLimiters := bmcLimiters[b := 0];
      }
      acquired := bmcLimiters[b] < perBMCConcurrency;
      if acquired {
        bmcLimiters := bmcLimiters[b := bmcLimiters[b] + 1];
      }
    }

    /** The function a holder defers. */
    method ReleaseBMC(bmcID: string)
      requires Valid() && TrimSpace(bmcID) in bmcLimiters && bmcLimiters[TrimSpace(bmcID)] > 0
      modifies this`bmcLimiters
      ensures Valid() && bmcLimiters == old(bmcLimiters)[TrimSpace(bmcID) := old(bmcLimiters)[TrimSpace(bmcID)] - 1]
    {
      var b := TrimSpace(bmcID);
      bmcLimiters := bmcLimiters[b := bmcLimiters[b] - 1];
    }
  }
}
