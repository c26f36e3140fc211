/** The limiters: each BMC's occupancy is the number of workers that hold it, and never more than the limit. */
module Limiters {
  import opened Text
  import opened TransitionStore
  import opened Sections
  import opened Engine

  function HeldBy(wk: Worker): string {
    if wk.Busy? then wk.held else ""
  }

  function Holders(workers: seq<Worker>, b: string): set<nat> {
    set w: nat | w < |workers| && HeldBy(workers[w]) == b
  }

  ghost predicate Occupancies(limiters: map<string, nat>, workers: seq<Worker>, perBMC: nat) {
    && "" !in limiters
    && (forall b :: b in limiters ==> limiters[b] == |Holders(workers, b)| <= perBMC)
    && (forall w :: 0 <= w < |workers| && HeldBy(workers[w]) != "" ==> HeldBy(workers[w]) in limiters)
  }

  /** From acquisition to release a worker holds the limiter of its task's BMC, unless it gave up waiting for it;
      before, it holds none. */
  ghost predicate HoldsRight(wk: Worker) {
    wk.Busy? ==>
      && (wk.held == "" || wk.held == TrimSpace(wk.item.task.bmcID))
      && (wk.at.Fetched? || wk.at.MarkingRunning? || wk.at.Marked? || wk.at.Announcing? || wk.at.Acquiring? ==>
            wk.held == "")
      && (wk.at.Executing? || wk.at.BackingOff? || wk.at.Verifying? ==> wk.held == TrimSpace(wk.task.bmcID))
  }

  ghost predicate Limited(s: State) {
    && Occupancies(s.limiters, s.workers, s.limits.perBMC)
    && forall w :: 0 <= w < |s.workers| ==> HoldsRight(s.workers[w])
  }

  /** How one worker's change shows in the set of holders of a BMC. */
  lemma HoldersChange(workers: seq<Worker>, w: nat, wk: Worker, b: string)
    requires w < |workers|
    ensures w in Holders(workers, b) <==> HeldBy(workers[w]) == b
    ensures Holders(workers[w := wk], b) ==
            (if HeldBy(wk) == b then Holders(workers, b) + {w} else Holders(workers, b) - {w})
  {
  }

  lemma NoHolder(limiters: map<string, nat>, workers: seq<Worker>, perBMC: nat, b: string)
    requires Occupancies(limiters, workers, perBMC) && b != "" && b !in limiters
    ensures Holders(workers, b) == {}
  {
  }

  /** A worker that holds the same before and after changes no occupancy. */
  lemma SameHolder(limiters: map<string, nat>, workers: seq<Worker>, perBMC: nat, w: nat, wk: Worker)
    requires Occupancies(limiters, workers, perBMC) && w < |workers| && HeldBy(wk) == HeldBy(workers[w])
    ensures Occupancies(limiters, workers[w := wk], perBMC)
  {
    hide Holders;
    forall b | b in limiters ensures |Holders(workers[w := wk], b)| == |Holders(workers, b)| {
      HoldersChange(workers, w, wk, b);
    }
  }

  lemma Acquired(limiters: map<string, nat>, workers: seq<Worker>, perBMC: nat, w: nat, wk: Worker, b: string)
    requires Occupancies(limiters, workers, perBMC) && w < |workers| && HeldBy(workers[w]) == ""
    requires HeldBy(wk) == b && b != "" && Occupancy(limiters, b) < perBMC
    ensures Occupancies(limiters[b := Occupancy(limiters, b) + 1], workers[w := wk], perBMC)
  {
    hide Holders, HeldBy;
    var limiters', workers' := limiters[b := Occupancy(limiters, b) + 1], workers[w := wk];
    if b !in limiters {
      NoHolder(limiters, workers, perBMC, b);
    }
    forall c | c in limiters' ensures limiters'[c] == |Holders(workers', c)| <= perBMC {
      HoldersChange(workers, w, wk, c);
    }
  }

  lemma Released(limiters: map<string, nat>, workers: seq<Worker>, perBMC: nat, w: nat, wk: Worker)
    requires Occupancies(limiters, workers, perBMC) && w < |workers| && HeldBy(workers[w]) != "" && HeldBy(wk) == ""
    ensures HeldBy(workers[w]) in limiters && limiters[HeldBy(workers[w])] > 0
    ensures Occupancies(limiters[HeldBy(workers[w]) := limiters[HeldBy(workers[w])] - 1], workers[w := wk], perBMC)
  {
    hide Holders, HeldBy;
    var b := HeldBy(workers[w]);
    HoldersChange(workers, w, wk, b);
    assert |Holders(workers, b)| > 0 by { assert w in Holders(workers, b); }
    var limiters', workers' := limiters[b := limiters[b] - 1], workers[w := wk];
    forall c | c in limiters' ensures limiters'[c] == |Holders(workers', c)| <= perBMC {
      HoldersChange(workers, w, wk, c);
    }
  }

  // ---------------------------------------------------------------- the steps

  /** A worker that acquires a limiter has a local copy that names the BMC of its task. */
  ghost predicate OwnBMC(s: State, step: Step) {
    step.WorkerStep? && step.act.Acquire? && IsBusy(s, step.w) ==>
      TrimSpace(s.workers[step.w].task.bmcID) == TrimSpace(s.workers[step.w].item.task.bmcID)
  }

  lemma StageHolds(s: State, w: nat, act: Action)
    requires CanAct(s, w, act) && HoldsRight(s.workers[w])
    requires OwnBMC(s, WorkerStep(w, act))
    ensures HoldsRight(NextWorker(s, s.workers[w], act))
    ensures !act.Acquire? && !act.Release? ==>
              HeldBy(NextWorker(s, s.workers[w], act)) == HeldBy(s.workers[w])
  {
    hide TrimSpace, EqualFold, MarkOf, FinalOf, Update, SavedRow, SettledRow, ContextEnded, NextTask;
    if IsBusy(s, w) {
      StageTask(s, s.workers[w], act);
    }
  }

  /** The action that takes a limiter does not change the task, and those between acquire and release neither. */
  lemma StageTask(s: State, wk: Worker, act: Action)
    requires wk.Busy?
    ensures !act.Check? && !act.Announce? ==> NextTask(s, wk, act) == wk.task
  {
    hide SavedRow, ContextEnded;
  }

  lemma WorkerOccupies(s: State, w: nat, act: Action)
    requires Limited(s) && CanAct(s, w, act) && HoldsRight(NextWorker(s, s.workers[w], act))
    requires !act.Acquire? && !act.Release? ==> HeldBy(NextWorker(s, s.workers[w], act)) == HeldBy(s.workers[w])
    ensures var step := WorkerStep(w, act);
            Occupancies(NextLimiters(s, step), NextWorkers(s, step), s.limits.perBMC)
  {
    hide TrimSpace, NextStage, NextTask, Occupancies, Holders, CanMove, MarkOf, Update;
    var wk, wk' := s.workers[w], NextWorker(s, s.workers[w], act);
    assert HoldsRight(wk);
    if act.Acquire? {
      assert CanAcquire(s, w) by { AcquireAllowed(s, w); }
      var b := TrimSpace(wk.task.bmcID);
      if b == "" {
        SameHolder(s.limiters, s.workers, s.limits.perBMC, w, wk');
      } else {
        Acquired(s.limiters, s.workers, s.limits.perBMC, w, wk', b);
      }
    } else if act.Release? && wk.held != "" {
      Released(s.limiters, s.workers, s.limits.perBMC, w, wk');
    } else {
      SameHolder(s.limiters, s.workers, s.limits.perBMC, w, wk');
    }
  }

  lemma AcquireAllowed(s: State, w: nat)
    requires CanAct(s, w, Acquire)
    ensures CanAcquire(s, w)
  {
    hide CanAcquire;
  }

  lemma StepLimited(s: State, step: Step)
    requires Limited(s) && Enabled(s, step) && OwnBMC(s, step)
    ensures Limited(Apply(s, step))
  {
    hide NextDb, NextMade, NextPlaces, NextWork, NextCalls, NextProgress, NextClosed, NextMarkers, NextCanceled,
         NextAborts, NextQueue, CanMove, NextWorker, HoldsRight, HeldBy, Occupancies, TrimSpace;
    if step.WorkerStep? {
      assert HoldsRight(s.workers[step.w]) && step == WorkerStep(step.w, step.act);
      StageHolds(s, step.w, step.act);
      WorkerOccupies(s, step.w, step.act);
    }
  }
}
