/** Every step keeps the invariant, so it holds in every reachable state of every interleaving. */
module EngineRuns {
  import opened OutboxReplay
  import opened Engine
  import opened Placement
  import opened Ledger
  import opened Limiters
  import opened Evidence
  import opened EngineInvariant
  import opened EngineSteps
  import opened Creation

  /** The queue and the crew keep their sizes. */
  lemma StepSizes(s: State, step: Step)
    requires Enabled(s, step) && |s.queue| <= s.limits.queueSize
    ensures |NextQueue(s, step)| <= s.limits.queueSize && |NextWorkers(s, step)| == |s.workers|
  {
    hide NextWorker, CanAct;
  }

  /** A worker that is about to acquire a limiter knows the BMC of its task. */
  lemma KnowsBMC(s: State, step: Step)
    requires Placed(s) && Evident(s) && Enabled(s, step)
    ensures OwnBMC(s, step)
  {
    hide Placed, RestOK, StageOK;
    if step.WorkerStep? && step.act.Acquire? && IsBusy(s, step.w) {
      OwnsStill(s, step.w, step.act);
      Own(s, step.w);
      BMCKnown(s, step.w);
    }
  }

  lemma BMCKnown(s: State, w: nat)
    requires Owned(s, w) && TaskOK(s, TaskOf(s, w))
    ensures s.workers[w].task.bmcID == s.workers[w].item.task.bmcID
  {
    hide RestOK, StageOK;
  }

  lemma StepInv(s: State, step: Step)
    requires Inv(s) && Enabled(s, step)
    ensures Inv(Apply(s, step))
  {
    hide Enabled, NextDb, NextMade, NextPlaces, NextWork, NextCalls, NextProgress, NextClosed, NextMarkers,
         NextCanceled, NextAborts, NextQueue, NextWorkers, NextLimiters, Placed, Counts, Limited, Evident, Stored,
         Ordered, Published, Logged;
    if step.CreateStep? {
      CreateInv(s, step);
    } else {
      Parts(s);
      KnowsBMC(s, step);
      StepSizes(s, step);
      StepPlaced(s, step);
      StepCounts(s, step);
      StepLimited(s, step);
      StepEvident(s, step);
      StepStored(s, step);
      StepOrdered(s, step);
      StepPublished(s, step);
      StepLogged(s, step);
    }
  }

  lemma {:induction false} RunInv(l: Limits, steps: seq<Step>, s: State)
    requires ValidLimits(l) && Run(l, steps, s)
    ensures Inv(s) && s.limits == l
    decreases |steps|
  {
    hide Inv, Apply, Enabled, Continues;
    if steps == [] {
      NoStep(Init(l), s);
      InitInv(l);
    } else {
      hide Init;
      var front, before, step := LastStep(Init(l), steps, s);
      RunInv(l, front, before);
      StepInv(before, step);
      Components(before, step);
    }
  }

  lemma {:induction false} ContinuedInv(s: State, steps: seq<Step>, s': State)
    requires Inv(s) && Continues(s, steps, s')
    ensures Inv(s')
    decreases |steps|
  {
    hide Inv, Apply, Enabled, Continues;
    if steps == [] {
      NoStep(s, s');
    } else {
      var front, before, step := LastStep(s, steps, s');
      ContinuedInv(s, front, before);
      StepInv(before, step);
    }
  }

  lemma {:induction false} RunsOn(l: Limits, run: seq<Step>, s: State, steps: seq<Step>, s': State)
    requires Run(l, run, s) && Continues(s, steps, s')
    ensures Run(l, run + steps, s')
    decreases |steps|
  {
    hide Apply, Enabled, Init, Continues;
    if steps == [] {
      NoStep(s, s');
      assert run + steps == run;
    } else {
      var front, before, step := LastStep(s, steps, s');
      RunsOn(l, run, s, front, before);
      OneStepMore(Init(l), run + front, before, step);
      assert run + steps == run + front + [step];
    }
  }
}
