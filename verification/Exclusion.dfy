/** Mutual exclusion: how many tasks run at once, overall and on one BMC. */
module Exclusion {
  import opened Text
  import opened OutboxReplay
  import opened Engine
  import opened Placement
  import opened Ledger
  import opened Limiters
  import opened Evidence
  import opened EngineInvariant
  import opened EngineRuns
  import opened Lifecycles

  predicate HeldAt(s: State, t: string) {
    t in s.places && s.places[t].Held? && IsBusy(s, s.places[t].worker)
  }

  /** The tasks some worker has. */
  function HeldTasks(s: State): set<string> {
    set t | t in s.places && s.places[t].Held?
  }

  /** The tasks whose workers are between acquire and release of the limiter of `b`. */
  function RunningOn(s: State, b: string): set<string> {
    set w | w in Holders(s.workers, b) && IsBusy(s, w) :: TaskOf(s, w)
  }

  /** Task `t` is being executed or verified. */
  predicate Runs(s: State, t: string) {
    HeldAt(s, t) && var at := At(s, s.places[t].worker); at.Executing? || at.BackingOff? || at.Verifying?
  }

  lemma {:induction false} Injection(tasks: set<string>, owner: map<string, nat>, owners: set<nat>)
    requires tasks <= owner.Keys
    requires forall t :: t in tasks ==> owner[t] in owners
    requires forall t, u :: t in tasks && u in tasks && owner[t] == owner[u] ==> t == u
    ensures |tasks| <= |owners|
    decreases |tasks|
  {
    if tasks != {} {
      var t :| t in tasks;
      Injection(tasks - {t}, owner, owners - {owner[t]});
    }
  }

  function Owner(s: State): map<string, nat> {
    map t | t in s.places && s.places[t].Held? :: s.places[t].worker
  }

  /** No worker has two tasks. */
  lemma OneTaskEach(s: State, t: string, u: string)
    requires Placed(s) && t in s.places && u in s.places && s.places[t].Held? && s.places[u].Held?
    requires s.places[t].worker == s.places[u].worker
    ensures t == u && IsBusy(s, s.places[t].worker) && TaskOf(s, s.places[t].worker) == t
  {
    hide Known;
    assert Holds(s.workers, s.places[t].worker, t) && Holds(s.workers, s.places[u].worker, u);
  }

  function Below(n: nat): (r: set<nat>)
    ensures |r| == n && forall w :: w in r <==> 0 <= w < n
  {
    if n == 0 then {} else Below(n - 1) + {n - 1}
  }

  /** At most `globalConcurrency` tasks are with a worker at any time. */
  lemma GlobalLimit(l: Limits, steps: seq<Step>, s: State)
    requires ValidLimits(l) && Run(l, steps, s)
    ensures |HeldTasks(s)| <= l.workers
  {
    hide Run, Inv, Sound, Placed, Counts, Limited, Evident, Stored, Ordered, Published, Logged;
    RunInv(l, steps, s);
    Parts(s);
    forall t, u | t in HeldTasks(s) && u in HeldTasks(s) && Owner(s)[t] == Owner(s)[u]
      ensures t == u
    {
      OneTaskEach(s, t, u);
    }
    forall t | t in HeldTasks(s) ensures Owner(s)[t] in Below(|s.workers|) { OneTaskEach(s, t, t); }
    Injection(HeldTasks(s), Owner(s), Below(|s.workers|));
  }

  /** Task `t` is one of BMC `b`. */
  predicate OfBMC(s: State, t: string, b: string) {
    t in s.made && s.made[t].task.bmcID == b
  }

  /** A task that runs has the limiter of its own BMC. */
  lemma RunnerHolds(s: State, b: string, t: string)
    requires Inv(s) && OfBMC(s, t, b) && b != "" && Runs(s, t)
    ensures t in RunningOn(s, b)
  {
    hide Inv, Sound, Counts, Evident, Stored, Ordered, Published, Logged, Occupancies, Known, AllKnown, QueueOK,
         CallsOK, WaitingFound, StageOK, RestOK, TrimSpace, PublishedOK;
    Parts(s);
    Facts(s, t);
    var w := s.places[t].worker;
    assert Holds(s.workers, w, t);
    assert HoldsRight(s.workers[w]);
    TidyBMC(s, t);
    assert w in Holders(s.workers, b);
  }

  lemma TidyBMC(s: State, t: string)
    requires TaskFacts(s, t)
    ensures TrimSpace(s.made[t].task.bmcID) == s.made[t].task.bmcID
  {
    hide DutyOK, Routed, RowOK, PublishedOK;
  }

  /** A task whose worker holds the limiter of `b` has BMC `b`, whatever is left to do for it. */
  lemma HolderRuns(s: State, b: string, t: string)
    requires Inv(s) && t in RunningOn(s, b) && b != ""
    ensures OfBMC(s, t, b)
  {
    hide Inv, Sound, Placed, Counts, Evident, Stored, Ordered, Published, Logged, Occupancies, TrimSpace, TaskFacts;
    Parts(s);
    var w :| w in Holders(s.workers, b) && IsBusy(s, w) && TaskOf(s, w) == t;
    assert HoldsRight(s.workers[w]);
    Own(s, w);
    Facts(s, t);
    TidyBMC(s, t);
  }

  lemma {:induction false} ImageSize(s: State, holders: set<nat>)
    ensures |set w | w in holders :: TaskOf(s, w)| <= |holders|
    decreases |holders|
  {
    hide TaskOf;
    if holders != {} {
      var w :| w in holders;
      ImageSize(s, holders - {w});
      assert (set v | v in holders :: TaskOf(s, v)) == (set v | v in holders - {w} :: TaskOf(s, v)) + {TaskOf(s, w)};
    }
  }

  lemma HoldersBusy(s: State, b: string)
    requires b != ""
    ensures RunningOn(s, b) == set w | w in Holders(s.workers, b) :: TaskOf(s, w)
  {
  }

  lemma Occupied(s: State, b: string)
    requires Inv(s) && b != ""
    ensures |Holders(s.workers, b)| == Occupancy(s.limiters, b) <= s.limits.perBMC
  {
    hide Inv, Sound, Placed, Counts, Evident, Stored, Ordered, Published, Logged, Holders, HoldsRight;
    Parts(s);
    if b !in s.limiters {
      NoHolder(s.limiters, s.workers, s.limits.perBMC, b);
    }
  }

  /** The limiter of a BMC is held by at most `perBMCConcurrency` workers, each with a task of that BMC, from acquire to
      release; every task of the BMC that is executed or verified is among theirs; and the limiter's occupancy is the
      number of workers that hold it. */
  lemma PerBMCLimit(l: Limits, steps: seq<Step>, s: State, b: string)
    requires ValidLimits(l) && Run(l, steps, s) && b != ""
    ensures |RunningOn(s, b)| <= |Holders(s.workers, b)| == Occupancy(s.limiters, b) <= l.perBMC
    ensures forall t :: t in RunningOn(s, b) ==> OfBMC(s, t, b)
    ensures forall t :: OfBMC(s, t, b) && Runs(s, t) ==> t in RunningOn(s, b)
  {
    hide *;
    RunInv(l, steps, s);
    Occupied(s, b);
    forall t | t in RunningOn(s, b) ensures OfBMC(s, t, b) { HolderRuns(s, b, t); }
    forall t | OfBMC(s, t, b) && Runs(s, t) ensures t in RunningOn(s, b) { RunnerHolds(s, b, t); }
    HoldersBusy(s, b);
    ImageSize(s, Holders(s.workers, b));
  }

  // ---------------------------------------------------------------- one limiter for the whole run

  lemma StepKeepsLimiters(s: State, step: Step)
    ensures s.limiters.Keys <= NextLimiters(s, step).Keys
  {
    hide TrimSpace;
  }

  /** A BMC that has a limiter keeps it for the rest of the run. */
  lemma {:induction false} LimitersStay(s: State, steps: seq<Step>, s': State)
    requires Continues(s, steps, s')
    ensures s.limiters.Keys <= s'.limiters.Keys
    decreases |steps|
  {
    hide *;
    if steps == [] {
      NoStep(s, s');
    } else {
      var front, before, step := LastStep(s, steps, s');
      LimitersStay(s, front, before);
      StepKeepsLimiters(before, step);
      Components(before, step);
    }
  }
}
