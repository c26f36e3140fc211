/** Counts and final states, over every reachable state. */
module Conservation {
  import opened Records
  import opened Sections
  import opened Engine
  import opened Ledger
  import opened EngineInvariant
  import opened EngineSteps
  import opened EngineRuns

  /** The tasks of a transition that no worker has counted: not yet offered, queued, held, or lost. */
  function Uncounted(s: State, id: string): set<string> {
    set t | t in s.made && t in s.places && s.made[t].task.transitionID == id
            && (s.places[t].Waiting? || s.places[t].Queued? || s.places[t].Held? || s.places[t].Dropped?)
  }

  function Targets(s: State, id: string): set<string> {
    set t | t in s.made && s.made[t].task.transitionID == id
  }

  /** The place of task `t`. */
  predicate Ended(s: State, t: string, o: TaskState) {
    t in s.places && s.places[t] == Done(o)
  }

  lemma OpenIsUncounted(s: State, id: string)
    requires s.made.Keys == s.places.Keys
    ensures Members(s.made, s.places, id, Open) == Uncounted(s, id)
    ensures Members(s.made, s.places, id, Every) == Targets(s, id)
    ensures Members(s.made, s.places, id, Good) == set t | t in Targets(s, id) && Ended(s, t, Succeeded)
  {
  }

  /** The counts of the entry of `id` add up to the targets, and `remaining` is exactly the uncounted ones. */
  ghost predicate Conserved(s: State, id: string) {
    id in s.progress ==>
      var p := s.progress[id];
      && p.transition.successCount + p.transition.failureCount + p.remaining == p.transition.targetCount ==
        |Targets(s, id)|
      && p.remaining == |Uncounted(s, id)| > 0
      && p.transition.successCount == |set t | t in Targets(s, id) && Ended(s, t, Succeeded)|
  }

  /** Conservation: whatever the interleaving, every target of an active transition is counted once as a success, once
      as a failure, or is one of the `remaining`, which are exactly the tasks not yet offered, queued, held or
      dropped. */
  lemma CountsConserved(l: Limits, steps: seq<Step>, s: State, id: string)
    requires ValidLimits(l) && Run(l, steps, s)
    ensures Conserved(s, id)
  {
    hide Run, Inv, Members, Uncounted, Targets, Active, Fresh, Settled, Accounted;
    RunInv(l, steps, s);
    assert Counts(s) by { Ledgers(s); }
    if id in s.progress {
      EntryActive(s, id);
      Partition(s.made, s.places, id);
      OpenIsUncounted(s, id);
    }
  }

  lemma Ledgers(s: State)
    requires Inv(s)
    ensures Counts(s)
  {
    hide Counts;
    assert Keeps(s, Counting);
  }

  /** What the ledger says about a closed transition. */
  lemma ClosedCounts(s: State, id: string)
    requires Counts(s) && id in s.closed
    ensures Balanced(s.made, s.places, id, s.closed[id].progress) && s.closed[id].progress.remaining == 0
    ensures s.closed[id].progress.transition.state == FinalState(s.closed[id].progress)
    ensures s.closed[id].progress.transition.completedAt.Some? && s.closed[id].progress.transition.id == id
    ensures Members(s.made, s.places, id, Open) == {} && id !in s.calls
  {
    hide Active, Fresh, Accounted, FinalState;
    assert Settled(s.made, s.places, s.calls, id, s.closed[id].progress);
  }

  /** The counts of a closed transition add up to its targets. */
  ghost predicate AddUp(s: State, id: string) {
    id in s.closed ==>
      var t := s.closed[id].progress.transition;
      t.successCount + t.failureCount == t.targetCount == |Targets(s, id)| && t.completedAt.Some?
  }

  /** The entry is removed exactly when the last task is counted: a registered transition is active as long as some
      target is uncounted, and closed with counts that add up to its targets from then on. */
  lemma ClosedExactlyWhenCounted(l: Limits, steps: seq<Step>, s: State, id: string)
    requires ValidLimits(l) && Run(l, steps, s) && IsRegistered(s, id)
    ensures id in s.progress <==> Uncounted(s, id) != {}
    ensures id in s.closed <==> Uncounted(s, id) == {}
    ensures AddUp(s, id)
  {
    hide Run, Inv, Members, Uncounted, Targets, Active, Fresh, Settled, Accounted;
    RunInv(l, steps, s);
    assert Counts(s) by { Ledgers(s); }
    if id in s.progress {
      EntryActive(s, id);
    } else {
      ClosedCounts(s, id);
    }
    Partition(s.made, s.places, id);
    OpenIsUncounted(s, id);
  }

  // ---------------------------------------------------------------- the final state

  ghost predicate AllEnded(s: State, id: string, o: TaskState) {
    forall t :: t in Targets(s, id) ==> Ended(s, t, o)
  }

  /** No target of the transition lacked a mapping. */
  ghost predicate AllExecutable(s: State, id: string) {
    forall t :: t in Targets(s, id) ==> s.made[t].task.state.Pending?
  }

  ghost predicate SomeEnded(s: State, id: string, o: TaskState) {
    exists t :: t in Targets(s, id) && Ended(s, t, o)
  }

  lemma Empty(a: set<string>)
    ensures |a| == 0 <==> a == {}
  {
  }

  lemma SameSize(a: set<string>, b: set<string>)
    requires a <= b && |a| == |b|
    ensures a == b
  {
    assert b == a + (b - a);
    Empty(b - a);
  }

  /** The three facts about the counts that `finalTransitionState` looks at, in terms of the tasks. */
  lemma CountsMean(made: map<string, Made>, places: map<string, Place>, id: string)
    requires made.Keys == places.Keys && Members(made, places, id, Open) == {}
    ensures Tally(made, places, id, Bad) == 0 <==>
             forall t :: t in Members(made, places, id, Every) ==> places[t] == Done(Succeeded)
    ensures Tally(made, places, id, Good) == 0 <==>
             forall t :: t in Members(made, places, id, Every) ==> places[t] != Done(Succeeded)
  {
    var every, bad, good := Members(made, places, id, Every), Members(made, places, id, Bad),
      Members(made, places, id, Good);
    assert forall t :: t in every && t !in Members(made, places, id, Open) ==> places[t].Done?;
    assert bad == {} <==> forall t :: t in every ==> places[t] == Done(Succeeded) by {
      if bad == {} {
        assert forall t :: t in every ==> t !in bad;
      }
    }
    assert good == {} <==> forall t :: t in every ==> places[t] != Done(Succeeded) by {
      if good == {} {
        assert forall t :: t in every ==> t !in good;
      }
    }
  }

  lemma KindsOf(made: map<string, Made>, places: map<string, Place>, id: string)
    requires made.Keys == places.Keys && Members(made, places, id, Open) == {}
    ensures Members(made, places, id, CanceledOne) <= Members(made, places, id, Bad)
    ensures Members(made, places, id, Executable) <= Members(made, places, id, Every)
    ensures Members(made, places, id, Every) == Members(made, places, id, Good) + Members(made, places, id, Bad)
  {
    assert forall t :: t in Members(made, places, id, Every) ==> t !in Members(made, places, id, Open);
  }

  ghost predicate AllCanceled(made: map<string, Made>, places: map<string, Place>, id: string) {
    forall t :: t in Members(made, places, id, Every) ==> places[t] == Done(Canceled) && made[t].task.state.Pending?
  }

  lemma AllCanceledMembers(made: map<string, Made>, places: map<string, Place>, id: string)
    requires made.Keys == places.Keys
    ensures AllCanceled(made, places, id) ==>
              && Members(made, places, id, Good) == {}
              && Members(made, places, id, Bad) == Members(made, places, id, Every)
              && Members(made, places, id, CanceledOne) == Members(made, places, id, Every) ==
                Members(made, places, id, Executable)
    ensures var every := Members(made, places, id, Every);
            Members(made, places, id, CanceledOne) == every == Members(made, places, id, Executable) ==>
              AllCanceled(made, places, id)
  {
    var every := Members(made, places, id, Every);
    if Members(made, places, id, CanceledOne) == every == Members(made, places, id, Executable) {
      assert forall t :: t in every ==>
        t in Members(made, places, id, CanceledOne) && t in Members(made, places, id, Executable);
    }
  }

  lemma CanceledMeans(made: map<string, Made>, places: map<string, Place>, id: string)
    requires made.Keys == places.Keys && Members(made, places, id, Open) == {}
    ensures && Tally(made, places, id, CanceledOne) == Tally(made, places, id, Executable)
            && Tally(made, places, id, Good) == 0
            && Tally(made, places, id, Bad) == Tally(made, places, id, CanceledOne)
            <==> AllCanceled(made, places, id)
  {
    KindsOf(made, places, id);
    AllCanceledMembers(made, places, id);
    hide Members, AllCanceled;
    var every, bad, good := Members(made, places, id, Every), Members(made, places, id, Bad),
      Members(made, places, id, Good);
    var canceled, executable := Members(made, places, id, CanceledOne), Members(made, places, id, Executable);
    if |canceled| == |executable| && |good| == 0 && |bad| == |canceled| {
      Empty(good);
      SameSize(canceled, bad);
      SameSize(executable, every);
    }
  }

  /** `finalTransitionState` on counts that are right. */
  lemma StateOfCounts(made: map<string, Made>, places: map<string, Place>, id: string, p: Progress)
    requires made.Keys == places.Keys && Balanced(made, places, id, p)
    ensures var good, bad, canceled := Tally(made, places, id, Good), Tally(made, places, id, Bad),
      Tally(made, places, id, CanceledOne);
            var all := canceled == Tally(made, places, id, Executable) && good == 0 && bad == canceled;
            && (FinalState(p) == TCompleted <==> bad == 0)
            && (FinalState(p) == TCanceled <==> all)
            && (FinalState(p) == TFailed <==> bad > 0 && good == 0 && !all)
            && (FinalState(p) == TPartial <==> bad > 0 && good > 0)
  {
    hide Tally;
  }

  /** The same conditions over the targets. */
  lemma TargetsOfCounts(s: State, id: string)
    requires s.made.Keys == s.places.Keys && Members(s.made, s.places, id, Open) == {}
    ensures Tally(s.made, s.places, id, Bad) == 0 <==> AllEnded(s, id, Succeeded)
    ensures Tally(s.made, s.places, id, Good) == 0 <==> !SomeEnded(s, id, Succeeded)
    ensures AllCanceled(s.made, s.places, id) <==> AllEnded(s, id, Canceled) && AllExecutable(s, id)
  {
    OpenIsUncounted(s, id);
    CountsMean(s.made, s.places, id);
    hide Members, Tally, Uncounted;
    if !SomeEnded(s, id, Succeeded) {
      forall t | t in Targets(s, id) ensures s.places[t] != Done(Succeeded) { assert !Ended(s, t, Succeeded); }
    }
    if AllEnded(s, id, Canceled) {
      forall t | t in Targets(s, id) ensures s.places[t] == Done(Canceled) { assert Ended(s, t, Canceled); }
    }
    if AllEnded(s, id, Succeeded) {
      forall t | t in Targets(s, id) ensures s.places[t] == Done(Succeeded) { assert Ended(s, t, Succeeded); }
    }
  }

  /** `state` is the one that the outcomes of the targets determine. */
  ghost predicate Determined(s: State, id: string, state: TransitionState) {
    var canceled := AllEnded(s, id, Canceled) && AllExecutable(s, id);
    && (state == TCompleted <==> AllEnded(s, id, Succeeded))
    && (state == TCanceled <==> canceled)
    && (state == TFailed <==> !SomeEnded(s, id, Succeeded) && !canceled)
    && (state == TPartial <==> SomeEnded(s, id, Succeeded) && !AllEnded(s, id, Succeeded))
  }

  function ClosedState(s: State, id: string): TransitionState {
    if id in s.closed then s.closed[id].progress.transition.state else TPending
  }

  /** The state a transition is closed with is determined by the outcomes of its targets, and by them alone. */
  lemma FinalStateExact(l: Limits, steps: seq<Step>, s: State, id: string)
    requires ValidLimits(l) && Run(l, steps, s) && id in s.closed
    ensures Determined(s, id, ClosedState(s, id))
  {
    hide Run, Inv, Balanced, Members, Tally, FinalState, AllCanceled, Active, Fresh, Settled, Accounted;
    RunInv(l, steps, s);
    assert Counts(s) by { Ledgers(s); }
    ClosedCounts(s, id);
    var p := s.closed[id].progress;
    StateOfCounts(s.made, s.places, id, p);
    CanceledMeans(s.made, s.places, id);
    TargetsOfCounts(s, id);
    Executables(s, id, p);
  }

  /** A registered transition has an executable task, so not every condition on its targets is vacuous. */
  lemma Executables(s: State, id: string, p: Progress)
    requires s.made.Keys == s.places.Keys && Balanced(s.made, s.places, id, p)
    ensures exists t :: t in Targets(s, id) && s.made[t].task.state.Pending?
  {
    var executable := Members(s.made, s.places, id, Executable);
    Empty(executable);
    var t :| t in executable;
    assert t in Targets(s, id);
  }
}
