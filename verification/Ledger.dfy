/** The counts of a transition are conserved: successes, failures and remaining tasks always add up to its targets, and
    `remaining` is exactly the tasks not yet counted. */
module Ledger {
  import opened Records
  import opened Sections
  import opened Engine

  /** The kinds of task a progress entry counts. */
  datatype Kind = Every | Open | Good | Bad | CanceledOne | Executable

  predicate IsKind(m: Made, p: Place, k: Kind) {
    match k
    case Every => true
    case Open => !p.Done?
    case Good => p == Done(Succeeded)
    case Bad => p.Done? && p.outcome != Succeeded
    case CanceledOne => p == Done(Canceled)
    case Executable => m.task.state.Pending?
  }

  function Members(made: map<string, Made>, places: map<string, Place>, id: string, k: Kind): set<string> {
    set t | t in made && t in places && made[t].task.transitionID == id && IsKind(made[t], places[t], k)
  }

  function Tally(made: map<string, Made>, places: map<string, Place>, id: string, k: Kind): nat {
    |Members(made, places, id, k)|
  }

  /** What the entry of transition `id` must say. */
  ghost predicate Balanced(made: map<string, Made>, places: map<string, Place>, id: string, p: Progress) {
    && p.transition.id == id
    && p.transition.targetCount == Tally(made, places, id, Every)
    && p.transition.successCount == Tally(made, places, id, Good)
    && p.transition.failureCount == Tally(made, places, id, Bad)
    && p.remaining == Tally(made, places, id, Open)
    && p.canceledCount == Tally(made, places, id, CanceledOne)
    && p.executableTotal == Tally(made, places, id, Executable) > 0
  }

  ghost predicate Active(made: map<string, Made>, places: map<string, Place>, calls: map<string, Call>,
                         closed: map<string, Closing>, id: string, p: Progress)
  {
    && Balanced(made, places, id, p)
    && p.remaining > 0
    && id !in closed
    && (id in calls ==> calls[id].Enqueueing?)
    && p.transition.completedAt.None?
  }

  /** A call that has created its transition and not registered it yet. */
  ghost predicate Fresh(made: map<string, Made>, places: map<string, Place>, progress: map<string, Progress>,
                        closed: map<string, Closing>,
                        id: string, c: Call)
  {
    && c.Registering?
    && Balanced(made, places, id, Registered(c.transition, |c.items|))
    && c.items != [] && id !in progress && id !in closed
    && c.transition.state == TPending && c.transition.completedAt.None?
  }

  /** What stays true of a closed transition: its counts, and the final state they give. */
  ghost predicate Settled(made: map<string, Made>, places: map<string, Place>, calls: map<string, Call>, id: string,
                          p: Progress)
  {
    && Balanced(made, places, id, p)
    && p.remaining == 0
    && id !in calls
    && p.transition.completedAt.Some?
    && p.transition.state == FinalState(p)
  }

  ghost predicate Balances(made: map<string, Made>, places: map<string, Place>, calls: map<string, Call>,
                           progress: map<string, Progress>,
                           closed: map<string, Closing>)
  {
    && made.Keys == places.Keys
    && (forall id :: id in progress ==> Active(made, places, calls, closed, id, progress[id]))
    && (forall id :: id in calls && calls[id].Registering? ==> Fresh(made, places, progress, closed, id, calls[id]))
    && (forall id :: id in closed ==> Settled(made, places, calls, id, closed[id].progress))
    && (forall t :: t in made && !places[t].Done? ==> Accounted(calls, progress, made[t].task.transitionID))
    && (forall t :: t in made && made[t].task.state.Pending? ==>
          var id := made[t].task.transitionID;
          Accounted(calls, progress, id) || id in closed)
    && (forall id :: id in calls && calls[id].Enqueueing? ==> id in progress)
  }

  /** The ledger of the engine is balanced. */
  ghost predicate Counts(s: State) {
    Balances(s.made, s.places, s.calls, s.progress, s.closed)
  }

  /** An uncounted task belongs to a transition that is active or about to be. */
  predicate Accounted(calls: map<string, Call>, progress: map<string, Progress>, id: string) {
    id in progress || (id in calls && calls[id].Registering?)
  }

  // ---------------------------------------------------------------- sets of tasks

  /** Moving a task between open places changes no count. */
  lemma OpenMove(made: map<string, Made>, places: map<string, Place>, t: string, p: Place, id: string, k: Kind)
    requires made.Keys == places.Keys && t in made && !places[t].Done? && !p.Done?
    ensures Members(made, places[t := p], id, k) == Members(made, places, id, k)
  {
  }

  /** Counting a task of another transition changes no count. */
  lemma OtherTransition(made: map<string, Made>, places: map<string, Place>, t: string, p: Place, id: string, k: Kind)
    requires made.Keys == places.Keys && t in made && made[t].task.transitionID != id
    ensures Members(made, places[t := p], id, k) == Members(made, places, id, k)
  {
  }

  /** What recording an outcome adds to a count. */
  function Delta(o: TaskState, k: Kind): int {
    match k
    case Every | Executable => 0
    case Open => -1
    case Good => if o.Succeeded? then 1 else 0
    case Bad => if o.Succeeded? then 0 else 1
    case CanceledOne => if o.Canceled? then 1 else 0
  }

  /** Whether another task is of a kind does not depend on the place of `t`. */
  lemma OnlyItself(made: map<string, Made>, places: map<string, Place>, t: string, p: Place, id: string, k: Kind,
                   u: string)
    requires made.Keys == places.Keys && t in made && u != t
    ensures u in Members(made, places[t := p], id, k) <==> u in Members(made, places, id, k)
  {
  }

  lemma OwnKind(made: map<string, Made>, places: map<string, Place>, t: string, o: TaskState, k: Kind)
    requires made.Keys == places.Keys && t in made && !places[t].Done?
    ensures var id := made[t].task.transitionID;
            var before, after := t in Members(made, places, id, k), t in Members(made, places[t := Done(o)], id, k);
            && (Delta(o, k) == 1 ==> !before && after) && (Delta(o, k) == -1 ==> before && !after)
            && (Delta(o, k) == 0 ==> before == after)
  {
  }

  lemma Recorded(made: map<string, Made>, places: map<string, Place>, t: string, o: TaskState, k: Kind)
    requires made.Keys == places.Keys && t in made && !places[t].Done?
    ensures var id := made[t].task.transitionID;
            Tally(made, places[t := Done(o)], id, k) == Tally(made, places, id, k) + Delta(o, k)
  {
    hide Members;
    var id := made[t].task.transitionID;
    var before, after := Members(made, places, id, k), Members(made, places[t := Done(o)], id, k);
    forall u | u != t ensures u in after <==> u in before { OnlyItself(made, places, t, Done(o), id, k, u); }
    OwnKind(made, places, t, o, k);
    hide IsKind;
    if Delta(o, k) == 1 {
      assert after == before + {t};
    } else if Delta(o, k) == -1 {
      assert after == before - {t};
    } else {
      assert after == before;
    }
  }

  lemma RecordedBalanced(made: map<string, Made>, places: map<string, Place>, t: string, o: TaskState, p: Progress)
    requires made.Keys == places.Keys && t in made && !places[t].Done?
    requires Balanced(made, places, made[t].task.transitionID, p)
    ensures Balanced(made, places[t := Done(o)], made[t].task.transitionID, Counted(p, o))
  {
    hide Members;
    forall k
      ensures Tally(made, places[t := Done(o)], made[t].task.transitionID, k) ==
        Tally(made, places, made[t].task.transitionID, k) + Delta(o, k)
    {
      Recorded(made, places, t, o, k);
    }
  }

  /** Every target is counted once: as a success, as a failure, or as remaining. */
  lemma Partition(made: map<string, Made>, places: map<string, Place>, id: string)
    requires made.Keys == places.Keys
    ensures Tally(made, places, id, Every) ==
            Tally(made, places, id, Good) + Tally(made, places, id, Bad) + Tally(made, places, id, Open)
  {
    var good, bad, open := Members(made, places, id, Good), Members(made, places, id, Bad),
      Members(made, places, id, Open);
    assert Members(made, places, id, Every) == good + bad + open;
    assert good !! bad && (good + bad) !! open;
  }

  // ---------------------------------------------------------------- steps that keep the ledger

  lemma BalancedSame(made: map<string, Made>, a: map<string, Place>, b: map<string, Place>, id: string, p: Progress)
    requires made.Keys == a.Keys == b.Keys && Balanced(made, a, id, p)
    requires forall k :: Members(made, b, id, k) == Members(made, a, id, k)
    ensures Balanced(made, b, id, p)
  {
  }

  ghost predicate SameTallies(made: map<string, Made>, places: map<string, Place>, after: map<string, Place>) {
    && made.Keys == places.Keys == after.Keys
    && (forall id, k :: Members(made, after, id, k) == Members(made, places, id, k))
    && (forall t :: t in made ==> after[t].Done? == places[t].Done?)
  }

  lemma TalliesBalanced(made: map<string, Made>, places: map<string, Place>, after: map<string, Place>, id: string,
                        p: Progress)
    requires SameTallies(made, places, after) && Balanced(made, places, id, p)
    ensures Balanced(made, after, id, p)
  {
    hide Members;
    BalancedSame(made, places, after, id, p);
  }

  /** Tasks move in a way that changes no count. */
  lemma TalliesKeep(made: map<string, Made>, places: map<string, Place>, after: map<string, Place>,
                    calls: map<string, Call>,
                    progress: map<string, Progress>, closed: map<string, Closing>)
    requires Balances(made, places, calls, progress, closed) && SameTallies(made, places, after)
    ensures Balances(made, after, calls, progress, closed)
  {
    hide Members, Balanced;
    forall id | id in progress ensures Active(made, after, calls, closed, id, progress[id]) {
      assert Active(made, places, calls, closed, id, progress[id]);
      TalliesBalanced(made, places, after, id, progress[id]);
    }
    forall id | id in calls && calls[id].Registering? ensures Fresh(made, after, progress, closed, id, calls[id]) {
      assert Fresh(made, places, progress, closed, id, calls[id]);
      TalliesBalanced(made, places, after, id, Registered(calls[id].transition, |calls[id].items|));
    }
    forall id | id in closed ensures Settled(made, after, calls, id, closed[id].progress) {
      assert Settled(made, places, calls, id, closed[id].progress);
      TalliesBalanced(made, places, after, id, closed[id].progress);
    }
  }

  /** A task moves between open places: enqueue, dequeue, or loss. */
  lemma MoveBalances(made: map<string, Made>, places: map<string, Place>, calls: map<string, Call>,
                     progress: map<string, Progress>,
                     closed: map<string, Closing>, t: string, p: Place)
    requires Balances(made, places, calls, progress, closed)
    requires t in made && !places[t].Done? && !p.Done?
    ensures Balances(made, places[t := p], calls, progress, closed)
  {
    hide Members, Active, Fresh, Settled;
    forall id, k
      ensures Members(made, places[t := p], id, k) == Members(made, places, id, k)
    {
      OpenMove(made, places, t, p, id, k);
    }
    TalliesKeep(made, places, places[t := p], calls, progress, closed);
  }

  /** The progress entry of `id` changes in no counted field: running mark, abort. */
  lemma TouchBalances(made: map<string, Made>, places: map<string, Place>, calls: map<string, Call>,
                      progress: map<string, Progress>,
                      closed: map<string, Closing>, id: string, p: Progress)
    requires Balances(made, places, calls, progress, closed) && id in progress
    requires p.remaining == progress[id].remaining && p.canceledCount == progress[id].canceledCount
    requires p.executableTotal == progress[id].executableTotal
    requires p.transition.id == progress[id].transition.id
    requires p.transition.targetCount == progress[id].transition.targetCount
    requires p.transition.successCount == progress[id].transition.successCount
    requires p.transition.failureCount == progress[id].transition.failureCount
    requires p.transition.completedAt == progress[id].transition.completedAt
    ensures Balances(made, places, calls, progress[id := p], closed)
  {
    hide Members;
    var progress' := progress[id := p];
    forall c | c in progress' ensures Active(made, places, calls, closed, c, progress'[c]) {
      assert Active(made, places, calls, closed, c, progress[c]);
    }
    forall c | c in calls && calls[c].Registering? ensures Fresh(made, places, progress[id := p], closed, c, calls[c]) {
      assert Fresh(made, places, progress, closed, c, calls[c]);
    }
  }

  /** Registration turns a fresh call into an active transition. */
  lemma RegisterBalances(made: map<string, Made>, places: map<string, Place>, calls: map<string, Call>,
                         progress: map<string, Progress>,
                         closed: map<string, Closing>, id: string)
    requires Balances(made, places, calls, progress, closed)
    requires id in calls && calls[id].Registering?
    ensures var c := calls[id];
            Balances(made, places, calls[id := Enqueueing(c.items)],
                     progress[id := Registered(c.transition, |c.items|)], closed)
  {
    hide Members, Balanced;
    var calls', progress' := calls[id := Enqueueing(calls[id].items)],
      progress[id := Registered(calls[id].transition, |calls[id].items|)];
    assert Fresh(made, places, progress, closed, id, calls[id]);
    forall c | c in progress' ensures Active(made, places, calls', closed, c, progress'[c]) {
      if c != id {
        assert Active(made, places, calls, closed, c, progress[c]);
      }
    }
    forall c | c in calls' && calls'[c].Registering? ensures Fresh(made, places, progress', closed, c, calls'[c]) {
      assert Fresh(made, places, progress, closed, c, calls[c]);
    }
    forall c | c in closed ensures Settled(made, places, calls', c, closed[c].progress) {
      assert Settled(made, places, calls, c, closed[c].progress);
    }
  }

  /** A call that has registered its transition, or never will, goes on or ends. */
  ghost predicate GoesOn(calls: map<string, Call>, calls': map<string, Call>, c: string) {
    && (c in calls' ==> c in calls && (calls'[c] == calls[c] || (calls[c].Enqueueing? && calls'[c].Enqueueing?)))
    && (c in calls && calls[c].Registering? ==> c in calls')
  }

  lemma CallsGoOn(made: map<string, Made>, places: map<string, Place>, calls: map<string, Call>,
                  calls': map<string, Call>, progress: map<string, Progress>, closed: map<string, Closing>)
    requires Balances(made, places, calls, progress, closed) && forall c :: GoesOn(calls, calls', c)
    ensures Balances(made, places, calls', progress, closed)
  {
    hide Balanced, Accounted;
    forall d | d in progress ensures Active(made, places, calls', closed, d, progress[d]) {
      assert Active(made, places, calls, closed, d, progress[d]) && GoesOn(calls, calls', d);
    }
    forall d | d in calls'
      ensures calls'[d].Registering? ==> Fresh(made, places, progress, closed, d, calls'[d])
      ensures calls'[d].Enqueueing? ==> d in progress
    {
      assert GoesOn(calls, calls', d);
    }
    forall d | d in closed ensures Settled(made, places, calls', d, closed[d].progress) {
      assert Settled(made, places, calls, d, closed[d].progress) && GoesOn(calls, calls', d);
    }
    forall d | Accounted(calls, progress, d) ensures Accounted(calls', progress, d) {
      StillAccounted(calls, calls', progress, d);
    }
  }

  lemma StillAccounted(calls: map<string, Call>, calls': map<string, Call>, progress: map<string, Progress>, d: string)
    requires Accounted(calls, progress, d) && GoesOn(calls, calls', d)
    ensures Accounted(calls', progress, d)
  {
  }

  /** The other transitions do not notice that a task is recorded. */
  lemma RecordElsewhere(made: map<string, Made>, places: map<string, Place>, t: string, o: TaskState, c: string,
                        p: Progress)
    requires made.Keys == places.Keys && t in made && made[t].task.transitionID != c && Balanced(made, places, c, p)
    ensures Balanced(made, places[t := Done(o)], c, p)
  {
    forall k ensures Members(made, places[t := Done(o)], c, k) == Members(made, places, c, k) {
      OtherTransition(made, places, t, Done(o), c, k);
    }
  }

  lemma ClosingSettles(made: map<string, Made>, after: map<string, Place>, calls: map<string, Call>, id: string,
                       p: Progress, now: Time)
    requires made.Keys == after.Keys && Balanced(made, after, id, p) && p.remaining == 0 && id !in calls
    ensures Settled(made, after, calls, id, Closed(p, now))
  {
  }

  /** The other active transitions, and the one of the task if something remains. */
  lemma RecordedActive(made: map<string, Made>, places: map<string, Place>, calls: map<string, Call>,
                       progress: map<string, Progress>,
                       closed: map<string, Closing>, t: string, o: TaskState, now: Time, w: nat, c: string)
    requires Balances(made, places, calls, progress, closed)
    requires t in made && !places[t].Done? && made[t].task.transitionID in progress
    ensures var id := made[t].task.transitionID;
            var progress' := AfterRecord(progress, id, o);
            c in progress' ==>
              Active(made, places[t := Done(o)], calls, AfterClosing(progress, closed, id, o, now, w), c, progress'[c])
  {
    hide Balanced, Members, Fresh, Settled, Closed;
    var id := made[t].task.transitionID;
    assert Active(made, places, calls, closed, id, progress[id]);
    if c in progress {
      assert Active(made, places, calls, closed, c, progress[c]);
      if c == id {
        RecordedBalanced(made, places, t, o, progress[id]);
      } else {
        RecordElsewhere(made, places, t, o, c, progress[c]);
      }
    }
  }

  lemma RecordedFresh(made: map<string, Made>, places: map<string, Place>, calls: map<string, Call>,
                      progress: map<string, Progress>,
                      closed: map<string, Closing>, t: string, o: TaskState, now: Time, w: nat, c: string)
    requires Balances(made, places, calls, progress, closed)
    requires t in made && !places[t].Done? && made[t].task.transitionID in progress && c in calls
    requires calls[c].Registering?
    ensures var id := made[t].task.transitionID;
            Fresh(made, places[t := Done(o)], AfterRecord(progress, id, o),
                  AfterClosing(progress, closed, id, o, now, w), c, calls[c])
  {
    hide Balanced, Members, Active, Settled, Closed, Counted;
    assert Fresh(made, places, progress, closed, c, calls[c]);
    RecordElsewhere(made, places, t, o, c, Registered(calls[c].transition, |calls[c].items|));
  }

  lemma RecordedSettled(made: map<string, Made>, places: map<string, Place>, calls: map<string, Call>,
                        progress: map<string, Progress>,
                        closed: map<string, Closing>, t: string, o: TaskState, now: Time, w: nat, c: string)
    requires Balances(made, places, calls, progress, closed)
    requires t in made && !places[t].Done? && made[t].task.transitionID in progress
    requires made[t].task.transitionID in calls ==> progress[made[t].task.transitionID].remaining > 1
    ensures var id := made[t].task.transitionID;
            var closed' := AfterClosing(progress, closed, id, o, now, w);
            c in closed' ==> Settled(made, places[t := Done(o)], calls, c, closed'[c].progress)
  {
    hide Balanced, Members, Fresh, FinalState;
    var id := made[t].task.transitionID;
    assert Active(made, places, calls, closed, id, progress[id]);
    if c in closed {
      assert Settled(made, places, calls, c, closed[c].progress);
      hide Settled;
      SettledElsewhere(made, places, t, o, calls, c, closed[c].progress);
    } else if c == id && Counted(progress[id], o).remaining <= 0 {
      RecordedBalanced(made, places, t, o, progress[id]);
      hide Settled, Active;
      RemainingIsZero(made, places, t, o, progress[id]);
      ClosingSettles(made, places[t := Done(o)], calls, id, Counted(progress[id], o), now);
    }
  }

  lemma RemainingIsZero(made: map<string, Made>, places: map<string, Place>, t: string, o: TaskState, p: Progress)
    requires made.Keys == places.Keys && t in made
    requires Balanced(made, places[t := Done(o)], made[t].task.transitionID, Counted(p, o))
    ensures Counted(p, o).remaining >= 0
  {
    hide Members, Counted;
  }

  lemma SettledElsewhere(made: map<string, Made>, places: map<string, Place>, t: string, o: TaskState,
                         calls: map<string, Call>, c: string, p: Progress)
    requires made.Keys == places.Keys && t in made && made[t].task.transitionID != c
    requires Settled(made, places, calls, c, p)
    ensures Settled(made, places[t := Done(o)], calls, c, p)
  {
    hide Balanced;
    RecordElsewhere(made, places, t, o, c, p);
  }

  lemma RecordedAccounted(made: map<string, Made>, places: map<string, Place>, calls: map<string, Call>,
                          progress: map<string, Progress>,
                          closed: map<string, Closing>, t: string, o: TaskState, now: Time, w: nat, u: string)
    requires Balances(made, places, calls, progress, closed)
    requires t in made && !places[t].Done? && made[t].task.transitionID in progress && u in made
    ensures var id := made[t].task.transitionID;
            var progress', closed' := AfterRecord(progress, id, o), AfterClosing(progress, closed, id, o, now, w);
            && (!places[t := Done(o)][u].Done? ==> Accounted(calls, progress', made[u].task.transitionID))
            && (made[u].task.state.Pending? ==>
                  Accounted(calls, progress', made[u].task.transitionID) || made[u].task.transitionID in closed')
  {
    hide Balanced, Members, Fresh, Settled, Closed;
    var id := made[t].task.transitionID;
    assert Active(made, places, calls, closed, id, progress[id]);
    if made[u].task.transitionID == id && !places[t := Done(o)][u].Done? {
      RecordedBalanced(made, places, t, o, progress[id]);
      SomeOpen(made, places[t := Done(o)], id, u, Counted(progress[id], o));
    }
  }

  /** Recording an outcome: the entry is removed exactly when nothing remains. */
  lemma RecordBalances(made: map<string, Made>, places: map<string, Place>, calls: map<string, Call>,
                       progress: map<string, Progress>,
                       closed: map<string, Closing>, t: string, o: TaskState, now: Time, w: nat)
    requires Balances(made, places, calls, progress, closed)
    requires t in made && !places[t].Done? && made[t].task.transitionID in progress
    requires made[t].task.transitionID in calls ==> progress[made[t].task.transitionID].remaining > 1
    ensures var id := made[t].task.transitionID;
            Balances(made, places[t := Done(o)], calls, AfterRecord(progress, id, o),
                     AfterClosing(progress, closed, id, o, now, w))
  {
    hide Active, Fresh, Settled, Accounted, AfterClosing, Members;
    var id := made[t].task.transitionID;
    var progress', closed' := AfterRecord(progress, id, o), AfterClosing(progress, closed, id, o, now, w);
    forall c { RecordedActive(made, places, calls, progress, closed, t, o, now, w, c); }
    forall c | c in calls && calls[c].Registering? {
      RecordedFresh(made, places, calls, progress, closed, t, o, now, w, c);
    }
    forall c { RecordedSettled(made, places, calls, progress, closed, t, o, now, w, c); }
    forall u | u in made { RecordedAccounted(made, places, calls, progress, closed, t, o, now, w, u); }
    forall c | c in calls && calls[c].Enqueueing?
      ensures c in progress'
    {
      StillActive(made, places, calls, progress, closed, id, o, c);
    }
  }

  lemma StillActive(made: map<string, Made>, places: map<string, Place>, calls: map<string, Call>,
                    progress: map<string, Progress>,
                    closed: map<string, Closing>, id: string, o: TaskState, c: string)
    requires Balances(made, places, calls, progress, closed) && id in progress && c in calls && calls[c].Enqueueing?
    requires id in calls ==> progress[id].remaining > 1
    ensures c in AfterRecord(progress, id, o)
  {
    hide Active, Fresh, Settled;
  }

  lemma SomeOpen(made: map<string, Made>, places: map<string, Place>, id: string, u: string, p: Progress)
    requires made.Keys == places.Keys && u in made && made[u].task.transitionID == id && Balanced(made, places, id, p)
    requires !places[u].Done?
    ensures p.remaining > 0
  {
    assert u in Members(made, places, id, Open);
  }

  lemma TwoOpen(made: map<string, Made>, places: map<string, Place>, id: string, u: string, v: string, p: Progress)
    requires made.Keys == places.Keys && u in made && v in made && u != v && Balanced(made, places, id, p)
    requires made[u].task.transitionID == id && made[v].task.transitionID == id && !places[u].Done? && !places[v].Done?
    ensures p.remaining > 1
  {
    assert {u, v} <= Members(made, places, id, Open);
    Larger({u, v}, Members(made, places, id, Open));
  }

  lemma Larger(a: set<string>, b: set<string>)
    requires a <= b
    ensures |a| <= |b|
  {
    assert b == a + (b - a);
  }
}
