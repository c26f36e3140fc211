/** Where tasks are: the place of a task always agrees with the StartTransition call, the queue or the worker that has
    it, and no two of them ever have the same task. */
module Placement {
  import opened Text
  import opened TransitionStore
  import opened Sections
  import opened Engine

  ghost predicate Known(made: map<string, Made>, item: Item) {
    && item.task.id in made
    && made[item.task.id] == Made(item.task, item.operation)
    && item.transitionID == item.task.transitionID
    && item.task.state.Pending?
  }

  /** The worker still has the task; after recording, it only has writes and the limiter left. */
  predicate Owns(wk: Worker) {
    wk.Busy? && !wk.at.Finalizing? && !wk.at.Releasing?
  }

  predicate Working(s: State, w: nat) {
    IsBusy(s, w) && Owns(s.workers[w])
  }

  ghost predicate InItems(items: seq<Item>, t: string) {
    exists i :: 0 <= i < |items| && items[i].task.id == t
  }

  ghost predicate DistinctItems(items: seq<Item>) {
    forall i, j :: 0 <= i < j < |items| ==> items[i].task.id != items[j].task.id
  }

  ghost predicate AllAt(places: map<string, Place>, items: seq<Item>, p: Place) {
    forall i :: 0 <= i < |items| ==> items[i].task.id in places && places[items[i].task.id] == p
  }

  ghost predicate QueueOK(places: map<string, Place>, queue: seq<Item>) {
    && DistinctItems(queue)
    && AllAt(places, queue, Queued)
    && forall t :: t in places && places[t] == Queued ==> InItems(queue, t)
  }

  ghost predicate CallOK(places: map<string, Place>, id: string, c: Call) {
    && DistinctItems(Items(c))
    && AllAt(places, Items(c), Waiting)
    && (forall i :: 0 <= i < |Items(c)| ==> Items(c)[i].transitionID == id)
    && (c.Finishing? || c.items != [])
  }

  ghost predicate WaitingFound(made: map<string, Made>, places: map<string, Place>, calls: map<string, Call>) {
    forall t :: t in places && places[t] == Waiting ==>
      t in made && made[t].task.transitionID in calls && InItems(Items(calls[made[t].task.transitionID]), t)
  }

  ghost predicate CallsOK(places: map<string, Place>, calls: map<string, Call>) {
    forall id :: id in calls ==> CallOK(places, id, calls[id])
  }

  ghost predicate Holds(workers: seq<Worker>, w: nat, t: string) {
    w < |workers| && Owns(workers[w]) && workers[w].item.task.id == t
  }

  ghost predicate WorkersOK(places: map<string, Place>, workers: seq<Worker>) {
    && (forall w :: 0 <= w < |workers| && Owns(workers[w]) ==>
          workers[w].item.task.id in places && places[workers[w].item.task.id] == Held(w))
    && (forall t :: t in places && places[t].Held? ==> Holds(workers, places[t].worker, t))
  }

  /** Every item in circulation is a task as it was created. */
  ghost predicate AllKnown(made: map<string, Made>, queue: seq<Item>, calls: map<string, Call>, workers: seq<Worker>) {
    && (forall i :: 0 <= i < |queue| ==> Known(made, queue[i]))
    && CallsKnown(made, calls)
    && (forall w :: 0 <= w < |workers| && workers[w].Busy? ==> Known(made, workers[w].item))
  }

  ghost predicate Named(made: map<string, Made>) {
    forall t :: t in made ==> made[t].task.id == t
  }

  ghost predicate Placed(s: State) {
    && Named(s.made) && s.places.Keys == s.made.Keys == s.work.Keys
    && AllKnown(s.made, s.queue, s.calls, s.workers)
    && QueueOK(s.places, s.queue)
    && CallsOK(s.places, s.calls) && WaitingFound(s.made, s.places, s.calls)
    && WorkersOK(s.places, s.workers)
  }

  // ---------------------------------------------------------------- one task moves

  /** Moves that do not enter or leave a StartTransition call. */
  lemma CallsKeep(made: map<string, Made>, places: map<string, Place>, calls: map<string, Call>, t: string, p: Place)
    requires CallsOK(places, calls) && WaitingFound(made, places, calls)
    requires t in places && !places[t].Waiting? && !p.Waiting?
    ensures CallsOK(places[t := p], calls) && WaitingFound(made, places[t := p], calls)
  {
    forall id | id in calls ensures CallOK(places[t := p], id, calls[id]) { assert CallOK(places, id, calls[id]); }
  }

  lemma QueueKeeps(places: map<string, Place>, queue: seq<Item>, t: string, p: Place)
    requires QueueOK(places, queue) && t in places && !places[t].Queued? && !p.Queued?
    ensures QueueOK(places[t := p], queue)
  {
  }

  lemma WorkersKeep(places: map<string, Place>, workers: seq<Worker>, t: string, p: Place)
    requires WorkersOK(places, workers) && t in places && !places[t].Held? && !p.Held?
    ensures WorkersOK(places[t := p], workers)
  {
    forall u | u in places && u != t && places[u].Held? ensures Holds(workers, places[u].worker, u) {
    }
  }

  /** A worker moves on within a task, or has none before and after. */
  lemma WorkerMoves(places: map<string, Place>, workers: seq<Worker>, w: nat, wk: Worker)
    requires WorkersOK(places, workers) && w < |workers|
    requires Owns(wk) == Owns(workers[w]) && (Owns(wk) ==> wk.item == workers[w].item)
    ensures WorkersOK(places, workers[w := wk])
  {
    var workers' := workers[w := wk];
    forall t | t in places && places[t].Held? ensures Holds(workers', places[t].worker, t) {
      assert Holds(workers, places[t].worker, t);
    }
  }

  lemma WorkerTakes(places: map<string, Place>, workers: seq<Worker>, w: nat, wk: Worker)
    requires WorkersOK(places, workers) && w < |workers| && !Owns(workers[w]) && Owns(wk)
    requires wk.item.task.id in places && !places[wk.item.task.id].Held?
    ensures WorkersOK(places[wk.item.task.id := Held(w)], workers[w := wk])
  {
    var t := wk.item.task.id;
    var places', workers' := places[t := Held(w)], workers[w := wk];
    forall u | u in places' && places'[u].Held? ensures Holds(workers', places'[u].worker, u) {
      if u != t {
        assert Holds(workers, places[u].worker, u);
      }
    }
  }

  /** A worker gives its task up. */
  lemma WorkerLeaves(places: map<string, Place>, workers: seq<Worker>, w: nat, wk: Worker, p: Place)
    requires WorkersOK(places, workers) && w < |workers| && Owns(workers[w]) && !Owns(wk) && !p.Held?
    ensures WorkersOK(places[workers[w].item.task.id := p], workers[w := wk])
  {
    var t := workers[w].item.task.id;
    var places', workers' := places[t := p], workers[w := wk];
    assert places[t] == Held(w);
    forall u | u in places' && places'[u].Held? ensures Holds(workers', places'[u].worker, u) {
      assert Holds(workers, places[u].worker, u);
    }
  }

  lemma QueueGains(places: map<string, Place>, queue: seq<Item>, item: Item)
    requires QueueOK(places, queue) && item.task.id in places && !places[item.task.id].Queued?
    ensures QueueOK(places[item.task.id := Queued], queue + [item])
  {
    var places', queue' := places[item.task.id := Queued], queue + [item];
    forall t | t in places' && places'[t] == Queued ensures InItems(queue', t) {
      if t == item.task.id {
        assert queue'[|queue|].task.id == t;
      } else {
        var i :| 0 <= i < |queue| && queue[i].task.id == t;
        assert queue'[i].task.id == t;
      }
    }
  }

  lemma QueueLoses(places: map<string, Place>, queue: seq<Item>, p: Place)
    requires QueueOK(places, queue) && queue != [] && !p.Queued?
    ensures QueueOK(places[queue[0].task.id := p], queue[1..])
  {
    var places', queue' := places[queue[0].task.id := p], queue[1..];
    forall t | t in places' && places'[t] == Queued ensures InItems(queue', t) {
      var i :| 0 <= i < |queue| && queue[i].task.id == t;
      assert queue'[i - 1].task.id == t;
    }
  }

  ghost predicate CallsKnown(made: map<string, Made>, calls: map<string, Call>) {
    forall id :: id in calls ==> forall i :: 0 <= i < |Items(calls[id])| ==> Known(made, Items(calls[id])[i])
  }

  /** A task is offered by the call of its own transition only. */
  lemma OwnCall(made: map<string, Made>, places: map<string, Place>, calls: map<string, Call>, id: string, t: string)
    requires CallsOK(places, calls) && CallsKnown(made, calls) && id in calls && InItems(Items(calls[id]), t)
    ensures t in made && made[t].task.transitionID == id && t in places && places[t] == Waiting
  {
    assert CallOK(places, id, calls[id]);
    var i :| 0 <= i < |Items(calls[id])| && Items(calls[id])[i].task.id == t;
    assert Known(made, Items(calls[id])[i]);
  }

  /** A StartTransition call hands its first item on. */
  lemma CallGives(made: map<string, Made>, places: map<string, Place>, calls: map<string, Call>, id: string, p: Place)
    requires CallsOK(places, calls) && CallsKnown(made, calls) && !p.Waiting?
    requires id in calls && calls[id].Enqueueing? && calls[id].items != []
    ensures CallsOK(places[calls[id].items[0].task.id := p], AfterOffer(calls, id))
  {
    hide Known;
    assert CallOK(places, id, calls[id]);
    var items := calls[id].items;
    var t := items[0].task.id;
    var calls' := AfterOffer(calls, id);
    assert InItems(Items(calls[id]), t) by { assert Items(calls[id])[0].task.id == t; }
    OwnCall(made, places, calls, id, t);
    forall c | c in calls' ensures CallOK(places[t := p], c, calls'[c]) {
      assert CallOK(places, c, calls[c]);
      if c != id {
        if InItems(Items(calls[c]), t) {
          OwnCall(made, places, calls, c, t);
        }
      }
    }
  }

  lemma CallGivesWaiting(made: map<string, Made>, places: map<string, Place>, calls: map<string, Call>, id: string,
                         p: Place)
    requires WaitingFound(made, places, calls) && !p.Waiting?
    requires id in calls && calls[id].Enqueueing? && calls[id].items != []
    ensures WaitingFound(made, places[calls[id].items[0].task.id := p], AfterOffer(calls, id))
  {
    var items := calls[id].items;
    var t := items[0].task.id;
    var calls' := AfterOffer(calls, id);
    forall u | u in places && u != t && places[u] == Waiting
      ensures u in made && made[u].task.transitionID in calls' && InItems(Items(calls'[made[u].task.transitionID]), u)
    {
      var c := made[u].task.transitionID;
      var i :| 0 <= i < |Items(calls[c])| && Items(calls[c])[i].task.id == u;
      if c == id {
        assert items[1..][i - 1].task.id == u;
      }
    }
  }

  // ---------------------------------------------------------------- a call gives up

  lemma {:induction false} DroppedAll(places: map<string, Place>, items: seq<Item>, t: string)
    requires forall i :: 0 <= i < |items| ==> items[i].task.id in places
    ensures DropAll(places, items).Keys == places.Keys
    ensures t in places ==> DropAll(places, items)[t] == if InItems(items, t) then Dropped else places[t]
  {
    if items != [] {
      var n := |items| - 1;
      DroppedAll(places, items[..n], t);
      if InItems(items, t) && items[n].task.id != t {
        var i :| 0 <= i < |items| && items[i].task.id == t;
        assert items[..n][i].task.id == t;
      }
      if InItems(items[..n], t) {
        var i :| 0 <= i < n && items[..n][i].task.id == t;
        assert items[i].task.id == t;
      }
    }
  }

  /** Exactly the tasks that call `id` has not offered are dropped. */
  ghost predicate GaveUp(made: map<string, Made>, before: map<string, Place>, after: map<string, Place>, id: string) {
    && after.Keys == before.Keys <= made.Keys
    && forall t :: t in before ==>
         after[t] == if before[t] == Waiting && made[t].task.transitionID == id then Dropped else before[t]
  }

  lemma GivesUp(s: State, id: string)
    requires Placed(s) && CanEnqueue(s, id)
    ensures GaveUp(s.made, s.places, DropAll(s.places, ItemsOf(s, id)), id)
  {
    hide DropAll;
    var items := s.calls[id].items;
    assert CallOK(s.places, id, s.calls[id]);
    DroppedAll(s.places, items, "");
    forall t | t in s.places
      ensures t in DropAll(s.places, items)
      ensures DropAll(s.places, items)[t] ==
        if s.places[t] == Waiting && s.made[t].task.transitionID == id then Dropped else s.places[t]
    {
      DroppedAll(s.places, items, t);
      if InItems(items, t) {
        OwnCall(s.made, s.places, s.calls, id, t);
      }
    }
  }

  lemma GivingUpCalls(made: map<string, Made>, before: map<string, Place>, after: map<string, Place>,
                      calls: map<string, Call>, id: string)
    requires GaveUp(made, before, after, id) && CallsOK(before, calls) && CallsKnown(made, calls)
    ensures CallsOK(after, calls - {id})
  {
    hide Known;
    forall c | c in calls && c != id ensures CallOK(after, c, calls[c]) {
      assert CallOK(before, c, calls[c]);
      var items := Items(calls[c]);
      forall i | 0 <= i < |items| ensures after[items[i].task.id] == Waiting {
        assert InItems(items, items[i].task.id);
        OwnCall(made, before, calls, c, items[i].task.id);
      }
    }
  }

  lemma GivingUpRest(made: map<string, Made>, before: map<string, Place>, after: map<string, Place>,
                     calls: map<string, Call>, queue: seq<Item>, workers: seq<Worker>, id: string)
    requires GaveUp(made, before, after, id) && QueueOK(before, queue) && WorkersOK(before, workers)
    requires WaitingFound(made, before, calls)
    ensures QueueOK(after, queue) && WorkersOK(after, workers) && WaitingFound(made, after, calls - {id})
  {
    forall t | t in after && after[t].Held? ensures Holds(workers, after[t].worker, t) {
      assert Holds(workers, before[t].worker, t);
    }
    forall t | t in after && after[t] == Queued ensures InItems(queue, t) {
      assert InItems(queue, t);
    }
  }

  // ---------------------------------------------------------------- what an owner has

  /** The task of worker `w` is a known executable one and is the worker's. */
  ghost predicate Owned(s: State, w: nat) {
    && IsBusy(s, w) && Known(s.made, s.workers[w].item) && TaskOf(s, w) in s.work
    && TaskOf(s, w) in s.places && s.places[TaskOf(s, w)] == Held(w)
  }

  lemma Own(s: State, w: nat)
    requires Placed(s) && IsBusy(s, w)
    ensures Known(s.made, s.workers[w].item) && TaskOf(s, w) in s.work && TaskOf(s, w) in s.places
    ensures Working(s, w) ==> Owned(s, w)
    ensures forall t :: t in s.places && s.places[t] == Held(w) ==> t == TaskOf(s, w)
  {
    hide Known;
    assert Known(s.made, s.workers[w].item);
    KnownKeys(s.made, s.workers[w].item);
    forall t | t in s.places && s.places[t] == Held(w) ensures t == TaskOf(s, w) {
      assert Holds(s.workers, w, t);
    }
  }

  lemma KnownKeys(made: map<string, Made>, item: Item)
    requires Known(made, item)
    ensures item.task.id in made && made[item.task.id].task.transitionID == item.transitionID
    ensures made[item.task.id].task.state.Pending?
  {
  }

  lemma HeadOfQueue(s: State)
    requires Placed(s) && s.queue != []
    ensures var item := s.queue[0];
            && Known(s.made, item) && item.task.id in s.work
            && item.task.id in s.places && s.places[item.task.id] == Queued
  {
    hide Known;
    KnownKeys(s.made, s.queue[0]);
  }

  /** What `Placed` says once the tables have the same tasks. */
  ghost predicate PlacedAs(made: map<string, Made>, places: map<string, Place>, calls: map<string, Call>,
                           queue: seq<Item>, workers: seq<Worker>) {
    && AllKnown(made, queue, calls, workers) && QueueOK(places, queue)
    && CallsOK(places, calls) && WaitingFound(made, places, calls) && WorkersOK(places, workers)
  }

  // ---------------------------------------------------------------- workers

  lemma WorkerKnown(s: State, w: nat, act: Action)
    requires AllKnown(s.made, s.queue, s.calls, s.workers) && CanAct(s, w, act)
    ensures var step := WorkerStep(w, act);
            AllKnown(s.made, NextQueue(s, step), s.calls, NextWorkers(s, step))
  {
    hide Known, CallsKnown, CanMove, NextStage, NextTask, GivesUpTask;
  }

  lemma DequeuePlaced(s: State, w: nat)
    requires Placed(s) && CanDequeue(s, w)
    ensures var step := WorkerStep(w, Dequeue);
            PlacedAs(s.made, NextPlaces(s, step), s.calls, NextQueue(s, step), NextWorkers(s, step))
  {
    hide Known, CallsOK, WaitingFound, WorkersOK, QueueOK, AllKnown;
    WorkerKnown(s, w, Dequeue);
    HeadOfQueue(s);
    WorkerTakes(s.places, s.workers, w, Busy(s.queue[0], s.queue[0].task, "", Fetched));
    QueueLoses(s.places, s.queue, Held(w));
    CallsKeep(s.made, s.places, s.calls, s.queue[0].task.id, Held(w));
  }

  /** After recording, a worker no longer owns its task; all other actions but giving up leave it. */
  lemma StageOwns(s: State, w: nat, act: Action)
    requires CanAct(s, w, act) && !act.Dequeue?
    ensures var wk, wk' := s.workers[w], NextWorker(s, s.workers[w], act);
            if GivesUpTask(s, wk, act) || act.Record? then wk.Busy? && Owns(wk) && !Owns(wk')
            else Owns(wk') == Owns(wk) && (Owns(wk) ==> wk'.item == wk.item)
  {
    hide NextTask, ContextEnded, TrimSpace, EqualFold, MarkOf, FinalOf, Update, SavedRow, SettledRow;
  }

  /** Worker `w` hands its task on to a place where nobody has it. */
  lemma LeavingPlaced(s: State, w: nat, wk: Worker, p: Place)
    requires Placed(s) && IsBusy(s, w) && Owns(s.workers[w]) && !Owns(wk) && (p.Dropped? || p.Done?)
    ensures var places := s.places[TaskOf(s, w) := p];
            && QueueOK(places, s.queue) && CallsOK(places, s.calls) && WaitingFound(s.made, places, s.calls)
            && WorkersOK(places, s.workers[w := wk])
  {
    hide Known, CallsOK, WaitingFound, WorkersOK, QueueOK, AllKnown, Named;
    Own(s, w);
    WorkerLeaves(s.places, s.workers, w, wk, p);
    QueueKeeps(s.places, s.queue, TaskOf(s, w), p);
    CallsKeep(s.made, s.places, s.calls, TaskOf(s, w), p);
  }

  lemma WorkerPlaced(s: State, w: nat, act: Action)
    requires Placed(s) && CanAct(s, w, act) && !act.Dequeue?
    ensures var step := WorkerStep(w, act);
            PlacedAs(s.made, NextPlaces(s, step), s.calls, NextQueue(s, step), NextWorkers(s, step))
  {
    hide Known, CallsOK, WaitingFound, WorkersOK, QueueOK, AllKnown, Named, CanMove, GivesUpTask, Owns, NextWorker;
    WorkerKnown(s, w, act);
    StageOwns(s, w, act);
    var wk, wk' := s.workers[w], NextWorker(s, s.workers[w], act);
    if GivesUpTask(s, wk, act) || act.Record? {
      LeavingPlaced(s, w, wk', if GivesUpTask(s, wk, act) then Dropped else Done(OutcomeAt(wk.at)));
    } else {
      WorkerMoves(s.places, s.workers, w, wk');
    }
  }

  // ---------------------------------------------------------------- calls

  /** Calls with the same items are placed alike. */
  lemma SameItems(made: map<string, Made>, places: map<string, Place>, calls: map<string, Call>,
                  calls': map<string, Call>)
    requires CallsOK(places, calls) && WaitingFound(made, places, calls) && CallsKnown(made, calls)
    requires calls'.Keys <= calls.Keys
    requires forall c :: c in calls ==>
               if c in calls' then Items(calls'[c]) == Items(calls[c]) && calls'[c].Finishing? == calls[c].Finishing?
               else Items(calls[c]) == []
    ensures CallsOK(places, calls') && WaitingFound(made, places, calls') && CallsKnown(made, calls')
  {
    hide Known;
    forall c | c in calls' ensures CallOK(places, c, calls'[c]) { assert CallOK(places, c, calls[c]); }
    forall t | t in places && places[t] == Waiting
      ensures t in made && made[t].task.transitionID in calls' && InItems(Items(calls'[made[t].task.transitionID]), t)
    {
      assert InItems(Items(calls[made[t].task.transitionID]), t);
    }
  }

  /** The first item of a call that offers tasks waits, and is a task of the call's transition. */
  lemma FirstOffered(s: State, id: string)
    requires Placed(s) && CanEnqueue(s, id)
    ensures var item := s.calls[id].items[0];
            && Known(s.made, item) && item.transitionID == id
            && item.task.id in s.places && s.places[item.task.id] == Waiting
  {
    hide Known;
    assert CallOK(s.places, id, s.calls[id]);
    assert Items(s.calls[id])[0] == s.calls[id].items[0];
  }

  lemma OfferKnown(s: State, id: string)
    requires AllKnown(s.made, s.queue, s.calls, s.workers) && CanEnqueue(s, id)
    ensures AllKnown(s.made, s.queue + [s.calls[id].items[0]], AfterOffer(s.calls, id), s.workers)
  {
    hide Known;
    var calls' := AfterOffer(s.calls, id);
    assert Items(s.calls[id])[0] == s.calls[id].items[0];
    forall c, i | c in calls' && 0 <= i < |Items(calls'[c])| ensures Known(s.made, Items(calls'[c])[i]) {
      if c == id {
        assert Items(calls'[c])[i] == Items(s.calls[c])[i + 1];
      }
    }
  }

  lemma EnqueuePlaced(s: State, id: string)
    requires Placed(s) && CanEnqueue(s, id)
    ensures var step := EnqueueStep(id);
            PlacedAs(s.made, NextPlaces(s, step), NextCalls(s, step), NextQueue(s, step), s.workers)
  {
    hide Known, CallsKnown, QueueOK, CallsOK, WaitingFound, WorkersOK, AfterOffer, CanEnqueue;
    FirstOffered(s, id);
    OfferKnown(s, id);
    OfferPlaces(s, id);
    hide AllKnown;
  }

  lemma OfferPlaces(s: State, id: string)
    requires Placed(s) && CanEnqueue(s, id)
    ensures var item := s.calls[id].items[0];
            var places := s.places[item.task.id := Queued];
            && QueueOK(places, s.queue + [item]) && WorkersOK(places, s.workers)
            && CallsOK(places, AfterOffer(s.calls, id)) && WaitingFound(s.made, places, AfterOffer(s.calls, id))
  {
    hide Known, CallsKnown, QueueOK, CallsOK, WaitingFound, WorkersOK, AfterOffer;
    FirstOffered(s, id);
    var item := s.calls[id].items[0];
    QueueGains(s.places, s.queue, item);
    WorkersKeep(s.places, s.workers, item.task.id, Queued);
    CallGives(s.made, s.places, s.calls, id, Queued);
    CallGivesWaiting(s.made, s.places, s.calls, id, Queued);
  }

  lemma CallPlaced(s: State, step: Step)
    requires Placed(s) && Enabled(s, step) && !step.CreateStep? && !step.WorkerStep?
    ensures PlacedAs(s.made, NextPlaces(s, step), NextCalls(s, step), NextQueue(s, step), s.workers)
  {
    hide Known, QueueOK, CallsOK, WaitingFound, WorkersOK, InItems, DropAll, CallsKnown;
    if step.EnqueueStep? {
      EnqueuePlaced(s, step.id);
    } else if step.EnqueueFailStep? {
      GivesUp(s, step.id);
      GivingUpCalls(s.made, s.places, NextPlaces(s, step), s.calls, step.id);
      GivingUpRest(s.made, s.places, NextPlaces(s, step), s.calls, s.queue, s.workers, step.id);
      FewerKnown(s.made, s.calls, step.id);
    } else if step.RegisterStep? || step.FinishStep? {
      SameItems(s.made, s.places, s.calls, NextCalls(s, step));
    }
  }

  lemma FewerKnown(made: map<string, Made>, calls: map<string, Call>, id: string)
    requires CallsKnown(made, calls)
    ensures CallsKnown(made, calls - {id})
  {
    hide Known;
  }

  /** No step but a creation adds a task. */
  lemma SameTasks(s: State, step: Step)
    requires Placed(s) && Enabled(s, step) && !step.CreateStep?
    ensures NextMade(s, step) == s.made
    ensures NextPlaces(s, step).Keys == s.places.Keys && NextWork(s, step).Keys == s.work.Keys
  {
    hide NextNote, GivesUpTask, CanMove, ContextEnded, DropAll, Known, AllKnown, QueueOK, CallsOK, WaitingFound,
         WorkersOK, OutcomeAt, CanDequeue;
    if step.WorkerStep? {
      WorkerKeys(s, step.w, step.act);
    } else if step.EnqueueFailStep? {
      GivesUp(s, step.id);
    } else if step.EnqueueStep? {
      FirstOffered(s, step.id);
    }
  }

  lemma WorkerKeys(s: State, w: nat, act: Action)
    requires Placed(s) && CanAct(s, w, act)
    ensures w < |s.workers|
    ensures WorkerPlaces(s, w, act).Keys == s.places.Keys && WorkerWork(s, w, act).Keys == s.work.Keys
  {
    hide NextNote, GivesUpTask, CanMove, ContextEnded, Known, AllKnown, QueueOK, CallsOK, WaitingFound, WorkersOK,
         OutcomeAt, Named;
    if act.Dequeue? {
      HeadOfQueue(s);
    } else if s.workers[w].Busy? {
      Own(s, w);
    }
  }

  lemma StepPlaced(s: State, step: Step)
    requires Placed(s) && Enabled(s, step) && !step.CreateStep?
    ensures Placed(Apply(s, step))
  {
    hide NextDb, NextMade, NextPlaces, NextWork, NextProgress, NextClosed, NextMarkers, NextCanceled, NextAborts,
         NextQueue, NextLimiters, CanMove, CanDequeue, AfterOffer, Created, Known, AllKnown, QueueOK, CallsOK,
         WaitingFound, WorkersOK, Named;
    SameTasks(s, step);
    if !step.WorkerStep? {
      CallPlaced(s, step);
    } else if step.act.Dequeue? {
      assert step == WorkerStep(step.w, Dequeue);
      DequeuePlaced(s, step.w);
    } else {
      WorkerPlaced(s, step.w, step.act);
    }
  }
}
