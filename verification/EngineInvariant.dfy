/** The invariant of the engine. */
module EngineInvariant {
  import opened Text
  import opened Records
  import opened TransitionStore
  import opened OutboxReplay
  import opened Sections
  import opened Engine
  import opened Placement
  import opened Ledger
  import opened Limiters
  import opened Evidence
  import opened Trails

  // ---------------------------------------------------------------- the database knows what the runner knows

  ghost predicate KnownID(db: Database, id: string) {
    id in db.transitions && Trimmed(id) && id != ""
  }

  ghost predicate Stored(s: State) {
    && s.made.Keys == s.db.tasks.Keys
    && (forall t :: t in s.made ==> s.made[t].task.transitionID in s.db.transitions)
    && (forall id :: IsRegistered(s, id) || id in s.calls ==> KnownID(s.db, id))
    && (forall id :: CanFinish(s, id) ==> FinishingOK(s, id))
  }

  /** A call that only has its closing update left has no executable task. */
  ghost predicate FinishingOK(s: State, id: string) {
    CanFinish(s, id) ==> s.calls[id].transition.id == id && !IsRegistered(s, id)
  }

  // ---------------------------------------------------------------- the order of the transition's writes

  predicate IsRegistered(s: State, id: string) {
    id in s.progress || id in s.closed
  }

  function TrailOf(s: State, id: string): seq<WriteKind> {
    Trail(s.db.outbox, id)
  }

  /** While the "running" write has not been committed, the task of the worker in charge of it stays uncounted. */
  ghost predicate MarkerOK(s: State, id: string) {
    id in s.progress && s.progress[id].started && AsRunning !in TrailOf(s, id) ==>
      && id in s.markers
      && s.markers[id] in s.made && s.made[s.markers[id]].task.transitionID == id
      && s.markers[id] in s.places
      && (s.places[s.markers[id]].Dropped? || InCharge(s, s.places[s.markers[id]]))
  }

  ghost predicate InCharge(s: State, p: Place) {
    p.Held? && IsBusy(s, p.worker) && At(s, p.worker).MarkingRunning?
  }

  /** The snapshots workers are about to write are those their sections took. */
  ghost predicate WriterFits(progress: map<string, Progress>, closed: map<string, Closing>,
                             markers: map<string, string>, tr: seq<WriteKind>, wk: Worker, w: nat)
  {
    wk.Busy? && !wk.at.Fetched? && !wk.at.Releasing? ==>
      var id := wk.item.transitionID;
      if wk.at.MarkingRunning? then
        && wk.at.snapshot.id == id && KindOfWrite(wk.at.snapshot) == AsRunning
        && id in progress && progress[id].started && AsRunning !in tr
        && id in markers && markers[id] == wk.item.task.id
      else if wk.at.Finalizing? then
        && wk.at.snapshot.id == id && id in closed && closed[id].worker == w
        && wk.at.snapshot == closed[id].progress.transition && AsFinal !in tr
      else id in progress && (progress[id].started || progress[id].aborted)
  }

  ghost predicate WriterOK(s: State, w: nat) {
    w < |s.workers| ==>
      WriterFits(s.progress, s.closed, s.markers, TrailOf(s, TransitionOf(s, w)), s.workers[w], w)
  }

  predicate EntryAborted(progress: map<string, Progress>, closed: map<string, Closing>, id: string) {
    if id in progress then progress[id].aborted else id in closed && closed[id].progress.aborted
  }

  ghost predicate AbortOK(s: State, id: string) {
    id in s.aborts ==>
      && EntryAborted(s.progress, s.closed, id)
      && s.aborts[id].id == id && KindOfWrite(s.aborts[id]) == AsAborted && AsAborted !in TrailOf(s, id)
  }

  /** The flags of the entry fit the history. */
  ghost predicate EntryFits(progress: map<string, Progress>, closed: map<string, Closing>, tr: seq<WriteKind>,
                            id: string) {
    && (id in progress ==> id !in closed && Fits(tr, progress[id], false))
    && (id in closed ==> Fits(tr, closed[id].progress, true))
  }

  ghost predicate EntryOK(s: State, id: string) {
    && EntryFits(s.progress, s.closed, TrailOf(s, id), id)
    && (CanRegister(s, id) ==> TrailOf(s, id) == [AsCreated])
  }

  /** A task is offered to the queue only once its transition is registered. */
  ghost predicate UnderwayOK(s: State, t: string) {
    t in s.made && t in s.places && s.made[t].task.state.Pending? && !s.places[t].Waiting? ==>
      IsRegistered(s, s.made[t].task.transitionID)
  }

  ghost predicate Ordered(s: State) {
    && (forall id :: EntryOK(s, id))
    && (forall id :: MarkerOK(s, id))
    && (forall w: nat :: WriterOK(s, w))
    && (forall id :: AbortOK(s, id))
    && (forall t :: UnderwayOK(s, t))
  }

  // ---------------------------------------------------------------- rows and results of a task

  /** Row `row` names the task as it was created; the credential and the TLS flag are not stored. */
  predicate SameKeys(row: Task, t: Task) {
    && row.id == t.id && row.transitionID == t.transitionID && row.nodeID == t.nodeID && row.bmcID == t.bmcID
    && row.bmcEndpoint == t.bmcEndpoint && row.operation == t.operation && row.dryRun == t.dryRun
    && row.queuedAt == t.queuedAt && row.createdAt == t.createdAt
    && row.credentialID == "" && !row.insecureSkipVerify
  }

  /** What the database says about a task: the row is the one created until a write of it is saved, and the one result
      comes with the row that completes the task. */
  predicate TableOK(m: Made, k: Work, row: Task, results: seq<TaskState>) {
    && SameKeys(row, m.task)
    && if !m.task.state.Pending? then row == Columns(m.task) && results == [row.state]
       else if k.recorded.Saved? then k.row.Some? && row == Columns(k.row.value) && results == [row.state]
       else results == [] && if k.announced.Saved? then row.state.Running? else row == Columns(m.task)
  }

  predicate PublishedOK(s: State, t: string) {
    && t in s.made && t in s.work && t in s.db.tasks
    && TableOK(s.made[t], s.work[t], s.db.tasks[t], Results(s.db.outbox, t))
  }

  ghost predicate Published(s: State) {
    forall t :: t in s.made ==> PublishedOK(s, t)
  }

  // ---------------------------------------------------------------- the whole

  datatype Concern =
    | Sizes | Placing | Counting | Limiting | Proving | Storing | Ordering | Publishing | Logging

  ghost predicate Keeps(s: State, c: Concern) {
    match c
    case Sizes =>
      ValidLimits(s.limits) && |s.workers| == s.limits.workers && |s.queue| <= s.limits.queueSize
    case Placing => Placed(s)
    case Counting => Counts(s)
    case Limiting => Limited(s)
    case Proving => Evident(s)
    case Storing => Stored(s)
    case Ordering => Ordered(s)
    case Publishing => Published(s)
    case Logging => Logged(s.db)
  }

  ghost predicate Inv(s: State) {
    forall c :: Keeps(s, c)
  }

  /** The invariant as far as writes and counts go. */
  ghost predicate Sound(s: State) {
    Placed(s) && Counts(s) && Evident(s) && Stored(s) && Ordered(s) && Published(s)
  }

  lemma Parts(s: State)
    requires Inv(s)
    ensures ValidLimits(s.limits) && |s.workers| == s.limits.workers && |s.queue| <= s.limits.queueSize
    ensures Placed(s) && Counts(s) && Limited(s) && Evident(s) && Stored(s) && Ordered(s) && Published(s)
    ensures Logged(s.db) && Sound(s)
  {
    hide Placed, Counts, Limited, Evident, Stored, Ordered, Published, Logged;
    assert Keeps(s, Sizes) && Keeps(s, Placing) && Keeps(s, Counting) && Keeps(s, Limiting) && Keeps(s, Proving);
    assert Keeps(s, Storing) && Keeps(s, Ordering) && Keeps(s, Publishing) && Keeps(s, Logging);
  }

  lemma InitPlaced(l: Limits)
    ensures Placed(Init(l)) && Limited(Init(l))
  {
    hide Known;
  }

  lemma InitOrdered(l: Limits)
    ensures Ordered(Init(l)) && Logged(Init(l).db)
  {
  }

  lemma InitInv(l: Limits)
    requires ValidLimits(l)
    ensures Inv(Init(l))
  {
    hide Placed, Limited, Ordered, Logged;
    InitPlaced(l);
    InitOrdered(l);
  }
}
