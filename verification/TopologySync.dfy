/** One reconciliation cycle of the mapping cache, its short cut, and what any number of cycles keeps
    (sync/smd_sync.go). */
module TopologySync {
  import opened Text
  import opened Records
  import opened MappingTables
  import opened MappingStore
  import opened Topology

  /** What the syncer is built with. The digests stand for `computeResourceListETag`, `normalize` for
      `normalizeEndpoint`. */
  datatype Setup = Setup(
    componentDigest: seq<Component> -> string,
    interfaceDigest: seq<Interface> -> string,
    normalize: string -> string,
    defaultCredentialID: string)

  /** Equal digests mean equal lists, and a digest is never empty. */
  ghost predicate CollisionFree(c: Setup) {
    && (forall a, b :: c.componentDigest(a) == c.componentDigest(b) ==> a == b)
    && (forall a, b :: c.interfaceDigest(a) == c.interfaceDigest(b) ==> a == b)
    && (forall a :: c.componentDigest(a) != "") && (forall a :: c.interfaceDigest(a) != "")
  }

  datatype Listing<T> = ListError(detail: string) | NotModified | Items(items: seq<T>)

  /** The answers of SMD and of the database during one cycle, and the clock. */
  datatype World = World(
    components: Listing<Component>,
    interfaces: Listing<Interface>,
    refresh: Listing<Component>,
    listFails: bool,
    applyFault: TxFault,
    startedAt: Time,
    syncedAt: Time,
    completedAt: Time)

  datatype Status = Status(
    inProgress: bool,
    lastAttemptAt: Option<Time>,
    lastSyncAt: Option<Time>,
    lastComponentETag: string,
    lastInterfaceETag: string,
    lastError: string,
    notModified: bool,
    lastCounts: Counts,
    successfulRuns: nat,
    failedRuns: nat)

  datatype SyncState = SyncState(ready: bool, componentETag: string, interfaceETag: string, status: Status)

  const START := SyncState(false, "", "", Status(false, None, None, "", "", "", false, NO_COUNTS, 0, 0))

  datatype Outcome = SyncFailed(error: string) | Skipped | Reconciled(counts: Counts)

  // ---------------------------------------------------------------- one cycle

  function Begun(st: Status, w: World): Status {
    st.(inProgress := true, lastAttemptAt := Some(w.startedAt), lastError := "", notModified := false)
  }

  function AfterFailure(s: SyncState, w: World, error: string): SyncState {
    s.(status := Begun(s.status, w).(inProgress := false, failedRuns := s.status.failedRuns + 1, lastError := error,
                                     notModified := false, lastCounts := NO_COUNTS))
  }

  function AfterSkip(s: SyncState, w: World): SyncState {
    s.(status := Begun(s.status, w).(inProgress := false, lastSyncAt := Some(w.completedAt), notModified := true,
                                     lastCounts := NO_COUNTS,
                                     successfulRuns := s.status.successfulRuns + 1))
  }

  function AfterReconcile(s: SyncState, w: World, componentETag: string, interfaceETag: string,
                          counts: Counts): SyncState {
    SyncState(true, componentETag, interfaceETag,
              Begun(s.status, w).(inProgress := false, lastSyncAt := Some(w.completedAt),
                                  lastComponentETag := componentETag, lastInterfaceETag := interfaceETag,
                                  lastCounts := counts, notModified := false,
                                    successfulRuns := s.status.successfulRuns + 1, lastError := ""))
  }

  predicate ShortCut(c: Setup, s: SyncState, w: World) {
    w.components.NotModified? && w.interfaces.Items? && c.interfaceDigest(w.interfaces.items) == s.interfaceETag
  }

  /** The component list a full cycle works on, or why there is none. */
  function ComponentsOf(w: World): Listing<Component> {
    if w.components.NotModified?
      then (if w.refresh.NotModified? then ListError("component refresh unexpectedly returned nil") else w.refresh)
    else w.components
  }

  /** Why a cycle fails before it reaches the tables. */
  function EarlyError(c: Setup, s: SyncState, w: World): Option<string> {
    if w.components.ListError? then Some(w.components.detail)
    else if w.interfaces.ListError? then Some(w.interfaces.detail)
    else if w.interfaces.NotModified? then Some("resource list is nil")
    else if ShortCut(c, s, w) then None
    else if ComponentsOf(w).ListError? then Some(ComponentsOf(w).detail)
    else if w.listFails then Some("listing existing BMC endpoint mappings")
    else None
  }

  /** The full path: merge what SMD lists with the endpoints in the table, and replace both tables. */
  ghost function FullPath(c: Setup, t: Tables, components: seq<Component>, interfaces: seq<Interface>, syncedAt: Time,
                          fault: TxFault): (Tables, Apply) {
    Replace(t, DesiredEndpoints(components, interfaces, Rows(t.endpoints), c.defaultCredentialID, c.normalize),
            DesiredLinks(components), syncedAt, fault)
  }

  /** `SyncOnce`. */
  ghost function Cycle(c: Setup, s: SyncState, t: Tables, w: World): (r: (SyncState, Tables, Outcome)) {
    match EarlyError(c, s, w)
    case Some(error) => (AfterFailure(s, w, error), t, SyncFailed(error))
    case None =>
      if ShortCut(c, s, w) then (AfterSkip(s, w), t, Skipped)
      else
        var components := ComponentsOf(w).items;
        match FullPath(c, t, components, w.interfaces.items, w.syncedAt, w.applyFault)
        case (after, NotApplied) =>
          (AfterFailure(s, w, "reconciling topology mappings"), after, SyncFailed("reconciling topology mappings"))
        case (after, Applied(counts)) =>
          (AfterReconcile(s, w, c.componentDigest(components), c.interfaceDigest(w.interfaces.items), counts), after,
           Reconciled(counts))
  }

  class Syncer {
    const setup: Setup
    const store: Mappings
    var status: Status
    var lastComponentETag: string
    var lastInterfaceETag: string
    var ready: bool

    function State(): SyncState
      reads this
    {
      SyncState(ready, lastComponentETag, lastInterfaceETag, status)
    }

    constructor (c: Setup, st: Mappings)
      ensures State() == START && store == st && setup == c.(defaultCredentialID := TrimSpace(c.defaultCredentialID))
    {
      setup, store := c.(defaultCredentialID := TrimSpace(c.defaultCredentialID)), st;
      status, lastComponentETag, lastInterfaceETag, ready := START.status, "", "", false;
    }

    method MarkFailure(error: string) returns (r: Outcome)
      modifies this`status
      ensures status ==
        old(status).(inProgress := false, failedRuns := old(status).failedRuns + 1, lastError := error,
                     notModified := false, lastCounts := NO_COUNTS)
      ensures r == SyncFailed(error)
    {
      status := status.(failedRuns := status.failedRuns + 1, lastError := error, notModified := false,
                        lastCounts := NO_COUNTS);
      status := status.(inProgress := false);
      return SyncFailed(error);
    }

    /** The part of a cycle that writes: merge, replace both tables, keep the digests. */
    method Reconcile(components: seq<Component>, interfaces: seq<Interface>, w: World) returns (r: Outcome)
      requires status == Begun(status, w)
      modifies this, store
      ensures var (after, applied) := FullPath(setup, old(store.Contents()), components, interfaces, w.syncedAt,
                                               w.applyFault);
              && store.Contents() == after
              && (applied.NotApplied? ==>
                    r == SyncFailed("reconciling topology mappings") &&
                    State() == AfterFailure(old(State()), w, "reconciling topology mappings"))
              && (applied.Applied? ==>
                    && r == Reconciled(applied.counts)
                    && State() ==
                      AfterReconcile(old(State()), w, setup.componentDigest(components),
                                     setup.interfaceDigest(interfaces), applied.counts))
    {
      hide Replace, DesiredEndpoints, DesiredLinks, Rows;
      var componentETag, interfaceETag := setup.componentDigest(components), setup.interfaceDigest(interfaces);
      var existing := CollectRows(store.endpoints);
      var desiredEndpoints, desiredLinks :=
        BuildDesiredMappings(components, interfaces, existing, setup.defaultCredentialID, setup.normalize);
      var applied := store.ReplaceTopologyMappings(desiredEndpoints, desiredLinks, w.syncedAt, w.applyFault);
      if applied.NotApplied? {
        r := MarkFailure("reconciling topology mappings");
        return;
      }
      lastComponentETag, lastInterfaceETag, ready := componentETag, interfaceETag, true;
      status := status.(lastComponentETag := componentETag, lastInterfaceETag := interfaceETag);
      status := status.(lastSyncAt := Some(w.completedAt), lastCounts := applied.counts, notModified := false,
                        successfulRuns := status.successfulRuns + 1, lastError := "");
      status := status.(inProgress := false);
      return Reconciled(applied.counts);
    }

    method SyncOnce(w: World) returns (r: Outcome)
      modifies this, store
      ensures (State(), store.Contents(), r) == Cycle(setup, old(State()), old(store.Contents()), w)
    {
      hide FullPath;
      status := status.(inProgress := true, lastAttemptAt := Some(w.startedAt), lastError := "", notModified := false);
      if w.components.ListError? {
        r := MarkFailure(w.components.detail);
        return;
      }
      if w.interfaces.ListError? {
        r := MarkFailure(w.interfaces.detail);
        return;
      }
      if w.interfaces.NotModified? {
        r := MarkFailure("resource list is nil");
        return;
      }
      var interfaceETag := setup.interfaceDigest(w.interfaces.items);
      if w.components.NotModified? && interfaceETag == lastInterfaceETag {
        status := status.(lastSyncAt := Some(w.completedAt), notModified := true, lastCounts := NO_COUNTS,
                          successfulRuns := status.successfulRuns + 1);
        status := status.(inProgress := false);
        return Skipped;
      }
      var components := w.components;
      if components.NotModified? {
        components := w.refresh;
        if components.ListError? {
          r := MarkFailure(components.detail);
          return;
        }
        if components.NotModified? {
          r := MarkFailure("component refresh unexpectedly returned nil");
          return;
        }
      }
      if w.listFails {
        r := MarkFailure("listing existing BMC endpoint mappings");
        return;
      }
      r := Reconcile(components.items, w.interfaces.items, w);
    }
  }
}
