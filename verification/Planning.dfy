/** From the node list of a request to the tasks of a transition (StartTransition in engine/runner.go). */
module Planning {
  import opened Text
  import opened Records
  import opened PowerStates

  datatype Mapping = Mapping(nodeID: string, bmcID: string, endpoint: string, credentialID: string,
                             insecureSkipVerify: bool)

  datatype MappingCode = MappingNotFound | EndpointMissing | CredentialMissing

  datatype MappingError = MappingError(nodeID: string, code: MappingCode, detail: string)

  function Quoted(s: string): string {
    "\"" + s + "\""
  }

  function MissingDetail(nodeID: string): string {
    "node " + Quoted(nodeID) +
      " has no BMC mapping in local cache; run POST /power/v1/admin/mappings/sync (discovery is not auto-triggered)"
  }

  /** `MissingNodeMappingError`, `MissingEndpointError` and `MissingCredentialError`. */
  function MissingNode(nodeID: string): MappingError {
    MappingError(TrimSpace(nodeID), MappingNotFound, MissingDetail(TrimSpace(nodeID)))
  }

  function MissingEndpoint(nodeID: string, bmcID: string): MappingError {
    MappingError(TrimSpace(nodeID), EndpointMissing,
                 "node " + Quoted(TrimSpace(nodeID)) + " maps to BMC " + Quoted(TrimSpace(bmcID))
                 + " without a Redfish endpoint; run POST /power/v1/admin/mappings/sync or fix SMD interface data")
  }

  function MissingCredential(nodeID: string, bmcID: string): MappingError {
    MappingError(TrimSpace(nodeID), CredentialMissing,
                 "node " + Quoted(TrimSpace(nodeID)) + " maps to BMC " + Quoted(TrimSpace(bmcID))
                 + " without credential_id binding; configure a per-BMC credential then resync")
  }

  function OperationName(op: Operation): string {
    match op
    case On => "On"
    case GracefulRestart => "GracefulRestart"
    case ForceRestart => "ForceRestart"
    case NMI => "Nmi"
    case ForceOff => "ForceOff"
    case GracefulShutdown => "GracefulShutdown"
    case Other(name) => name
  }

  /** `mappingByNode` and `missingByNode`: keyed by the trimmed id, the last one winning. */
  function MappingByNode(items: seq<Mapping>): map<string, Mapping> {
    if items == [] then map[]
    else MappingByNode(items[..|items| - 1])[TrimSpace(items[|items| - 1].nodeID) := items[|items| - 1]]
  }

  function MissingByNode(items: seq<MappingError>): map<string, MappingError> {
    if items == [] then map[]
    else MissingByNode(items[..|items| - 1])[TrimSpace(items[|items| - 1].nodeID) := items[|items| - 1]]
  }

  datatype Request = Request(
    requestID: string,
    requestedBy: string,
    operation: Operation,
    nodeIDs: seq<string>,
    dryRun: bool)

  datatype Routing = Routing(mappings: map<string, Mapping>, missing: map<string, MappingError>)

  /** The nodes that get a failed task at once. */
  predicate Unroutable(r: Routing, nodeID: string) {
    nodeID in r.missing || nodeID !in r.mappings
  }

  function BlankTask(nodeID: string, op: Operation, dryRun: bool, now: Time): Task {
    Task("", "", nodeID, "", "", "", OperationName(op), Pending, dryRun, false, 0, "", "", now, None, None, now, now)
  }

  function PlanTask(r: Routing, nodeID: string, op: Operation, dryRun: bool, now: Time): Task {
    var t := BlankTask(nodeID, op, dryRun, now);
    if nodeID in r.missing then
      t.(state := Failed, errorDetail := TrimSpace(r.missing[nodeID].detail), completedAt := Some(now))
    else if nodeID !in r.mappings then
      t.(state := Failed, errorDetail := MissingNode(nodeID).detail, completedAt := Some(now))
    else
      var m := r.mappings[nodeID];
      var routed := t.(bmcID := TrimSpace(m.bmcID), bmcEndpoint := TrimSpace(m.endpoint),
                       credentialID := TrimSpace(m.credentialID), insecureSkipVerify := m.insecureSkipVerify);
      if dryRun then routed.(state := Planned, completedAt := Some(now)) else routed
  }

  function PlanTasks(r: Routing, nodeIDs: seq<string>, op: Operation, dryRun: bool, now: Time): (tasks: seq<Task>)
    ensures |tasks| == |nodeIDs|
    ensures forall i :: 0 <= i < |tasks| ==> tasks[i] == PlanTask(r, nodeIDs[i], op, dryRun, now)
  {
    seq(|nodeIDs|, i requires 0 <= i < |nodeIDs| => PlanTask(r, nodeIDs[i], op, dryRun, now))
  }

  function CountState(tasks: seq<Task>, s: TaskState): (n: nat)
    ensures n <= |tasks|
  {
    if tasks == [] then 0
    else CountState(tasks[..|tasks| - 1], s) + if tasks[|tasks| - 1].state == s then 1 else 0
  }

  /** The transition handed to the store together with its tasks. */
  function PlanTransition(req: Request, tasks: seq<Task>, now: Time): Transition {
    var t := Transition("", TrimSpace(req.requestID), OperationName(req.operation), TPending,
                        TrimSpace(req.requestedBy),
                        req.dryRun, |tasks|, 0, CountState(tasks, Failed), now, None, None, now, now);
    if req.dryRun then t.(state := TPlanned, completedAt := Some(now))
    else if CountState(tasks, Pending) == 0 then t.(state := TFailed, completedAt := Some(now))
    else t
  }

  // ---------------------------------------------------------------- what a plan means

  /** The name under which the table keeps an operation. */
  predicate Spelled(op: Operation, name: string) {
    && (op.On? ==> name == "On") && (op.GracefulRestart? ==> name == "GracefulRestart")
    && (op.ForceRestart? ==> name == "ForceRestart") && (op.NMI? ==> name == "Nmi")
    && (op.ForceOff? ==> name == "ForceOff") && (op.GracefulShutdown? ==> name == "GracefulShutdown")
    && (op.Other? ==> name == op.name)
  }

  lemma NameSpelled(op: Operation)
    ensures Spelled(op, OperationName(op))
  {
  }

  /** `m` is the last mapping given for node `n`; `e` the last error. */
  ghost predicate MappingGiven(items: seq<Mapping>, n: string, m: Mapping) {
    exists k :: 0 <= k < |items| && Padded(items[k].nodeID, n) && m == items[k] &&
      forall i :: k < i < |items| ==> !Padded(items[i].nodeID, n)
  }

  ghost predicate ErrorGiven(items: seq<MappingError>, n: string, e: MappingError) {
    exists k :: 0 <= k < |items| && Padded(items[k].nodeID, n) && e == items[k] &&
      forall i :: k < i < |items| ==> !Padded(items[i].nodeID, n)
  }

  lemma {:induction false} MappingMeans(items: seq<Mapping>, n: string, m: Mapping)
    requires Trimmed(n)
    ensures n in MappingByNode(items) && MappingByNode(items)[n] == m <==> MappingGiven(items, n, m)
  {
    hide TrimSpace, Trimmed, Padded;
    if items != [] {
      var k := |items| - 1;
      MappingMeans(items[..k], n, m);
      TrimSpaceMeans(items[k].nodeID, n);
      assert forall i :: 0 <= i < k ==> items[..k][i] == items[i];
    }
  }

  lemma {:induction false} ErrorMeans(items: seq<MappingError>, n: string, e: MappingError)
    requires Trimmed(n)
    ensures n in MissingByNode(items) && MissingByNode(items)[n] == e <==> ErrorGiven(items, n, e)
  {
    hide TrimSpace, Trimmed, Padded;
    if items != [] {
      var k := |items| - 1;
      ErrorMeans(items[..k], n, e);
      TrimSpaceMeans(items[k].nodeID, n);
      assert forall i :: 0 <= i < k ==> items[..k][i] == items[i];
    }
  }

  /** Task `t` is the one that a request gets for node `n`: failed with the error given for the node, or for want of a
      mapping, and otherwise to be executed, or planned in a dry run, along the mapping given. */
  ghost predicate PlannedAs(req: Request, mappings: seq<Mapping>, missing: seq<MappingError>, n: string, now: Time,
                            t: Task)
  {
    && t.nodeID == n && Spelled(req.operation, t.operation) && t.dryRun == req.dryRun
    && t.queuedAt == now && t.createdAt == now && t.startedAt.None? && t.attemptCount == 0
    && (forall e :: ErrorGiven(missing, n, e) ==>
          t.state.Failed? && t.errorDetail == TrimSpace(e.detail) && t.completedAt == Some(now))
    && (forall m :: (forall e :: !ErrorGiven(missing, n, e)) && MappingGiven(mappings, n, m) ==>
          && t.state == (if req.dryRun then Planned else Pending)
          && t.completedAt == (if req.dryRun then Some(now) else None) && t.errorDetail == ""
          && t.bmcID == TrimSpace(m.bmcID) && t.bmcEndpoint == TrimSpace(m.endpoint)
          && t.credentialID == TrimSpace(m.credentialID) && t.insecureSkipVerify == m.insecureSkipVerify)
    && ((forall e :: !ErrorGiven(missing, n, e)) && (forall m :: !MappingGiven(mappings, n, m)) ==>
          t.state.Failed? && t.errorDetail == MissingNode(n).detail && t.completedAt == Some(now))
  }

  /** The transition that a request gets for `n` nodes of which `failed` cannot be routed. */
  predicate TransitionFor(req: Request, n: nat, failed: nat, pending: nat, now: Time, t: Transition) {
    && t.id == "" && t.requestID == TrimSpace(req.requestID) && t.requestedBy == TrimSpace(req.requestedBy)
    && Spelled(req.operation, t.operation) && t.dryRun == req.dryRun
    && t.targetCount == n && t.successCount == 0 && t.failureCount == failed
    && t.queuedAt == now && t.createdAt == now && t.updatedAt == now && t.startedAt.None?
    && t.state == (if req.dryRun then TPlanned else if pending == 0 then TFailed else TPending)
    && t.completedAt == (if req.dryRun || pending == 0 then Some(now) else None)
  }

  lemma PlanMeans(req: Request, mappings: seq<Mapping>, missing: seq<MappingError>, n: string, now: Time)
    requires Trimmed(n)
    ensures PlannedAs(req, mappings, missing, n, now,
                   PlanTask(Routing(MappingByNode(mappings), MissingByNode(missing)), n, req.operation, req.dryRun,
                            now))
  {
    hide TrimSpace, ErrorGiven, MappingGiven, MappingByNode, MissingByNode, MissingNode, Trimmed;
    var byNode, missed := MappingByNode(mappings), MissingByNode(missing);
    forall m ensures n in byNode && byNode[n] == m <==> MappingGiven(mappings, n, m) { MappingMeans(mappings, n, m); }
    forall e ensures n in missed && missed[n] == e <==> ErrorGiven(missing, n, e) { ErrorMeans(missing, n, e); }
    if n in missed {
      assert ErrorGiven(missing, n, missed[n]);
    } else if n in byNode {
      assert MappingGiven(mappings, n, byNode[n]);
    }
  }

  /** `normalizeNodeIDs`: trimmed, non-blank, each once, in order. */
  method NormalizeNodeIDs(nodeIDs: seq<string>) returns (ordered: seq<string>)
    ensures Ascending(ordered) && Tidied(ordered)
    ensures forall n :: n in ordered <==> OneOf(nodeIDs, n)
  {
    hide TrimSpace, Trimmed, OneOf;
    var unique: set<string> := {};
    ordered := [];
    for i := 0 to |nodeIDs|
      invariant Distinct(ordered) && Tidied(ordered)
      invariant forall n :: n in unique <==> n in ordered
      invariant forall n :: n in ordered <==> n != "" && exists j :: 0 <= j < i && TrimSpace(nodeIDs[j]) == n
    {
      var normalized := TrimSpace(nodeIDs[i]);
      if normalized == "" || normalized in unique {
        continue;
      }
      unique := unique + {normalized};
      ordered := ordered + [normalized];
    }
    ghost var found := ordered;
    ordered := SortStrings(ordered);
    assert forall n :: n in ordered <==> n in Elements(ordered);
    assert forall n :: n in found <==> n in Elements(found);
    forall i | 0 <= i < |ordered| ensures Trimmed(ordered[i]) && ordered[i] != "" {
      assert ordered[i] in found;
    }
    forall n ensures n in ordered <==> OneOf(nodeIDs, n) { OneOfMeans(nodeIDs, n); }
  }

  /** The planning part of StartTransition: one loop over the normalised nodes. */
  method Plan(req: Request, nodeIDs: seq<string>, mappings: seq<Mapping>, missing: seq<MappingError>, now: Time)
    returns (transition: Transition, tasks: seq<Task>, pendingCount: nat)
    ensures tasks ==
      PlanTasks(Routing(MappingByNode(mappings), MissingByNode(missing)), nodeIDs, req.operation, req.dryRun, now)
    ensures transition == PlanTransition(req, tasks, now)
    ensures pendingCount == CountState(tasks, Pending)
    ensures TransitionFor(req, |nodeIDs|, CountState(tasks, Failed), pendingCount, now, transition)
    ensures |tasks| == |nodeIDs|
    ensures forall i :: 0 <= i < |tasks| && Trimmed(nodeIDs[i]) ==>
              PlannedAs(req, mappings, missing, nodeIDs[i], now, tasks[i])
  {
    hide TrimSpace, PlanTask, OperationName, PlannedAs, Trimmed, Spelled;
    assert Spelled(req.operation, OperationName(req.operation)) by { NameSpelled(req.operation); }
    forall n | Trimmed(n)
      ensures PlannedAs(req, mappings, missing, n, now,
                     PlanTask(Routing(MappingByNode(mappings), MissingByNode(missing)), n, req.operation, req.dryRun,
                              now))
    {
      PlanMeans(req, mappings, missing, n, now);
    }
    var mappingByNode := map[];
    for i := 0 to |mappings|
      invariant mappingByNode == MappingByNode(mappings[..i])
    {
      assert mappings[..i + 1][..i] == mappings[..i];
      mappingByNode := mappingByNode[TrimSpace(mappings[i].nodeID) := mappings[i]];
    }
    assert mappings[..|mappings|] == mappings;
    var missingByNode := map[];
    for i := 0 to |missing|
      invariant missingByNode == MissingByNode(missing[..i])
    {
      assert missing[..i + 1][..i] == missing[..i];
      missingByNode := missingByNode[TrimSpace(missing[i].nodeID) := missing[i]];
    }
    assert missing[..|missing|] == missing;
    var routing := Routing(mappingByNode, missingByNode);
    var failures := 0;
    tasks, pendingCount := [], 0;
    for i := 0 to |nodeIDs|
      invariant |tasks| == i
      invariant forall j :: 0 <= j < i ==> tasks[j] == PlanTask(routing, nodeIDs[j], req.operation, req.dryRun, now)
      invariant failures == CountState(tasks, Failed) && pendingCount == CountState(tasks, Pending)
    {
      var task := PlanTask(routing, nodeIDs[i], req.operation, req.dryRun, now);
      CountNext(tasks, task, Failed);
      CountNext(tasks, task, Pending);
      if task.state.Failed? {
        failures := failures + 1;
      } else if task.state.Pending? {
        pendingCount := pendingCount + 1;
      }
      tasks := tasks + [task];
    }
    assert tasks == PlanTasks(routing, nodeIDs, req.operation, req.dryRun, now);
    transition := Transition("", TrimSpace(req.requestID), OperationName(req.operation), TPending,
                             TrimSpace(req.requestedBy),
                             req.dryRun, |nodeIDs|, 0, failures, now, None, None, now, now);
    if req.dryRun {
      transition := transition.(state := TPlanned, completedAt := Some(now));
    } else if pendingCount == 0 {
      transition := transition.(state := TFailed, completedAt := Some(now));
    }
  }

  lemma CountNext(tasks: seq<Task>, t: Task, s: TaskState)
    ensures CountState(tasks + [t], s) == CountState(tasks, s) + if t.state == s then 1 else 0
  {
    assert (tasks + [t])[..|tasks|] == tasks;
  }

  lemma PlannedState(r: Routing, nodeID: string, op: Operation, dryRun: bool, now: Time)
    ensures PlanTask(r, nodeID, op, dryRun, now).state == if Unroutable(r, nodeID) then Failed
      else if dryRun then Planned else Pending
  {
    hide TrimSpace, MissingNode, OperationName;
  }

  /** Every task of a plan is failed, or planned in a dry run, or pending otherwise; so the three counts make up the
      whole. */
  lemma {:induction false} PlanStates(r: Routing, nodeIDs: seq<string>, op: Operation, dryRun: bool, now: Time)
    ensures var tasks := PlanTasks(r, nodeIDs, op, dryRun, now);
            CountState(tasks, Failed) + CountState(tasks, if dryRun then Planned else Pending) == |nodeIDs|
    ensures var tasks := PlanTasks(r, nodeIDs, op, dryRun, now);
            CountState(tasks, Failed) == |nodeIDs| <==> forall i :: 0 <= i < |nodeIDs| ==> Unroutable(r, nodeIDs[i])
  {
    hide PlanTask;
    if nodeIDs != [] {
      var n := |nodeIDs| - 1;
      PlannedState(r, nodeIDs[n], op, dryRun, now);
      PlanStates(r, nodeIDs[..n], op, dryRun, now);
      var tasks := PlanTasks(r, nodeIDs, op, dryRun, now);
      assert tasks[..n] == PlanTasks(r, nodeIDs[..n], op, dryRun, now);
      assert forall i :: 0 <= i < n ==> nodeIDs[..n][i] == nodeIDs[i];
    }
  }
}
