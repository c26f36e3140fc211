/** What the topology cache guarantees over any sequence of cycles: the short cut skips only work that would change
    nothing, failures change nothing, and every finished cycle is counted once. */
module SyncGuarantees {
  import opened Text
  import opened Records
  import opened MappingTables
  import opened Reconciliation
  import opened MappingStore
  import opened Topology
  import opened TopologySync

  // ---------------------------------------------------------------- the merge is a fixed point

  ghost predicate WellKeyed(endpoints: map<string, Endpoint>) {
    forall k :: k in endpoints ==> endpoints[k].bmcID == k && Trimmed(k)
  }

  lemma {:induction false} Indexed(endpoints: map<string, Endpoint>, list: seq<Endpoint>, keys: seq<string>)
    requires WellKeyed(endpoints) && |list| == |keys|
    requires forall i :: 0 <= i < |keys| ==> keys[i] in endpoints && list[i] == endpoints[keys[i]]
    ensures ExistingByBMC(list).Keys == Elements(keys)
    ensures forall k :: k in ExistingByBMC(list) ==> k in endpoints && ExistingByBMC(list)[k] == endpoints[k]
  {
    hide TrimSpace, Trimmed;
    if list != [] {
      var n := |keys| - 1;
      Indexed(endpoints, list[..n], keys[..n]);
      assert Elements(keys) == Elements(keys[..n]) + {keys[n]} by { assert keys == keys[..n] + [keys[n]]; }
    }
  }

  /** Listing the endpoint table and indexing the list gives the table back. */
  lemma ListedTable(endpoints: map<string, Endpoint>)
    requires WellKeyed(endpoints)
    ensures ExistingByBMC(Rows(endpoints)) == endpoints
  {
    hide WellKeyed, ExistingByBMC;
    var keys := SortedKeys(endpoints.Keys);
    assert |endpoints| == |endpoints.Keys|;
    forall i | 0 <= i < |keys|
      ensures keys[i] in endpoints && Rows(endpoints)[i] == endpoints[keys[i]]
    {
      KeyAt(endpoints, i);
    }
    Indexed(endpoints, Rows(endpoints), keys);
  }

  lemma PreferredTwice(a: string, b: string)
    ensures Preferred(a, Preferred(a, b)) == Preferred(a, b) && Preferred(Preferred(a, b), b) == Preferred(a, b)
  {
    hide TrimSpace;
    assert TrimSpace(TrimSpace(a)) == TrimSpace(a) && TrimSpace(TrimSpace(b)) == TrimSpace(b);
  }

  lemma DesiredTwice(k: string, smd: map<string, string>, stored: map<string, Endpoint>, current: map<string, Endpoint>,
                     credential: string)
    requires k in current && current[k].endpoint == DesiredEndpoint(k, smd, stored, credential).endpoint
    requires current[k].credentialID == DesiredEndpoint(k, smd, stored, credential).credentialID
    requires current[k].insecureSkipVerify == DesiredEndpoint(k, smd, stored, credential).insecureSkipVerify
    ensures DesiredEndpoint(k, smd, current, credential) == DesiredEndpoint(k, smd, stored, credential)
  {
    hide Preferred;
    PreferredTwice(Lookup(smd, k, ""), Lookup(stored, k, ZERO).endpoint);
    PreferredTwice(Lookup(stored, k, ZERO).credentialID, credential);
  }

  /** The lists a cycle merges never link a node to a BMC they do not list. */
  lemma MergeComplete(components: seq<Component>, interfaces: seq<Interface>, existing: seq<Endpoint>,
                      credential: string, normalize: string -> string)
    ensures Complete(DesiredEndpoints(components, interfaces, existing, credential, normalize),
                     DesiredLinks(components))
  {
    hide SeenIn, FromSMD, ByBMC, ByNode, DesiredEndpoint, DesiredEndpoints, DesiredLinks, Trimmed;
    DesiredByBMC(components, interfaces, existing, credential, normalize);
    DesiredByNode(components);
    SeenTidy(components);
  }

  /** Table `t` holds what a full cycle on these lists wrote at `now` over table `before`. */
  ghost predicate WrittenBy(c: Setup, before: Tables, components: seq<Component>, interfaces: seq<Interface>, now: Time,
                            t: Tables) {
    NowHolds(before,
             DesiredEndpoints(components, interfaces, Rows(before.endpoints), c.defaultCredentialID, c.normalize),
               DesiredLinks(components), now, t)
  }

  /** A call that is applied does what it does without faults; one that is not changes nothing. */
  lemma ReplaceCases(t: Tables, endpoints: seq<Endpoint>, links: seq<Link>, now: Time, fault: TxFault)
    ensures var (after, r) := Replace(t, endpoints, links, now, fault);
            && (r.NotApplied? ==> after == t)
            && (r.Applied? ==> (after, r) == Replace(t, endpoints, links, now, NoTxFault))
  {
    hide CleanEndpoints, CleanLinks, Script, ExecAll, CountsOf;
  }

  lemma FullPathWrites(c: Setup, t: Tables, components: seq<Component>, interfaces: seq<Interface>, now: Time,
                       fault: TxFault)
    ensures var (after, r) := FullPath(c, t, components, interfaces, now, fault);
            && (r.NotApplied? ==> after == t)
            && (r.Applied? ==> WrittenBy(c, t, components, interfaces, now, after) && Referential(after))
            && (fault.NoTxFault? ==> r.Applied?)
  {
    hide DesiredEndpoints, DesiredLinks, Replace, NowHolds, Referential, Complete, ByBMC, ByNode;
    var e, l := DesiredEndpoints(components, interfaces, Rows(t.endpoints), c.defaultCredentialID, c.normalize),
      DesiredLinks(components);
    MergeComplete(components, interfaces, Rows(t.endpoints), c.defaultCredentialID, c.normalize);
    ReplaceRefines(t, e, l, now);
    ReplaceCases(t, e, l, now, fault);
  }

  lemma WrittenRows(c: Setup, before: Tables, components: seq<Component>, interfaces: seq<Interface>, now: Time,
                    t: Tables)
    requires WrittenBy(c, before, components, interfaces, now, t)
    ensures var seen := SeenIn(components);
            var smd := FromSMD(interfaces, seen.bmcs, c.normalize);
            && t.endpoints.Keys == seen.bmcs && t.links.Keys == seen.nodeToBMC.Keys && WellKeyed(t.endpoints)
            && (forall k :: k in t.endpoints ==>
                  t.endpoints[k] ==
                    StampEndpoint(DesiredEndpoint(k, smd, ExistingByBMC(Rows(before.endpoints)),
                                                  c.defaultCredentialID), before.endpoints, now))
            && (forall n :: n in t.links ==>
                  t.links[n] == StampLink(Link(n, seen.nodeToBMC[n], "smd", 0, 0, 0), before.links, now))
  {
    hide SeenIn, FromSMD, ByBMC, ByNode, DesiredEndpoint, DesiredEndpoints, DesiredLinks, Trimmed, Rows, ExistingByBMC,
         StampEndpoint, StampLink, WellKeyed;
    DesiredByBMC(components, interfaces, Rows(before.endpoints), c.defaultCredentialID, c.normalize);
    DesiredByNode(components);
    StampedKeys(c, before, components, interfaces, now, t);
  }

  lemma StampedKeys(c: Setup, before: Tables, components: seq<Component>, interfaces: seq<Interface>, now: Time,
                    t: Tables)
    requires WrittenBy(c, before, components, interfaces, now, t)
    ensures WellKeyed(t.endpoints)
  {
    hide DesiredEndpoints, DesiredLinks, ByBMC, ByNode, Trimmed;
    var e := DesiredEndpoints(components, interfaces, Rows(before.endpoints), c.defaultCredentialID, c.normalize);
    forall k | k in t.endpoints ensures t.endpoints[k].bmcID == k && Trimmed(k) { BMCKeyed(e, k); }
  }

  /** Timestamps aside; `created_at` is compared as well. */
  ghost predicate SameContent(a: Tables, b: Tables) {
    && a.endpoints.Keys == b.endpoints.Keys && a.links.Keys == b.links.Keys
    && (forall k :: k in a.endpoints ==>
          a.endpoints[k] ==
            b.endpoints[k].(lastSyncedAt := a.endpoints[k].lastSyncedAt, updatedAt := a.endpoints[k].updatedAt))
    && (forall n :: n in a.links ==>
          a.links[n] == b.links[n].(lastSyncedAt := a.links[n].lastSyncedAt, updatedAt := a.links[n].updatedAt))
  }

  /** The fixed point: a full cycle on the lists that the tables were last written from changes nothing but
      timestamps. */
  lemma FullPathAgain(c: Setup, before: Tables, components: seq<Component>, interfaces: seq<Interface>, at: Time,
                      t: Tables, now: Time)
    requires WrittenBy(c, before, components, interfaces, at, t)
    ensures var (after, r) := FullPath(c, t, components, interfaces, now, NoTxFault);
            r.Applied? && SameContent(after, t)
  {
    hide SeenIn, FromSMD, DesiredEndpoint, Trimmed, Rows, ExistingByBMC, StampEndpoint, StampLink, WrittenBy,
         FullPath, WellKeyed;
    var after := FullPath(c, t, components, interfaces, now, NoTxFault).0;
    FullPathWrites(c, t, components, interfaces, now, NoTxFault);
    WrittenRows(c, before, components, interfaces, at, t);
    WrittenRows(c, t, components, interfaces, now, after);
    ListedTable(t.endpoints);
    var smd := FromSMD(interfaces, SeenIn(components).bmcs, c.normalize);
    var known := ExistingByBMC(Rows(before.endpoints));
    forall k | k in after.endpoints
      ensures after.endpoints[k] ==
        t.endpoints[k].(lastSyncedAt := after.endpoints[k].lastSyncedAt, updatedAt := after.endpoints[k].updatedAt)
    {
      StampedTwice(k, smd, known, before.endpoints, t.endpoints, c.defaultCredentialID, at, now);
    }
    forall n | n in after.links
      ensures after.links[n] ==
        t.links[n].(lastSyncedAt := after.links[n].lastSyncedAt, updatedAt := after.links[n].updatedAt)
    {
      LinkStampedTwice(Link(n, SeenIn(components).nodeToBMC[n], "smd", 0, 0, 0), before.links, t.links, at, now);
    }
  }

  lemma StampedTwice(k: string, smd: map<string, string>, known: map<string, Endpoint>, before: map<string, Endpoint>,
                     t: map<string, Endpoint>,
                     credential: string, at: Time, now: Time)
    requires k in t && t[k] == StampEndpoint(DesiredEndpoint(k, smd, known, credential), before, at)
    ensures var again := StampEndpoint(DesiredEndpoint(k, smd, t, credential), t, now);
            again == t[k].(lastSyncedAt := again.lastSyncedAt, updatedAt := again.updatedAt)
  {
    DesiredTwice(k, smd, known, t, credential);
    hide Preferred;
  }

  lemma LinkStampedTwice(l: Link, before: map<string, Link>, t: map<string, Link>, at: Time, now: Time)
    requires l.nodeID in t && t[l.nodeID] == StampLink(l, before, at)
    ensures var again := StampLink(l, t, now);
            again == t[l.nodeID].(lastSyncedAt := again.lastSyncedAt, updatedAt := again.updatedAt)
  {
  }

  // ---------------------------------------------------------------- any number of cycles

  /** Cycles run one at a time; nothing else writes to the tables. `t` is what the tables held at start-up. */
  ghost function AfterCycles(c: Setup, t: Tables, worlds: seq<World>): (SyncState, Tables) {
    if worlds == [] then (START, t)
    else
      var (s, before) := AfterCycles(c, t, worlds[..|worlds| - 1]);
      var (s', after, _) := Cycle(c, s, before, worlds[|worlds| - 1]);
      (s', after)
  }

  /** The kept digests are those of the lists the tables were last written from. */
  ghost predicate InStep(c: Setup, s: SyncState, t: Tables) {
    && (s.ready <==> s.interfaceETag != "") && (s.ready <==> s.componentETag != "")
    && s.status.lastComponentETag == s.componentETag && s.status.lastInterfaceETag == s.interfaceETag
    && !s.status.inProgress
    && (s.ready ==> exists before, components, interfaces, at ::
          WrittenBy(c, before, components, interfaces, at, t)
          && c.componentDigest(components) == s.componentETag && c.interfaceDigest(interfaces) == s.interfaceETag)
  }

  lemma CycleKeepsStep(c: Setup, s: SyncState, t: Tables, w: World)
    requires CollisionFree(c) && InStep(c, s, t)
    ensures InStep(c, Cycle(c, s, t, w).0, Cycle(c, s, t, w).1)
  {
    hide WrittenBy, FullPath;
    if EarlyError(c, s, w).None? && !ShortCut(c, s, w) {
      FullPathWrites(c, t, ComponentsOf(w).items, w.interfaces.items, w.syncedAt, w.applyFault);
    }
  }

  lemma {:induction false} AlwaysInStep(c: Setup, t: Tables, worlds: seq<World>)
    requires CollisionFree(c)
    ensures InStep(c, AfterCycles(c, t, worlds).0, AfterCycles(c, t, worlds).1)
  {
    hide InStep, Cycle, CollisionFree;
    if worlds == [] {
      assert InStep(c, START, t) by { StartInStep(c, t); }
    } else {
      var n := |worlds| - 1;
      AlwaysInStep(c, t, worlds[..n]);
      CycleKeepsStep(c, AfterCycles(c, t, worlds[..n]).0, AfterCycles(c, t, worlds[..n]).1, worlds[n]);
    }
  }

  lemma StartInStep(c: Setup, t: Tables)
    ensures InStep(c, START, t)
  {
  }

  /** Soundness of the short cut: after any sequence of cycles, if SMD answers "not modified" only when its component
      list still has the digest it was sent, a cycle that is skipped leaves the tables as a full cycle on SMD's current
      lists would, timestamps aside; and only a syncer that has completed a full cycle can skip. */
  lemma SkipIsSound(c: Setup, t: Tables, worlds: seq<World>, w: World, components: seq<Component>, now: Time)
    requires CollisionFree(c)
    requires var (s, tables) := AfterCycles(c, t, worlds);
             && Cycle(c, s, tables, w).2.Skipped?
             && (w.components.NotModified? ==> c.componentDigest(components) == s.componentETag)
    ensures var (s, tables) := AfterCycles(c, t, worlds);
            && s.ready && Cycle(c, s, tables, w).1 == tables && w.interfaces.Items?
            && var (after, r) := FullPath(c, tables, components, w.interfaces.items, now, NoTxFault);
               r.Applied? && SameContent(after, tables)
  {
    hide FullPath, WrittenBy, SameContent;
    AlwaysInStep(c, t, worlds);
    hide AfterCycles;
    var (s, tables) := AfterCycles(c, t, worlds);
    var before, lastComponents, lastInterfaces, at :|
      WrittenBy(c, before, lastComponents, lastInterfaces, at, tables)
      && c.componentDigest(lastComponents) == s.componentETag && c.interfaceDigest(lastInterfaces) == s.interfaceETag;
    assert lastComponents == components && lastInterfaces == w.interfaces.items;
    FullPathAgain(c, before, components, w.interfaces.items, at, tables, now);
  }

  /** A syncer that never completed a full cycle has no digest to compare with, so it never skips, whatever SMD
      answers. */
  lemma OnlyReadySkips(c: Setup, t: Tables, worlds: seq<World>, w: World)
    requires CollisionFree(c)
    ensures var (s, tables) := AfterCycles(c, t, worlds);
            Cycle(c, s, tables, w).2.Skipped? ==> s.ready
  {
    hide FullPath, WrittenBy;
    AlwaysInStep(c, t, worlds);
    hide AfterCycles;
  }

  // ---------------------------------------------------------------- what one cycle changes

  /** A failed cycle adds one failure and changes neither tables nor digests; any other adds one success; and readiness
      is never taken back. */
  lemma CycleCounts(c: Setup, s: SyncState, t: Tables, w: World)
    ensures var (s', t', r) := Cycle(c, s, t, w);
            && (r.SyncFailed? ==>
                  && s'.status.failedRuns == s.status.failedRuns + 1
                  && s'.status.successfulRuns == s.status.successfulRuns
                  && t' == t && s'.componentETag == s.componentETag && s'.interfaceETag == s.interfaceETag
                  && s'.ready == s.ready)
            && (!r.SyncFailed? ==>
                  s'.status.successfulRuns == s.status.successfulRuns + 1 &&
                  s'.status.failedRuns == s.status.failedRuns && s'.status.lastError == "")
            && (s.ready ==> s'.ready) && (r.Reconciled? ==> s'.ready)
            && (s'.status.notModified <==> r.Skipped?)
            && !s'.status.inProgress && s'.status.lastAttemptAt == Some(w.startedAt)
  {
    hide FullPath;
    if EarlyError(c, s, w).None? && !ShortCut(c, s, w) {
      FullPathWrites(c, t, ComponentsOf(w).items, w.interfaces.items, w.syncedAt, w.applyFault);
    }
  }

  /** The tables `after` hold what these lists of SMD say, and what `before` held where they say nothing. */
  ghost predicate FollowsSMD(c: Setup, components: seq<Component>, interfaces: seq<Interface>, before: Tables,
                             after: Tables)
  {
    && (forall b :: b in after.endpoints <==> Tracked(components, b))
    && (forall b :: b in after.endpoints ==>
          after.endpoints[b].bmcID == b &&
          MergedRow(interfaces, Rows(before.endpoints), c.defaultCredentialID, c.normalize, after.endpoints[b]))
    && (forall n, b :: n in after.links && after.links[n].bmcID == b <==> Parent(components, n, b))
  }

  /** A full cycle leaves a row for exactly the BMCs that SMD lists, with SMD's address wherever it has one, and links
      each node to the parent SMD lists for it: a BMC that has moved or a node that has changed hands is corrected. */
  lemma CycleFollowsSMD(c: Setup, s: SyncState, t: Tables, w: World)
    ensures var (_, t', r) := Cycle(c, s, t, w);
            r.Reconciled? ==>
              ComponentsOf(w).Items? && w.interfaces.Items? &&
              FollowsSMD(c, ComponentsOf(w).items, w.interfaces.items, t, t')
  {
    hide FullPath, WrittenBy, FollowsSMD;
    if EarlyError(c, s, w).None? && !ShortCut(c, s, w) {
      FullPathWrites(c, t, ComponentsOf(w).items, w.interfaces.items, w.syncedAt, w.applyFault);
      var after := FullPath(c, t, ComponentsOf(w).items, w.interfaces.items, w.syncedAt, w.applyFault).0;
      if WrittenBy(c, t, ComponentsOf(w).items, w.interfaces.items, w.syncedAt, after) {
        WrittenFollows(c, t, ComponentsOf(w).items, w.interfaces.items, w.syncedAt, after);
      }
    }
  }

  lemma WrittenFollows(c: Setup, before: Tables, components: seq<Component>, interfaces: seq<Interface>, now: Time,
                       t: Tables)
    requires WrittenBy(c, before, components, interfaces, now, t)
    ensures FollowsSMD(c, components, interfaces, before, t)
  {
    hide WrittenBy, SeenIn, FromSMD, ExistingByBMC, DesiredEndpoint, Rows, Tracked, Parent, MergedRow, StampEndpoint,
         WellKeyed, Trimmed;
    WrittenRows(c, before, components, interfaces, now, t);
    forall b ensures b in t.endpoints <==> Tracked(components, b) { SeenMeans(components, "", b); }
    forall n, b ensures n in t.links && t.links[n].bmcID == b <==> Parent(components, n, b) {
      SeenMeans(components, n, b);
    }
    forall b | b in t.endpoints
      ensures t.endpoints[b].bmcID == b
      ensures MergedRow(interfaces, Rows(before.endpoints), c.defaultCredentialID, c.normalize, t.endpoints[b])
    {
      KeyTidy(components, b);
      RowFollows(c, before, components, interfaces, t.endpoints[b], b, now);
    }
  }

  lemma RowFollows(c: Setup, before: Tables, components: seq<Component>, interfaces: seq<Interface>, e: Endpoint,
                   b: string, now: Time)
    requires b in SeenIn(components).bmcs && b != ""
    requires e == StampEndpoint(DesiredEndpoint(b, FromSMD(interfaces, SeenIn(components).bmcs, c.normalize),
                                                ExistingByBMC(Rows(before.endpoints)), c.defaultCredentialID),
                                before.endpoints, now)
    ensures e.bmcID == b && MergedRow(interfaces, Rows(before.endpoints), c.defaultCredentialID, c.normalize, e)
  {
    hide SeenIn, FromSMD, ExistingByBMC, Rows, RowBefore, AddressOf, Trimmed, Padded, Preferred, Blank;
    KnownMeans(Rows(before.endpoints), b);
    DesiredMeans(interfaces, SeenIn(components).bmcs, Rows(before.endpoints), c.defaultCredentialID, c.normalize, b);
  }

  /** When a cycle is skipped: SMD says its components are as they were, and so are the interfaces. */
  predicate Skips(c: Setup, s: SyncState, w: World) {
    w.components.NotModified? && w.interfaces.Items? && c.interfaceDigest(w.interfaces.items) == s.interfaceETag
  }

  /** Why a cycle that reaches the database anyway fails: a list is missing, or the rows cannot be read. */
  predicate Starves(w: World) {
    || w.components.ListError? || !w.interfaces.Items? || (w.components.NotModified? && !w.refresh.Items?)
    || w.listFails
  }

  /** What a cycle ends with and what its status says, for all answers of SMD and of the database. */
  lemma CycleReports(c: Setup, s: SyncState, t: Tables, w: World)
    ensures var (s', t', r) := Cycle(c, s, t, w);
            var st := s'.status;
            && (r.Skipped? <==> Skips(c, s, w))
            && (Starves(w) && !Skips(c, s, w) ==> r.SyncFailed?)
            && (!Starves(w) && !Skips(c, s, w) && w.applyFault.NoTxFault? ==> r.Reconciled?)
            && st.lastAttemptAt == Some(w.startedAt) && !st.inProgress && (st.notModified <==> r.Skipped?)
            && st.lastSyncAt == (if r.SyncFailed? then s.status.lastSyncAt else Some(w.completedAt))
            && st.lastError == (if r.SyncFailed? then r.error else "")
            && st.lastCounts == (if r.Reconciled? then r.counts else NO_COUNTS)
            && (r.Reconciled? ==>
                  && s'.interfaceETag == st.lastInterfaceETag && s'.componentETag == st.lastComponentETag
                  && w.interfaces.Items? && s'.interfaceETag == c.interfaceDigest(w.interfaces.items)
                  && (w.components.Items? ==> s'.componentETag == c.componentDigest(w.components.items))
                  && (w.refresh.Items? && w.components.NotModified? ==>
                        s'.componentETag == c.componentDigest(w.refresh.items)))
            && (!r.Reconciled? ==>
                  t' == t && s'.interfaceETag == s.interfaceETag && s'.componentETag == s.componentETag)
  {
    hide FullPath;
    if EarlyError(c, s, w).None? && !ShortCut(c, s, w) {
      FullPathWrites(c, t, ComponentsOf(w).items, w.interfaces.items, w.syncedAt, w.applyFault);
    }
  }

  /** Every finished cycle is counted exactly once, and a syncer is ready from its first full cycle on. */
  lemma {:induction false} EveryCycleCounted(c: Setup, t: Tables, worlds: seq<World>)
    ensures var s := AfterCycles(c, t, worlds).0;
            s.status.successfulRuns + s.status.failedRuns == |worlds|
    ensures forall k :: 0 <= k <= |worlds| && AfterCycles(c, t, worlds[..k]).0.ready ==>
             AfterCycles(c, t, worlds).0.ready
  {
    hide Cycle;
    if worlds != [] {
      var n := |worlds| - 1;
      EveryCycleCounted(c, t, worlds[..n]);
      CycleCounts(c, AfterCycles(c, t, worlds[..n]).0, AfterCycles(c, t, worlds[..n]).1, worlds[n]);
      forall k | 0 <= k <= |worlds| && AfterCycles(c, t, worlds[..k]).0.ready
        ensures AfterCycles(c, t, worlds).0.ready
      {
        if k <= n {
          assert worlds[..n][..k] == worlds[..k];
        } else {
          assert worlds[..k] == worlds;
        }
      }
    }
  }

  /** Once a cycle has completed, the tables have referential integrity, whatever follows. */
  lemma CycleKeepsIntegrity(c: Setup, s: SyncState, t: Tables, w: World)
    ensures var (_, t', r) := Cycle(c, s, t, w);
            (Referential(t) ==> Referential(t')) && (r.Reconciled? ==> Referential(t'))
  {
    hide FullPath, WrittenBy;
    if EarlyError(c, s, w).None? && !ShortCut(c, s, w) {
      FullPathWrites(c, t, ComponentsOf(w).items, w.interfaces.items, w.syncedAt, w.applyFault);
    }
  }
}
