/** The promises of the protocol, over every run from a new session. */
module RoomTheorems {
  import opened Wrappers
  import opened GameDomain
  import opened RoomLease
  import opened RuntimeOwner
  import opened RuntimeCheckpoint
  import opened GameMatch
  import opened RoomProtocol
  import opened RoomInvariant
  import opened RoomTime
  import opened RoomSpawn
  import opened RoomOutcome
  import opened RoomCheckpoint

  ghost predicate Sound(w: World) {
    TimeInv(w) && SpawnInv(w) && OutcomeInv(w) && CheckpointInv(w)
  }

  lemma StepSound(w: World, w': World)
    requires Sound(w) && Next(w, w')
    ensures Sound(w') && Preserved(w, w')
  {
    var a :| Enabled(w, a) && w' == Apply(w, a);
    StepTimeInv(w, a);
    StepSpawnInv(w, a);
    StepOutcomeInv(w, a);
    StepCheckpointInv(w, a);
    StepExtends(w, a);
    StepForward(w, a);
    StepSettled(w, a);
    if a.Serve? { ServeStarts(w, a.id); } else { QuietServers(w, a); }
  }

  /** Every state of every run is sound. */
  lemma {:induction false} RunSound(run: seq<World>, i: nat)
    requires Behavior(run) && i < |run|
    ensures Sound(run[i])
  {
    if i == 0 {
      InitTimeInv(run[0]);
    } else {
      RunSound(run, i - 1);
      RunStep(run, i);
      StepSound(run[i - 1], run[i]);
    }
  }

  lemma RunStep(run: seq<World>, j: nat)
    requires Behavior(run) && 0 < j < |run|
    ensures Next(run[j - 1], run[j])
  {
  }

  /** What was recorded in w is still recorded in w'. */
  ghost predicate Preserved(w: World, w': World) {
    && Extends(w, w') && Forward(w.servers, w'.servers) && Settled(w.servers.store, w'.servers.store)
    && w.servers.starts <= w'.servers.starts
  }

  lemma PreservedTransitive(w: World, w': World, w'': World)
    requires Preserved(w, w') && Preserved(w', w'')
    ensures Preserved(w, w'')
  {
    forall id | 0 <= id < |w.net| ensures KeepsMessage(w.net[id], w''.net[id]) {
      assert KeepsMessage(w.net[id], w'.net[id]) && KeepsMessage(w'.net[id], w''.net[id]);
    }
  }

  lemma PreservedReflexive(w: World)
    ensures Preserved(w, w)
  {
  }

  lemma StepKeeps(run: seq<World>, j: nat)
    requires Behavior(run) && 0 < j < |run|
    ensures Preserved(run[j - 1], run[j])
  {
    RunSound(run, j - 1);
    RunStep(run, j);
    StepSound(run[j - 1], run[j]);
  }

  lemma StepKeepsFrom(run: seq<World>, i: nat, k: nat)
    requires Behavior(run) && i < k < |run| && Preserved(run[i], run[k - 1])
    ensures Preserved(run[i], run[k])
  {
    StepKeeps(run, k);
    PreservedTransitive(run[i], run[k - 1], run[k]);
  }

  /** What each step from i to j keeps, holds at j. */
  lemma {:induction false} Persists(holds: int -> bool, i: int, j: int)
    requires i <= j && holds(i)
    requires forall k :: i < k <= j && holds(k - 1) ==> holds(k)
    ensures holds(j)
    decreases j - i
  {
    if i < j { Persists(holds, i, j - 1); }
  }

  /** What was recorded at one time of a run is still recorded at any later time. */
  lemma RunKeeps(run: seq<World>, i: nat, j: nat)
    requires Behavior(run) && i <= j < |run|
    ensures Preserved(run[i], run[j])
  {
    var holds := k => 0 <= k < |run| && Preserved(run[i], run[k]);
    PreservedReflexive(run[i]);
    forall k | i < k <= j && holds(k - 1) ensures holds(k) { StepKeepsFrom(run, i, k); }
    Persists(holds, i, j);
  }

  // ----- fencing

  /** While a lease is in the key, a generation claimed under it is the one the durable record carries. */
  lemma ClaimedHolderOwns(run: seq<World>, i: nat, generation: int)
    requires Behavior(run) && i < |run|
    requires run[i].servers.lease.key.Some?
             && ClaimedUnder(run[i], generation, run[i].servers.lease.key.value.value.lease)
    ensures var v := run[i].servers.lease.key.value.value;
            Names(OwnerRef(generation, v.instance, v.lease), run[i].servers.store.owner)
  {
    RunSound(run, i);
    var w := run[i];
    assert ClaimBacked(w, generation - 1);
  }

  /** The same, for an activation that has learnt of its claim. */
  lemma ActivationOwns(run: seq<World>, i: nat, p: nat)
    requires Behavior(run) && i < |run| && p < |run[i].procs|
    requires var q := run[i].procs[p];
             q.owner.Some? && q.lease.Some? && run[i].servers.lease.key.Some?
                 && run[i].servers.lease.key.value.value == q.lease.value
    ensures Names(Ref(run[i].procs[p]), run[i].servers.store.owner)
  {
    RunSound(run, i);
    assert ProcOk(run[i], p, run[i].procs[p]);
    ClaimedHolderOwns(run, i, run[i].procs[p].owner.value.generation);
  }

  /** An observer that validates the live lease it read the record under returns the generation
      the record carries at that moment. */
  lemma ObserverSeesCurrent(run: seq<World>, i: nat, p: nat)
    requires Behavior(run) && i < |run| && p < |run[i].procs| && run[i].procs[p].at.ObserveLease?
    requires var v := run[i].procs[p].at.other;
             var holder := Holder(run[i].servers.lease, run[i].now);
             && holder.Some? && holder.value.lease == v.lease && holder.value.instance == v.instance
             && Answer(run[i].procs[p], 0, HolderRead(holder), run[i].now, run[i].ttl).Watch?
    ensures var at := run[i].procs[p].at;
            Names(OwnerRef(Generation(at.seen), at.other.instance, at.other.lease), run[i].servers.store.owner)
  {
    RunSound(run, i);
    assert ProcOk(run[i], p, run[i].procs[p]);
    ClaimedHolderOwns(run, i, Generation(run[i].procs[p].at.seen));
  }

  /** Why the generation is read before the lease is acquired: a claimant that reloaded it after
      losing its lease would fence the holder of the next one. */
  lemma ReloadedClaimFencesHolder(slow: string, fast: string, ttl: int)
    requires ttl > 0
    ensures var first := AcquireScript(LeaseState(None, 0), 0, slow, 1, ttl).0;
            var second := AcquireScript(first, ttl, fast, 2, ttl).0;
            var claimed := ClaimUpdate(None, 0, fast, 2).0;
            var reloaded := ClaimUpdate(claimed, Generation(claimed), slow, 1);
            && Holder(second, ttl) == Some(LeaseValue(fast, 2, 2))
            && reloaded.1.Some?
            && !Names(OwnerRef(1, fast, 2), reloaded.0)
  {
    var first := AcquireScript(LeaseState(None, 0), 0, slow, 1, ttl).0;
    assert !Present(first, ttl);
  }

  // ----- mutual exclusion in time

  /** Redis was never reset, or the deadlines set before its last reset have passed. */
  predicate PastReset(w: World) {
    w.servers.lostAt.None? || w.now >= w.servers.lostAt.value + w.ttl
  }

  /** From one time to live after the last reset of Redis on, a room that believes its lease valid
      holds the key and the durable record. */
  lemma ValidLeaseIsHeld(run: seq<World>, i: nat, p: nat)
    requires Behavior(run) && i < |run| && p < |run[i].procs|
    requires PastReset(run[i]) && LeaseValid(run[i].procs[p], run[i].now)
    ensures run[i].procs[p].lease.Some? && run[i].procs[p].owner.Some?
    ensures Holds(run[i].servers.lease, run[i].now, run[i].procs[p].lease.value)
    ensures Names(Ref(run[i].procs[p]), run[i].servers.store.owner)
  {
    RunSound(run, i);
    assert ProcOk(run[i], p, run[i].procs[p]) && Timed(run[i], run[i].procs[p]);
    ActivationOwns(run, i, p);
  }

  lemma OneValidRoom(run: seq<World>, i: nat, p: nat, q: nat)
    requires Behavior(run) && i < |run| && p < |run[i].procs| && q < |run[i].procs|
    requires PastReset(run[i]) && LeaseValid(run[i].procs[p], run[i].now) && LeaseValid(run[i].procs[q], run[i].now)
    ensures p == q
  {
    ValidLeaseIsHeld(run, i, p);
    ValidLeaseIsHeld(run, i, q);
    RunSound(run, i);
    assert ProcOk(run[i], p, run[i].procs[p]) && ProcOk(run[i], q, run[i].procs[q]);
  }

  /** A lease that was granted and is no longer held. */
  ghost predicate Departed(w: World, value: LeaseValue) {
    EverAcquired(w, value) && !Holds(w.servers.lease, w.now, value)
  }

  lemma StepDeparted(w: World, w': World, value: LeaseValue)
    requires Inv(w) && Next(w, w') && Departed(w, value)
    ensures Departed(w', value)
  {
    var a :| Enabled(w, a) && w' == Apply(w, a);
    StepExtends(w, a);
    assert KeepsMessage(w.net[value.lease], w'.net[value.lease]);
  }

  lemma StepAway(run: seq<World>, j: nat, value: LeaseValue)
    requires Behavior(run) && 0 < j < |run| && Departed(run[j - 1], value)
    ensures Departed(run[j], value)
  {
    RunSound(run, j - 1);
    RunStep(run, j);
    StepDeparted(run[j - 1], run[j], value);
  }

  /** Once a lease value has left the key it never returns, whatever happens to the fence counter. */
  lemma DepartedForGood(run: seq<World>, i: nat, j: nat, value: LeaseValue)
    requires Behavior(run) && i <= j < |run| && Departed(run[i], value)
    ensures Departed(run[j], value)
  {
    var holds := k => 0 <= k < |run| && Departed(run[k], value);
    forall k | i < k <= j && holds(k - 1) ensures holds(k) { StepAway(run, k, value); }
    Persists(holds, i, j);
  }

  predicate Under(request: Request, value: LeaseValue) {
    request == Renew(value) || request == Release(value) || request == LoadCheckpoint(value)
        || request == DeleteCheckpoint(value)
    || (request.SaveCheckpoint? && request.value == value) || (request.Publish? && request.value == value)
  }

  /** A departed lease renews, releases, saves, deletes and publishes nothing, however late its request arrives. */
  lemma DepartedIsPowerless(run: seq<World>, i: nat, j: nat, value: LeaseValue, id: nat)
    requires Behavior(run) && i <= j < |run| && Departed(run[i], value)
    requires id < |run[j].net| && Under(run[j].net[id].request, value)
    ensures var r := Handle(run[j].servers, run[j].now, run[j].ttl, id, run[j].net[id].request);
            r == (run[j].servers, if run[j].net[id].request.Release? then Freed else Refused)
  {
    DepartedForGood(run, i, j, value);
  }

  /** And the holder is served: its requests take effect and are answered so, a save exactly when it is
      later than what is stored. */
  lemma HolderIsServed(w: World, id: nat, value: LeaseValue)
    requires Enabled(w, Serve(id)) && Under(w.net[id].request, value) && Holds(w.servers.lease, w.now, value)
    ensures var s, s' := w.servers, Apply(w, Serve(id)).servers;
            var reply := Apply(w, Serve(id)).net[id].reply;
            match w.net[id].request
            case Renew(_) =>
              reply == Some(Renewed) && s' == s.(lease := s.lease.(key := Some(LeaseKey(value, w.now + w.ttl))))
            case Release(_) => reply == Some(Freed) && s' == s.(lease := s.lease.(key := None))
            case LoadCheckpoint(_) => reply == Some(Loaded(s.checkpoint)) && s' == s
            case DeleteCheckpoint(_) => reply == Some(Deleted) && s' == s.(checkpoint := None, wipes := s.wipes + 1)
            case SaveCheckpoint(_, doc) =>
              if s.checkpoint.Some? && !Later(doc, s.checkpoint.value) then reply == Some(Refused) && s' == s
              else reply == Some(CheckpointSaved(s.wipes)) && s' == s.(checkpoint := Some(doc))
            case Publish(_, event) => reply == Some(Published) && s' == s.(channel := s.channel + [event])
            case _ => false
  {
  }

  // ----- spawn at most once

  /** Over a whole run, at most one activation ever runs a runtime built from spawn. */
  lemma SpawnAtMostOnce(run: seq<World>, i: nat, j: nat, p: nat, q: nat)
    requires Behavior(run) && i <= j < |run| && p < |run[i].procs| && q < |run[j].procs|
    requires run[i].procs[p].runtime.Spawned? && run[j].procs[q].runtime.Spawned?
    ensures p == q
  {
    RunSound(run, i);
    RunSound(run, j);
    RunKeeps(run, i, j);
    assert SpawnOk(run[i].servers, run[i].procs[p]) && SpawnOk(run[j].servers, run[j].procs[q]);
    assert ProcOk(run[i], p, run[i].procs[p]) && ProcOk(run[j], q, run[j].procs[q]);
    assert [Ref(run[i].procs[p])][0] == [Ref(run[j].procs[q])][0];
    assert KeepsMessage(run[i].net[run[i].procs[p].lease.value.lease], run[j].net[run[i].procs[p].lease.value.lease]);
  }

  /** The match of the session has been started, whoever recorded it and whether they learnt of it. */
  predicate Started(w: World) {
    w.servers.store.owner.Some? && w.servers.store.owner.value.started
  }

  /** The start barrier never reverts. */
  lemma StartedStays(run: seq<World>, i: nat, j: nat)
    requires Behavior(run) && i <= j < |run| && Started(run[i])
    ensures Started(run[j]) && run[j].servers.starts == run[i].servers.starts
    ensures |run[i].servers.starts| == 1
            && run[i].servers.starts[0].generation <= Generation(run[i].servers.store.owner)
  {
    RunSound(run, i);
    RunSound(run, j);
    RunKeeps(run, i, j);
  }

  /** Whoever claims a generation after the start was recorded, by a spawn or by an abandonment, sees it
      started and never spawns: a runtime it has was restored, and without one it can only restore,
      fall back on a proposed cancellation, and finish. */
  lemma LaterOwnersRestore(run: seq<World>, i: nat, j: nat, p: nat)
    requires Behavior(run) && i <= j < |run| && Started(run[i]) && p < |run[j].procs|
    requires var q := run[j].procs[p];
             q.owner.Some? && q.owner.value.generation > Generation(run[i].servers.store.owner)
    ensures Started(run[j])
    ensures var q := run[j].procs[p];
            && q.owner.value.started && !q.at.SpawnMark? && !q.at.AbandonMark?
            && (q.runtime.Restored? || q.runtime.NoRuntime?)
    ensures var q := run[j].procs[p];
            forall choice :: q.runtime.NoRuntime? && MayChoose(q, choice, run[j].now) ==>
              choice.Restore? || choice.Install? || choice.RefuseCheckpoint? || choice.Finish? || choice.Drop?
  {
    StartedStays(run, i, j);
    RunSound(run, j);
    assert SpawnOk(run[j].servers, run[j].procs[p]);
  }

  // ----- one result

  /** A stored result is never changed, and from then on neither is the owner record. */
  lemma ResultIsFinal(run: seq<World>, i: nat, j: nat)
    requires Behavior(run) && i <= j < |run| && run[i].servers.store.result.Some?
    ensures run[j].servers.store.result == run[i].servers.store.result
    ensures run[j].servers.store.owner == run[i].servers.store.owner
    ensures run[i].servers.store.owner.Some? && run[i].servers.store.owner.value.completed
    ensures run[i].servers.store.result.value.runtimeEpoch == run[i].servers.store.owner.value.generation
    ensures run[j].servers.claims == run[i].servers.claims
  {
    RunSound(run, i);
    RunSound(run, j);
    RunKeeps(run, i, j);
  }

  /** Only the generation that owns the session when it commits can have stored the result. */
  lemma SupersededNeverStores(run: seq<World>, i: nat, id: nat)
    requires Behavior(run) && i < |run| && Enabled(run[i], Serve(id)) && run[i].net[id].request.Complete?
    requires run[i].servers.store.result.None? && Apply(run[i], Serve(id)).servers.store.result.Some?
    ensures run[i].net[id].request.completion.owner.Some?
    ensures Names(run[i].net[id].request.completion.owner.value, run[i].servers.store.owner)
    ensures run[i].net[id].request.completion.owner.value.generation == |run[i].servers.claims|
  {
    RunSound(run, i);
    assert MessageOk(run[i], id);
  }

  /** A room told that its match is complete finds its own proposal stored, then and ever after. */
  lemma SuccessMeansStored(run: seq<World>, i: nat, j: nat, p: nat)
    requires Behavior(run) && i <= j < |run| && p < |run[i].procs| && run[i].procs[p].committed.Some?
    ensures Holding(run[j].servers.store, run[i].procs[p].committed.value)
    ensures run[j].servers.store.result.Some?
    ensures var a, b := run[j].servers.store.result.value, run[i].procs[p].committed.value.result;
            && a.sessionID == b.sessionID && a.houseID == b.houseID && a.gameKey == b.gameKey
            && a.schemaVersion == b.schemaVersion && a.status == b.status && a.endReason == b.endReason
            && a.payloadHash == Sha256(b.payload)
            && SameMillisecond(a.startedAt, b.startedAt) && SameMillisecond(a.endedAt, b.endedAt)
  {
    RunSound(run, i);
    RunKeeps(run, i, j);
    assert OutcomeOk(run[i].servers.store, run[i].procs[p]);
  }

  /** Two rooms that were both told so proposed the same result. */
  lemma SuccessesAgree(run: seq<World>, i: nat, j: nat, p: nat, q: nat)
    requires Behavior(run) && i <= j < |run| && p < |run[i].procs| && q < |run[j].procs|
    requires run[i].procs[p].committed.Some? && run[j].procs[q].committed.Some?
    ensures var a, b := run[i].procs[p].committed.value.result, run[j].procs[q].committed.value.result;
            && a.sessionID == b.sessionID && a.houseID == b.houseID && a.gameKey == b.gameKey
            && a.schemaVersion == b.schemaVersion && a.status == b.status && a.endReason == b.endReason
            && a.payload == b.payload
            && SameMillisecond(a.startedAt, b.startedAt) && SameMillisecond(a.endedAt, b.endedAt)
  {
    SuccessMeansStored(run, i, j, p);
    SuccessMeansStored(run, j, j, q);
  }

  /** A completion trigger, once stored, is never replaced in any later generation. */
  lemma TriggerIsFinal(run: seq<World>, i: nat, j: nat)
    requires Behavior(run) && i <= j < |run|
    requires run[i].servers.store.owner.Some? && run[i].servers.store.owner.value.trigger.Some?
    ensures run[j].servers.store.owner.Some?
    ensures run[j].servers.store.owner.value.trigger == run[i].servers.store.owner.value.trigger
  {
    RunKeeps(run, i, j);
  }

  lemma {:induction false} RunUndecided(run: seq<World>, i: nat, p: nat)
    requires Behavior(run) && i < |run| && p < |run[i].procs|
    ensures Undecided(run[i].procs[p])
  {
    if i > 0 {
      RunStep(run, i);
      if p < |run[i - 1].procs| { RunUndecided(run, i - 1, p); }
      StepUndecided(run[i - 1], run[i], p);
    }
  }

  lemma StepUndecided(w: World, w': World, p: nat)
    requires Next(w, w') && p < |w'.procs| && (p < |w.procs| ==> Undecided(w.procs[p]))
    ensures p < |w.procs| ==> Keeps(w.procs[p], w'.procs[p])
    ensures Undecided(w'.procs[p]) && |w.procs| <= |w'.procs|
  {
    var a :| Enabled(w, a) && w' == Apply(w, a);
    StepExtends(w, a);
    if p < |w.procs| { StepKeepsProposal(w, a, p); } else { BeginUndecided(w, a); }
  }

  predicate Captured(w: World, p: nat, result: MatchResult) {
    p < |w.procs| && w.procs[p].proposal == Some(result)
  }

  lemma StepCaptured(run: seq<World>, k: nat, p: nat, result: MatchResult)
    requires Behavior(run) && 0 < k < |run| && Captured(run[k - 1], p, result)
    ensures Captured(run[k], p, result)
  {
    RunUndecided(run, k - 1, p);
    RunStep(run, k);
    StepGrowsProcs(run[k - 1], run[k]);
    StepUndecided(run[k - 1], run[k], p);
  }

  lemma StepGrowsProcs(w: World, w': World)
    requires Next(w, w')
    ensures |w.procs| <= |w'.procs|
  {
    var a :| Enabled(w, a) && w' == Apply(w, a);
    StepExtends(w, a);
  }

  /** Once a room has captured a result, that result never changes. */
  lemma {:induction false} CapturedResultIsFinal(run: seq<World>, i: nat, j: nat, p: nat, result: MatchResult)
    requires Behavior(run) && i <= j < |run| && Captured(run[i], p, result)
    ensures Captured(run[j], p, result)
    decreases j
  {
    if i < j {
      CapturedResultIsFinal(run, i, j - 1, p, result);
      StepCaptured(run, j, p, result);
    }
  }

  // ----- publication and recovery

  /** Through Redis, no audience ever sees a generation older than one it has seen. */
  lemma PublishedGenerationsRise(run: seq<World>, i: nat, m: nat, n: nat)
    requires Behavior(run) && i < |run| && m <= n < |run[i].servers.channel|
    ensures run[i].servers.channel[m].generation <= run[i].servers.channel[n].generation <= |run[i].servers.claims|
  {
    RunSound(run, i);
    assert EventOk(run[i].servers, run[i].servers.channel[n]);
  }

  /** A room that has not released its checkpoint announces a change only under a protected checkpoint
      with the change's own critical key. */
  lemma AnnouncedIsProtected(w: World, p: nat, change: string)
    requires Enabled(w, PublishCall(p, Some(change))) && !w.procs[p].released
    ensures var net := Apply(w, PublishCall(p, Some(change))).net;
            && |net| == |w.net| + 1 && net[|w.net|].request.Publish?
            && var event := net[|w.net|].request.event;
            && event.generation == w.procs[p].owner.value.generation && event.critical == change
            && event.covered == w.procs[p].protected > 0 && w.procs[p].critical == change
  {
  }

  /** A critical change published through Redis is in every checkpoint a later owner can load,
      unless the checkpoint was deleted, expired or lost in between. */
  lemma PublishedChangeSurvives(run: seq<World>, i: nat, n: nat, id: nat)
    requires Behavior(run) && i < |run| && n < |run[i].servers.channel|
    requires var event := run[i].servers.channel[n]; event.covered > 0 && event.wipe == run[i].servers.wipes
    requires Enabled(run[i], Serve(id)) && run[i].net[id].request.LoadCheckpoint?
    ensures var event := run[i].servers.channel[n];
            var reply := Apply(run[i], Serve(id)).net[id].reply.value;
            if Holds(run[i].servers.lease, run[i].now, run[i].net[id].request.value) then
              reply.Loaded? && Covers(reply.found, event.Protection())
            else
              reply == Refused
  {
    RunSound(run, i);
    assert EventOk(run[i].servers, run[i].servers.channel[n]);
  }

  /** From `floor` on, the released room `p` has sent no checkpoint save. */
  ghost predicate NoSaveFrom(w: World, p: nat, floor: nat) {
    && p < |w.procs| && w.procs[p].released
    && forall id :: floor <= id < |w.net| && w.net[id].from == p ==> !w.net[id].request.SaveCheckpoint?
  }

  lemma StepNoSave(w: World, w': World, p: nat, floor: nat)
    requires Next(w, w') && NoSaveFrom(w, p, floor) && floor <= |w.net|
    ensures NoSaveFrom(w', p, floor) && floor <= |w'.net|
  {
    var a :| Enabled(w, a) && w' == Apply(w, a);
    StepExtends(w, a);
    ReleaseSticks(w, a, p);
    forall id | floor <= id < |w'.net| && w'.net[id].from == p
      ensures !w'.net[id].request.SaveCheckpoint?
    {
      if id < |w.net| { assert KeepsMessage(w.net[id], w'.net[id]); }
    }
  }

  lemma ReleaseSticks(w: World, a: Action, p: nat)
    requires Enabled(w, a) && p < |w.procs| && w.procs[p].released
    ensures var w' := Apply(w, a);
            w'.procs[p].released && forall id :: |w.net| <= id < |w'.net| && w'.net[id].from == p ==>
                !w'.net[id].request.SaveCheckpoint?
  {
  }

  lemma StepQuiet(run: seq<World>, j: nat, p: nat, floor: nat)
    requires Behavior(run) && 0 < j < |run| && NoSaveFrom(run[j - 1], p, floor) && floor <= |run[j - 1].net|
    ensures NoSaveFrom(run[j], p, floor) && floor <= |run[j].net|
  {
    RunStep(run, j);
    StepNoSave(run[j - 1], run[j], p, floor);
  }

  /** A room that has released its checkpoint never sends another save. */
  lemma NoSaveAfterRelease(run: seq<World>, i: nat, j: nat, p: nat)
    requires Behavior(run) && i <= j < |run| && p < |run[i].procs| && run[i].procs[p].released
    ensures NoSaveFrom(run[j], p, |run[i].net|)
  {
    var floor := |run[i].net|;
    var holds := k => 0 <= k < |run| && NoSaveFrom(run[k], p, floor) && floor <= |run[k].net|;
    forall k | i < k <= j && holds(k - 1) ensures holds(k) { StepQuiet(run, k, p, floor); }
    Persists(holds, i, j);
  }
}
