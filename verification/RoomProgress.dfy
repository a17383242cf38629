/** What the protocol lets an activation and its room reach when the servers answer: each lemma goes on
    from any reachable state. The invariants say what never happens; these say what can. */
module RoomProgress {
  import opened Wrappers
  import opened GameDomain
  import opened RoomLease
  import opened RuntimeOwner
  import opened RuntimeCheckpoint
  import opened GameMatch
  import opened RoomProtocol
  import opened RoomInvariant
  import opened RoomCheckpoint
  import opened RoomTheorems
  import opened RoomRuns

  /** `w'` is reached from `w` at the same time. */
  ghost predicate GoesTo(w: World, w': World) {
    Reachable(w') && w'.now == w.now && w'.ttl == w.ttl
  }

  lemma ReachableSound(w: World)
    requires Reachable(w)
    ensures Sound(w)
  {
    var run :| Behavior(run) && run[|run| - 1] == w;
    RunSound(run, |run| - 1);
  }

  /** Activation `p` is free to make the call of its point. */
  ghost predicate Ready(w: World, p: nat) {
    Reachable(w) && p < |w.procs| && w.procs[p].call.None?
  }

  // ----- an activation that finds the room taken

  lemma BusyStep(w: World, p: nat) returns (w': World)
    requires Ready(w, p) && w.procs[p].at.AcquireFirst? && Present(w.servers.lease, w.now)
    ensures GoesTo(w, w') && |w.net| <= |w'.net| && w'.servers == w.servers
    ensures w'.procs == w.procs[p := w.procs[p].(callAt := w.now, at := ReadHolder)]
  {
    w' := RoundTrip(w, p);
  }

  lemma HolderStep(w: World, p: nat) returns (w': World)
    requires Ready(w, p) && w.procs[p].at.ReadHolder? && Present(w.servers.lease, w.now)
    ensures GoesTo(w, w') && |w.net| <= |w'.net| && w'.servers == w.servers
    ensures var v := w.servers.lease.key.value.value;
            var next := if v.instance == w.procs[p].instance then FreeOwn(v) else Observe(v);
            w'.procs == w.procs[p := w.procs[p].(callAt := w.now, at := next)]
  {
    w' := RoundTrip(w, p);
  }

  lemma ObserveStep(w: World, p: nat) returns (w': World)
    requires Ready(w, p) && w.procs[p].at.Observe?
    ensures GoesTo(w, w') && w'.servers == w.servers
    ensures w'.procs == w.procs[p := w.procs[p].(callAt := w.now,
                                                 at := ObserveLease(w.procs[p].at.other, w.servers.store.owner))]
  {
    w' := RoundTrip(w, p);
  }

  lemma ConfirmStep(w: World, p: nat) returns (w': World)
    requires Ready(w, p) && w.procs[p].at.ObserveLease? && Present(w.servers.lease, w.now)
    requires w.servers.lease.key.value.value == w.procs[p].at.other && Generation(w.procs[p].at.seen) > 0
    requires w.procs[p].at.seen.value.lease == w.procs[p].at.other.lease
    requires w.procs[p].at.seen.value.instance == w.procs[p].at.other.instance
    ensures GoesTo(w, w') && w'.servers == w.servers && |w'.procs| == |w.procs|
    ensures w'.procs[p].at == Observed(w.procs[p].at.other, Generation(w.procs[p].at.seen))
  {
    w' := RoundTrip(w, p);
  }

  /** A new activation finds the room taken and learns by whom. */
  lemma FindsTaken(w: World, instance: string) returns (w': World)
    requires Reachable(w) && Enabled(w, Begin(instance)) && Present(w.servers.lease, w.now)
    ensures GoesTo(w, w') && |w.net| <= |w'.net| && w'.servers == w.servers && |w'.procs| == |w.procs| + 1
    ensures var q, v := w'.procs[|w.procs|], w.servers.lease.key.value.value;
            && q.instance == instance && q.call.None? && !q.stopped && q.expected == Generation(w.servers.store.owner)
            && q.at == if v.instance == instance then FreeOwn(v) else Observe(v)
  {
    var p := |w.procs|;
    var begun := Apply(w, Begin(instance));
    ReachStep(w, Begin(instance));
    var read := ReadStep(begun, p);
    var busy := BusyStep(read, p);
    w' := HolderStep(busy, p);
  }

  /** While another instance holds the room and its claim is recorded, a new activation comes to observe
      just that owner, and changes nothing. */
  lemma ObserverArrives(w: World, instance: string) returns (w': World)
    requires Reachable(w) && Enabled(w, Begin(instance)) && Present(w.servers.lease, w.now)
    requires var v := w.servers.lease.key.value.value;
             && v.instance != instance && Generation(w.servers.store.owner) > 0
             && w.servers.store.owner.value.instance == v.instance && w.servers.store.owner.value.lease == v.lease
    ensures GoesTo(w, w') && w'.servers == w.servers && |w'.procs| == |w.procs| + 1
    ensures w'.procs[|w.procs|].at
            == Observed(w.servers.lease.key.value.value, Generation(w.servers.store.owner))
  {
    var p := |w.procs|;
    var taken := FindsTaken(w, instance);
    var observing := ObserveStep(taken, p);
    w' := ConfirmStep(observing, p);
  }

  lemma FreeStep(w: World, p: nat) returns (w': World)
    requires Ready(w, p) && w.procs[p].at.FreeOwn? && Holds(w.servers.lease, w.now, w.procs[p].at.own)
    ensures GoesTo(w, w') && |w.net| <= |w'.net| && w'.servers == w.servers.(lease := w.servers.lease.(key := None))
    ensures w'.procs == w.procs[p := w.procs[p].(callAt := w.now, at := AcquireAgain)]
  {
    w' := RoundTrip(w, p);
  }

  lemma AcquireAgainStep(w: World, p: nat) returns (w': World, value: LeaseValue)
    requires Ready(w, p) && w.procs[p].at.AcquireAgain? && !Present(w.servers.lease, w.now) && w.ttl > 0
    ensures GoesTo(w, w') && w'.servers == w.servers.(lease := w'.servers.lease)
    ensures Holds(w'.servers.lease, w.now, value)
    ensures value == LeaseValue(w.procs[p].instance, |w.net|, w.servers.lease.fence + 1)
    ensures w'.procs == w.procs[p := w.procs[p].(callAt := w.now, at := LoadSession, lease := Some(value))]
  {
    w' := RoundTrip(w, p);
    value := LeaseValue(w.procs[p].instance, |w.net|, w.servers.lease.fence + 1);
  }

  /** A new activation of the instance that holds the key frees that value and is granted another. */
  lemma FreesOwn(w: World, instance: string) returns (w': World, value: LeaseValue)
    requires Reachable(w) && Enabled(w, Begin(instance)) && w.ttl > 0 && Present(w.servers.lease, w.now)
    requires w.servers.lease.key.value.value.instance == instance
    ensures GoesTo(w, w') && w'.servers == w.servers.(lease := w'.servers.lease) && |w'.procs| == |w.procs| + 1
    ensures Holds(w'.servers.lease, w.now, value) && value.instance == instance && value.lease >= |w.net|
    ensures var q := w'.procs[|w.procs|];
            && q.at.LoadSession? && q.call.None? && !q.stopped && q.instance == instance && q.lease == Some(value)
            && q.expected == Generation(w.servers.store.owner)
  {
    var p := |w.procs|;
    var taken := FindsTaken(w, instance);
    var freed := FreeStep(taken, p);
    w', value := AcquireAgainStep(freed, p);
  }

  /** The lease an instance left behind does not keep it out: a new activation of the same instance
      frees the old value and opens the room under a new one, without waiting for the old to expire. */
  lemma OwnLeaseIsReplaced(w: World, instance: string) returns (w': World, value: LeaseValue, claim: OwnerDoc)
    requires Reachable(w) && Enabled(w, Begin(instance)) && w.ttl > 0 && Present(w.servers.lease, w.now)
    requires w.servers.lease.key.value.value.instance == instance && Unclaimed(w.servers)
    requires w.servers.store.owner.Some? ==> w.servers.store.owner.value.generation > 0
    ensures GoesTo(w, w') && SameRest(w.servers, w'.servers) && |w'.procs| == |w.procs| + 1
    ensures Holds(w'.servers.lease, w.now, value) && w'.servers.store.owner == Some(claim)
    ensures value.lease != w.servers.lease.key.value.value.lease
    ensures claim.generation == Generation(w.servers.store.owner) + 1 && claim.lease == value.lease
    ensures var q := w'.procs[|w.procs|];
            q.at.Open? && q.instance == instance && q.lease == Some(value) && LeaseValid(q, w.now)
  {
    var granted;
    granted, value := FreesOwn(w, instance);
    HeldWasSent(w);
    w', claim := ClaimRoom(granted, |w.procs|);
  }

  lemma HeldWasSent(w: World)
    requires Reachable(w) && w.servers.lease.key.Some?
    ensures w.servers.lease.key.value.value.lease < |w.net|
  {
    ReachableSound(w);
    assert EverAcquired(w, w.servers.lease.key.value.value);
  }

  // ----- an open room

  /** A renewal sent and answered at once: the key and the room's deadline are both one time to live away. */
  lemma RenewalExtends(w: World, p: nat) returns (w': World)
    requires Reachable(w) && Enabled(w, RenewCall(p)) && Holds(w.servers.lease, w.now, w.procs[p].lease.value)
    ensures GoesTo(w, w') && w'.procs == w.procs[p := w.procs[p].(deadline := Some(w.now + w.ttl))]
    ensures w'.servers == w.servers.(lease :=
            w.servers.lease.(key := Some(LeaseKey(w.procs[p].lease.value, w.now + w.ttl))))
  {
    var id := |w.net|;
    var called := Apply(w, RenewCall(p));
    ReachStep(w, RenewCall(p));
    var served := RenewServed(called, id);
    w' := Apply(served, RenewReturn(p));
    ReachStep(served, RenewReturn(p));
  }

  lemma RenewServed(w: World, id: nat) returns (w': World)
    requires Reachable(w) && Enabled(w, Serve(id)) && w.net[id].request.Renew?
    requires Holds(w.servers.lease, w.now, w.net[id].request.value)
    ensures Reachable(w')
    ensures var key := Some(LeaseKey(w.net[id].request.value, w.now + w.ttl));
            w' == w.(servers := w.servers.(lease := w.servers.lease.(key := key)),
                     net := w.net[id := w.net[id].(reply := Some(Renewed))])
  {
    w' := Apply(w, Serve(id));
    ReachStep(w, Serve(id));
  }

  /** A cancel's trigger is stored for the owner of a started, open match, and the room keeps it. */
  lemma TriggerIsRecorded(w: World, p: nat, command: Command) returns (w': World)
    requires Ready(w, p) && MayChoose(w.procs[p], Trigger(command), w.now)
    requires TriggerUpdate(w.servers.store.owner, Ref(w.procs[p]), command).1
    ensures GoesTo(w, w') && |w'.procs| == |w.procs| && w'.procs[p].at.Open?
    ensures w'.procs[p].owner == Some(w.procs[p].owner.value.(trigger := Some(command)))
    ensures w'.servers == w.servers.(store := w.servers.store.(owner :=
            Some(w.servers.store.owner.value.(trigger := Some(command)))))
  {
    var chosen := ChooseStep(w, p, Trigger(command));
    w' := TriggerStep(chosen, p, command);
  }

  lemma TriggerStep(w: World, p: nat, command: Command) returns (w': World)
    requires Ready(w, p) && w.procs[p].at == TriggerSave(command) && w.procs[p].owner.Some? && w.procs[p].lease.Some?
    requires TriggerUpdate(w.servers.store.owner, Ref(w.procs[p]), command).1
    ensures GoesTo(w, w') && |w'.procs| == |w.procs| && w'.procs[p].at.Open?
    ensures w'.procs[p].owner == Some(w.procs[p].owner.value.(trigger := Some(command)))
    ensures w'.servers == w.servers.(store := w.servers.store.(owner :=
            Some(w.servers.store.owner.value.(trigger := Some(command)))))
  {
    w' := RoundTrip(w, p);
  }

  /** A match that nobody can spawn any more is abandoned: its start is recorded, its end proposed. */
  lemma AbandonStep(w: World, p: nat, fallback: MatchResult) returns (w': World)
    requires Ready(w, p) && MayChoose(w.procs[p], Abandon(fallback), w.now)
    requires MarkStartedUpdate(w.servers.store.owner, Ref(w.procs[p])).1
    ensures GoesTo(w, w') && Started(w')
    ensures w'.procs == w.procs[p := w.procs[p].(callAt := w.now, at := Open, proposal := Some(fallback))]
  {
    var chosen := ChooseStep(w, p, Abandon(fallback));
    w' := RoundTrip(chosen, p);
  }

  // ----- a room that stops

  /** A room told that its lease is gone, or too late that it was renewed, stops. */
  lemma RefusedRenewalStops(w: World, p: nat) returns (w': World)
    requires Reachable(w) && Enabled(w, RenewReturn(p))
    requires w.net[w.procs[p].renewal.value.id].reply != Some(Renewed) || !LeaseValid(w.procs[p], w.now)
    ensures GoesTo(w, w') && w'.servers == w.servers && |w'.procs| == |w.procs|
    ensures w'.procs[p].stopped && !LeaseValid(w'.procs[p], w'.now)
  {
    w' := Apply(w, RenewReturn(p));
    ReachStep(w, RenewReturn(p));
  }

  /** A room that stops gives its lease back: the key is free again before it expires. */
  lemma StoppedRoomReleases(w: World, p: nat) returns (w': World)
    requires Reachable(w) && Enabled(w, Stop(p)) && w.procs[p].lease.Some?
    requires Holds(w.servers.lease, w.now, w.procs[p].lease.value)
    ensures GoesTo(w, w') && w'.servers == w.servers.(lease := w.servers.lease.(key := None))
    ensures |w'.procs| == |w.procs| && w'.procs[p].at.Ended? && w'.procs[p].stopped
  {
    var stopped := Apply(w, Stop(p));
    ReachStep(w, Stop(p));
    w' := ReleaseOwnStep(stopped, p);
  }

  lemma ReleaseOwnStep(w: World, p: nat) returns (w': World)
    requires Ready(w, p) && w.procs[p].at.Releasing? && w.procs[p].lease.Some?
    requires Holds(w.servers.lease, w.now, w.procs[p].lease.value)
    ensures GoesTo(w, w') && w'.servers == w.servers.(lease := w.servers.lease.(key := None))
    ensures |w'.procs| == |w.procs| && w'.procs[p].at.Ended? && w'.procs[p].stopped
  {
    w' := RoundTrip(w, p);
  }

  // ----- a commit whose reply is lost

  /** The completion takes effect, and the caller gives up on it. */
  lemma CommitGivenUp(w: World, p: nat, c: MatchCompletion, served: bool) returns (w': World)
    requires Ready(w, p) && w.procs[p].at == Commit(c)
    ensures GoesTo(w, w') && w'.procs == w.procs[p := w.procs[p].(callAt := w.now, at := Resolve(c))]
    ensures w'.servers == if served then w.servers.(store := CompleteTransaction(w.servers.store, c).0) else w.servers
  {
    var called := CallStep(w, p);
    var handled := called;
    if served { handled := CompleteServed(called, |w.net|, c); }
    w' := Apply(handled, Fail(p));
    ReachStep(handled, Fail(p));
  }

  lemma CompleteServed(w: World, id: nat, c: MatchCompletion) returns (w': World)
    requires Reachable(w) && Enabled(w, Serve(id)) && w.net[id].request == Complete(c)
    ensures GoesTo(w, w') && w'.procs == w.procs
    ensures w'.servers == w.servers.(store := CompleteTransaction(w.servers.store, c).0)
  {
    w' := Apply(w, Serve(id));
    ReachStep(w, Serve(id));
  }

  lemma ResolveStep(w: World, p: nat, c: MatchCompletion) returns (w': World)
    requires Ready(w, p) && w.procs[p].at == Resolve(c)
    requires w.servers.store.result.Some? ==> SameMatchResult(w.servers.store.result.value, Proposed(c))
    ensures GoesTo(w, w') && w'.servers == w.servers
    ensures w'.procs == w.procs[p := w.procs[p].(callAt := w.now,
                                                 at := if w.servers.store.result.Some? then ReadBack(c) else Open)]
  {
    w' := RoundTrip(w, p);
  }

  /** A commit that took effect although its reply was lost is resolved to a success. */
  lemma LostReplyResolves(w: World, p: nat, c: MatchCompletion) returns (w': World)
    requires Ready(w, p) && w.procs[p].at == Commit(c) && CompleteTransaction(w.servers.store, c).1.Stored?
    requires ValidCompletion(c) && c.owner.Some? && Millisecond(c.result.startedAt) != 0
    ensures GoesTo(w, w') && |w'.procs| == |w.procs|
    ensures w'.procs[p].at.Open? && w'.procs[p].committed == Some(c)
  {
    StoredReads(w.servers.store, c);
    StoredMatchesProposal(c);
    var lost := CommitGivenUp(w, p, c, true);
    var resolved := ResolveStep(lost, p, c);
    w' := ReadBackStep(resolved, p, c);
  }

  /** One that did not take effect leaves the room open to try again. */
  lemma LostRequestRetries(w: World, p: nat, c: MatchCompletion) returns (w': World)
    requires Ready(w, p) && w.procs[p].at == Commit(c) && w.servers.store.result.None?
    ensures GoesTo(w, w') && w'.servers == w.servers
    ensures w'.procs == w.procs[p := w.procs[p].(callAt := w.now, at := Open)]
  {
    var lost := CommitGivenUp(w, p, c, false);
    w' := ResolveStep(lost, p, c);
  }

  // ----- a later owner restores the match

  /** The holder loads the checkpoint, or falls back on a proposed end when there is none. */
  lemma LoadStep(w: World, p: nat, fallback: MatchResult) returns (w': World)
    requires Ready(w, p) && MayChoose(w.procs[p], Restore(fallback), w.now)
    requires Holds(w.servers.lease, w.now, w.procs[p].lease.value)
    ensures GoesTo(w, w') && w'.servers == w.servers
    ensures w'.procs == w.procs[p :=
            if w.servers.checkpoint.Some? then w.procs[p].(callAt := w.now, at := RestoreInstall(fallback))
            else w.procs[p].(callAt := w.now, at := Open, proposal := Some(fallback))]
  {
    var chosen := ChooseStep(w, p, Restore(fallback));
    w' := LoadedStep(chosen, p, fallback);
  }

  lemma LoadedStep(w: World, p: nat, fallback: MatchResult) returns (w': World)
    requires Ready(w, p) && w.procs[p].at == RestoreLoad(fallback) && w.procs[p].lease.Some?
    requires Holds(w.servers.lease, w.now, w.procs[p].lease.value)
    ensures GoesTo(w, w') && w'.servers == w.servers
    ensures w'.procs == w.procs[p :=
            if w.servers.checkpoint.Some? then w.procs[p].(callAt := w.now, at := RestoreInstall(fallback))
            else w.procs[p].(callAt := w.now, at := Open, proposal := Some(fallback))]
  {
    w' := RoundTrip(w, p);
  }

  /** A loaded checkpoint is protected under the new generation and its runtime installed. */
  lemma InstallStep(w: World, p: nat, sequence: int) returns (w': World)
    requires Ready(w, p) && w.procs[p].at.RestoreInstall? && MaySave(w, p, sequence) && sequence > 0
    requires Holds(w.servers.lease, w.now, w.procs[p].lease.value)
    requires w.servers.checkpoint.Some? ==> w.procs[p].owner.value.generation > w.servers.checkpoint.value.epoch
    ensures GoesTo(w, w') && |w'.procs| == |w.procs| && w'.procs[p].at.Open? && w'.procs[p].runtime.Restored?
    ensures w'.procs[p].instance == w.procs[p].instance
    ensures w'.servers == w.servers.(checkpoint := Some(NextSave(w, p, sequence)))
  {
    var saved := SaveStep(w, p, sequence);
    w' := ChooseStep(saved, p, Install);
  }

  /** A checkpoint that cannot be used ends the match with the proposed end instead. */
  lemma RefusedFallsBack(w: World, p: nat) returns (w': World)
    requires Ready(w, p) && MayChoose(w.procs[p], RefuseCheckpoint, w.now)
    ensures GoesTo(w, w') && w'.servers == w.servers
    ensures w'.procs == w.procs[p := w.procs[p].(at := Open, proposal := Some(w.procs[p].at.fallback))]
  {
    w' := ChooseStep(w, p, RefuseCheckpoint);
  }

  /** The match outlives its owner: once the key is free, any free instance can open the room, and its
      runtime is restored from a checkpoint that covers every change published since the last wipe. */
  lemma TakeoverRestores(w: World, instance: string, fallback: MatchResult) returns (w': World)
    requires Reachable(w) && MayOpen(w, instance) && Started(w) && w.servers.checkpoint.Some?
    ensures GoesTo(w, w') && |w'.procs| == |w.procs| + 1
    ensures var q := w'.procs[|w.procs|]; q.instance == instance && q.at.Open? && q.runtime.Restored?
    ensures w'.servers.wipes == w.servers.wipes && w'.servers.channel == w.servers.channel
    ensures w'.servers.checkpoint.Some? && Later(w'.servers.checkpoint.value, w.servers.checkpoint.value)
    ensures forall n :: 0 <= n < |w.servers.channel| && Relies(w.servers, w.servers.channel[n]) ==>
              Covers(w'.servers.checkpoint, w.servers.channel[n].Protection())
  {
    var p := |w.procs|;
    CheckpointIsOld(w);
    var room, value, claim := OpenRoom(w, instance);
    var loaded := LoadStep(room, p, fallback);
    w' := InstallStep(loaded, p, 1);
  }

  /** An event relies on a checkpoint that was not wiped since. */
  predicate Relies(s: Servers, event: Event) {
    event.covered > 0 && event.wipe == s.wipes
  }

  /** The stored checkpoint is of a generation already claimed, and covers every event that relies on it. */
  lemma CheckpointIsOld(w: World)
    requires Reachable(w)
    ensures w.servers.checkpoint.Some? ==> w.servers.checkpoint.value.epoch <= Generation(w.servers.store.owner)
    ensures forall n :: 0 <= n < |w.servers.channel| && Relies(w.servers, w.servers.channel[n]) ==>
              Covers(w.servers.checkpoint, w.servers.channel[n].Protection())
  {
    ReachableSound(w);
    forall n | 0 <= n < |w.servers.channel| ensures EventOk(w.servers, w.servers.channel[n]) {}
  }
}
