/** Runs of the room protocol built step by step, for the results that say what can happen. */
module RoomRuns {
  import opened Wrappers
  import opened GameDomain
  import opened RoomLease
  import opened RuntimeOwner
  import opened RuntimeCheckpoint
  import opened GameMatch
  import opened RoomProtocol

  ghost predicate Reachable(w: World) {
    exists run :: Behavior(run) && run[|run| - 1] == w
  }

  lemma Extended(run: seq<World>, a: Action)
    requires Behavior(run) && Enabled(run[|run| - 1], a)
    ensures Behavior(run + [Apply(run[|run| - 1], a)])
  {
    var longer := run + [Apply(run[|run| - 1], a)];
    forall i, j | 0 <= i < j < |longer| && j == i + 1
      ensures Next(longer[i], longer[j])
    {
      if j < |run| { assert Next(run[i], run[j]); }
    }
  }

  lemma ReachStep(w: World, a: Action)
    requires Reachable(w) && Enabled(w, a)
    ensures Reachable(Apply(w, a))
  {
    var run :| Behavior(run) && run[|run| - 1] == w;
    Extended(run, a);
    var longer := run + [Apply(w, a)];
    assert longer[|longer| - 1] == Apply(w, a);
  }

  /** The messages of `w` are still as they were. */
  predicate KeepsNet(w: World, w': World) {
    |w.net| <= |w'.net| && w'.net[..|w.net|] == w.net
  }

  /** A call that is sent, served and answered at once. */
  lemma RoundTrip(w: World, p: nat) returns (w': World)
    requires Reachable(w) && p < |w.procs| && w.procs[p].call.None? && RequestAt(w.procs[p]).Some?
    ensures Reachable(w') && w'.now == w.now && w'.ttl == w.ttl
    ensures var r := Handle(w.servers, w.now, w.ttl, |w.net|, RequestAt(w.procs[p]).value);
            var q := w.procs[p].(call := Some(|w.net|), callAt := w.now);
            w'.servers == r.0 && w'.procs == w.procs[p := Advance(q, Answer(q, |w.net|, r.1, w.now, w.ttl))]
    ensures KeepsNet(w, w')
  {
    var id := |w.net|;
    var called := Apply(w, Call(p));
    var served := Apply(called, Serve(id));
    w' := Apply(served, Return(p));
    ReachStep(w, Call(p));
    ReachStep(called, Serve(id));
    ReachStep(served, Return(p));
  }

  /** A call that is sent, and not yet served. */
  lemma CallStep(w: World, p: nat) returns (w': World)
    requires Reachable(w) && p < |w.procs| && w.procs[p].call.None? && RequestAt(w.procs[p]).Some?
    ensures Reachable(w') && w'.now == w.now && w'.ttl == w.ttl && w'.servers == w.servers
    ensures w'.net == w.net + [Message(p, RequestAt(w.procs[p]).value, w.now, None)]
    ensures w'.procs == w.procs[p := w.procs[p].(call := Some(|w.net|), callAt := w.now)]
  {
    w' := Apply(w, Call(p));
    ReachStep(w, Call(p));
  }

  lemma ChooseStep(w: World, p: nat, choice: Choice) returns (w': World)
    requires Reachable(w) && p < |w.procs| && MayChoose(w.procs[p], choice, w.now)
    ensures Reachable(w') && w' == w.(procs := w.procs[p := Choosing(w.procs[p], choice)])
  {
    w' := Apply(w, Choose(p, choice));
    ReachStep(w, Choose(p, choice));
  }

  lemma StartReachable(start: World)
    requires Init(start)
    ensures Reachable(start)
  {
    assert [start][|[start]| - 1] == start && Behavior([start]);
  }

  /** Only the lease key, the owner record and the list of its claims differ. */
  predicate SameRest(s: Servers, s': Servers) {
    s' == s.(lease := s'.lease, claims := s'.claims, store := s.store.(owner := s'.store.owner))
  }

  predicate Unclaimed(s: Servers) {
    && s.store.session.Some? && !IsTerminal(s.store.session.value.state)
    && (s.store.owner.Some? ==> !s.store.owner.value.completed)
    && 0 <= Generation(s.store.owner) < MAX_INT64
  }

  lemma ReadStep(w: World, p: nat) returns (w': World)
    requires Reachable(w) && p < |w.procs| && w.procs[p].call.None? && w.procs[p].at.ReadGeneration?
    ensures Reachable(w') && w'.now == w.now && w'.ttl == w.ttl && w'.servers == w.servers && KeepsNet(w, w')
    ensures w'.procs == w.procs[p :=
            w.procs[p].(callAt := w.now, at := AcquireFirst, expected := Generation(w.servers.store.owner))]
  {
    w' := RoundTrip(w, p);
  }

  lemma AcquireStep(w: World, p: nat) returns (w': World, value: LeaseValue)
    requires Reachable(w) && p < |w.procs| && w.procs[p].call.None? && w.procs[p].at.AcquireFirst?
    requires !Present(w.servers.lease, w.now)
    ensures Reachable(w') && w'.now == w.now && w'.ttl == w.ttl
    ensures w'.procs == w.procs[p := w.procs[p].(callAt := w.now, at := LoadSession, lease := Some(value))]
    ensures value.instance == w.procs[p].instance
    ensures w'.servers == w.servers.(lease :=
            LeaseState(Some(LeaseKey(value, w.now + w.ttl)), w.servers.lease.fence + 1))
  {
    w' := RoundTrip(w, p);
    value := LeaseValue(w.procs[p].instance, |w.net|, w.servers.lease.fence + 1);
  }

  lemma SessionStep(w: World, p: nat) returns (w': World)
    requires Reachable(w) && p < |w.procs| && w.procs[p].call.None? && w.procs[p].at.LoadSession?
             && Unclaimed(w.servers)
    ensures Reachable(w') && w'.now == w.now && w'.ttl == w.ttl && w'.servers == w.servers
    ensures w'.procs == w.procs[p := w.procs[p].(callAt := w.now, at := Claiming)]
  {
    w' := RoundTrip(w, p);
  }

  lemma ClaimStep(w: World, p: nat) returns (w': World, claim: OwnerDoc)
    requires Reachable(w) && p < |w.procs| && w.procs[p].call.None? && w.procs[p].at.Claiming? && w.procs[p].lease.Some?
    requires Unclaimed(w.servers) && w.procs[p].expected == Generation(w.servers.store.owner)
    requires w.servers.store.owner.Some? ==> w.servers.store.owner.value.generation > 0
    ensures Reachable(w') && w'.now == w.now && w'.ttl == w.ttl
    ensures w'.procs == w.procs[p := w.procs[p].(callAt := w.now, at := FirstRenew, owner := Some(claim))]
    ensures w'.servers.lease == w.servers.lease && SameRest(w.servers, w'.servers)
    ensures w'.servers.store.owner == Some(claim)
    ensures ClaimUpdate(w.servers.store.owner, w.procs[p].expected, w.procs[p].instance, w.procs[p].lease.value.lease)
            == (Some(claim), Some(claim))
  {
    w' := RoundTrip(w, p);
    claim := ClaimUpdate(w.servers.store.owner, w.procs[p].expected, w.procs[p].instance,
        w.procs[p].lease.value.lease).1.value;
  }

  lemma RenewStep(w: World, p: nat) returns (w': World)
    requires Reachable(w) && p < |w.procs| && w.procs[p].call.None? && w.procs[p].at.FirstRenew?
             && w.procs[p].lease.Some?
    requires Holds(w.servers.lease, w.now, w.procs[p].lease.value) && w.ttl > 0
    ensures Reachable(w') && w'.now == w.now && w'.ttl == w.ttl
    ensures w'.procs == w.procs[p := w.procs[p].(callAt := w.now, at := Open, deadline := Some(w.now + w.ttl))]
    ensures w'.servers == w.servers.(lease := w'.servers.lease)
    ensures Holds(w'.servers.lease, w'.now, w.procs[p].lease.value)
  {
    w' := RoundTrip(w, p);
  }

  /** Nobody holds the key, and the instance is free: it can open the room. */
  predicate MayOpen(w: World, instance: string) {
    && Enabled(w, Begin(instance)) && w.ttl > 0 && !Present(w.servers.lease, w.now)
    && Unclaimed(w.servers) && (w.servers.store.owner.Some? ==> w.servers.store.owner.value.generation > 0)
  }

  /** The open room of an activation that met no delay. */
  function OpenedProc(instance: string, now: int, ttl: int, value: LeaseValue, claim: OwnerDoc): Proc {
    NewProc(instance).(callAt := now, at := Open, expected := claim.generation - 1, lease := Some(value),
                       owner := Some(claim), deadline := Some(now + ttl))
  }

  /** A new activation opens the room without delay; its deadline is one time to live away. */
  lemma OpenRoom(w: World, instance: string) returns (w': World, value: LeaseValue, claim: OwnerDoc)
    requires Reachable(w) && MayOpen(w, instance)
    ensures Reachable(w') && w'.now == w.now && w'.ttl == w.ttl && SameRest(w.servers, w'.servers)
    ensures w'.procs == w.procs + [OpenedProc(instance, w.now, w.ttl, value, claim)]
    ensures value.instance == instance && Holds(w'.servers.lease, w.now, value)
    ensures w'.servers.store.owner == Some(claim) && !claim.completed
    ensures claim.generation == Generation(w.servers.store.owner) + 1
    ensures claim.instance == instance && claim.lease == value.lease
    ensures claim.started == (w.servers.store.owner.Some? && w.servers.store.owner.value.started)
  {
    var granted;
    granted, value := AcquireRoom(w, instance);
    w', claim := ClaimRoom(granted, |w.procs|);
    assert w'.procs == w.procs + [w'.procs[|w.procs|]];
  }

  /** The first half: the activation is granted the lease. */
  lemma AcquireRoom(w: World, instance: string) returns (w': World, value: LeaseValue)
    requires Reachable(w) && MayOpen(w, instance)
    ensures Reachable(w') && w'.now == w.now && w'.ttl == w.ttl
    ensures w'.servers == w.servers.(lease := w'.servers.lease)
    ensures w'.servers.lease.key == Some(LeaseKey(value, w.now + w.ttl)) && value.instance == instance
    ensures var granted := NewProc(instance).(callAt := w.now, at := LoadSession, lease := Some(value),
                                              expected := Generation(w.servers.store.owner));
            w'.procs == w.procs + [granted]
  {
    var p := |w.procs|;
    var begun := Apply(w, Begin(instance));
    ReachStep(w, Begin(instance));
    var read := ReadStep(begun, p);
    w', value := AcquireStep(read, p);
    assert w'.procs == w.procs + [w'.procs[p]];
  }

  /** The second half: it claims the next generation and dates its lease. */
  lemma ClaimRoom(w: World, p: nat) returns (w': World, claim: OwnerDoc)
    requires Reachable(w) && p < |w.procs| && w.procs[p].call.None? && w.procs[p].at.LoadSession? && w.ttl > 0
    requires Unclaimed(w.servers) && w.procs[p].expected == Generation(w.servers.store.owner)
    requires w.servers.store.owner.Some? ==> w.servers.store.owner.value.generation > 0
    requires w.procs[p].lease.Some? && Holds(w.servers.lease, w.now, w.procs[p].lease.value)
    ensures Reachable(w') && w'.now == w.now && w'.ttl == w.ttl && SameRest(w.servers, w'.servers)
    ensures w'.procs == w.procs[p := w.procs[p].(callAt := w.now, at := Open, owner := Some(claim),
                                                 deadline := Some(w.now + w.ttl))]
    ensures Holds(w'.servers.lease, w.now, w.procs[p].lease.value)
    ensures ClaimUpdate(w.servers.store.owner, w.procs[p].expected, w.procs[p].instance, w.procs[p].lease.value.lease)
            == (Some(claim), Some(claim))
    ensures w'.servers.store.owner == Some(claim)
  {
    var loaded := SessionStep(w, p);
    var claimed;
    claimed, claim := ClaimStep(loaded, p);
    w' := RenewStep(claimed, p);
  }

  // ----- what an open room does

  predicate MaySave(w: World, p: nat, sequence: int) {
    p < |w.procs| && Enabled(w, SaveCall(p, sequence, ""))
  }

  function NextSave(w: World, p: nat, sequence: int): CheckpointDoc
    requires MaySave(w, p, sequence)
  {
    CheckpointDoc(w.procs[p].owner.value.generation, sequence, "")
  }

  lemma SaveSent(w: World, p: nat, sequence: int) returns (w': World)
    requires Reachable(w) && MaySave(w, p, sequence)
    ensures Reachable(w') && w'.now == w.now && w'.ttl == w.ttl && w'.servers == w.servers
    ensures var q := w.procs[p];
            var doc := NextSave(w, p, sequence);
            && w'.net == w.net + [Message(p, SaveCheckpoint(q.lease.value, doc), w.now, None)]
            && w'.procs == w.procs[p := q.(saving := Some(Saving(|w.net|, doc)))]
  {
    w' := Apply(w, SaveCall(p, sequence, ""));
    ReachStep(w, SaveCall(p, sequence, ""));
  }

  lemma SaveServed(w: World, id: nat) returns (w': World)
    requires Reachable(w) && Enabled(w, Serve(id)) && w.net[id].request.SaveCheckpoint?
    requires w.servers.checkpoint.Some? ==> Later(w.net[id].request.doc, w.servers.checkpoint.value)
    requires Holds(w.servers.lease, w.now, w.net[id].request.value)
    ensures Reachable(w') && w' == w.(servers := w.servers.(checkpoint := Some(w.net[id].request.doc)),
                                      net := w.net[id := w.net[id].(reply := Some(CheckpointSaved(w.servers.wipes)))])
  {
    w' := Apply(w, Serve(id));
    ReachStep(w, Serve(id));
  }

  /** A save that is sent, served and answered at once. */
  lemma SaveStep(w: World, p: nat, sequence: int) returns (w': World)
    requires Reachable(w) && MaySave(w, p, sequence)
    requires Holds(w.servers.lease, w.now, w.procs[p].lease.value)
    requires w.servers.checkpoint.Some? ==> Later(NextSave(w, p, sequence), w.servers.checkpoint.value)
    ensures Reachable(w') && w'.now == w.now && w'.ttl == w.ttl && KeepsNet(w, w')
    ensures w'.servers == w.servers.(checkpoint := Some(NextSave(w, p, sequence)))
    ensures w'.procs == w.procs[p := w.procs[p].(protected := sequence, critical := "", wipe := w.servers.wipes)]
  {
    var id := |w.net|;
    var called := SaveSent(w, p, sequence);
    var served := SaveServed(called, id);
    w' := Apply(served, SaveReturn(p));
    ReachStep(served, SaveReturn(p));
  }

  /** The start is recorded and the runtime runs. */
  lemma SpawnStep(w: World, p: nat) returns (w': World)
    requires Reachable(w) && p < |w.procs| && MayChoose(w.procs[p], Spawn, w.now)
    requires Names(Ref(w.procs[p]), w.servers.store.owner) && !w.servers.store.owner.value.started
    ensures Reachable(w') && w'.now == w.now && w'.ttl == w.ttl && KeepsNet(w, w')
    ensures w'.procs == w.procs[p := w.procs[p].(callAt := w.now, at := Open, runtime := Spawned)]
    ensures w'.servers.store == w.servers.store.(owner := Some(w.servers.store.owner.value.(started := true)))
    ensures w'.servers.lease == w.servers.lease
  {
    var chosen := ChooseStep(w, p, Spawn);
    w' := RoundTrip(chosen, p);
  }

  /** The completion is stored. */
  lemma CompleteStep(w: World, p: nat, c: MatchCompletion) returns (w': World)
    requires Reachable(w) && p < |w.procs| && w.procs[p].call.None? && w.procs[p].at == Commit(c)
    requires CompleteTransaction(w.servers.store, c).1.Stored?
    ensures Reachable(w') && w'.now == w.now && w'.ttl == w.ttl && KeepsNet(w, w')
    ensures w'.procs == w.procs[p := w.procs[p].(callAt := w.now, at := ReadBack(c))]
    ensures w'.servers == w.servers.(store := CompleteTransaction(w.servers.store, c).0)
  {
    w' := RoundTrip(w, p);
  }

  /** And it is read back. */
  lemma ReadBackStep(w: World, p: nat, c: MatchCompletion) returns (w': World)
    requires Reachable(w) && p < |w.procs| && w.procs[p].call.None? && w.procs[p].at == ReadBack(c)
    requires w.servers.store.result.Some? && w.servers.store.result.value.Readable()
    ensures Reachable(w') && w'.now == w.now && w'.ttl == w.ttl && KeepsNet(w, w') && w'.servers == w.servers
    ensures w'.procs == w.procs[p := w.procs[p].(callAt := w.now, at := Open, committed := Some(c))]
  {
    w' := RoundTrip(w, p);
  }

  lemma StoredReads(s: MatchStore, c: MatchCompletion)
    requires ValidCompletion(c) && c.owner.Some? && Millisecond(c.result.startedAt) != 0
    requires CompleteTransaction(s, c).1.Stored?
    ensures var result := CompleteTransaction(s, c).0.result; result.Some? && result.value.Readable()
  {
    StoredIsReadable(c);
  }
}
