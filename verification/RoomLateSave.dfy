/** The late save that undoes a deletion does occur: a run of one room, from its opening through the
    commit of its match to the deletion of its checkpoint, with a save still on its way. */
module RoomLateSave {
  import opened Wrappers
  import opened GameDomain
  import opened RoomLease
  import opened RuntimeOwner
  import opened RuntimeCheckpoint
  import opened GameMatch
  import opened RoomProtocol
  import opened RoomRuns
  import opened RoomDeletion

  /** A save that is sent, and given up on before anybody handles it. */
  lemma GivenUpSave(w: World, p: nat, sequence: int) returns (w': World)
    requires Reachable(w) && MaySave(w, p, sequence)
    ensures Reachable(w') && w'.now == w.now && w'.ttl == w.ttl && w'.servers == w.servers && w'.procs == w.procs
    ensures KeepsNet(w, w') && |w.net| < |w'.net| && LateSave(w', |w.net|, w.procs[p].lease.value)
  {
    var called := SaveSent(w, p, sequence);
    w' := Apply(called, SaveFail(p));
    ReachStep(called, SaveFail(p));
  }

  /** The result is captured, and its completion made ready. */
  lemma ProposeStep(w: World, p: nat, c: MatchCompletion) returns (w': World)
    requires Reachable(w) && p < |w.procs| && MayChoose(w.procs[p], Propose(c.result), w.now)
    requires c.owner == Some(Ref(w.procs[p])) && ValidCompletion(c)
    ensures Reachable(w') && w'.now == w.now && w'.ttl == w.ttl && w'.net == w.net && w'.servers == w.servers
    ensures w'.procs == w.procs[p := w.procs[p].(at := Commit(c), proposal := Some(c.result))]
  {
    var proposed := ChooseStep(w, p, Propose(c.result));
    w' := ChooseStep(proposed, p, Finish(c));
  }

  /** A completion that is ready is stored and read back. */
  lemma CommitStep(w: World, c: MatchCompletion) returns (w': World)
    requires Reachable(w) && |w.procs| == 1 && w.procs[0].call.None? && w.procs[0].at == Commit(c)
    requires ValidCompletion(c) && c.owner.Some? && Millisecond(c.result.startedAt) != 0
    requires CompleteTransaction(w.servers.store, c).1.Stored?
    ensures Reachable(w') && w'.now == w.now && KeepsNet(w, w') && w'.servers.lease == w.servers.lease
    ensures w'.procs == [w.procs[0].(callAt := w.now, at := Open, committed := Some(c))]
  {
    StoredReads(w.servers.store, c);
    var complete := CompleteStep(w, 0, c);
    w' := ReadBackStep(complete, 0, c);
  }

  /** The room releases its checkpoint and asks for the deletion. */
  lemma ReleaseStep(w: World, p: nat) returns (w': World)
    requires Reachable(w) && p < |w.procs| && MayChoose(w.procs[p], Drop, w.now)
    ensures Reachable(w') && w'.now == w.now && w'.servers == w.servers
    ensures w'.net == w.net + [Message(p, DeleteCheckpoint(w.procs[p].lease.value), w.now, None)]
    ensures p < |w'.procs| && w'.procs[p].released && w'.procs[p].lease == w.procs[p].lease
  {
    var chosen := ChooseStep(w, p, Drop);
    w' := CallStep(chosen, p);
  }

  /** Then the deletion is served. */
  lemma DropStep(w: World, p: nat) returns (w': World)
    requires Reachable(w) && p < |w.procs| && MayChoose(w.procs[p], Drop, w.now)
    requires Holds(w.servers.lease, w.now, w.procs[p].lease.value)
    ensures Reachable(w') && Dropped(w', p) && KeepsNet(w, w')
    ensures w'.procs[p].lease == w.procs[p].lease
  {
    var id := |w.net|;
    var called := ReleaseStep(w, p);
    w' := Apply(called, Serve(id));
    ReachStep(called, Serve(id));
    DeletionDrops(called, p, id);
  }

  /** The completion `c`, named by the owner who claimed the first generation under `value`. */
  function NamedBy(c: MatchCompletion, instance: string, value: LeaseValue): MatchCompletion {
    c.(owner := Some(OwnerRef(1, instance, value.lease)))
  }

  /** `c` can end the match of a new session, once an owner started it. */
  predicate MayEnd(start: World, c: MatchCompletion) {
    && ValidCompletion(c) && Millisecond(c.result.startedAt) != 0
    && c.owner.None? && CompleteTransaction(start.servers.store, c).1.Stored?
  }

  /** The room is open, a checkpoint protected, the match spawned, and a second save on its way. */
  lemma Played(start: World, instance: string) returns (w: World, value: LeaseValue, s: nat)
    requires Init(start) && instance != ""
    requires start.servers.store.session.Some? && !IsTerminal(start.servers.store.session.value.state)
    ensures Reachable(w) && w.now == start.now && |w.procs| == 1
    ensures s < |w.net| && LateSave(w, s, value) && Holds(w.servers.lease, w.now, value) && value.instance == instance
    ensures var q := w.procs[0];
            && q.at.Open? && q.call.None? && q.lease == Some(value) && q.owner.Some? && LeaseValid(q, w.now)
            && Ref(q) == OwnerRef(1, instance, value.lease) && q.runtime.Spawned? && q.proposal.None? && q.saving.None?
    ensures Names(Ref(w.procs[0]), w.servers.store.owner)
    ensures w.servers.store.owner.value.started && !w.servers.store.owner.value.completed
    ensures w.servers.store == start.servers.store.(owner := w.servers.store.owner)
  {
    StartReachable(start);
    var room, v, claim := OpenRoom(start, instance);
    value := v;
    var saved := SaveStep(room, 0, 1);
    var spawned := SpawnStep(saved, 0);
    s := |spawned.net|;
    w := GivenUpSave(spawned, 0, 2);
  }

  /** The match is committed, and the room told so. */
  lemma CommitPlayed(w: World, c: MatchCompletion) returns (w': World)
    requires Reachable(w) && |w.procs| == 1 && MayChoose(w.procs[0], Propose(c.result), w.now)
    requires ValidCompletion(c) && c.owner == Some(Ref(w.procs[0])) && Millisecond(c.result.startedAt) != 0
    requires CompleteTransaction(w.servers.store, c).1.Stored?
    ensures Reachable(w') && w'.now == w.now && KeepsNet(w, w') && w'.servers.lease == w.servers.lease
    ensures |w'.procs| == 1 && w'.procs[0].lease == w.procs[0].lease && w'.procs[0].owner == w.procs[0].owner
    ensures var q := w'.procs[0];
            q.at.Open? && q.call.None? && q.committed.Some? && q.saving == w.procs[0].saving
  {
    var proposed := ProposeStep(w, 0, c);
    w' := CommitStep(proposed, c);
  }

  /** The start and the claim let the owner they name store what could be stored without one. */
  lemma StillEnds(start: World, w: World, c: MatchCompletion, ref: OwnerRef)
    requires MayEnd(start, c) && OwnerCompletes(ref) && Names(ref, w.servers.store.owner)
    requires w.servers.store.owner.value.started && !w.servers.store.owner.value.completed
    requires w.servers.store == start.servers.store.(owner := w.servers.store.owner)
    ensures ValidCompletion(c.(owner := Some(ref)))
    ensures CompleteTransaction(w.servers.store, c.(owner := Some(ref))).1.Stored?
  {
  }

  /** For every completion that can end the match there is a run in which the room has committed it,
      released its checkpoint and seen it deleted, while a save of its own is still unanswered; once
      that save is served, the checkpoint is there again. */
  lemma LateSaveUndoesDeletion(start: World, instance: string, c: MatchCompletion) returns (w: World, s: nat)
    requires Init(start) && instance != "" && MayEnd(start, c)
    ensures Reachable(w) && Dropped(w, 0) && s < |w.net| && LateSave(w, s, w.procs[0].lease.value)
    ensures Reachable(Apply(w, Serve(s))) && Apply(w, Serve(s)).servers.checkpoint.Some?
  {
    var played, value, late := Played(start, instance);
    s := late;
    var completion := NamedBy(c, instance, value);
    StillEnds(start, played, c, completion.owner.value);
    var committed := CommitPlayed(played, completion);
    w := DropStep(committed, 0);
    assert w.net[s] == played.net[s];
    ReachStep(w, Serve(s));
  }

  /** A completion of a match at a session's version. */
  function Ending(version: int): MatchCompletion {
    MatchCompletion(
      version,
      SessionSnapshot("s", "h", "g", Finished, version + 1, MILLISECOND, MILLISECOND, "over", "", true),
      [SessionEvent("e", "s", "finished", version + 1, MILLISECOND)],
      MatchResult("s", "h", "g", 1, MatchCompleted, "over", MILLISECOND, MILLISECOND, "{}", true),
      None,
      Command("c", SYSTEM_ACTOR, "complete", Sha256("{}")),
      None,
      "ended")
  }

  /** So it happens to every new session whose match runs. */
  lemma DeletionCanFail(start: World) returns (w: World, s: nat)
    requires Init(start) && start.servers.store.session.Some?
    requires start.servers.store.session.value.state.Running? && start.servers.store.session.value.version >= 1
    ensures Reachable(w) && Dropped(w, 0) && s < |w.net| && LateSave(w, s, w.procs[0].lease.value)
    ensures Reachable(Apply(w, Serve(s))) && Apply(w, Serve(s)).servers.checkpoint.Some?
  {
    var c := Ending(start.servers.store.session.value.version);
    EndingIsValid(start.servers.store.session.value.version);
    w, s := LateSaveUndoesDeletion(start, "a", c);
  }

  lemma EndingIsValid(version: int)
    requires version >= 1
    ensures ValidCompletion(Ending(version)) && Millisecond(MILLISECOND) != 0
  {
    NotBlank("s");
    NotBlank("h");
    NotBlank("g");
    NotBlank("over");
    NotBlank("ended");
  }
}
