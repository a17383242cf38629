/** How long the checkpoint of a committed match stays deleted: nothing in Redis remembers the
    deletion, so a save still on its way can undo it, and nothing else can. */
module RoomDeletion {
  import opened Wrappers
  import opened GameDomain
  import opened RoomLease
  import opened RuntimeOwner
  import opened RuntimeCheckpoint
  import opened GameMatch
  import opened RoomProtocol
  import opened RoomInvariant
  import opened RoomOutcome
  import opened RoomCheckpoint
  import opened RoomRuns
  import opened RoomTheorems

  /** Room `p` released its checkpoint, still holds the key, and the checkpoint is gone. */
  predicate Dropped(w: World, p: nat) {
    && p < |w.procs| && w.procs[p].released && w.procs[p].lease.Some?
    && Holds(w.servers.lease, w.now, w.procs[p].lease.value)
    && w.servers.checkpoint.None?
  }

  /** Some save under the lease `value` is unanswered. */
  predicate SavePending(w: World, value: LeaseValue) {
    exists id :: 0 <= id < |w.net| && LateSave(w, id, value)
  }

  predicate LateSave(w: World, id: nat, value: LeaseValue)
    requires id < |w.net|
  {
    w.net[id].request.SaveCheckpoint? && w.net[id].request.value == value && w.net[id].reply.None?
  }

  /** Serving the deletion of a released room that holds the key drops its checkpoint. */
  lemma DeletionDrops(w: World, p: nat, id: nat)
    requires p < |w.procs| && w.procs[p].released && w.procs[p].lease.Some?
    requires Enabled(w, Serve(id)) && w.net[id].request == DeleteCheckpoint(w.procs[p].lease.value)
    requires Holds(w.servers.lease, w.now, w.procs[p].lease.value)
    ensures Dropped(Apply(w, Serve(id)), p)
  {
  }

  /** A released room that holds the key claimed the newest generation, and its match has a result. */
  lemma ReleasedIsNewest(run: seq<World>, i: nat, p: nat)
    requires Behavior(run) && i < |run| && Dropped(run[i], p)
    ensures run[i].servers.store.result.Some?
    ensures ClaimedUnder(run[i], |run[i].servers.claims|, run[i].procs[p].lease.value.lease)
    ensures EverAcquired(run[i], run[i].procs[p].lease.value) && run[i].net[run[i].procs[p].lease.value.lease].from == p
  {
    RunSound(run, i);
    var w, q := run[i], run[i].procs[p];
    assert OutcomeOk(w.servers.store, q) && ProcOk(w, p, q);
    assert w.servers.claims[q.owner.value.generation - 1].lease == q.lease.value.lease;
  }

  /** A save that takes effect is made under the lease of the newest claim, by whoever acquired it. */
  lemma SaverIsNewest(w: World, id: nat, value: LeaseValue)
    requires Inv(w) && Enabled(w, Serve(id)) && w.net[id].request.SaveCheckpoint?
    requires ClaimedUnder(w, |w.servers.claims|, value.lease) && EverAcquired(w, value)
    requires Holds(w.servers.lease, w.now, w.net[id].request.value)
    ensures w.net[id].request.value == value && w.net[id].from == w.net[value.lease].from
  {
    assert MessageOk(w, id);
    HolderIsNewest(w, w.net[id].request.value, w.net[id].request.doc.epoch);
  }

  /** Only a served save makes a checkpoint appear. */
  lemma OnlySavesStore(w: World, w': World) returns (id: nat)
    requires Next(w, w') && w.servers.checkpoint.None? && w'.servers.checkpoint.Some?
    ensures Enabled(w, Serve(id)) && w' == Apply(w, Serve(id)) && w.net[id].request.SaveCheckpoint?
    ensures Holds(w.servers.lease, w.now, w.net[id].request.value)
    ensures w'.net[id].reply.Some? && w'.net[id].reply.value.CheckpointSaved?
  {
    var a :| Enabled(w, a) && w' == Apply(w, a);
    assert a.Serve?;
    id := a.id;
  }

  lemma {:induction false} FirstStored(run: seq<World>, i: nat, j: nat) returns (k: nat)
    requires i <= j < |run| && run[i].servers.checkpoint.None? && run[j].servers.checkpoint.Some?
    ensures i < k <= j && run[k - 1].servers.checkpoint.None? && run[k].servers.checkpoint.Some?
    decreases j
  {
    if run[j - 1].servers.checkpoint.None? { k := j; } else { k := FirstStored(run, i, j - 1); }
  }

  /** Save `id` was sent before the release, was unanswered when the deletion was served, and has
      since stored its checkpoint. */
  ghost predicate UndidDeletion(run: seq<World>, r: nat, i: nat, j: nat, id: nat, p: nat, value: LeaseValue)
    requires r <= i <= j < |run|
  {
    && id < |run[r].net| && id < |run[i].net| && id < |run[j].net|
    && run[r].net[id].from == p && LateSave(run[i], id, value)
    && run[j].net[id].reply.Some? && run[j].net[id].reply.value.CheckpointSaved?
  }

  /** If the checkpoint is there again, a save sent before the release was served after the deletion. */
  lemma ReappearsByLateSave(run: seq<World>, r: nat, i: nat, j: nat, p: nat)
    requires Behavior(run) && r <= i <= j < |run| && p < |run[r].procs| && run[r].procs[p].released
    requires Dropped(run[i], p) && run[j].servers.checkpoint.Some?
    ensures exists id :: UndidDeletion(run, r, i, j, id, p, run[i].procs[p].lease.value)
  {
    var k := FirstStored(run, i, j);
    var id := StoredByReleased(run, i, k, p);
    NoSaveAfterRelease(run, r, k - 1, p);
    SaveTravels(run, r, i, k, j, id, p, run[i].procs[p].lease.value);
  }

  lemma StoredByReleased(run: seq<World>, i: nat, k: nat, p: nat) returns (id: nat)
    requires Behavior(run) && i < k < |run| && Dropped(run[i], p)
    requires run[k - 1].servers.checkpoint.None? && run[k].servers.checkpoint.Some?
    ensures id < |run[k - 1].net| && LateSave(run[k - 1], id, run[i].procs[p].lease.value)
            && run[k - 1].net[id].from == p
    ensures id < |run[k].net| && run[k].net[id].reply.Some? && run[k].net[id].reply.value.CheckpointSaved?
  {
    RunStep(run, k);
    id := OnlySavesStore(run[k - 1], run[k]);
    SavedByReleased(run, i, k, p, id);
  }

  /** The save that first undoes the deletion was sent by the released room, under its lease. */
  lemma SavedByReleased(run: seq<World>, i: nat, k: nat, p: nat, id: nat)
    requires Behavior(run) && i < k < |run| && Dropped(run[i], p)
    requires Enabled(run[k - 1], Serve(id)) && run[k - 1].net[id].request.SaveCheckpoint?
    requires Holds(run[k - 1].servers.lease, run[k - 1].now, run[k - 1].net[id].request.value)
    ensures run[k - 1].net[id].request.value == run[i].procs[p].lease.value && run[k - 1].net[id].from == p
  {
    var value := run[i].procs[p].lease.value;
    ReleasedIsNewest(run, i, p);
    ResultIsFinal(run, i, k - 1);
    RunKeeps(run, i, k - 1);
    assert KeepsMessage(run[i].net[value.lease], run[k - 1].net[value.lease]);
    RunSound(run, k - 1);
    SaverIsNewest(run[k - 1], id, value);
  }

  /** What is known of a message at one time is known of it before and after. */
  lemma SaveTravels(run: seq<World>, r: nat, i: nat, k: nat, j: nat, id: nat, p: nat, value: LeaseValue)
    requires Behavior(run) && r <= i < k <= j < |run| && id < |run[k - 1].net| && LateSave(run[k - 1], id, value)
    requires run[k - 1].net[id].from == p && NoSaveFrom(run[k - 1], p, |run[r].net|)
    requires id < |run[k].net| && run[k].net[id].reply.Some? && run[k].net[id].reply.value.CheckpointSaved?
    ensures UndidDeletion(run, r, i, j, id, p, value)
  {
    SentEarly(run, r, i, k, id);
    MessageStays(run, k, j, id);
  }

  lemma SentEarly(run: seq<World>, r: nat, i: nat, k: nat, id: nat)
    requires Behavior(run) && r <= i < k < |run| && id < |run[r].net| && id < |run[k - 1].net|
    ensures id < |run[i].net|
    ensures run[r].net[id].from == run[k - 1].net[id].from && run[i].net[id].request == run[k - 1].net[id].request
    ensures run[k - 1].net[id].reply.None? ==> run[i].net[id].reply.None?
  {
    MessageStays(run, r, i, id);
    MessageStays(run, i, k - 1, id);
  }

  lemma MessageStays(run: seq<World>, i: nat, j: nat, id: nat)
    requires Behavior(run) && i <= j < |run| && id < |run[i].net|
    ensures id < |run[j].net| && KeepsMessage(run[i].net[id], run[j].net[id])
  {
    RunKeeps(run, i, j);
  }

  /** A run that goes on from `run`. */
  ghost predicate Continues(run: seq<World>, longer: seq<World>) {
    Behavior(longer) && run <= longer
  }

  ghost predicate Reappears(run: seq<World>, longer: seq<World>) {
    Continues(run, longer) && longer != [] && longer[|longer| - 1].servers.checkpoint.Some?
  }

  lemma PendingSaveReappears(run: seq<World>, p: nat, id: nat)
    requires Behavior(run) && Dropped(run[|run| - 1], p) && id < |run[|run| - 1].net|
    requires LateSave(run[|run| - 1], id, run[|run| - 1].procs[p].lease.value)
    ensures Reappears(run, run + [Apply(run[|run| - 1], Serve(id))])
  {
    Extended(run, Serve(id));
  }

  lemma ReappearedWasPending(run: seq<World>, longer: seq<World>, p: nat)
    requires Behavior(run) && Dropped(run[|run| - 1], p) && Reappears(run, longer)
    ensures SavePending(run[|run| - 1], run[|run| - 1].procs[p].lease.value)
  {
    var last := |run| - 1;
    assert longer[last] == run[last];
    ReappearsByLateSave(longer, last, last, |longer| - 1, p);
    var id :| UndidDeletion(longer, last, last, |longer| - 1, id, p, run[last].procs[p].lease.value);
    assert LateSave(run[last], id, run[last].procs[p].lease.value);
  }

  /** The deletion holds in every continuation exactly when none of the room's saves is unanswered. */
  lemma DeletionHoldsIff(run: seq<World>, p: nat)
    requires Behavior(run) && Dropped(run[|run| - 1], p)
    ensures (exists longer :: Reappears(run, longer)) <==>
            SavePending(run[|run| - 1], run[|run| - 1].procs[p].lease.value)
  {
    var w := run[|run| - 1];
    if SavePending(w, w.procs[p].lease.value) {
      var id: nat :| id < |w.net| && LateSave(w, id, w.procs[p].lease.value);
      PendingSaveReappears(run, p, id);
    }
    if longer :| Reappears(run, longer) { ReappearedWasPending(run, longer, p); }
  }
}
