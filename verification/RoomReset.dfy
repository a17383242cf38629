/** Why mutual exclusion in time has to wait after a reset of Redis: a room opened before it believes
    its lease valid until its deadline, while another instance has already opened the room again. */
module RoomReset {
  import opened Wrappers
  import opened GameDomain
  import opened RoomLease
  import opened RuntimeOwner
  import opened GameMatch
  import opened RoomProtocol
  import opened RoomRuns
  import opened RoomTheorems

  /** Redis is reset, and some time passes: the room is open for another instance. */
  lemma ResetAndWait(alone: World, second: string, elapsed: nat) returns (w: World)
    requires Reachable(alone) && alone.ttl > 0 && second != "" && |alone.procs| == 1
    requires alone.procs[0].instance != second && Unclaimed(alone.servers)
    requires alone.servers.store.owner.Some? && alone.servers.store.owner.value.generation > 0
    ensures Reachable(w) && MayOpen(w, second) && w.ttl == alone.ttl && w.procs == alone.procs
    ensures w.servers.lostAt == Some(alone.now) && w.now == alone.now + elapsed
  {
    var reset := Apply(alone, RedisReset);
    ReachStep(alone, RedisReset);
    w := Apply(reset, Tick(elapsed));
    ReachStep(reset, Tick(elapsed));
  }

  /** For any two instances, and any moment less than one time to live after a reset, there is a run
      in which both believe their lease of the room valid at that moment. */
  lemma ResetSplitsRoom(start: World, first: string, second: string, elapsed: nat) returns (w: World)
    requires Init(start) && elapsed < start.ttl && first != "" && second != "" && first != second
    requires start.servers.store.session.Some? && !IsTerminal(start.servers.store.session.value.state)
    ensures Reachable(w) && w.servers.lostAt.Some? && w.now == w.servers.lostAt.value + elapsed
    ensures |w.procs| == 2 && LeaseValid(w.procs[0], w.now) && LeaseValid(w.procs[1], w.now) && !PastReset(w)
  {
    StartReachable(start);
    var alone, _, _ := OpenRoom(start, first);
    var later := ResetAndWait(alone, second, elapsed);
    var both, _, _ := OpenRoom(later, second);
    w := both;
  }
}
