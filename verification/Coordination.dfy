/** The Redis coordinator of one server instance: the scripts it runs, and the leases it tracks. */
module Coordination {
  import opened Wrappers
  import opened DecimalOrder
  import opened RoomLease
  import opened RuntimeCheckpoint

  /** Everything Redis keeps for one room. */
  datatype RoomKeys = RoomKeys(lease: LeaseState, checkpoint: Option<CheckpointHash>, channel: seq<string>)

  const NO_KEYS := RoomKeys(LeaseState(None, 0), None, [])

  class RedisServer {
    var now: int
    var rooms: map<string, RoomKeys>

    function Keys(roomID: string): RoomKeys
      reads this
    {
      if roomID in rooms then rooms[roomID] else NO_KEYS
    }

    /** Run a script's effect on one room's keys. */
    method Write(roomID: string, keys: RoomKeys)
      modifies this`rooms
      ensures rooms == old(rooms)[roomID := keys]
      ensures Keys(roomID) == keys && forall other :: other != roomID ==> Keys(other) == old(Keys(other))
    {
      rooms := rooms[roomID := keys];
    }
  }

  datatype Lease = Lease(roomID: string, instance: string, lease: LeaseID, token: int, expiresAt: int)
  {
    function Value(): LeaseValue { LeaseValue(instance, lease, token) }
  }

  datatype CoordinationError = Closed | InvalidInput | ErrUnavailable | ErrLeaseLost | ErrCheckpointOrder

  /** The tracked leases without this very lease; a newer lease of the room stays. */
  function Forgotten(leases: map<string, Lease>, lease: Lease): map<string, Lease> {
    if lease.roomID in leases && leases[lease.roomID].lease == lease.lease then leases - {lease.roomID} else leases
  }

  class RedisCoordinator {
    const instance: string
    const server: RedisServer
    var leases: map<string, Lease>
    var closed: bool

    constructor (instance: string, server: RedisServer)
      ensures Valid() && leases == map[] && !closed && this.instance == instance && this.server == server
    {
      this.instance, this.server := instance, server;
      leases, closed := map[], false;
    }

    /** Every tracked lease was granted to this instance, for the room it is tracked under. */
    ghost predicate Valid()
      reads this
    {
      forall id :: id in leases ==> leases[id].roomID == id && leases[id].instance == instance && leases[id].token > 0
    }

    method Track(lease: Lease)
      requires Valid() && lease.instance == instance && lease.token > 0
      modifies this`leases
      ensures Valid() && leases == old(leases)[lease.roomID := lease]
    {
      leases := leases[lease.roomID := lease];
    }

    /** Forget this very lease; a newer lease of the room stays tracked. */
    method ForgetLease(lease: Lease)
      requires Valid()
      modifies this`leases
      ensures Valid()
      ensures leases == Forgotten(old(leases), lease)
      ensures lease.roomID in leases ==> leases[lease.roomID].lease != lease.lease
      ensures forall id :: id in old(leases) && (id != lease.roomID || old(leases)[id].lease != lease.lease) ==>
                id in leases && leases[id] == old(leases)[id]
    {
      if lease.roomID in leases && leases[lease.roomID].lease == lease.lease {
        leases := leases - {lease.roomID};
      }
    }

    /** `uuid` is the UUID drawn for this attempt, `replyAt` the local clock when the reply arrives. */
    method AcquireRoom(roomID: string, ttl: int, uuid: LeaseID, replyAt: int, fault: Fault)
      returns (r: Result<Option<Lease>, CoordinationError>)
      requires Valid()
      modifies this`leases, server`rooms
      ensures Valid() && (forall other :: other != roomID ==> server.Keys(other) == old(server.Keys(other)))
      ensures var script := AcquireScript(old(server.Keys(roomID)).lease, server.now, instance, uuid, ttl);
              var runs := roomID != "" && ttl > 0 && !closed && !fault.LostRequest?;
              && server.Keys(roomID) == (if runs then old(server.Keys(roomID)).(lease := script.0)
                  else old(server.Keys(roomID)))
              && (r.Ok? <==> runs && fault.Replied?)
              && (r.Ok? && script.1 == 0 ==> r.value.None? && leases == old(leases))
              && (r.Ok? && script.1 != 0 ==> r.value == Some(Lease(roomID, instance, uuid, script.1, replyAt + ttl))
                                             && leases == old(leases)[roomID := r.value.value]
                                             && Holds(server.Keys(roomID).lease, server.now, r.value.value.Value()))
              && (r.Err? ==> leases == old(leases))
    {
      if roomID == "" || ttl <= 0 {
        return Err(InvalidInput);
      }
      if closed {
        return Err(Closed);
      }
      if fault.LostRequest? {
        return Err(ErrUnavailable);
      }
      var keys := server.Keys(roomID);
      var token := 0;
      if !Present(keys.lease, server.now) {
        token := keys.lease.fence + 1;
        server.Write(roomID, keys.(lease :=
            LeaseState(Some(LeaseKey(LeaseValue(instance, uuid, token), server.now + ttl)), token)));
      } else {
        server.Write(roomID, keys);
      }
      if fault.LostReply? {
        return Err(ErrUnavailable);
      }
      if token == 0 {
        return Ok(None);
      }
      var lease := Lease(roomID, instance, uuid, token, replyAt + ttl);
      Track(lease);
      return Ok(Some(lease));
    }

    method RenewRoom(lease: Lease, ttl: int, replyAt: int, fault: Fault) returns (r: Result<bool, CoordinationError>)
      requires Valid()
      modifies this`leases, server`rooms
      ensures Valid() && (forall other :: other != lease.roomID ==> server.Keys(other) == old(server.Keys(other)))
      ensures var script := RenewScript(old(server.Keys(lease.roomID)).lease, server.now, lease.Value(), ttl);
              var runs := !closed && lease.roomID != "" && ttl > 0 && lease.instance == instance && lease.token > 0
                  && !fault.LostRequest?;
              && server.Keys(lease.roomID)
                  == (if runs then old(server.Keys(lease.roomID)).(lease := script.0)
                  else old(server.Keys(lease.roomID)))
              && (r.Ok? <==> runs && fault.Replied?)
              && (r.Ok? ==> r.value == script.1)
              && (r == Ok(true) ==> leases == old(leases)[lease.roomID := lease.(expiresAt := replyAt + ttl)])
              && (r == Ok(false) ==> leases == Forgotten(old(leases), lease))
              && (r.Err? ==> leases == old(leases))
    {
      if closed {
        return Err(Closed);
      }
      if lease.roomID == "" || ttl <= 0 {
        return Err(InvalidInput);
      }
      if lease.instance != instance || lease.token <= 0 {
        return Err(ErrLeaseLost);
      }
      if fault.LostRequest? {
        return Err(ErrUnavailable);
      }
      var keys := server.Keys(lease.roomID);
      var renewed := Present(keys.lease, server.now) && keys.lease.key.value.value == lease.Value();
      server.Write(lease.roomID, if renewed
          then keys.(lease := keys.lease.(key := Some(LeaseKey(lease.Value(), server.now + ttl)))) else keys);
      if fault.LostReply? {
        return Err(ErrUnavailable);
      }
      if !renewed {
        ForgetLease(lease);
        return Ok(false);
      }
      Track(lease.(expiresAt := replyAt + ttl));
      return Ok(true);
    }

    /** A release that Redis answered, or that was never this instance's, is forgotten here. */
    method ReleaseRoom(lease: Lease, fault: Fault) returns (r: Result<bool, CoordinationError>)
      requires Valid()
      modifies this`leases, server`rooms
      ensures Valid() && (forall other :: other != lease.roomID ==> server.Keys(other) == old(server.Keys(other)))
      ensures var script := ReleaseScript(old(server.Keys(lease.roomID)).lease, server.now, lease.Value());
              var runs := !closed && lease.roomID != "" && lease.token > 0 && lease.instance == instance
                  && !fault.LostRequest?;
              && server.Keys(lease.roomID)
                  == (if runs then old(server.Keys(lease.roomID)).(lease := script.0)
                  else old(server.Keys(lease.roomID)))
              && (r.Ok? <==> runs && fault.Replied?)
              && (r.Ok? ==> r.value == script.1 && !Holds(server.Keys(lease.roomID).lease, server.now, lease.Value()))
              && (r == Err(ErrLeaseLost) <==>
                  !closed && lease.roomID != "" && lease.token > 0 && lease.instance != instance)
              && leases == if r.Ok? || r == Err(ErrLeaseLost) then Forgotten(old(leases), lease) else old(leases)
    {
      if closed {
        return Err(Closed);
      }
      if lease.roomID == "" || lease.token <= 0 {
        return Err(InvalidInput);
      }
      if lease.instance != instance {
        ForgetLease(lease);
        return Err(ErrLeaseLost);
      }
      if fault.LostRequest? {
        return Err(ErrUnavailable);
      }
      var keys := server.Keys(lease.roomID);
      var released := Present(keys.lease, server.now) && keys.lease.key.value.value == lease.Value();
      server.Write(lease.roomID, if released then keys.(lease := keys.lease.(key := None)) else keys);
      if fault.LostReply? {
        return Err(ErrUnavailable);
      }
      ForgetLease(lease);
      return Ok(released);
    }

    /** The holder named by the key, with what is left of its time. */
    method CurrentRoomOwner(roomID: string, replyAt: int, fault: Fault)
      returns (r: Result<Option<Lease>, CoordinationError>)
      ensures r.Ok? <==> roomID != "" && !closed && fault.Replied?
      ensures r.Ok? ==> match Holder(server.Keys(roomID).lease, server.now)
                        case None => r.value.None?
                        case Some(v) => r.value.Some? && r.value.value.roomID == roomID && r.value.value.Value() == v
                                        && replyAt < r.value.value.expiresAt
                                        && r.value.value.expiresAt
                                           == replyAt + server.Keys(roomID).lease.key.value.expiresAt - server.now
    {
      if roomID == "" {
        return Err(InvalidInput);
      }
      if closed {
        return Err(Closed);
      }
      if !fault.Replied? {
        return Err(ErrUnavailable);
      }
      var state := server.Keys(roomID).lease;
      if state.key.None? {
        return Ok(None);
      }
      var left := state.key.value.expiresAt - server.now;
      if left <= 0 {
        return Ok(None);
      }
      var v := state.key.value.value;
      return Ok(Some(Lease(roomID, v.instance, v.lease, v.token, replyAt + left)));
    }

    /** Only the holder publishes; a holder told otherwise forgets its lease. */
    method PublishRoomEvent(lease: Lease, payload: string, fault: Fault) returns (r: Result<(), CoordinationError>)
      requires Valid()
      modifies this`leases, server`rooms
      ensures Valid() && (forall other :: other != lease.roomID ==> server.Keys(other) == old(server.Keys(other)))
      ensures var holds := Holds(server.Keys(lease.roomID).lease, server.now, lease.Value());
              var sent := !closed && lease.instance == instance && lease.token > 0 && !fault.LostRequest? && holds;
              && server.Keys(lease.roomID)
                  == (if sent then old(server.Keys(lease.roomID)).(channel := old(server.Keys(lease.roomID)).channel
                  + [payload])
                                               else old(server.Keys(lease.roomID)))
              && (r.Ok? <==> sent && fault.Replied?)
      ensures var ours := lease.instance == instance && lease.token > 0;
              var holds := Holds(server.Keys(lease.roomID).lease, server.now, lease.Value());
              && (r == Err(ErrLeaseLost) <==> !closed && (!ours || (fault.Replied? && !holds)))
              && leases == if !closed && ours && fault.Replied? && !holds then Forgotten(old(leases), lease)
                           else old(leases)
    {
      if closed {
        return Err(Closed);
      }
      if lease.instance != instance || lease.token <= 0 {
        return Err(ErrLeaseLost);
      }
      if fault.LostRequest? {
        return Err(ErrUnavailable);
      }
      var keys := server.Keys(lease.roomID);
      var published := Present(keys.lease, server.now) && keys.lease.key.value.value == lease.Value();
      server.Write(lease.roomID, if published then keys.(channel := keys.channel + [payload]) else keys);
      if fault.LostReply? {
        return Err(ErrUnavailable);
      }
      if !published {
        ForgetLease(lease);
        return Err(ErrLeaseLost);
      }
      return Ok(());
    }

    // ----- runtime checkpoints

    /** `wellFormed` is the verdict of the JSON and size checks on the payload. */
    method SaveRuntimeCheckpoint(lease: Lease, epoch: int, sequence: int, data: string, wellFormed: bool, fault: Fault)
      returns (r: Result<(), CoordinationError>)
      modifies server`rooms
      ensures (forall other :: other != lease.roomID ==> server.Keys(other) == old(server.Keys(other)))
      ensures var valid := lease.instance == instance && epoch > 0 && sequence > 0 && wellFormed && !closed;
              if !valid then
                r.Err? && server.Keys(lease.roomID) == old(server.Keys(lease.roomID))
              else
                var keys := old(server.Keys(lease.roomID));
                var script := SaveTextScript(keys.lease, server.now, lease.Value(), keys.checkpoint,
                    Text(epoch, sequence, data));
                && server.Keys(lease.roomID) == (if fault.LostRequest? then keys else keys.(checkpoint := script.0))
                && (r.Ok? <==> fault.Replied? && script.1 == 1)
                && (r == Err(ErrLeaseLost) <==> fault.Replied? && script.1 == -1)
                && (r == Err(ErrCheckpointOrder) <==> fault.Replied? && script.1 == 0)
    {
      if closed {
        return Err(Closed);
      }
      if lease.instance != instance || epoch <= 0 || sequence <= 0 || !wellFormed {
        return Err(InvalidInput);
      }
      if fault.LostRequest? {
        return Err(ErrUnavailable);
      }
      var keys := server.Keys(lease.roomID);
      var script := SaveTextScript(keys.lease, server.now, lease.Value(), keys.checkpoint, Text(epoch, sequence, data));
      server.Write(lease.roomID, keys.(checkpoint := script.0));
      if fault.LostReply? {
        return Err(ErrUnavailable);
      }
      if script.1 == -1 {
        return Err(ErrLeaseLost);
      }
      if script.1 == 0 {
        return Err(ErrCheckpointOrder);
      }
      return Ok(());
    }

    method LoadRuntimeCheckpoint(lease: Lease, fault: Fault) returns (r: Result<Option<string>, CoordinationError>)
      ensures r.Ok? <==>
              !closed && fault.Replied? && lease.instance == instance
              && Holds(server.Keys(lease.roomID).lease, server.now, lease.Value())
      ensures r.Ok? ==> r.value == if server.Keys(lease.roomID).checkpoint.Some?
              then Some(server.Keys(lease.roomID).checkpoint.value.data) else None
      ensures r == Err(ErrLeaseLost) <==>
              !closed && (lease.instance != instance
                          || (fault.Replied? && !Holds(server.Keys(lease.roomID).lease, server.now, lease.Value())))
    {
      if closed {
        return Err(Closed);
      }
      if lease.instance != instance {
        return Err(ErrLeaseLost);
      }
      if !fault.Replied? {
        return Err(ErrUnavailable);
      }
      var keys := server.Keys(lease.roomID);
      if !Present(keys.lease, server.now) || keys.lease.key.value.value != lease.Value() {
        return Err(ErrLeaseLost);
      }
      if keys.checkpoint.None? {
        return Ok(None);
      }
      return Ok(Some(keys.checkpoint.value.data));
    }

    method DeleteRuntimeCheckpoint(lease: Lease, fault: Fault) returns (r: Result<(), CoordinationError>)
      modifies server`rooms
      ensures (forall other :: other != lease.roomID ==> server.Keys(other) == old(server.Keys(other)))
      ensures var keys := old(server.Keys(lease.roomID));
              var deleted := !closed && lease.instance == instance && !fault.LostRequest?
                  && Holds(keys.lease, server.now, lease.Value());
              && server.Keys(lease.roomID) == (if deleted then keys.(checkpoint := None) else keys)
              && (r.Ok? <==> deleted && fault.Replied?)
              && (r == Err(ErrLeaseLost) <==>
                  !closed && (lease.instance != instance
                              || (fault.Replied? && !Holds(keys.lease, server.now, lease.Value()))))
    {
      if closed {
        return Err(Closed);
      }
      if lease.instance != instance {
        return Err(ErrLeaseLost);
      }
      if fault.LostRequest? {
        return Err(ErrUnavailable);
      }
      var keys := server.Keys(lease.roomID);
      var holds := Present(keys.lease, server.now) && keys.lease.key.value.value == lease.Value();
      server.Write(lease.roomID, if holds then keys.(checkpoint := None) else keys);
      if fault.LostReply? {
        return Err(ErrUnavailable);
      }
      if !holds {
        return Err(ErrLeaseLost);
      }
      return Ok(());
    }
  }
}
