/** The rooms and activations one server instance keeps in memory, under the manager's mutex. It is
    why an instance never runs two activations of one room side by side. */
module RoomRegistry {
  import opened Wrappers

  // Activations are numbered in the order they begin; a room keeps its activation's number.
  type Token = nat

  datatype Answer =
    | RoomIDRequired
    | Stopped
    | Owned(token: Token)
    | TerminalRoom
    | LeaseLost(token: Token)
    | Wait(token: Token)
    | Begin(token: Token)

  class RoomManager {
    var closed: bool
    var rooms: map<string, Token>
    var activations: map<string, Token>

    ghost var issued: seq<string> // the room of each activation so far
    ghost var installed: set<Token>
    ghost var ended: set<Token> // failed before it installed its room, or its room was removed
    var next: Token

    constructor ()
      ensures Valid() && rooms == map[] && activations == map[] && !closed && issued == []
    {
      closed, rooms, activations, next := false, map[], map[], 0;
      issued, installed, ended := [], {}, {};
    }

    ghost predicate Valid()
      reads this
    {
      && next == |issued|
      && (forall t :: 0 <= t < |issued| ==> t in ended || Live(t))
      && (forall id :: id in rooms ==> rooms[id] < |issued| && issued[rooms[id]] == id && rooms[id] !in ended)
      && (forall id :: id in activations ==> activations[id] < |issued| && issued[activations[id]] == id)
      && (forall id :: id in activations && activations[id] !in installed ==> id !in rooms && activations[id] !in ended)
      && (forall id :: id in activations && id in rooms ==> rooms[id] == activations[id])
      && (forall t :: t in ended ==> t < |issued|)
      && (forall t :: t in installed ==> t < |issued| && (t in ended || (issued[t] in rooms && rooms[issued[t]] == t)))
    }

    /** The token is the one an entry of its room names. */
    ghost predicate Live(t: Token)
      requires t < |issued|
      reads this
    {
      (issued[t] in rooms && rooms[issued[t]] == t) || (issued[t] in activations && activations[issued[t]] == t)
    }

    /** The lookup of EnsureRoom. A new activation begins only when every earlier one of its room has
        ended, and then it is the only one. `terminal` and `leaseValid` describe the room found. */
    method EnsureRoom(roomID: string, terminal: bool, leaseValid: bool) returns (answer: Answer)
      requires Valid()
      modifies this
      ensures Valid() && closed == old(closed) && rooms == old(rooms) && installed == old(installed)
              && ended == old(ended)
      ensures answer.Begin? ==>
                && roomID != "" && !closed && issued == old(issued) + [roomID] && answer.token == |old(issued)|
                && activations == old(activations)[roomID := answer.token]
                && forall t :: 0 <= t < |old(issued)| && issued[t] == roomID ==> t in ended
      ensures !answer.Begin? ==> activations == old(activations) && issued == old(issued)
      ensures answer.Wait? ==> roomID in activations && activations[roomID] == answer.token
      ensures answer.Owned? || answer.LeaseLost? ==> roomID in rooms && rooms[roomID] == answer.token
      ensures answer.Begin? <==> roomID != "" && !closed && roomID !in rooms && roomID !in old(activations)
      ensures answer.RoomIDRequired? <==> roomID == ""
      ensures answer.Stopped? <==> roomID != "" && closed
      ensures answer.TerminalRoom? <==> roomID != "" && !closed && roomID in rooms && terminal
      ensures answer.Owned? <==> roomID != "" && !closed && roomID in rooms && !terminal && leaseValid
      ensures answer.LeaseLost? <==> roomID != "" && !closed && roomID in rooms && !terminal && !leaseValid
      ensures answer.Wait? <==> roomID != "" && !closed && roomID !in rooms && roomID in old(activations)
    {
      if roomID == "" {
        return RoomIDRequired;
      }
      if closed {
        return Stopped;
      }
      if roomID in rooms {
        if terminal {
          return TerminalRoom;
        }
        return if leaseValid then Owned(rooms[roomID]) else LeaseLost(rooms[roomID]);
      }
      if roomID in activations {
        return Wait(activations[roomID]);
      }
      var token := next;
      activations := activations[roomID := token];
      next := next + 1;
      issued := issued + [roomID];
      return Begin(token);
    }

    /** The end of startRoom: the room takes its place, which nobody else can have taken. */
    method Install(roomID: string, token: Token) returns (ok: bool, existing: bool)
      requires Valid() && roomID in activations && activations[roomID] == token && token !in installed
      modifies this
      ensures Valid() && closed == old(closed) && activations == old(activations) && issued == old(issued)
              && ended == old(ended)
      ensures !existing && ok == !closed
      ensures rooms == if ok then old(rooms)[roomID := token] else old(rooms)
      ensures installed == if ok then old(installed) + {token} else old(installed)
    {
      existing := roomID in rooms;
      ok := !closed && !existing;
      if ok {
        rooms := rooms[roomID := token];
        installed := installed + {token};
      }
    }

    /** The activation returns, with its room installed or its lease released. */
    method EndActivation(roomID: string, token: Token)
      requires Valid() && roomID in activations && activations[roomID] == token
      modifies this
      ensures Valid() && closed == old(closed) && rooms == old(rooms) && activations == old(activations) - {roomID}
              && issued == old(issued)
      ensures ended == if token in old(installed) then old(ended) else old(ended) + {token}
      ensures installed == old(installed)
    {
      if token !in installed {
        ended := ended + {token};
      }
      activations := activations - {roomID};
    }

    /** The room's loop has stopped it and released its lease. */
    method RemoveRoom(roomID: string, token: Token)
      requires Valid()
      modifies this
      ensures Valid() && closed == old(closed) && activations == old(activations) && issued == old(issued)
              && installed == old(installed)
      ensures if roomID in old(rooms) && old(rooms)[roomID] == token then rooms == old(rooms) - {roomID}
              && ended == old(ended) + {token}
              else rooms == old(rooms) && ended == old(ended)
    {
      if roomID in rooms && rooms[roomID] == token {
        rooms := rooms - {roomID};
        ended := ended + {token};
      }
    }

    method Close()
      requires Valid()
      modifies this`closed
      ensures Valid() && closed
    {
      closed := true;
    }
  }
}
