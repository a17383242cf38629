/** The lifecycle loop of one open room around the end of its match: the result is captured once,
    cancels wait for its commit, and everything else is turned away. */
module RoomCompletion {
  import opened Wrappers
  import opened GameDomain
  import opened RuntimeOwner

  /** A stream entry delivered to the room; the same entry may be delivered many times. */
  datatype Delivery = Delivery(entry: string, messageID: string, actorID: string, kind: string)

  const CANCEL := "gameSession.cancel"
  const CANCELLED_BY_USER := "cancelledByUser"

  predicate CancelledByUser(r: MatchResult) {
    r.status.MatchCancelled? && r.endReason == CANCELLED_BY_USER
  }

  predicate Identified(command: Command) {
    command.commandID != "" && command.actorID != ""
  }

  predicate Matches(d: Delivery, trigger: Command) {
    d.messageID == trigger.commandID && d.actorID == trigger.actorID && d.kind == trigger.commandType
  }

  predicate SameCommand(d: Delivery, other: Delivery) {
    d.messageID == other.messageID && d.actorID == other.actorID && d.kind == other.kind
  }

  function Entries(held: seq<Delivery>): set<string> {
    set d | d in held :: d.entry
  }

  /** What the runtime answers when asked for a result. */
  datatype Taken = Nothing | Proposed(result: MatchResult) | Broken

  /** How a session write ends: the state it leaves, what following that state did, and whether no
      failed publication ends the loop. A running session gets a runtime, or the result of a match
      nobody can resume. */
  datatype Writing =
    | Applied(state: SessionState, follows: Following, published: bool)
    | TryAgain
    | Rejected(leaseLost: bool)

  datatype Following = Fails | Follows | Starts | Abandons(result: MatchResult)

  /** How a deadline ends: players are excluded first, else the session advances, else its stored
      state is read back. Unreachable when the first or the last of these fails. */
  datatype DeadlineMet =
    | Unreachable
    | Excluded(state: SessionState, follows: Following, published: bool)
    | Advanced(state: SessionState, follows: Following, published: bool)
    | Reloaded(state: SessionState, follows: Following)

  /** A session that runs goes on running or ends, and one that ended stays so. */
  predicate MayBecome(from: SessionState, to: SessionState) {
    (from.Running? ==> to.Running? || IsTerminal(to)) && (IsTerminal(from) ==> to == from)
  }

  /** What the runtime makes of a cancellation whose trigger is stored. */
  datatype RuntimeAnswer = CancelAccepted | AlreadyFinished

  /** What a cancel meets on its way to the runtime. */
  datatype CancelPath = CancelPath(authorized: bool, retryable: bool, leaseValid: bool, fault: Fault,
      runtime: RuntimeAnswer)

  datatype CancelVerdict = Cancelling | Retry | Refuse

  datatype Commit = Committed | OwnerConflict | ResultConflict | Transient | Fatal

  /** What one attempt to commit meets, in order. */
  datatype Attempt = Attempt(leaseValid: bool, now: int, checkpointed: bool, commit: Commit, leaseAfter: bool,
      announced: bool)

  class RoomLoop {
    const ticks: bool // a tick game, which has a runtime; a turn game keeps its state in the session
    const ref: OwnerRef
    const digest: Digest
    const capacity: nat
    const budget: int

    var state: SessionState
    var running: bool // a runtime is installed
    var stopped: bool
    var ended: bool // the loop has returned
    var result: Option<MatchResult>
    var cancellations: seq<Delivery>
    var startedAt: Option<int>
    var trigger: Option<Command>

    // The durable owner record, which other processes write too.
    var record: Option<OwnerDoc>

    // Session commands applied; entries acknowledged; whether the result was committed; and the
    // entries acknowledged while they were held for a commit still to come.
    ghost var applied: nat
    ghost var acked: set<string>
    ghost var committed: bool
    ghost var lost: set<string>

    constructor (ticks: bool, ref: OwnerRef, digest: Digest, capacity: nat, budget: int, state: SessionState,
        record: Option<OwnerDoc>)
      ensures Valid() && result.None? && cancellations == [] && !running && !ended && !committed && lost == {}
      ensures trigger == if record.Some? then record.value.trigger else None
      ensures this.ref == ref && this.digest == digest && this.capacity == capacity && this.budget == budget
              && this.ticks == ticks && this.state == state && this.record == record
    {
      this.ticks, this.ref, this.digest, this.capacity, this.budget := ticks, ref, digest, capacity, budget;
      this.state, this.record := state, record;
      running, stopped, ended, result, cancellations, startedAt := false, false, false, None, [], None;
      trigger := if record.Some? then record.value.trigger else None;
      applied, acked, committed, lost := 0, {}, false, {};
    }

    /** The trigger this room knows is the stored one, and every held delivery carries it. */
    ghost predicate Valid()
      reads this
    {
      && (trigger.Some? ==> record.Some? && record.value.trigger == trigger)
      && (forall d :: d in cancellations ==> trigger.Some? && Matches(d, trigger.value))
      && (result.None? ==> forall d :: d in cancellations ==> d.kind == CANCEL)
      && (cancellations != [] && result.None? ==> running)
      && (!ended && (running || result.Some?) ==> state.Running?)
      && (committed ==> result.Some?)
      && (!ticks ==> !running && result.None?)
    }

    /** What no handler takes back: the result, and from then on the session; the trigger; the
        held deliveries; the commit. */
    twostate predicate Kept()
      reads this
    {
      && (old(result).Some? ==> result == old(result) && applied == old(applied) && state == old(state))
      && (old(trigger).Some? ==> trigger == old(trigger))
      && old(cancellations) <= cancellations
      && (old(committed) ==> committed)
    }

    predicate Held(d: Delivery)
      reads this
    {
      exists h :: h in cancellations && h.entry == d.entry
    }

    /** A stream entry has one envelope. */
    predicate Known(d: Delivery)
      reads this
    {
      forall h :: h in cancellations && h.entry == d.entry ==> h == d
    }

    /** Another process writes the owner record; a stored trigger is never replaced. */
    method WriteElsewhere(doc: Option<OwnerDoc>)
      requires Valid()
      requires record.Some? && record.value.trigger.Some? ==> doc.Some? && doc.value.trigger == record.value.trigger
      modifies this`record
      ensures Valid() && Kept() && record == doc
    {
      record := doc;
    }

    method CaptureResult(taken: Taken, now: int)
      requires Valid()
      modifies this`result, this`startedAt, this`stopped
      ensures Valid() && Kept()
      ensures result == if old(result).None? && running && taken.Proposed? then Some(taken.result) else old(result)
      ensures startedAt == if old(result).None? && running && taken.Proposed? then Some(now) else old(startedAt)
      ensures stopped == (old(stopped) || (old(result).None? && running && taken.Broken?))
    {
      if result.Some? || !running {
        return;
      }
      match taken {
        case Broken => stopped := true;
        case Proposed(r) =>
          result := Some(r);
          startedAt := Some(now);
        case Nothing =>
      }
    }

    method Ack(d: Delivery)
      modifies this`acked, this`lost
      ensures acked == old(acked) + {d.entry}
      ensures lost == if Held(d) && !committed then old(lost) + {d.entry} else old(lost)
    {
      acked := acked + {d.entry};
      if Held(d) && !committed {
        lost := lost + {d.entry};
      }
    }

    /** Whether a delivery retries the cancel that a captured result may come from. */
    predicate Retries(d: Delivery)
      reads this
    {
      || (trigger.Some? && Matches(d, trigger.value))
      || (cancellations != [] && SameCommand(d, cancellations[0]))
    }

    /** A retried cancel joins the held ones while there is room; any other command is rejected. */
    method HoldDuringFinalization(d: Delivery)
      requires Valid() && result.Some? && Known(d)
      modifies this`cancellations, this`acked, this`lost
      ensures Valid() && Kept() && lost == old(lost)
      ensures cancellations == if old(Retries(d)) && |old(cancellations)| < capacity then old(cancellations) + [d]
              else old(cancellations)
      ensures acked == if old(Retries(d)) then old(acked) else old(acked) + {d.entry}
      ensures trigger.Some? && Identified(trigger.value) ==>
                (Misnames() <==>
                  old(Misnames())
                  || (!CancelledByUser(result.value) && Matches(d, trigger.value) && capacity > 0))
      ensures trigger.None? ==> !Misnames()
    {
      if trigger.Some? && Identified(trigger.value) {
        MisnamesIff();
      }
      assert cancellations != [] ==> cancellations[0] in cancellations;
      var held := |cancellations| < capacity;
      if trigger.Some? && Matches(d, trigger.value) {
        if held {
          cancellations := cancellations + [d];
        }
      } else if cancellations != [] && SameCommand(d, cancellations[0]) {
        if held {
          cancellations := cancellations + [d];
        }
      } else {
        Ack(d);
      }
      if trigger.Some? && Identified(trigger.value) {
        MisnamesIff();
      }
    }

    /** The user may not cancel, or the runtime had finished by itself once the trigger was stored. */
    predicate Refuses(d: Delivery, path: CancelPath)
      reads this
    {
      if path.authorized then
        && path.leaseValid && running && path.fault.Replied?
        && TriggerUpdate(record, ref, Descriptor(d)).1 && path.runtime.AlreadyFinished?
      else
        !path.retryable
    }

    /** The trigger is stored and the runtime takes the cancellation. */
    predicate Accepts(d: Delivery, path: CancelPath)
      reads this
    {
      && path.authorized && path.leaseValid && running && path.fault.Replied?
      && TriggerUpdate(record, ref, Descriptor(d)).1 && path.runtime.CancelAccepted?
    }

    /** Store the trigger, then cancel the runtime. The trigger stays stored even when the runtime
        had already finished. */
    method RequestMatchCancellation(d: Delivery, path: CancelPath) returns (v: CancelVerdict)
      requires Valid()
      modifies this`record, this`trigger
      ensures Valid() && Kept()
      ensures v.Cancelling? ==> running && trigger.Some? && Matches(d, trigger.value)
      ensures v.Refuse? <==> old(Refuses(d, path))
      ensures v.Cancelling? <==> old(Accepts(d, path))
      ensures record == if path.authorized && path.leaseValid && running && !path.fault.LostRequest?
              then TriggerUpdate(old(record), ref, Descriptor(d)).0 else old(record)
      ensures trigger == if path.authorized && path.leaseValid && running && path.fault.Replied?
              && TriggerUpdate(old(record), ref, Descriptor(d)).1
                         then Some(Descriptor(d)) else old(trigger)
    {
      if !path.authorized {
        return if path.retryable then Retry else Refuse;
      }
      if !path.leaseValid {
        return Retry;
      }
      if !running {
        return Retry;
      }
      var command := Descriptor(d);
      var update := TriggerUpdate(record, ref, command);
      if update.1 && !path.fault.LostRequest? {
        record := update.0;
      }
      if !update.1 || !path.fault.Replied? {
        return Retry;
      }
      trigger := Some(command);
      return if path.runtime.AlreadyFinished? then Refuse else Cancelling;
    }

    function Descriptor(d: Delivery): Command {
      Command(d.messageID, d.actorID, d.kind, digest)
    }

    /** An authorized cancel is held until its result commits; a refused one is acknowledged. */
    method CancelRunningMatch(d: Delivery, path: CancelPath, taken: Taken, now: int)
      requires Valid() && Known(d) && result.None? && d.kind == CANCEL
      modifies this`record, this`trigger, this`cancellations, this`result, this`startedAt, this`stopped, this`acked,
          this`lost
      ensures Valid() && Kept()
      ensures cancellations == if old(Accepts(d, path)) then old(cancellations) + [d] else old(cancellations)
      ensures result == if old(Accepts(d, path)) && taken.Proposed? then Some(taken.result) else None
      ensures acked == if old(Refuses(d, path)) then old(acked) + {d.entry} else old(acked)
      ensures trigger == if old(Accepts(d, path) || (path.authorized && Refuses(d, path))) then Some(Descriptor(d))
              else old(trigger)
      ensures record == if path.authorized && path.leaseValid && running && !path.fault.LostRequest?
              then TriggerUpdate(old(record), ref, Descriptor(d)).0 else old(record)
      ensures lost == if old(Held(d)) && !committed && old(Refuses(d, path)) then old(lost) + {d.entry} else old(lost)
    {
      var v := RequestMatchCancellation(d, path);
      match v {
        case Refuse => Ack(d);
        case Retry =>
        case Cancelling =>
          cancellations := cancellations + [d];
          CaptureResult(taken, now);
      }
    }

    /** The runtime follows a session state: a running session without one gets it, or is abandoned. */
    method Follow(follows: Following) returns (ok: bool)
      requires result.None?
      modifies this`running, this`result
      ensures ok == !follows.Fails?
      ensures running == (old(running) || (ticks && state.Running? && follows.Starts?))
      ensures result == if ticks && state.Running? && !old(running) && follows.Abandons? then Some(follows.result)
              else None
    {
      if follows.Fails? {
        return false;
      }
      if ticks && state.Running? && !running {
        running := follows.Starts?;
        if follows.Abandons? {
          result := Some(follows.result);
        }
      }
      return true;
    }

    /** The first state of the opened room, whose session may be running already. */
    method Open(follows: Following)
      requires Valid() && !ended && result.None? && !running
      modifies this`running, this`result, this`ended
      ensures Valid() && ended == follows.Fails?
      ensures running == (ticks && state.Running? && follows.Starts?)
      ensures result == if ticks && state.Running? && follows.Abandons? then Some(follows.result) else None
    {
      var ok := Follow(follows);
      ended := !ok;
    }

    /** Make a newer session state current, and follow it with the runtime. */
    method Apply(next: SessionState, follows: Following, last: bool) returns (ok: bool)
      requires Valid() && !ended && MayBecome(state, next) && result.None?
      requires running && IsTerminal(next) ==> last
      modifies this`state, this`running, this`result, this`applied, this`ended
      ensures Valid() && applied == old(applied) + 1 && state == next
      ensures ok == !follows.Fails? && ended == (!ok || last)
      ensures running == (old(running) || (ticks && next.Running? && follows.Starts?))
      ensures result == if ticks && next.Running? && !old(running) && follows.Abandons? then Some(follows.result)
              else None
    {
      applied := applied + 1;
      state := next;
      ok := Follow(follows);
      ended := !ok || last;
    }

    /** A cancel of a running match goes to its runtime, any other command to the session. */
    predicate CancelsMatch(d: Delivery)
      reads this
    {
      ticks && state.Running? && d.kind == CANCEL
    }

    /** A command is acknowledged once it was applied and followed, or refused for good. */
    static predicate Answers(writing: Writing) {
      match writing
      case TryAgain => false
      case Rejected(leaseLost) => !leaseLost
      case Applied(_, follows, _) => !follows.Fails?
    }

    /** What a session write does to the room: an applied one is made current and followed. */
    twostate predicate Written(writing: Writing)
      reads this
    {
      match writing
      case Applied(next, follows, _) =>
        && applied == old(applied) + 1 && state == next
        && running == (old(running) || (ticks && next.Running? && follows.Starts?))
        && result == if ticks && next.Running? && !old(running) && follows.Abandons? then Some(follows.result) else None
      case _ =>
        unchanged(`applied, `state, `running, `result)
    }

    /** A command of the session: written, followed and announced before it is acknowledged. */
    method Process(d: Delivery, writing: Writing)
      requires Valid() && Known(d) && !ended && result.None? && !CancelsMatch(d)
      requires writing.Applied? ==> MayBecome(state, writing.state)
      modifies this`state, this`running, this`result, this`applied, this`ended, this`acked, this`lost
      ensures Valid() && lost == old(lost) && Written(writing)
      ensures ended == match writing
                       case TryAgain => false
                       case Rejected(leaseLost) => leaseLost
                       case Applied(next, follows, published) => follows.Fails? || IsTerminal(next) || !published
      ensures acked == if Answers(writing) then old(acked) + {d.entry} else old(acked)
    {
      match writing {
        case TryAgain =>
        case Rejected(leaseLost) =>
          if leaseLost {
            ended := true;
          } else {
            Ack(d);
          }
        case Applied(next, follows, published) =>
          var ok := Apply(next, follows, IsTerminal(next) || !published);
          if ok {
            Ack(d);
          }
      }
    }

    /** A delivery while nothing is captured: the cancel of a match, or a command of the session. */
    method HandleUncaptured(d: Delivery, writing: Writing, path: CancelPath, takenAfter: Taken, now: int)
      requires Valid() && Known(d) && !ended && result.None?
      requires writing.Applied? ==> MayBecome(state, writing.state)
      modifies this
      ensures Valid() && Kept()
      ensures if old(CancelsMatch(d)) then
                && cancellations == (if old(Accepts(d, path)) then old(cancellations) + [d] else old(cancellations))
                && result == (if old(Accepts(d, path)) && takenAfter.Proposed? then Some(takenAfter.result) else None)
                && acked == (if old(Refuses(d, path)) then old(acked) + {d.entry} else old(acked))
                && trigger == (if old(Accepts(d, path) || (path.authorized && Refuses(d, path)))
                               then Some(Descriptor(d)) else old(trigger))
                && lost == (if old(Held(d) && Refuses(d, path)) then old(lost) + {d.entry} else old(lost))
                && unchanged(`state, `running, `ended, `committed, `applied)
              else
                && Written(writing)
                && acked == (if Answers(writing) then old(acked) + {d.entry} else old(acked))
                && unchanged(`lost, `committed, `trigger, `cancellations)
                && ended == (match writing
                             case TryAgain => false
                             case Rejected(leaseLost) => leaseLost
                             case Applied(next, follows, published) => follows.Fails? || IsTerminal(next) || !published)
    {
      if CancelsMatch(d) {
        CancelRunningMatch(d, path, takenAfter, now);
      } else {
        Process(d, writing);
      }
    }

    /** One delivery: capture first; then hold, cancel, or apply the command and acknowledge it. */
    method HandleDelivery(d: Delivery, taken: Taken, writing: Writing, path: CancelPath, takenAfter: Taken, now: int)
      requires Valid() && Known(d) && !ended
      requires writing.Applied? ==> MayBecome(state, writing.state)
      modifies this
      ensures Valid() && Kept()
      ensures if old(result).Some? || (old(running) && taken.Proposed?) then
                && result == (if old(result).Some? then old(result) else Some(taken.result))
                && cancellations == (if old(Retries(d)) && |old(cancellations)| < capacity then old(cancellations) + [d]
                                     else old(cancellations))
                && acked == (if old(Retries(d)) then old(acked) else old(acked) + {d.entry})
                && unchanged(`trigger, `ended, `committed, `applied, `lost)
              else if old(CancelsMatch(d)) then
                && cancellations == (if old(Accepts(d, path)) then old(cancellations) + [d] else old(cancellations))
                && result == (if old(Accepts(d, path)) && takenAfter.Proposed? then Some(takenAfter.result) else None)
                && acked == (if old(Refuses(d, path)) then old(acked) + {d.entry} else old(acked))
                && trigger == (if old(Accepts(d, path) || (path.authorized && Refuses(d, path)))
                               then Some(Descriptor(d)) else old(trigger))
                && lost == (if old(Held(d) && Refuses(d, path)) then old(lost) + {d.entry} else old(lost))
                && unchanged(`state, `running, `ended, `committed, `applied)
              else
                && Written(writing)
                && acked == (if Answers(writing) then old(acked) + {d.entry} else old(acked))
                && unchanged(`lost, `committed, `trigger, `cancellations)
                && ended == (match writing
                             case TryAgain => false
                             case Rejected(leaseLost) => leaseLost
                             case Applied(next, follows, published) => follows.Fails? || IsTerminal(next) || !published)
    {
      CaptureResult(taken, now);
      assert Retries(d) == old(Retries(d)) && Refuses(d, path) == old(Refuses(d, path));
      assert Accepts(d, path) == old(Accepts(d, path)) && Held(d) == old(Held(d));
      if result.Some? {
        HoldDuringFinalization(d);
        return;
      }
      HandleUncaptured(d, writing, path, takenAfter, now);
    }

    /** Reconciliation leaves a finished match alone. */
    method Reconcile(taken: Taken, writing: Writing, now: int)
      requires Valid() && !ended
      requires writing.Applied? ==> MayBecome(state, writing.state)
      modifies this
      ensures Valid() && Kept() && lost == old(lost) && acked == old(acked) && cancellations == old(cancellations)
      ensures IsTerminal(state) ==> ended
      ensures if old(result).Some? || (old(running) && taken.Proposed?) then
                && result == (if old(result).Some? then old(result) else Some(taken.result))
                && unchanged(`applied, `state, `running, `ended)
              else
                && Written(writing)
                && ended == match writing
                            case Applied(next, follows, published) => follows.Fails? || IsTerminal(next) || !published
                            case _ => true
      ensures stopped == (old(stopped) || (old(result).None? && old(running) && taken.Broken?)
                          || (old(result).None? && !(old(running) && taken.Proposed?) && !writing.Applied?))
    {
      CaptureResult(taken, now);
      if result.Some? {
        return;
      }
      if !writing.Applied? {
        stopped := true;
        ended := true;
        return;
      }
      var _ := Apply(writing.state, writing.follows, IsTerminal(writing.state) || !writing.published);
    }

    /** What the handler of a deadline makes of what it meets: whether the loop ends. */
    static predicate Ends(met: DeadlineMet) {
      match met
      case Unreachable => true
      case Excluded(next, follows, published) => follows.Fails? || !published || next.Cancelled?
      case Advanced(next, follows, published) => follows.Fails? || !published || IsTerminal(next)
      case Reloaded(_, follows) => follows.Fails?
    }

    /** `due` says whether the session records the time of the deadline its state has: a session
        that has not started, or the running session of a turn game. */
    predicate HasDeadline(due: bool)
      reads this
    {
      due && (state.ReadyWindow? || state.Countdown? || (state.Running? && !ticks))
    }

    /** A captured result never meets a deadline: only a tick game has one, and its session runs. The
        loop outlives a terminal session only when a failed advance finds one stored, or when the
        exclusion of players finished it; the next reconciliation ends it. */
    method HandleDeadline(due: bool, met: DeadlineMet)
      requires Valid() && !ended
      requires !met.Unreachable? ==> MayBecome(state, met.state)
      modifies this
      ensures Valid() && Kept() && lost == old(lost) && acked == old(acked) && cancellations == old(cancellations)
      ensures !old(HasDeadline(due)) || old(result).Some? ==> unchanged(this)
      ensures old(HasDeadline(due)) ==>
                && ended == Ends(met)
                && state == (if met.Unreachable? then old(state) else met.state)
                && (!ended && IsTerminal(state) ==> met.Reloaded? || (met.Excluded? && state.Finished?))
                && Written(if met.Unreachable? then TryAgain else Applied(met.state, met.follows, true))
    {
      if !HasDeadline(due) {
        return;
      }
      match met {
        case Unreachable => ended := true;
        case Excluded(next, follows, published) =>
          var _ := Apply(next, follows, next.Cancelled? || !published);
        case Advanced(next, follows, published) =>
          var _ := Apply(next, follows, IsTerminal(next) || !published);
        case Reloaded(next, follows) =>
          var _ := Apply(next, follows, false);
      }
    }

    /** The command named to the commit: a held cancel, else the trigger of a cancelled match. */
    function CancellationCommand(): (string, string)
      requires result.Some?
      reads this
    {
      if cancellations != [] then (cancellations[0].messageID, cancellations[0].actorID)
      else if trigger.Some? && result.value.endReason == CANCELLED_BY_USER then
        (trigger.value.commandID, trigger.value.actorID)
      else ("", "")
    }

    /** The commit refuses a command named for a result that no user cancelled, or named in half. */
    predicate Misnames()
      reads this
    {
      && result.Some?
      && var name := CancellationCommand();
         name != ("", "") && (name.0 == "" || name.1 == "" || !CancelledByUser(result.value))
    }

    /** With a proper trigger that is when a cancel is held for such a result, or when the result gives
        the user's reason without being cancelled. */
    lemma MisnamesIff()
      requires Valid() && result.Some? && (trigger.Some? ==> Identified(trigger.value))
      ensures Misnames() <==> !CancelledByUser(result.value)
                              && (cancellations != [] || (trigger.Some? && result.value.endReason == CANCELLED_BY_USER))
    {
      if cancellations != [] { assert cancellations[0] in cancellations; }
    }

    /** And it stays so: from then on no attempt of this room commits. */
    twostate lemma MisnamedForGood(a: Attempt)
      requires old(Valid()) && Valid() && Kept() && old(result.Some?) && old(cancellations) != []
      requires old(trigger).Some? && Identified(old(trigger).value) && !CancelledByUser(old(result).value)
      ensures Misnames() && !Commits(a)
    {
      assert cancellations[0] == old(cancellations)[0];
      MisnamesIff();
    }

    /** Whoever is named is the author of the stored trigger: for every result that a user cancelled,
        and as long as a cancel is held. Otherwise nobody is named. */
    lemma NamedIsStored()
      requires Valid() && result.Some?
      ensures cancellations != [] || (trigger.Some? && result.value.endReason == CANCELLED_BY_USER) ==>
                && record.Some? && record.value.trigger == trigger && trigger.Some?
                && CancellationCommand() == (trigger.value.commandID, trigger.value.actorID)
      ensures cancellations == [] && (trigger.None? || result.value.endReason != CANCELLED_BY_USER) ==>
                CancellationCommand() == ("", "")
      ensures CancelledByUser(result.value) && trigger.Some? ==>
                CancellationCommand() == (trigger.value.commandID, trigger.value.actorID)
    {
      if cancellations != [] { assert cancellations[0] in cancellations; }
    }

    /** What an attempt meets: the name is checked before the transaction, and its refusal counts as
        one that may pass. */
    function Met(a: Attempt): Commit
      reads this
    {
      if Misnames() && !a.commit.Fatal? then Transient else a.commit
    }

    /** Whether an attempt commits. */
    predicate Commits(a: Attempt)
      reads this
    {
      a.leaseValid && a.checkpointed && Met(a).Committed? && InBudget(a)
    }

    predicate InBudget(a: Attempt)
      reads this
    {
      a.now - (if startedAt.Some? then startedAt.value else a.now) <= budget
    }

    method AcknowledgeHeld()
      requires committed
      modifies this`acked, this`lost
      ensures lost == old(lost)
      ensures acked == old(acked) + Entries(cancellations)
    {
      for i := 0 to |cancellations|
        invariant lost == old(lost)
        invariant acked == old(acked) + Entries(cancellations[..i])
      {
        assert cancellations[..i + 1] == cancellations[..i] + [cancellations[i]];
        Ack(cancellations[i]);
      }
      assert cancellations[..|cancellations|] == cancellations;
    }

    /** One attempt to commit the captured result. Held cancels are acknowledged only after it
        succeeded; a transient failure leaves everything for the next attempt. */
    method CompleteMatch(a: Attempt) returns (done: bool)
      requires Valid() && !ended && result.Some?
      modifies this`startedAt, this`committed, this`acked, this`lost, this`ended
      ensures Valid() && Kept()
      ensures committed == (old(committed) || old(Commits(a)))
      ensures acked == if old(Commits(a)) then old(acked) + Entries(cancellations) else old(acked)
      ensures startedAt == (if old(startedAt).None? && a.leaseValid then Some(a.now) else old(startedAt))
      ensures ended == done && lost == old(lost)
      ensures !done <==> if old(Commits(a)) then a.leaseAfter && !a.announced
                         else a.leaseValid && a.checkpointed && old(Met(a)).Transient? && old(InBudget(a))
    {
      done := true;
      ended := true;
      if !a.leaseValid {
        return;
      }
      if startedAt.None? {
        startedAt := Some(a.now);
      }
      if a.now - startedAt.value > budget || !a.checkpointed {
        return;
      }
      var commit := Met(a);
      if !commit.Committed? {
        done := !commit.Transient?;
        ended := done;
        return;
      }
      committed := true;
      AcknowledgeHeld();
      done := !a.leaseAfter || a.announced;
      ended := done;
    }
  }

  /** A held cancel really can be lost: it is held, delivered again, and then refused for good. */
  method HeldCancelIsLost(record: OwnerDoc, ref: OwnerRef, digest: Digest, capacity: nat, budget: int, d: Delivery,
      now: int)
    returns (room: RoomLoop)
    requires d.kind == CANCEL && Names(ref, Some(record)) && record.started && !record.completed && record.trigger.None?
    ensures fresh(room) && room.Valid() && !room.ended
    ensures room.cancellations == [d] && d.entry in room.lost && !room.committed && room.result.None?
  {
    room := new RoomLoop(true, ref, digest, capacity, budget, Running, Some(record));
    room.Open(Starts);
    var accepted := CancelPath(true, false, true, Replied, CancelAccepted);
    assert room.Accepts(d, accepted);
    room.HandleDelivery(d, Nothing, TryAgain, accepted, Nothing, now);
    assert room.cancellations[0] == d && room.Held(d);
    room.HandleDelivery(d, Nothing, TryAgain, accepted.(authorized := false), Nothing, now);
  }

  /** A cancel refused because the runtime had already finished leaves its trigger. Delivered once more
      it is held for the result the runtime proposes, and no attempt of this room commits that. */
  method RefusedCancelBlocksCommit(record: OwnerDoc, ref: OwnerRef, digest: Digest, capacity: nat, budget: int,
      d: Delivery, r: MatchResult, now: int)
    returns (room: RoomLoop)
    requires d.kind == CANCEL && d.messageID != "" && d.actorID != "" && capacity > 0 && !CancelledByUser(r)
    requires Names(ref, Some(record)) && record.started && !record.completed && record.trigger.None?
    ensures fresh(room) && room.Valid() && !room.ended && room.result == Some(r)
    ensures room.cancellations == [d] && d.entry in room.acked && room.Misnames()
    ensures forall a :: !room.Commits(a)
  {
    room := new RoomLoop(true, ref, digest, capacity, budget, Running, Some(record));
    room.Open(Starts);
    var finished := CancelPath(true, false, true, Replied, AlreadyFinished);
    assert room.Refuses(d, finished);
    room.HandleDelivery(d, Nothing, TryAgain, finished, Nothing, now);
    room.HandleDelivery(d, Proposed(r), TryAgain, finished, Nothing, now);
    assert room.cancellations[0] == d;
    room.MisnamesIff();
  }
}
