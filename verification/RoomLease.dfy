/** The Redis lease of one room: a value naming its holder, kept under a time to live, and the
    counter its fencing tokens are drawn from. Each script is one atomic step of Redis. */
module RoomLease {
  import opened Wrappers

  // Lease IDs are UUIDs; they are numbered in the order they are drawn.
  type LeaseID = nat

  datatype LeaseValue = LeaseValue(instance: string, lease: LeaseID, token: int)

  datatype LeaseKey = LeaseKey(value: LeaseValue, expiresAt: int)

  datatype LeaseState = LeaseState(key: Option<LeaseKey>, fence: nat)

  /** Redis treats an expired key as absent. */
  predicate Present(s: LeaseState, now: int) {
    s.key.Some? && now < s.key.value.expiresAt
  }

  predicate Holds(s: LeaseState, now: int, value: LeaseValue) {
    Present(s, now) && s.key.value.value == value
  }

  function Holder(s: LeaseState, now: int): Option<LeaseValue> {
    if Present(s, now) then Some(s.key.value.value) else None
  }

  /** Token 0 reports that another lease is present. */
  function AcquireScript(s: LeaseState, now: int, instance: string, lease: LeaseID, ttl: int): (r: (LeaseState, int)) {
    if Present(s, now) then
      (s, 0)
    else
      var token := s.fence + 1;
      (LeaseState(Some(LeaseKey(LeaseValue(instance, lease, token), now + ttl)), token), token)
  }

  function RenewScript(s: LeaseState, now: int, value: LeaseValue, ttl: int): (LeaseState, bool) {
    if Holds(s, now, value) then
      (s.(key := Some(LeaseKey(value, now + ttl))), true)
    else
      (s, false)
  }

  function ReleaseScript(s: LeaseState, now: int, value: LeaseValue): (LeaseState, bool) {
    if Holds(s, now, value) then (s.(key := None), true) else (s, false)
  }
}
