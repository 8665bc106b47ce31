/** The limiter as the object the source runs (apps/ssh-terminator/src/limits.ts:32-85). */
module LimitsObject {
  import opened Wrappers
  import opened Spec = Limits

  class ConnectionLimits {
    var byIp: map<Ip, IpState>
    var liveTotal: int
    /** The release handles given out, in order. */
    var handles: seq<Handle>
    const options: Options

    ghost function State(): Limits
      reads this
    {
      Limits(byIp, liveTotal, handles)
    }

    constructor (options: Options)
      ensures State() == NoConnections && this.options == options
    {
      this.options := options;
      byIp, liveTotal, handles := map[], 0, [];
    }

    /** Drop the addresses that hold no connection and whose bucket is full. */
    method Prune(at: real)
      modifies this`byIp
      ensures byIp == Pruned(options, old(byIp), at)
    {
      hide Refill, Idle;
      var todo := byIp.Keys;
      while todo != {}
        invariant todo <= old(byIp).Keys
        invariant forall ip :: ip in todo ==> ip in byIp && byIp[ip] == old(byIp)[ip]
        invariant forall ip :: ip in byIp && ip !in todo ==>
                    && ip in old(byIp)
                    && byIp[ip] == Refill(options, old(byIp)[ip], at)
                    && !Idle(options, byIp[ip])
        invariant forall ip :: ip in old(byIp) && ip !in byIp ==> Idle(options, Refill(options, old(byIp)[ip], at))
        decreases todo
      {
        var ip :| ip in todo;
        todo := todo - {ip};
        var state := Refill(options, byIp[ip], at);
        if Idle(options, state) {
          byIp := byIp - {ip};
        } else {
          byIp := byIp[ip := state];
        }
      }
      assert byIp.Keys == Pruned(options, old(byIp), at).Keys;
    }

    /** The address's bucket, refilled; added to the map when missing. */
    method LookUp(ip: Ip, at: real) returns (state: IpState)
      modifies this`byIp
      ensures byIp == LookedUp(options, true, old(byIp), ip, at)
      ensures ip in byIp && state == byIp[ip]
    {
      hide Refill, Pruned, Capacity;
      if |byIp| > PRUNE_PAST { Prune(at); }
      if ip !in byIp { byIp := byIp[ip := IpState(0, Capacity(options), at)]; }
      state := Refill(options, byIp[ip], at);
      byIp := byIp[ip := state];
    }

    /** Let a connection in, with the number of its release handle, or refuse it. */
    method Admit(ip: Ip, at: real) returns (handle: Option<nat>)
      modifies this
      ensures State() == Spec.Admit(options, true, old(State()), ip, at)
      ensures handle.Some? <==> Admits(options, true, old(State()), ip, at)
      ensures handle.Some? ==> handle.value == |old(handles)| < |handles| && handles[handle.value] == Handle(ip, at, false)
    {
      hide LookedUp;
      if liveTotal >= options.maxSessions { return None; }
      var state := LookUp(ip, at);
      if state.live >= options.maxSessionsPerIp { return None; }
      if state.tokens < 1.0 { return None; }
      byIp := byIp[ip := state.(tokens := state.tokens - 1.0, live := state.live + 1)];
      liveTotal := liveTotal + 1;
      handles := handles + [Handle(ip, at, false)];
      return Some(|handles| - 1);
    }

    /** A connection closed; closing it again changes nothing. */
    method Release(handle: nat)
      requires handle < |handles|
      modifies this
      ensures State() == Spec.Release(old(State()), handle)
    {
      if handles[handle].released { return; }
      var ip := handles[handle].ip;
      handles := handles[handle := handles[handle].(released := true)];
      liveTotal := liveTotal - 1;
      if ip in byIp { byIp := byIp[ip := byIp[ip].(live := byIp[ip].live - 1)]; }
    }
  }
}
