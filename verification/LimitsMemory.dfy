/** What the limiter remembers: once its map is large, only addresses that are
    connected or were let in during the last minute (apps/ssh-terminator/src/limits.ts:49-57). */
module LimitsMemory {
  import opened Limits

  lemma {:induction false} AdmittedSplit(handles: seq<Handle>, ip: Ip, s: real, u: real, t: real)
    ensures AdmittedIn(handles, ip, s, t) <= AdmittedIn(handles, ip, s, u) + AdmittedIn(handles, ip, u, t)
  {
    if handles != [] { AdmittedSplit(handles[..|handles| - 1], ip, s, u, t); }
  }

  lemma {:induction false} AdmittedFewer(handles: seq<Handle>, ip: Ip, s: real, u: real, t: real)
    requires s <= u
    ensures AdmittedIn(handles, ip, u, t) <= AdmittedIn(handles, ip, s, t)
  {
    if handles != [] { AdmittedFewer(handles[..|handles| - 1], ip, s, u, t); }
  }

  lemma MinuteFills(o: Options, s: real, now: real)
    ensures Capacity(o) * (1.0 + (now - MINUTE - s) / MINUTE) == (now - s) * PerMs(o)
  {
    var c := Capacity(o);
    assert 1.0 + (now - MINUTE - s) / MINUTE == (now - s) / MINUTE;
    assert (now - s) * (c / MINUTE) == c * ((now - s) / MINUTE);
  }

  /** An address nobody let in for a minute has a full bucket. */
  lemma FullAfterAMinute(o: Options, prunes: bool, ops: seq<Op>, ip: Ip, now: real)
    requires Clocked(ops) && UpTo(ops, now)
    requires AdmittedIn(Run(o, prunes, ops).handles, ip, now - 60000.0, now) == 0
    ensures Level(o, Run(o, prunes, ops).byIp, ip, now) >= Capacity(o)
  {
    hide Run, Level, PerMs, Capacity, AdmittedIn, Clocked, UpTo;
    var handles := Run(o, prunes, ops).handles;
    var s := RunSpent(o, prunes, ops, ip, now, now);
    var admitted := AdmittedIn(handles, ip, s, now);
    RateNotNegative(o);
    if now - MINUTE <= s {
      AdmittedFewer(handles, ip, now - MINUTE, s, now);
      Product(now - s, PerMs(o));
    } else {
      AdmittedSplit(handles, ip, s, now - MINUTE, now);
      RateBound(o, prunes, ops, ip, s, now - MINUTE);
      MinuteFills(o, s, now);
    }
  }

  lemma StaysInMap(o: Options, l: Limits, ip: Ip, at: real, x: Ip)
    requires l.liveTotal < o.maxSessions && |l.byIp| > 4096
    requires x != ip && x in Admit(o, true, l, ip, at).byIp
    ensures x in l.byIp && !(l.byIp[x].live == 0 && Level(o, l.byIp, x, at) >= Capacity(o))
  {
    hide PerMs, Capacity;
    HasIp(o, true, l.byIp, ip, at);
  }

  /** So a scan from many addresses leaves little behind: after a call that found more
      than 4096 addresses in the map and was not turned away by the ceiling on all
      connections, every address left but the caller's has a live connection or was
      let in during the last minute. */
  lemma OnlyBusyStay(o: Options, ops: seq<Op>, ip: Ip, at: real, x: Ip)
    requires Clocked(ops) && UpTo(ops, at)
    requires Live(Run(o, true, ops).handles) < o.maxSessions && |Run(o, true, ops).byIp| > 4096
    requires x != ip && x in Admit(o, true, Run(o, true, ops), ip, at).byIp
    ensures LiveOf(Run(o, true, ops).handles, x) > 0 || AdmittedIn(Run(o, true, ops).handles, x, at - 60000.0, at) > 0
  {
    hide Run, Admit, Level, Capacity, AdmittedIn, Live, LiveOf;
    var l := Run(o, true, ops);
    ConnectionsCounted(o, true, ops);
    StaysInMap(o, l, ip, at, x);
    assert LiveIn(l, x) == LiveOf(l.handles, x);
    if AdmittedIn(l.handles, x, at - 60000.0, at) == 0 { FullAfterAMinute(o, true, ops, x, at); }
  }
}
