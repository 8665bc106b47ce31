/** The pre-auth connection limiter (apps/ssh-terminator/src/limits.ts): a ceiling
    on live connections, one per address, and a token bucket per address that is
    refilled when looked at. */
module Limits {

  type Ip = string

  datatype Options = Options(maxSessions: nat, maxSessionsPerIp: nat, preauthPerIpPerMinute: nat)

  datatype IpState = IpState(live: int, tokens: real, refilledAt: real)

  /** A connection let in; its release handle flips `released`. */
  datatype Handle = Handle(ip: Ip, at: real, released: bool)

  datatype Limits = Limits(byIp: map<Ip, IpState>, liveTotal: int, handles: seq<Handle>)

  const PRUNE_PAST := 4096
  const MINUTE := 60000.0

  const NoConnections := Limits(map[], 0, [])

  // ---------------------------------------------------------------- steps

  function Capacity(o: Options): real {
    o.preauthPerIpPerMinute as real
  }

  function PerMs(o: Options): real {
    Capacity(o) / MINUTE
  }

  function Least(a: real, b: real): real {
    if a <= b then a else b
  }

  function Refill(o: Options, s: IpState, at: real): IpState {
    s.(tokens := Least(Capacity(o), s.tokens + (at - s.refilledAt) * PerMs(o)), refilledAt := at)
  }

  predicate Idle(o: Options, s: IpState) {
    s.live == 0 && s.tokens >= Capacity(o)
  }

  function Pruned(o: Options, byIp: map<Ip, IpState>, at: real): map<Ip, IpState> {
    map ip | ip in byIp && !Idle(o, Refill(o, byIp[ip], at)) :: Refill(o, byIp[ip], at)
  }

  /** The map once an address has been looked up: pruned when `prunes` and large,
      the address added when missing, and its bucket refilled. */
  function LookedUp(o: Options, prunes: bool, byIp: map<Ip, IpState>, ip: Ip, at: real): map<Ip, IpState> {
    var kept := if prunes && |byIp| > PRUNE_PAST then Pruned(o, byIp, at) else byIp;
    var state := if ip in kept then kept[ip] else IpState(0, Capacity(o), at);
    kept[ip := Refill(o, state, at)]
  }

  /** Whether a looked-up address may connect. */
  predicate MayConnect(o: Options, s: IpState) {
    s.live < o.maxSessionsPerIp && s.tokens >= 1.0
  }

  predicate Admits(o: Options, prunes: bool, l: Limits, ip: Ip, at: real) {
    l.liveTotal < o.maxSessions && MayConnect(o, LookedUp(o, prunes, l.byIp, ip, at)[ip])
  }

  function Connected(l: Limits, ip: Ip, at: real): Limits
    requires ip in l.byIp
  {
    var s := l.byIp[ip];
    l.(byIp := l.byIp[ip := s.(tokens := s.tokens - 1.0, live := s.live + 1)],
       liveTotal := l.liveTotal + 1,
       handles := l.handles + [Handle(ip, at, false)])
  }

  function Admit(o: Options, prunes: bool, l: Limits, ip: Ip, at: real): Limits {
    if l.liveTotal >= o.maxSessions then l
    else
      var m := l.(byIp := LookedUp(o, prunes, l.byIp, ip, at));
      if MayConnect(o, m.byIp[ip]) then Connected(m, ip, at) else m
  }

  /** Calling a release handle; one that was never given out cannot be called. */
  function Release(l: Limits, h: nat): Limits {
    if h >= |l.handles| || l.handles[h].released then l
    else
      var ip := l.handles[h].ip;
      l.(handles := l.handles[h := l.handles[h].(released := true)],
         liveTotal := l.liveTotal - 1,
         byIp := if ip in l.byIp then l.byIp[ip := l.byIp[ip].(live := l.byIp[ip].live - 1)] else l.byIp)
  }

  datatype Op = Connects(ip: Ip, at: real) | Releases(handle: nat)

  function Step(o: Options, prunes: bool, l: Limits, op: Op): Limits {
    match op
    case Connects(ip, at) => Admit(o, prunes, l, ip, at)
    case Releases(h) => Release(l, h)
  }

  function Run(o: Options, prunes: bool, ops: seq<Op>): Limits {
    if ops == [] then NoConnections else Step(o, prunes, Run(o, prunes, ops[..|ops| - 1]), ops[|ops| - 1])
  }

  /** The clock never runs backwards. */
  ghost predicate Clocked(ops: seq<Op>) {
    forall i, j :: 0 <= i < j < |ops| && ops[i].Connects? && ops[j].Connects? ==> ops[i].at <= ops[j].at
  }

  /** Nothing happened after `now`. */
  ghost predicate UpTo(ops: seq<Op>, now: real) {
    forall i :: 0 <= i < |ops| && ops[i].Connects? ==> ops[i].at <= now
  }

  lemma Prefix(ops: seq<Op>, now: real)
    requires Clocked(ops) && ops != []
    ensures Clocked(ops[..|ops| - 1])
    ensures UpTo(ops, now) ==> UpTo(ops[..|ops| - 1], now)
    ensures ops[|ops| - 1].Connects? ==> UpTo(ops[..|ops| - 1], ops[|ops| - 1].at)
  {
  }

  // ---------------------------------------------------------------- connections counted

  function Live(handles: seq<Handle>): nat {
    if handles == [] then 0 else Live(handles[..|handles| - 1]) + if handles[|handles| - 1].released then 0 else 1
  }

  function LiveOf(handles: seq<Handle>, ip: Ip): nat {
    if handles == [] then 0
    else
      var last := handles[|handles| - 1];
      LiveOf(handles[..|handles| - 1], ip) + if last.released || last.ip != ip then 0 else 1
  }

  lemma LiveLast(handles: seq<Handle>, h: Handle, ip: Ip)
    ensures Live(handles + [h]) == Live(handles) + if h.released then 0 else 1
    ensures LiveOf(handles + [h], ip) == LiveOf(handles, ip) + if h.released || h.ip != ip then 0 else 1
  {
    assert (handles + [h])[..|handles|] == handles;
  }

  lemma {:induction false} LiveUpdate(handles: seq<Handle>, h: nat, ip: Ip)
    requires h < |handles| && !handles[h].released
    ensures var after := handles[h := handles[h].(released := true)];
            && Live(after) == Live(handles) - 1
            && LiveOf(after, ip) == LiveOf(handles, ip) - if handles[h].ip == ip then 1 else 0
  {
    var after := handles[h := handles[h].(released := true)];
    var n := |handles| - 1;
    if h < n {
      assert after[..n] == handles[..n][h := handles[h].(released := true)];
      LiveUpdate(handles[..n], h, ip);
    } else {
      assert after[..n] == handles[..n];
    }
  }

  function LiveIn(l: Limits, ip: Ip): int {
    if ip in l.byIp then l.byIp[ip].live else 0
  }

  /** The counts are those of the unreleased handles, within both ceilings, and
      an address with a live connection is in the map. */
  ghost predicate Counted(o: Options, l: Limits) {
    && l.liveTotal == Live(l.handles) <= o.maxSessions
    && forall ip :: LiveIn(l, ip) == LiveOf(l.handles, ip) <= o.maxSessionsPerIp
  }

  lemma LookedUpLive(o: Options, prunes: bool, l: Limits, ip: Ip, at: real, other: Ip)
    ensures LiveIn(l.(byIp := LookedUp(o, prunes, l.byIp, ip, at)), other) == LiveIn(l, other)
  {
    hide PerMs, Capacity, Least;
  }

  lemma StepCounted(o: Options, prunes: bool, l: Limits, op: Op)
    requires Counted(o, l)
    ensures Counted(o, Step(o, prunes, l, op))
  {
    hide LookedUp, Live, LiveOf, LiveIn;
    var m := Step(o, prunes, l, op);
    match op
    case Connects(ip, at) =>
      forall x ensures LiveIn(m, x) == LiveOf(m.handles, x) <= o.maxSessionsPerIp {
        AdmitCounted(o, prunes, l, ip, at, x);
      }
      LiveLast(l.handles, Handle(ip, at, false), ip);
    case Releases(h) =>
      forall x ensures LiveIn(m, x) == LiveOf(m.handles, x) <= o.maxSessionsPerIp {
        ReleaseCounted(o, l, h, x);
      }
      if h < |l.handles| && !l.handles[h].released { LiveUpdate(l.handles, h, l.handles[h].ip); }
  }

  lemma AdmitCounted(o: Options, prunes: bool, l: Limits, ip: Ip, at: real, x: Ip)
    requires Counted(o, l)
    ensures var m := Admit(o, prunes, l, ip, at);
            LiveIn(m, x) == LiveOf(m.handles, x) <= o.maxSessionsPerIp
  {
    HasIp(o, prunes, l.byIp, ip, at);
    hide LookedUp, Live, LiveOf;
    LookedUpLive(o, prunes, l, ip, at, x);
    LookedUpLive(o, prunes, l, ip, at, ip);
    LiveLast(l.handles, Handle(ip, at, false), x);
    assert LiveIn(l, x) == LiveOf(l.handles, x);
  }

  lemma HasIp(o: Options, prunes: bool, byIp: map<Ip, IpState>, ip: Ip, at: real)
    ensures ip in LookedUp(o, prunes, byIp, ip, at)
  {
  }

  lemma ReleaseCounted(o: Options, l: Limits, h: nat, x: Ip)
    requires Counted(o, l)
    ensures var m := Release(l, h);
            LiveIn(m, x) == LiveOf(m.handles, x) <= o.maxSessionsPerIp
  {
    hide Live, LiveOf;
    assert LiveIn(l, x) == LiveOf(l.handles, x);
    if h < |l.handles| && !l.handles[h].released {
      LiveUpdate(l.handles, h, x);
      assert LiveIn(l, l.handles[h].ip) == LiveOf(l.handles, l.handles[h].ip);
    }
  }

  /** Over any run, whatever the clock does: the counts are those of the handles
      not yet released, and no address with such a handle is ever pruned. */
  lemma {:induction false} ConnectionsCounted(o: Options, prunes: bool, ops: seq<Op>)
    ensures Counted(o, Run(o, prunes, ops))
    ensures forall h :: 0 <= h < |Run(o, prunes, ops).handles| && !Run(o, prunes, ops).handles[h].released
                        ==> Run(o, prunes, ops).handles[h].ip in Run(o, prunes, ops).byIp
  {
    if ops != [] {
      ConnectionsCounted(o, prunes, ops[..|ops| - 1]);
      StepCounted(o, prunes, Run(o, prunes, ops[..|ops| - 1]), ops[|ops| - 1]);
    }
    var l := Run(o, prunes, ops);
    forall h | 0 <= h < |l.handles| && !l.handles[h].released ensures l.handles[h].ip in l.byIp {
      LiveUpdate(l.handles, h, l.handles[h].ip);
      assert LiveIn(l, l.handles[h].ip) > 0;
    }
  }

  // ---------------------------------------------------------------- buckets over time

  /** What an address's bucket would hold if looked at now; a missing address
      counts as full. */
  function Level(o: Options, byIp: map<Ip, IpState>, ip: Ip, now: real): real {
    if ip in byIp then Refill(o, byIp[ip], now).tokens else Capacity(o)
  }

  /** Buckets are never in debt nor over-full, and were last refilled by `now`. */
  ghost predicate Dated(o: Options, byIp: map<Ip, IpState>, now: real) {
    forall ip :: ip in byIp ==> 0.0 <= byIp[ip].tokens <= Capacity(o) && byIp[ip].refilledAt <= now
  }

  lemma Product(a: real, b: real)
    requires a >= 0.0 && b >= 0.0
    ensures a * b >= 0.0
  {
  }

  lemma Split(a: real, b: real, c: real, rate: real)
    ensures (c - a) * rate == (c - b) * rate + (b - a) * rate
  {
  }

  lemma NoTime(t: real, u: real, rate: real)
    requires t == u
    ensures (t - u) * rate == 0.0
  {
  }

  lemma RateNotNegative(o: Options)
    ensures PerMs(o) >= 0.0
  {
  }

  lemma LeastTwice(c: real, x: real, d: real, e: real)
    requires d >= 0.0 && e >= 0.0
    ensures Least(c, Least(c, x + d) + e) == Least(c, x + (d + e))
  {
  }

  /** Refilling twice is refilling once, at the later time. */
  lemma RefillTwice(o: Options, s: IpState, t: real, u: real)
    requires s.refilledAt <= t <= u
    ensures Refill(o, Refill(o, s, t), u) == Refill(o, s, u)
    ensures 0.0 <= s.tokens <= Capacity(o) ==> s.tokens <= Refill(o, s, t).tokens <= Capacity(o)
  {
    hide PerMs, Capacity;
    RateNotNegative(o);
    var rate := PerMs(o);
    Split(s.refilledAt, t, u, rate);
    Product(u - t, rate);
    Product(t - s.refilledAt, rate);
    var d, e := (t - s.refilledAt) * rate, (u - t) * rate;
    LeastTwice(Capacity(o), s.tokens, d, e);
    assert Refill(o, s, t) == s.(tokens := Least(Capacity(o), s.tokens + d), refilledAt := t);
    assert (u - s.refilledAt) * rate == d + e;
  }

  lemma LookedUpLevel(o: Options, prunes: bool, byIp: map<Ip, IpState>, ip: Ip, at: real, other: Ip, now: real)
    requires Dated(o, byIp, at) && at <= now
    ensures var m := LookedUp(o, prunes, byIp, ip, at);
            Level(o, m, other, now) == Level(o, byIp, other, now)
  {
    hide PerMs;
    if other in byIp { RefillTwice(o, byIp[other], at, now); }
    var kept := if prunes && |byIp| > PRUNE_PAST then Pruned(o, byIp, at) else byIp;
    assert Level(o, kept, other, now) == Level(o, byIp, other, now) by { KeptLevel(o, prunes, byIp, at, other, now); }
    if other == ip {
      var state := if ip in kept then kept[ip] else IpState(0, Capacity(o), at);
      if ip in kept { KeptDated(o, prunes, byIp, at); }
      RefillTwice(o, state, at, now);
      FullStays(o, IpState(0, Capacity(o), at), now);
    }
  }

  lemma FullStays(o: Options, s: IpState, now: real)
    requires s.refilledAt <= now && s.tokens == Capacity(o)
    ensures Refill(o, s, now).tokens == Capacity(o)
  {
    RateNotNegative(o);
    hide PerMs;
    Product(now - s.refilledAt, PerMs(o));
  }

  lemma KeptDated(o: Options, prunes: bool, byIp: map<Ip, IpState>, at: real)
    requires Dated(o, byIp, at)
    ensures Dated(o, if prunes && |byIp| > PRUNE_PAST then Pruned(o, byIp, at) else byIp, at)
  {
    hide Refill;
    forall ip | ip in byIp ensures 0.0 <= Refill(o, byIp[ip], at).tokens <= Capacity(o) && Refill(o, byIp[ip], at).refilledAt <= at {
      RefillTwice(o, byIp[ip], at, at);
      RefilledAt(o, byIp[ip], at);
    }
  }

  lemma RefilledAt(o: Options, s: IpState, at: real)
    ensures Refill(o, s, at).refilledAt == at && Refill(o, s, at).live == s.live
  {
  }

  lemma KeptLevel(o: Options, prunes: bool, byIp: map<Ip, IpState>, at: real, other: Ip, now: real)
    requires Dated(o, byIp, at) && at <= now
    ensures Level(o, if prunes && |byIp| > PRUNE_PAST then Pruned(o, byIp, at) else byIp, other, now) == Level(o, byIp, other, now)
  {
    hide Refill;
    if other in byIp {
      var s := Refill(o, byIp[other], at);
      RefillTwice(o, byIp[other], at, now);
      RefilledAt(o, byIp[other], at);
      if Idle(o, s) { FullStays(o, s, now); }
    }
  }

  lemma LookedUpDated(o: Options, prunes: bool, byIp: map<Ip, IpState>, ip: Ip, at: real)
    requires Dated(o, byIp, at)
    ensures Dated(o, LookedUp(o, prunes, byIp, ip, at), at)
  {
    hide Refill, Pruned;
    KeptDated(o, prunes, byIp, at);
    var kept := if prunes && |byIp| > PRUNE_PAST then Pruned(o, byIp, at) else byIp;
    var state := if ip in kept then kept[ip] else IpState(0, Capacity(o), at);
    RefillTwice(o, state, at, at);
    RefilledAt(o, state, at);
  }

  lemma Later(o: Options, byIp: map<Ip, IpState>, t: real, u: real)
    requires Dated(o, byIp, t) && t <= u
    ensures Dated(o, byIp, u)
  {
  }

  /** What a step does to the buckets, seen from any later time. */
  lemma StepDated(o: Options, prunes: bool, l: Limits, op: Op, now: real)
    requires Dated(o, l.byIp, now) && (op.Connects? ==> op.at == now)
    ensures Dated(o, Step(o, prunes, l, op).byIp, now)
  {
    if op.Connects? {
      LookedUpDated(o, prunes, l.byIp, op.ip, op.at);
      HasIp(o, prunes, l.byIp, op.ip, op.at);
      hide LookedUp;
      var m := LookedUp(o, prunes, l.byIp, op.ip, op.at);
      assert 0.0 <= m[op.ip].tokens <= Capacity(o);
    }
  }

  lemma {:induction false} RunDated(o: Options, prunes: bool, ops: seq<Op>, now: real)
    requires Clocked(ops) && UpTo(ops, now)
    ensures Dated(o, Run(o, prunes, ops).byIp, now)
  {
    hide Dated, Step;
    if ops == [] {
      NothingDated(o, now);
    } else {
      Prefix(ops, now);
      var op := ops[|ops| - 1];
      var at := if op.Connects? then op.at else now;
      RunDated(o, prunes, ops[..|ops| - 1], at);
      StepDated(o, prunes, Run(o, prunes, ops[..|ops| - 1]), op, at);
      Later(o, Run(o, prunes, ops).byIp, at, now);
    }
  }

  lemma NothingDated(o: Options, now: real)
    ensures Dated(o, NoConnections.byIp, now)
  {
  }

  // ---------------------------------------------------------------- pruning is invisible

  /** Two limiters nobody can tell apart from `now` on. */
  ghost predicate Alike(o: Options, a: Limits, b: Limits, now: real) {
    && a.liveTotal == b.liveTotal
    && a.handles == b.handles
    && forall ip :: LiveIn(a, ip) == LiveIn(b, ip) && Level(o, a.byIp, ip, now) == Level(o, b.byIp, ip, now)
  }

  lemma LevelLater(o: Options, byIp: map<Ip, IpState>, ip: Ip, t: real, u: real)
    requires Dated(o, byIp, t) && t <= u
    ensures Level(o, byIp, ip, u) == Least(Capacity(o), Level(o, byIp, ip, t) + (u - t) * PerMs(o))
  {
    hide PerMs;
    if ip in byIp {
      RefillTwice(o, byIp[ip], t, u);
    } else {
      FullStays(o, IpState(0, Capacity(o), t), u);
    }
  }

  lemma AlikeLater(o: Options, a: Limits, b: Limits, t: real, u: real)
    requires Alike(o, a, b, t) && Dated(o, a.byIp, t) && Dated(o, b.byIp, t) && t <= u
    ensures Alike(o, a, b, u)
  {
    hide Level, PerMs, LiveIn, Dated;
    forall ip ensures Level(o, a.byIp, ip, u) == Level(o, b.byIp, ip, u) {
      LevelLater(o, a.byIp, ip, t, u);
      LevelLater(o, b.byIp, ip, t, u);
      assert Level(o, a.byIp, ip, t) == Level(o, b.byIp, ip, t);
    }
  }

  /** The looked-up bucket itself. */
  lemma LookedUpBucket(o: Options, prunes: bool, l: Limits, ip: Ip, at: real)
    requires Dated(o, l.byIp, at)
    ensures var m := LookedUp(o, prunes, l.byIp, ip, at);
            && ip in m
            && m[ip] == IpState(LiveIn(l, ip), Level(o, l.byIp, ip, at), at)
  {
    HasIp(o, prunes, l.byIp, ip, at);
    var m := LookedUp(o, prunes, l.byIp, ip, at);
    LookedUpLevel(o, prunes, l.byIp, ip, at, ip, at);
    LookedUpLive(o, prunes, l, ip, at, ip);
    LookedUpDated(o, prunes, l.byIp, ip, at);
    LookedUpAt(o, prunes, l.byIp, ip, at);
    hide LookedUp, PerMs;
    assert LiveIn(l.(byIp := m), ip) == m[ip].live;
    RefillNow(o, m[ip], at);
  }

  lemma LookedUpAt(o: Options, prunes: bool, byIp: map<Ip, IpState>, ip: Ip, at: real)
    ensures LookedUp(o, prunes, byIp, ip, at)[ip].refilledAt == at
  {
  }

  lemma RefillNow(o: Options, s: IpState, at: real)
    requires s.refilledAt == at && s.tokens <= Capacity(o)
    ensures Refill(o, s, at) == s
  {
    hide PerMs, Capacity;
    NoTime(at, s.refilledAt, PerMs(o));
    assert s.tokens + (at - s.refilledAt) * PerMs(o) == s.tokens;
    assert Least(Capacity(o), s.tokens) == s.tokens;
    var r := Refill(o, s, at);
    assert r.tokens == s.tokens && r.live == s.live && r.refilledAt == s.refilledAt;
  }

  /** One bucket and one count after a connection attempt. */
  lemma AdmitView(o: Options, prunes: bool, l: Limits, ip: Ip, at: real, x: Ip)
    requires Dated(o, l.byIp, at)
    ensures var m := Admit(o, prunes, l, ip, at);
            var ok := Admits(o, prunes, l, ip, at);
            && ok == (l.liveTotal < o.maxSessions && LiveIn(l, ip) < o.maxSessionsPerIp && Level(o, l.byIp, ip, at) >= 1.0)
            && LiveIn(m, x) == LiveIn(l, x) + (if ok && x == ip then 1 else 0)
            && Level(o, m.byIp, x, at) == Level(o, l.byIp, x, at) - (if ok && x == ip then 1.0 else 0.0)
            && m.liveTotal == l.liveTotal + (if ok then 1 else 0)
            && m.handles == l.handles + if ok then [Handle(ip, at, false)] else []
  {
    LookedUpBucket(o, prunes, l, ip, at);
    LookedUpLive(o, prunes, l, ip, at, x);
    LookedUpLevel(o, prunes, l.byIp, ip, at, x, at);
    LookedUpDated(o, prunes, l.byIp, ip, at);
    hide LookedUp, PerMs;
    var s := LookedUp(o, prunes, l.byIp, ip, at)[ip];
    if s.tokens >= 1.0 { RefillNow(o, s.(tokens := s.tokens - 1.0, live := s.live + 1), at); }
  }

  lemma AdmitAlike(o: Options, a: Limits, b: Limits, ip: Ip, at: real)
    requires Dated(o, a.byIp, at) && Dated(o, b.byIp, at) && Alike(o, a, b, at)
    ensures Admits(o, true, a, ip, at) == Admits(o, false, b, ip, at)
    ensures Alike(o, Admit(o, true, a, ip, at), Admit(o, false, b, ip, at), at)
  {
    hide Admit, Admits, Level, LiveIn, Dated;
    AdmitView(o, true, a, ip, at, ip);
    AdmitView(o, false, b, ip, at, ip);
    assert LiveIn(a, ip) == LiveIn(b, ip);
    var c, d := Admit(o, true, a, ip, at), Admit(o, false, b, ip, at);
    forall x ensures LiveIn(c, x) == LiveIn(d, x) && Level(o, c.byIp, x, at) == Level(o, d.byIp, x, at) {
      AdmitView(o, true, a, ip, at, x);
      AdmitView(o, false, b, ip, at, x);
      assert LiveIn(a, x) == LiveIn(b, x);
    }
  }

  lemma ReleaseView(o: Options, l: Limits, h: nat, x: Ip, now: real)
    requires Counted(o, l)
    ensures var m := Release(l, h);
            var owner := h < |l.handles| && !l.handles[h].released && l.handles[h].ip == x;
            && LiveIn(m, x) == LiveIn(l, x) - (if owner then 1 else 0)
            && Level(o, m.byIp, x, now) == Level(o, l.byIp, x, now)
  {
    hide PerMs;
    if h < |l.handles| && !l.handles[h].released {
      LiveUpdate(l.handles, h, l.handles[h].ip);
      assert LiveIn(l, l.handles[h].ip) > 0;
    }
  }

  lemma ReleaseAlike(o: Options, a: Limits, b: Limits, h: nat, now: real)
    requires Counted(o, a) && Counted(o, b) && Alike(o, a, b, now)
    ensures Alike(o, Release(a, h), Release(b, h), now)
  {
    hide Level, LiveIn, Counted;
    forall x ensures LiveIn(Release(a, h), x) == LiveIn(Release(b, h), x)
                     && Level(o, Release(a, h).byIp, x, now) == Level(o, Release(b, h).byIp, x, now) {
      ReleaseView(o, a, h, x, now);
      ReleaseView(o, b, h, x, now);
      assert LiveIn(a, x) == LiveIn(b, x);
    }
  }

  /** The limiter that prunes and the one that never does are alike after every
      run: same answers, same counts, same buckets. */
  lemma {:induction false} PruningInvisible(o: Options, ops: seq<Op>, now: real)
    requires Clocked(ops) && UpTo(ops, now)
    ensures Alike(o, Run(o, true, ops), Run(o, false, ops), now)
  {
    hide Alike, Dated, Counted, Admit, Release;
    if ops == [] {
      SelfAlike(o, NoConnections, now);
    } else {
      Prefix(ops, now);
      var op := ops[|ops| - 1];
      var before := ops[..|ops| - 1];
      var at := if op.Connects? then op.at else now;
      PruningInvisible(o, before, at);
      RunDated(o, true, before, at);
      RunDated(o, false, before, at);
      ConnectionsCounted(o, true, before);
      ConnectionsCounted(o, false, before);
      if op.Connects? {
        AdmitAlike(o, Run(o, true, before), Run(o, false, before), op.ip, op.at);
      } else {
        ReleaseAlike(o, Run(o, true, before), Run(o, false, before), op.handle, now);
      }
      UpToLast(ops);
      RunDated(o, true, ops, at);
      RunDated(o, false, ops, at);
      AlikeLater(o, Run(o, true, ops), Run(o, false, ops), at, now);
    }
  }

  lemma UpToLast(ops: seq<Op>)
    requires Clocked(ops) && ops != []
    ensures ops[|ops| - 1].Connects? ==> UpTo(ops, ops[|ops| - 1].at)
  {
  }

  lemma SelfAlike(o: Options, l: Limits, now: real)
    ensures Alike(o, l, l, now)
  {
  }

  /** Pruning changes the answer to no call, after any run. */
  lemma SameAnswer(o: Options, ops: seq<Op>, ip: Ip, at: real)
    requires Clocked(ops) && UpTo(ops, at)
    ensures Admits(o, true, Run(o, true, ops), ip, at) == Admits(o, false, Run(o, false, ops), ip, at)
    ensures Run(o, true, ops).handles == Run(o, false, ops).handles
  {
    hide Run, Admits, Admit;
    PruningInvisible(o, ops, at);
    RunDated(o, true, ops, at);
    RunDated(o, false, ops, at);
    AdmitAlike(o, Run(o, true, ops), Run(o, false, ops), ip, at);
  }

  // ---------------------------------------------------------------- the rate bound

  /** The connections of an address let in from `s` to `t`. */
  function AdmittedIn(handles: seq<Handle>, ip: Ip, s: real, t: real): nat {
    if handles == [] then 0
    else
      var last := handles[|handles| - 1];
      AdmittedIn(handles[..|handles| - 1], ip, s, t) + if last.ip == ip && s <= last.at <= t then 1 else 0
  }

  lemma AdmittedLast(handles: seq<Handle>, h: Handle, ip: Ip, s: real, t: real)
    ensures AdmittedIn(handles + [h], ip, s, t)
            == AdmittedIn(handles, ip, s, t) + if h.ip == ip && s <= h.at <= t then 1 else 0
  {
    assert (handles + [h])[..|handles|] == handles;
  }

  lemma {:induction false} AdmittedReleased(handles: seq<Handle>, h: nat, ip: Ip, s: real, t: real)
    requires h < |handles|
    ensures AdmittedIn(handles[h := handles[h].(released := true)], ip, s, t) == AdmittedIn(handles, ip, s, t)
  {
    var after := handles[h := handles[h].(released := true)];
    var n := |handles| - 1;
    if h < n {
      assert after[..n] == handles[..n][h := handles[h].(released := true)];
      AdmittedReleased(handles[..n], h, ip, s, t);
    } else {
      assert after[..n] == handles[..n];
    }
  }

  /** What a bucket may have given out since `s`, plus what it still holds. */
  ghost predicate Budgeted(o: Options, l: Limits, ip: Ip, s: real, t: real, now: real) {
    AdmittedIn(l.handles, ip, s, t) as real + Level(o, l.byIp, ip, now)
      <= Capacity(o) + if s <= now then (now - s) * PerMs(o) else 0.0
  }

  lemma BudgetedLater(o: Options, l: Limits, ip: Ip, s: real, t: real, at: real, now: real)
    requires Dated(o, l.byIp, at) && at <= now && Budgeted(o, l, ip, s, t, at)
    requires at < s ==> AdmittedIn(l.handles, ip, s, t) == 0
    ensures Budgeted(o, l, ip, s, t, now)
  {
    hide PerMs, Capacity, Level, AdmittedIn;
    LevelLater(o, l.byIp, ip, at, now);
    RateNotNegative(o);
    var admitted := AdmittedIn(l.handles, ip, s, t) as real;
    if s <= at {
      Split(s, at, now, PerMs(o));
      assert admitted + Level(o, l.byIp, ip, at) + (now - at) * PerMs(o) <= Capacity(o) + (now - s) * PerMs(o);
    } else {
      assert admitted == 0.0 && Level(o, l.byIp, ip, now) <= Capacity(o);
      if s <= now { Product(now - s, PerMs(o)); }
    }
  }

  lemma {:induction false} NoneBefore(o: Options, prunes: bool, ops: seq<Op>, ip: Ip, s: real, t: real, now: real)
    requires UpTo(ops, now) && now < s
    ensures AdmittedIn(Run(o, prunes, ops).handles, ip, s, t) == 0
  {
    if ops != [] {
      var before := ops[..|ops| - 1];
      var op := ops[|ops| - 1];
      NoneBefore(o, prunes, before, ip, s, t, now);
      StepAdmitted(o, prunes, Run(o, prunes, before), op, ip, s, t);
    }
  }

  lemma StepAdmitted(o: Options, prunes: bool, l: Limits, op: Op, ip: Ip, s: real, t: real)
    ensures AdmittedIn(Step(o, prunes, l, op).handles, ip, s, t)
            == AdmittedIn(l.handles, ip, s, t)
               + if op.Connects? && Admits(o, prunes, l, op.ip, op.at) && op.ip == ip && s <= op.at <= t then 1 else 0
  {
    hide LookedUp, AdmittedIn;
    match op
    case Connects(x, at) => HasIp(o, prunes, l.byIp, x, at); AdmittedLast(l.handles, Handle(x, at, false), ip, s, t);
    case Releases(h) => if h < |l.handles| { AdmittedReleased(l.handles, h, ip, s, t); }
  }

  lemma StepBudgeted(o: Options, prunes: bool, l: Limits, op: Op, ip: Ip, s: real, t: real, now: real)
    requires Counted(o, l) && Dated(o, l.byIp, now) && Budgeted(o, l, ip, s, t, now)
    requires op.Connects? ==> op.at == now
    ensures Budgeted(o, Step(o, prunes, l, op), ip, s, t, now)
  {
    StepAdmitted(o, prunes, l, op, ip, s, t);
    hide LookedUp, AdmittedIn, Level, PerMs, Capacity, Counted, Admits, Admit, Release;
    match op
    case Connects(x, at) => AdmitView(o, prunes, l, x, at, ip);
    case Releases(h) => ReleaseView(o, l, h, ip, now);
  }

  lemma {:induction false} RunBudgeted(o: Options, prunes: bool, ops: seq<Op>, ip: Ip, s: real, t: real, now: real)
    requires Clocked(ops) && UpTo(ops, now)
    ensures Budgeted(o, Run(o, prunes, ops), ip, s, t, now)
  {
    hide Budgeted, Counted, Dated, Step, AdmittedIn;
    if ops == [] {
      NothingBudgeted(o, ip, s, t, now);
    } else {
      Prefix(ops, now);
      UpToLast(ops);
      var op := ops[|ops| - 1];
      var before := ops[..|ops| - 1];
      var at := if op.Connects? then op.at else now;
      RunBudgeted(o, prunes, before, ip, s, t, at);
      RunDated(o, prunes, before, at);
      ConnectionsCounted(o, prunes, before);
      StepBudgeted(o, prunes, Run(o, prunes, before), op, ip, s, t, at);
      RunDated(o, prunes, ops, at);
      if at < s { NoneBefore(o, prunes, ops, ip, s, t, at); }
      BudgetedLater(o, Run(o, prunes, ops), ip, s, t, at, now);
    }
  }

  lemma NothingBudgeted(o: Options, ip: Ip, s: real, t: real, now: real)
    ensures Budgeted(o, NoConnections, ip, s, t, now)
  {
    RateNotNegative(o);
    if s <= now { Product(now - s, PerMs(o)); }
  }

  /** Whatever else happens, the connections of one address let in during any
      window number at most its allowance for a minute times one plus the
      window's length in minutes. */
  lemma {:induction false} RateBound(o: Options, prunes: bool, ops: seq<Op>, ip: Ip, s: real, t: real)
    requires Clocked(ops) && s <= t
    ensures AdmittedIn(Run(o, prunes, ops).handles, ip, s, t) as real <= Capacity(o) * (1.0 + (t - s) / MINUTE)
  {
    hide Step, AdmittedIn, Admits, Capacity, Level, PerMs, Dated, Clocked, UpTo;
    if UpTo(ops, t) {
      RunBudgeted(o, prunes, ops, ip, s, t, t);
      RunDated(o, prunes, ops, t);
      LevelHolds(o, Run(o, prunes, ops).byIp, ip, t);
      WindowBudget(o, t - s);
    } else {
      // The last attempt came after the window and adds nothing to it.
      LastIsLate(ops, t);
      Prefix(ops, t);
      StepAdmitted(o, prunes, Run(o, prunes, ops[..|ops| - 1]), ops[|ops| - 1], ip, s, t);
      RateBound(o, prunes, ops[..|ops| - 1], ip, s, t);
    }
  }

  lemma LastIsLate(ops: seq<Op>, t: real)
    requires Clocked(ops) && !UpTo(ops, t)
    ensures ops != [] && (ops[|ops| - 1].Connects? ==> ops[|ops| - 1].at > t)
  {
  }

  lemma LevelHolds(o: Options, byIp: map<Ip, IpState>, ip: Ip, now: real)
    requires Dated(o, byIp, now)
    ensures Level(o, byIp, ip, now) >= 0.0
  {
    if ip in byIp { RefillTwice(o, byIp[ip], now, now); }
  }

  lemma WindowBudget(o: Options, span: real)
    ensures Capacity(o) + span * PerMs(o) == Capacity(o) * (1.0 + span / MINUTE)
  {
    var c := Capacity(o);
    assert span * (c / MINUTE) == c * (span / MINUTE);
  }

  // ---------------------------------------------------------------- exactly the rate bound

  /** The window since which a bucket has been spending without overflowing. */
  ghost predicate Spent(o: Options, l: Limits, ip: Ip, s: real, t: real, now: real) {
    s <= now && Level(o, l.byIp, ip, now) == Capacity(o) + (now - s) * PerMs(o) - AdmittedIn(l.handles, ip, s, t) as real
  }

  lemma SpentLater(o: Options, l: Limits, ip: Ip, s: real, t: real, at: real, now: real) returns (r: real)
    requires Dated(o, l.byIp, at) && at <= now && Spent(o, l, ip, s, t, at)
    requires at < now ==> AdmittedIn(l.handles, ip, now, t) == 0
    ensures Spent(o, l, ip, r, t, now)
  {
    hide PerMs, Capacity, Level, AdmittedIn;
    LevelLater(o, l.byIp, ip, at, now);
    Split(s, at, now, PerMs(o));
    NoTime(now, now, PerMs(o));
    r := if at == now || Level(o, l.byIp, ip, now) < Capacity(o) then s else now;
  }

  lemma StepSpent(o: Options, prunes: bool, l: Limits, op: Op, ip: Ip, s: real, t: real, now: real)
    requires Counted(o, l) && Dated(o, l.byIp, now) && Spent(o, l, ip, s, t, now) && now <= t
    requires op.Connects? ==> op.at == now
    ensures Spent(o, Step(o, prunes, l, op), ip, s, t, now)
  {
    StepAdmitted(o, prunes, l, op, ip, s, t);
    hide LookedUp, AdmittedIn, Level, PerMs, Capacity, Counted, Admits, Admit, Release;
    match op
    case Connects(x, at) => AdmitView(o, prunes, l, x, at, ip);
    case Releases(h) => ReleaseView(o, l, h, ip, now);
  }

  lemma {:induction false} RunSpent(o: Options, prunes: bool, ops: seq<Op>, ip: Ip, t: real, now: real) returns (s: real)
    requires Clocked(ops) && UpTo(ops, now) && now <= t
    ensures Spent(o, Run(o, prunes, ops), ip, s, t, now)
  {
    hide Spent, Counted, Dated, Step, AdmittedIn;
    if ops == [] {
      s := now;
      NothingSpent(o, ip, t, now);
    } else {
      Prefix(ops, now);
      UpToLast(ops);
      var op := ops[|ops| - 1];
      var before := ops[..|ops| - 1];
      var at := if op.Connects? then op.at else now;
      s := RunSpent(o, prunes, before, ip, t, at);
      RunDated(o, prunes, before, at);
      ConnectionsCounted(o, prunes, before);
      StepSpent(o, prunes, Run(o, prunes, before), op, ip, s, t, at);
      RunDated(o, prunes, ops, at);
      if at < now { NoneBefore(o, prunes, ops, ip, now, t, at); }
      s := SpentLater(o, Run(o, prunes, ops), ip, s, t, at, now);
    }
  }

  lemma NothingSpent(o: Options, ip: Ip, t: real, now: real)
    ensures Spent(o, NoConnections, ip, now, t, now)
  {
    NoTime(now, now, PerMs(o));
  }

  /** One more connection now would still respect the rate bound over every
      window that ends now. */
  ghost predicate WithinRate(o: Options, handles: seq<Handle>, ip: Ip, now: real) {
    forall s: real :: s <= now ==> (AdmittedIn(handles, ip, s, now) + 1) as real <= Capacity(o) * (1.0 + (now - s) / MINUTE)
  }

  /** What the limiter answers, told from the connections let in so far alone: it
      refuses exactly to keep one of the two ceilings or the rate bound. */
  lemma RefusesOnlyAtALimit(o: Options, prunes: bool, ops: seq<Op>, ip: Ip, at: real)
    requires Clocked(ops) && UpTo(ops, at)
    ensures var l := Run(o, prunes, ops);
            Admits(o, prunes, l, ip, at)
            <==> (&& Live(l.handles) < o.maxSessions
                  && LiveOf(l.handles, ip) < o.maxSessionsPerIp
                  && WithinRate(o, l.handles, ip, at))
  {
    hide Run, Admits, Admit, Level, PerMs, Capacity, AdmittedIn, Live, LiveOf, LiveIn, Dated;
    var l := Run(o, prunes, ops);
    ConnectionsCounted(o, prunes, ops);
    RunDated(o, prunes, ops, at);
    AdmitView(o, prunes, l, ip, at, ip);
    assert LiveIn(l, ip) == LiveOf(l.handles, ip);
    if Level(o, l.byIp, ip, at) >= 1.0 {
      forall s: real | s <= at
        ensures (AdmittedIn(l.handles, ip, s, at) + 1) as real <= Capacity(o) * (1.0 + (at - s) / MINUTE)
      {
        RunBudgeted(o, prunes, ops, ip, s, at, at);
        WindowBudget(o, at - s);
      }
    } else {
      var s := RunSpent(o, prunes, ops, ip, at, at);
      WindowBudget(o, at - s);
    }
  }
}
