/**
 What a desired mapping does to a packet, read off the mapping itself: its own allowlist, its
 own five guard overrides and the agent's defaults, its target and its mark; and that the
 chain compiled from a whole snapshot does exactly that, with exactly these limiters.
 */
module MappingChain {
  import opened Values
  import opened Text
  import opened Snapshots
  import opened Nft
  import opened Machine
  import opened NatChain
  import opened ForwardChain
  import opened GuardIsolation
  import opened Naming
  import opened Readback
  import opened Ledgers
  import EndToEnd
  import SP = SourcePolicy

  // ---- What a mapping grants ----

  /** An explicit 0 disables, any other explicit value stands, and an absent one leaves the default, which 0 disables too. */
  predicate Resolves(override: Option<nat>, default: nat, v: Option<nat>) {
    && (override == Some(0) ==> v == None)
    && (override.Some? && override.value > 0 ==> v == override)
    && (override.None? ==> v == if default == 0 then None else Some(default))
  }

  /** New connections per second and burst, for each source and for all together, and concurrent connections; absent where nothing limits. */
  datatype Allowance = Allowance(perSource: Option<nat>, perSourceBurst: nat, overall: Option<nat>, overallBurst: nat, connections: Option<nat>)

  predicate Grants(m: Mapping, g: Guards, a: Allowance) {
    && Resolves(m.perSourceRate, g.perSourceRate, a.perSource)
    && (if m.perSourceBurst.Some? then a.perSourceBurst == m.perSourceBurst.value else a.perSourceBurst == g.perSourceBurst)
    && Resolves(m.newConnRate, g.newConnRate, a.overall)
    && (if m.newConnBurst.Some? then a.overallBurst == m.newConnBurst.value else a.overallBurst == g.newConnBurst)
    && Resolves(m.ctMax, g.maxConn, a.connections)
  }

  /** Packets above this rate, with this burst. */
  function Above(rate: nat, burst: nat): Expr {
    Limit(limitType := 0, rate := rate, over := true, unit := 1, burst := burst)
  }

  function AboveConnections(count: nat): Expr {
    Connlimit(count := count, flags := 1)
  }

  /** The packet enters the public interface for the mapping's protocol and port. */
  predicate Enters(iface: Bytes, m: Mapping, p: Packet) {
    p.iif == iface && p.l4proto == (if m.proto == "udp" then 17 else 6) && p.dport == m.publicPort
  }

  predicate Denied(m: Mapping, x: SP.Addr) {
    m.sourcePolicy.Some? && forall q :: q in m.sourcePolicy.value ==> !SP.Contains(q, x)
  }

  /** A limiter that is there takes note of the packet, and counts and drops it above its limit. */
  function Pass(site: Site, limit: Option<Expr>, counter: string, p: Packet, ph: Physics, st: State): (State, bool) {
    if limit.None? then (st, false) else Guard(site, limit.value, counter, p, ph, st)
  }

  function PerSourceLimit(m: Mapping, a: Allowance, p: Packet, ph: Physics, st: State): Option<Expr> {
    var name := "ps" + FormatInt(m.id);
    if a.perSource.Some? && ph.room(name, Keys(st, name), AddrBytes(p.saddr)) then Some(Above(a.perSource.value, a.perSourceBurst)) else None
  }

  /** Source rate (unless the set is full), overall rate, connections; then the mark, the count and the target in network order. */
  function Admit(m: Mapping, a: Allowance, rate: Site, conn: Site, p: Packet, ph: Physics, st: State): (State, Outcome)
    requires m.targetAddr.IPv4?
  {
    var (st1, perSource) := Pass(SetSite("ps" + FormatInt(m.id), AddrBytes(p.saddr)), PerSourceLimit(m, a, p, ph, st), CounterName(m.id, "pd"), p, ph, st);
    if perSource then (st1, Dropped)
    else
      var overall := if a.overall.Some? then Some(Above(a.overall.value, a.overallBurst)) else None;
      var (st2, over) := Pass(rate, overall, CounterName(m.id, "rd"), p, ph, st1);
      if over then (st2, Dropped)
      else
        var connections := if a.connections.Some? then Some(AboveConnections(a.connections.value)) else None;
        var (st3, full) := Pass(conn, connections, CounterName(m.id, "cd"), p, ph, st2);
        if full then (st3, Dropped) else (Marked(m, Bump(st3, CounterName(m.id, "new"))), ToTarget(m))
  }

  /** The connection gets the mapping's mark, if it has one, in host order. */
  function Marked(m: Mapping, st: State): State {
    if m.flowMark.None? || m.flowMark.value == 0 then st
    else
      var x := m.flowMark.value;
      st.(mark := [x % 256, x / 256 % 256, x / 65536 % 256, x / 16777216 % 256])
  }

  function ToTarget(m: Mapping): Outcome
    requires m.targetAddr.IPv4?
  {
    var x := m.targetAddr.addr;
    var addr, port := [OfWord(x.a), OfWord(x.b), OfWord(x.c), OfWord(x.d)], [m.targetPort / 256, m.targetPort % 256];
    Translated(addr, addr, port, port)
  }

  // ---- One mapping ----

  predicate PoliciesOk(s: Snapshot) {
    forall m :: m in s.mappings && m.sourcePolicy.Some? ==> PolicyOk(m.sourcePolicy.value)
  }

  lemma PlanIsOk(s: Snapshot, lim: Limits)
    requires Valid(s, lim) && PoliciesOk(s)
    ensures Plannable(s) && RulesOk(Plan(s)) && DistinctEndpoints(Plan(s))
  {
    EndToEnd.PlanOfValid(s, lim);
    hide Valid, PolicyOk, DistinctEndpoints;
    forall i | 0 <= i < |Plan(s)| ensures RuleOk(Plan(s)[i]) {
      assert s.mappings[i] in s.mappings;
    }
  }

  lemma SuffixesAre()
    ensures SuffixNew == "new" && SuffixRate == "rd" && SuffixConn == "cd" && SuffixSource == "pd"
    ensures SuffixIn == "in" && SuffixOut == "out"
  {
  }

  lemma DeniedIs(m: Mapping, p: Packet)
    requires m.targetAddr.IPv4?
    ensures SourceAllowed(PlanOne(m), p) <==> !Denied(m, p.saddr)
  {
    hide SP.Contains;
    if m.sourcePolicy.Some? {
      var ps := m.sourcePolicy.value;
      if q :| q in ps && SP.Contains(q, p.saddr) {
        var i :| 0 <= i < |ps| && ps[i] == q;
      }
    }
  }

  lemma TranslateIs(m: Mapping, st: State)
    requires m.targetAddr.IPv4?
    ensures Translate(PlanOne(m), st) == (Marked(m, Bump(st, CounterName(m.id, "new"))), ToTarget(m))
  {
    SuffixesAre();
    hide CounterName, OfWord;
    var x := if m.flowMark.Some? then m.flowMark.value else 0;
    assert x / 256 / 256 == x / 65536 && x / 256 / 256 / 256 == x / 16777216;
    assert m.targetPort / 256 % 256 == m.targetPort / 256;
  }

  lemma PerSourceIs(m: Mapping, g: Guards, a: Allowance, p: Packet, ph: Physics, st: State)
    requires m.targetAddr.IPv4? && Grants(m, g, a)
    ensures PerSourceGuard(PlanOne(m), EffectiveGuards(PlanOne(m), g), p, ph, st) ==
      Pass(SetSite("ps" + FormatInt(m.id), AddrBytes(p.saddr)), PerSourceLimit(m, a, p, ph, st), CounterName(m.id, "pd"), p, ph, st)
  {
    hide CounterName, Guard, Keys, AddrBytes;
  }

  lemma RateIs(iface: Bytes, m: Mapping, g: Guards, a: Allowance, p: Packet, ph: Physics, st: State)
    requires m.targetAddr.IPv4? && Grants(m, g, a)
    ensures var eff := EffectiveGuards(PlanOne(m), g);
      RateGuard(iface, PlanOne(m), eff, p, ph, st) ==
      Pass(RateSite(iface, PlanOne(m), eff), if a.overall.Some? then Some(Above(a.overall.value, a.overallBurst)) else None, CounterName(m.id, "rd"), p, ph, st)
  {
    hide CounterName, Guard, RateExprs;
  }

  lemma ConnIs(iface: Bytes, m: Mapping, g: Guards, a: Allowance, p: Packet, ph: Physics, st: State)
    requires m.targetAddr.IPv4? && Grants(m, g, a)
    ensures var eff := EffectiveGuards(PlanOne(m), g);
      ConnGuard(iface, PlanOne(m), eff, p, ph, st) ==
      Pass(ConnSite(iface, PlanOne(m), eff), if a.connections.Some? then Some(AboveConnections(a.connections.value)) else None, CounterName(m.id, "cd"), p, ph, st)
  {
    hide CounterName, Guard, ConnExprs;
  }

  /** What the compiled rules of one mapping decide. */
  lemma DecideIs(iface: Bytes, m: Mapping, g: Guards, a: Allowance, p: Packet, ph: Physics, st: State)
    requires m.targetAddr.IPv4? && Grants(m, g, a)
    ensures var eff := EffectiveGuards(PlanOne(m), g);
      Decide(iface, PlanOne(m), g, p, ph, st) ==
        if Denied(m, p.saddr) then (st, Dropped)
        else Admit(m, a, RateSite(iface, PlanOne(m), eff), ConnSite(iface, PlanOne(m), eff), p, ph, st)
  {
    DeniedIs(m, p);
    hide CounterName, OfWord, Pass, PerSourceLimit, SourceAllowed, Denied, Translate, Marked, ToTarget, PerSourceGuard, RateGuard, ConnGuard,
         EffectiveGuards, RateSite, ConnSite, PlanOne, AddrBytes, Grants, Above, AboveConnections;
    var r := PlanOne(m);
    var eff := EffectiveGuards(r, g);
    var (st1, perSource) := PerSourceGuard(r, eff, p, ph, st);
    var (st2, rate) := RateGuard(iface, r, eff, p, ph, st1);
    var (st3, conn) := ConnGuard(iface, r, eff, p, ph, st2);
    PerSourceIs(m, g, a, p, ph, st);
    RateIs(iface, m, g, a, p, ph, st1);
    ConnIs(iface, m, g, a, p, ph, st2);
    TranslateIs(m, st3);
  }

  lemma EntersIs(iface: Bytes, m: Mapping, p: Packet)
    requires m.targetAddr.IPv4?
    ensures Selects(iface, PlanOne(m), p) <==> Enters(iface, m, p)
  {
  }

  /** A limiter's place in the chain: one of its rules. */
  ghost predicate PlacedIn(chain: seq<seq<Expr>>, site: Site, there: bool) {
    there ==> site.RuleSite? && site.rule in chain
  }

  /** The chain compiled from a valid snapshot, for every packet that enters for one of its mappings: with an allowlist that no prefix of admits
      the source the packet is dropped and nothing changes; otherwise the guards that the mapping's own overrides and the defaults grant decide,
      in this order, and then the packet goes to the mapping's own target under its own mark. */
  lemma MappingMeaning(s: Snapshot, lim: Limits, iface: Bytes, g: Guards, m: Mapping, a: Allowance) returns (rate: Site, conn: Site)
    requires Valid(s, lim) && PoliciesOk(s) && m in s.mappings && IsIfName(iface) && Grants(m, g, a)
    ensures m.targetAddr.IPv4? && Plannable(s) && RulesOk(Plan(s))
    ensures forall p, ph, st :: Enters(iface, m, p) && IsIfName(p.iif) ==>
      EvalChain(Render(iface, Plan(s), g), p, ph, st) ==
        if Denied(m, p.saddr) then (st, Dropped) else Admit(m, a, rate, conn, p, ph, st)
    ensures PlacedIn(Render(iface, Plan(s), g), rate, a.overall.Some?) && PlacedIn(Render(iface, Plan(s), g), conn, a.connections.Some?)
    ensures a.overall.Some? && a.connections.Some? ==> rate != conn
  {
    hide Valid, RulesOk, DistinctEndpoints, EvalChain, Render, Decide, Admit, Enters, Selects, IsIfName, EffectiveGuards, RateExprs, ConnExprs, Denied, Grants, PlacedIn;
    PlanIsOk(s, lim);
    var i :| 0 <= i < |s.mappings| && s.mappings[i] == m;
    var r := Plan(s)[i];
    var eff := EffectiveGuards(r, g);
    rate, conn := RateSite(iface, r, eff), ConnSite(iface, r, eff);
    forall p, ph, st | Enters(iface, m, p) && IsIfName(p.iif)
      ensures EvalChain(Render(iface, Plan(s), g), p, ph, st) == if Denied(m, p.saddr) then (st, Dropped) else Admit(m, a, rate, conn, p, ph, st)
    {
      EntersIs(iface, m, p);
      NatChainMeaning(iface, Plan(s), g, p, ph, st);
      DecideBySelected(iface, Plan(s), g, p, ph, st, r);
      DecideIs(iface, m, g, a, p, ph, st);
    }
    Placed(iface, Plan(s), g, r);
    GrantsEnables(m, g, a);
    PlacesDiffer(iface, r, eff);
    PlacedIs(iface, Plan(s), g, r, eff, rate, conn, a);
  }

  lemma PlacedIs(iface: Bytes, rs: seq<Rule>, g: Guards, r: Rule, eff: Guards, rate: Site, conn: Site, a: Allowance)
    requires RulesOk(rs) && rate == RateSite(iface, r, eff) && conn == ConnSite(iface, r, eff)
    requires eff.newConnRate > 0 ==> RateExprs(iface, r, eff) in Render(iface, rs, g)
    requires eff.maxConn > 0 ==> ConnExprs(iface, r, eff) in Render(iface, rs, g)
    requires (a.overall.Some? ==> eff.newConnRate > 0) && (a.connections.Some? ==> eff.maxConn > 0)
    ensures PlacedIn(Render(iface, rs, g), rate, a.overall.Some?) && PlacedIn(Render(iface, rs, g), conn, a.connections.Some?)
  {
    hide Render, RateExprs, ConnExprs, RulesOk;
  }

  lemma GrantsEnables(m: Mapping, g: Guards, a: Allowance)
    requires m.targetAddr.IPv4? && Grants(m, g, a)
    ensures var eff := EffectiveGuards(PlanOne(m), g);
      (a.overall.Some? <==> eff.newConnRate > 0) && (a.connections.Some? <==> eff.maxConn > 0) && (a.perSource.Some? <==> eff.perSourceRate > 0)
  {
  }

  lemma PlacesDiffer(iface: Bytes, r: Rule, eff: Guards)
    ensures RateSite(iface, r, eff) != ConnSite(iface, r, eff)
  {
    hide CounterName, MatchExprs;
    var n := |MatchExprs(iface, r)|;
    assert RateExprs(iface, r, eff)[n].Limit? && ConnExprs(iface, r, eff)[n].Connlimit?;
  }

  lemma {:induction false} Placed(iface: Bytes, rs: seq<Rule>, g: Guards, r: Rule)
    requires RulesOk(rs) && r in rs
    ensures var eff := EffectiveGuards(r, g);
      && (eff.newConnRate > 0 ==> RateExprs(iface, r, eff) in Render(iface, rs, g))
      && (eff.maxConn > 0 ==> ConnExprs(iface, r, eff) in Render(iface, rs, g))
  {
    hide EffectiveGuards, RateExprs, ConnExprs, SourceDrop, PerSourceExprs, DnatExprs, RuleOk;
    if rs[0] != r {
      Placed(iface, rs[1..], g, r);
    }
  }

  // ---- Its limiters ----

  function Resolved(override: Option<nat>, default: nat): (v: Option<nat>)
    ensures Resolves(override, default, v)
  {
    if override == Some(0) || (override.None? && default == 0) then None else if override.Some? then override else Some(default)
  }

  function Granted(m: Mapping, g: Guards): (a: Allowance)
    ensures Grants(m, g, a)
  {
    Allowance(
      Resolved(m.perSourceRate, g.perSourceRate), if m.perSourceBurst.Some? then m.perSourceBurst.value else g.perSourceBurst,
      Resolved(m.newConnRate, g.newConnRate), if m.newConnBurst.Some? then m.newConnBurst.value else g.newConnBurst,
      Resolved(m.ctMax, g.maxConn))
  }

  /** There is one allowance for each mapping. */
  lemma GrantedOnly(m: Mapping, g: Guards, a: Allowance)
    requires Grants(m, g, a)
    ensures a == Granted(m, g)
  {
  }

  /** The limiting expressions of a rule, and of a chain. */
  function LimitersIn(es: seq<Expr>): seq<Expr> {
    if es == [] then [] else LimiterOf(es[0]) + LimitersIn(es[1..])
  }

  function LimiterOf(e: Expr): seq<Expr> {
    if e.Limit? || e.Connlimit? || e.Dynset? then [e] else []
  }

  function LimitersOf(chain: seq<seq<Expr>>): seq<Expr> {
    if chain == [] then [] else LimitersIn(chain[0]) + LimitersOf(chain[1..])
  }

  /** One limiter for every guard that is granted a limit, with just that limit; the one per source lives in the mapping's own set, whose
      elements time out after a minute. */
  function Expected(m: Mapping, a: Allowance): seq<Expr> {
    (if a.perSource.Some? then [Dynset(1, 0, "ps" + FormatInt(m.id), 1, 60, false, [Above(a.perSource.value, a.perSourceBurst)])] else [])
    + (if a.overall.Some? then [Above(a.overall.value, a.overallBurst)] else [])
    + (if a.connections.Some? then [AboveConnections(a.connections.value)] else [])
  }

  function AllExpected(ms: seq<Mapping>, g: Guards): seq<Expr> {
    if ms == [] then [] else Expected(ms[0], Granted(ms[0], g)) + AllExpected(ms[1..], g)
  }

  lemma {:induction false} LimitersInConcat(a: seq<Expr>, b: seq<Expr>)
    ensures LimitersIn(a + b) == LimitersIn(a) + LimitersIn(b)
  {
    hide LimiterOf;
    if a == [] {
      assert a + b == b;
    } else {
      assert (a + b)[0] == a[0] && (a + b)[1..] == a[1..] + b;
      LimitersInConcat(a[1..], b);
    }
  }

  lemma {:induction false} LimitersOfConcat(a: seq<seq<Expr>>, b: seq<seq<Expr>>)
    ensures LimitersOf(a + b) == LimitersOf(a) + LimitersOf(b)
  {
    hide LimitersIn;
    if a == [] {
      assert a + b == b;
    } else {
      assert (a + b)[0] == a[0] && (a + b)[1..] == a[1..] + b;
      LimitersOfConcat(a[1..], b);
    }
  }

  lemma OneRule(es: seq<Expr>)
    ensures LimitersOf([es]) == LimitersIn(es) && LimitersOf([]) == []
  {
    hide LimitersIn;
    assert [es][1..] == [];
  }

  predicate Limitless(es: seq<Expr>) {
    forall e :: e in es ==> !e.Limit? && !e.Connlimit? && !e.Dynset?
  }

  lemma {:induction false} NoLimiters(es: seq<Expr>)
    requires Limitless(es)
    ensures LimitersIn(es) == []
  {
    if es != [] {
      NoLimiters(es[1..]);
    }
  }

  lemma {:induction false} OutsideLimitless(ps: SP.Policy)
    requires PolicyOk(ps)
    ensures Limitless(OutsideAll(ps))
  {
    if ps != [] {
      OutsideLimitless(ps[..|ps| - 1]);
    }
  }

  /** A rule that starts with expressions without limiter, then one limiter, then none. */
  lemma OneLimiter(a: seq<Expr>, e: Expr, b: seq<Expr>)
    requires Limitless(a) && Limitless(b) && (e.Limit? || e.Connlimit? || e.Dynset?)
    ensures LimitersIn(a + [e] + b) == [e]
  {
    LimitersInConcat(a + [e], b);
    LimitersInConcat(a, [e]);
    NoLimiters(a);
    NoLimiters(b);
    assert LimitersIn([e]) == [e] by {
      assert [e][1..] == [];
    }
  }

  lemma RuleLimiters(iface: Bytes, r: Rule, eff: Guards)
    requires RuleOk(r)
    ensures r.sourcePolicy.Some? ==> LimitersIn(SourceDrop(iface, r)) == []
    ensures LimitersIn(PerSourceExprs(iface, r, eff)) == [SourceMeter(r, eff)]
    ensures LimitersIn(RateExprs(iface, r, eff)) == [RateLimit(eff.newConnRate, eff.newConnBurst)]
    ensures LimitersIn(ConnExprs(iface, r, eff)) == [Connlimit(eff.maxConn, CONNLIMIT_INV)]
    ensures LimitersIn(DnatExprs(iface, r)) == []
  {
    hide CounterName, SetName, Be2, Le4, IfName, AddrBytes, LimitersIn;
    var match_ := MatchExprs(iface, r);
    assert Limitless(match_);
    var p, q, c := SourceMeter(r, eff), RateLimit(eff.newConnRate, eff.newConnBurst), Connlimit(eff.maxConn, CONNLIMIT_INV);
    OneLimiter(match_ + [LoadSaddr], p, [ObjrefCounter(r.mappingId, SuffixSource), Drop]);
    assert PerSourceExprs(iface, r, eff) == match_ + [LoadSaddr] + [p] + [ObjrefCounter(r.mappingId, SuffixSource), Drop];
    OneLimiter(match_, q, [ObjrefCounter(r.mappingId, SuffixRate), Drop]);
    assert RateExprs(iface, r, eff) == match_ + [q] + [ObjrefCounter(r.mappingId, SuffixRate), Drop];
    OneLimiter(match_, c, [ObjrefCounter(r.mappingId, SuffixConn), Drop]);
    assert ConnExprs(iface, r, eff) == match_ + [c] + [ObjrefCounter(r.mappingId, SuffixConn), Drop];
    assert Limitless(DnatExprs(iface, r));
    NoLimiters(DnatExprs(iface, r));
    if r.sourcePolicy.Some? {
      SourceDropLimitless(iface, r);
    }
  }

  lemma SourceDropLimitless(iface: Bytes, r: Rule)
    requires RuleOk(r) && r.sourcePolicy.Some?
    ensures LimitersIn(SourceDrop(iface, r)) == []
  {
    OutsideLimitless(r.sourcePolicy.value);
    hide OutsideAll, Be2, IfName;
    assert Limitless(SourceDrop(iface, r));
    NoLimiters(SourceDrop(iface, r));
  }

  lemma OptionalRule(on: bool, es: seq<Expr>, rest: seq<seq<Expr>>)
    ensures LimitersOf((if on then [es] else []) + rest) == (if on then LimitersIn(es) else []) + LimitersOf(rest)
  {
    hide LimitersIn, LimitersOf;
    LimitersOfConcat(if on then [es] else [], rest);
    OneRule(es);
  }

  lemma OneMappingLimiters(iface: Bytes, m: Mapping, g: Guards)
    requires m.targetAddr.IPv4? && RuleOk(PlanOne(m))
    ensures LimitersOf(RenderOne(iface, PlanOne(m), g)) == Expected(m, Granted(m, g))
  {
    hide SourceDrop, PerSourceExprs, RateExprs, ConnExprs, DnatExprs, LimitersIn, LimitersOf, EffectiveGuards, SourceMeter, RateLimit, Granted,
         RuleOk, Grants, Above, AboveConnections;
    var r := PlanOne(m);
    var eff, al := EffectiveGuards(r, g), Granted(m, g);
    GrantsEnables(m, g, al);
    SameLimiters(m, g);
    RuleLimiters(iface, r, eff);
    var c := if eff.newConnRate > 0 then [RateExprs(iface, r, eff)] else [];
    var d := if eff.maxConn > 0 then [ConnExprs(iface, r, eff)] else [];
    var e := [DnatExprs(iface, r)];
    OneRule(DnatExprs(iface, r));
    OptionalRule(eff.maxConn > 0, ConnExprs(iface, r, eff), e);
    OptionalRule(eff.newConnRate > 0, RateExprs(iface, r, eff), d + e);
    OptionalRule(eff.perSourceRate > 0, PerSourceExprs(iface, r, eff), c + (d + e));
    var b := if eff.perSourceRate > 0 then [PerSourceExprs(iface, r, eff)] else [];
    if r.sourcePolicy.Some? {
      OptionalRule(true, SourceDrop(iface, r), b + (c + (d + e)));
    } else {
      OptionalRule(false, [], b + (c + (d + e)));
    }
  }

  lemma SameLimiters(m: Mapping, g: Guards)
    requires m.targetAddr.IPv4?
    ensures var r := PlanOne(m);
      var eff, a := EffectiveGuards(r, g), Granted(m, g);
      && (a.perSource.Some? ==> SourceMeter(r, eff) == Dynset(1, 0, "ps" + FormatInt(m.id), 1, 60, false, [Above(a.perSource.value, a.perSourceBurst)]))
      && (a.overall.Some? ==> RateLimit(eff.newConnRate, eff.newConnBurst) == Above(a.overall.value, a.overallBurst))
      && (a.connections.Some? ==> Connlimit(eff.maxConn, CONNLIMIT_INV) == AboveConnections(a.connections.value))
  {
  }

  lemma {:induction false} PlanLimiters(iface: Bytes, s: Snapshot, g: Guards, k: nat)
    requires Plannable(s) && RulesOk(Plan(s)) && k <= |s.mappings|
    ensures LimitersOf(Render(iface, Plan(s)[k..], g)) == AllExpected(s.mappings[k..], g)
    decreases |s.mappings| - k
  {
    hide RenderOne, LimitersOf, Granted, Expected, RuleOk;
    var rs, ms := Plan(s)[k..], s.mappings[k..];
    if k == |s.mappings| {
      OneRule([]);
    } else {
      assert RuleOk(Plan(s)[k]) && rs[0] == PlanOne(s.mappings[k]) && rs[1..] == Plan(s)[k + 1..] && ms[1..] == s.mappings[k + 1..];
      OneMappingLimiters(iface, ms[0], g);
      PlanLimiters(iface, s, g, k + 1);
      LimitersOfConcat(RenderOne(iface, rs[0], g), Render(iface, rs[1..], g));
    }
  }

  /** The compiled chain holds, mapping by mapping and in their order, exactly the limiters that the overrides and the defaults grant: none for an
      explicit 0, one with just its value for another explicit value, and one with the default for an absent one. */
  lemma LimitersExact(s: Snapshot, lim: Limits, iface: Bytes, g: Guards)
    requires Valid(s, lim) && PoliciesOk(s)
    ensures Plannable(s) && RulesOk(Plan(s)) && LimitersOf(Render(iface, Plan(s), g)) == AllExpected(s.mappings, g)
  {
    hide Valid, RulesOk, Render, LimitersOf, AllExpected, DistinctEndpoints;
    PlanIsOk(s, lim);
    PlanLimiters(iface, s, g, 0);
    assert Plan(s)[0..] == Plan(s) && s.mappings[0..] == s.mappings;
  }

  /** In a valid snapshot every burst override belongs to a limiter that is there, and no override grants more than the cap. */
  lemma OverridesAreMeant(s: Snapshot, lim: Limits, g: Guards, m: Mapping)
    requires Valid(s, lim) && m in s.mappings
    ensures var a := Granted(m, g);
      && (m.newConnBurst.Some? ==> a.overall.Some? && a.overall == m.newConnRate)
      && (m.perSourceBurst.Some? ==> a.perSource.Some? && a.perSource == m.perSourceRate)
      && (m.newConnRate.Some? && a.overall.Some? ==> a.overall.value <= 1_000_000)
      && (m.perSourceRate.Some? && a.perSource.Some? ==> a.perSource.value <= 1_000_000)
      && (m.ctMax.Some? && a.connections.Some? ==> a.connections.value <= 1_000_000)
      && (m.newConnBurst.Some? ==> a.overallBurst <= 1_000_000) && (m.perSourceBurst.Some? ==> a.perSourceBurst <= 1_000_000)
  {
    hide SP.Contains;
    var i :| 0 <= i < |s.mappings| && s.mappings[i] == m;
    assert MappingFits(s, lim, i);
  }

  // ---- Tags and sets of an accepted table ----

  /** The tag of a mapping's rule carries the very hash under which the ledger holds its epoch. */
  lemma TagIsTheEpoch(m: Mapping)
    requires m.targetAddr.IPv4? && m.flowMark.Some?
    ensures ActiveTagOf(PlanOne(m)) == ActiveTag(EpochOf(m).mappingId, EpochOf(m).tupleHash)
  {
    hide TupleHash;
  }

  lemma {:induction false} SetOfMeter(rs: seq<Rule>, g: Guards, r: Rule)
    requires r in rs && EffectiveGuards(r, g).perSourceRate > 0
    ensures PerSourceSet(r.mappingId) in SetsOf(rs, g)
  {
    hide EffectiveGuards, PerSourceSet;
    if rs[0] != r {
      SetOfMeter(rs[1..], g, r);
    }
  }

  lemma CoveringSets(sets: seq<SetInfo>, expected: seq<SetInfo>, x: SetInfo)
    requires SetsConform(sets, expected) && x in expected && (forall i, j :: 0 <= i < j < |sets| ==> sets[i] != sets[j])
    ensures x in sets
  {
    DistinctCardinality(sets);
    if x !in sets {
      assert SetOf(sets) <= SetOf(expected) - {x};
      SubsetCard(SetOf(sets), SetOf(expected) - {x});
    }
  }

  lemma SubsetCard(a: set<SetInfo>, b: set<SetInfo>)
    requires a <= b
    ensures |a| <= |b|
  {
    assert b == a + (b - a);
  }

  /** In a table that passed the readback every mapping with a limit per source has its set, for addresses, filled by the rule itself, with room for
      4096 sources that time out with the rule's own timeout. */
  lemma MetersHaveSets(iface: Bytes, rs: seq<Rule>, rets: seq<Retirement>, g: Guards, t: Table, r: Rule)
    requires RulesOk(rs) && Conforms(iface, rs, rets, g, t) && (forall i, j :: 0 <= i < j < |t.sets| ==> t.sets[i] != t.sets[j])
    requires r in rs && EffectiveGuards(r, g).perSourceRate > 0
    ensures var meter := SourceMeter(r, EffectiveGuards(r, g));
      exists x :: (x in t.sets && x.name == meter.setName && x.keyType == "ipv4_addr"
                   && x.isDynamic && x.hasTimeout && x.timeout == meter.timeout && x.size == 4096)
  {
    hide RulesConform, ChainsOk, Render, FwdExprs, NatTags, FwdTags, SetsConform, RulesOk, EffectiveGuards, SetName;
    SetOfMeter(rs, g, r);
    CoveringSets(t.sets, SetsOf(rs, g), PerSourceSet(r.mappingId));
  }

  // ---- A disabled guard ----

  /** The guard behind this drop counter limits nothing: its override is an explicit 0, or absent over a default of 0. */
  predicate Disabled(m: Mapping, g: Guards, suffix: string) {
    || (suffix == "pd" && (m.perSourceRate == Some(0) || (m.perSourceRate.None? && g.perSourceRate == 0)))
    || (suffix == "rd" && (m.newConnRate == Some(0) || (m.newConnRate.None? && g.newConnRate == 0)))
    || (suffix == "cd" && (m.ctMax == Some(0) || (m.ctMax.None? && g.maxConn == 0)))
  }

  lemma PassCounts(site: Site, limit: Option<Expr>, counter: string, p: Packet, ph: Physics, st: State, name: string)
    requires limit.None? || counter != name
    ensures Count(Pass(site, limit, counter, p, ph, st).0, name) == Count(st, name)
  {
  }

  lemma OtherCounter(m: Mapping, id: int, suffix: string, own: string)
    requires (m.id != id || own != suffix) && suffix in ["pd", "rd", "cd"] && own in ["pd", "rd", "cd", "new"]
    ensures CounterName(m.id, own) != CounterName(id, suffix)
  {
    hide CounterName;
    if CounterName(m.id, own) == CounterName(id, suffix) {
      CounterNameInjective(m.id, own, id, suffix);
    }
  }

  lemma MarkedCounts(m: Mapping, st: State, name: string)
    ensures Count(Marked(m, st), name) == Count(st, name)
  {
  }

  /** A decision moves no counter but those of the limiters it has, and that of new connections. */
  lemma AdmitMoves(m: Mapping, a: Allowance, rate: Site, conn: Site, p: Packet, ph: Physics, st: State, name: string)
    requires m.targetAddr.IPv4? && name != CounterName(m.id, "new")
    requires a.perSource.None? || name != CounterName(m.id, "pd")
    requires a.overall.None? || name != CounterName(m.id, "rd")
    requires a.connections.None? || name != CounterName(m.id, "cd")
    ensures Count(Admit(m, a, rate, conn, p, ph, st).0, name) == Count(st, name)
  {
    hide CounterName, Pass, Keys, AddrBytes, ToTarget, Above, AboveConnections, Count, Bump, Marked, FormatInt;
    var site, limit := SetSite("ps" + FormatInt(m.id), AddrBytes(p.saddr)), PerSourceLimit(m, a, p, ph, st);
    var overall := if a.overall.Some? then Some(Above(a.overall.value, a.overallBurst)) else None;
    var connections := if a.connections.Some? then Some(AboveConnections(a.connections.value)) else None;
    PassCounts(site, limit, CounterName(m.id, "pd"), p, ph, st, name);
    hide PerSourceLimit;
    var st1 := Pass(site, limit, CounterName(m.id, "pd"), p, ph, st).0;
    PassCounts(rate, overall, CounterName(m.id, "rd"), p, ph, st1, name);
    var st2 := Pass(rate, overall, CounterName(m.id, "rd"), p, ph, st1).0;
    PassCounts(conn, connections, CounterName(m.id, "cd"), p, ph, st2, name);
    var st3 := Pass(conn, connections, CounterName(m.id, "cd"), p, ph, st2).0;
    BumpCount(st3, CounterName(m.id, "new"), name);
    MarkedCounts(m, Bump(st3, CounterName(m.id, "new")), name);
  }

  lemma BumpCount(st: State, counter: string, name: string)
    requires counter != name
    ensures Count(Bump(st, counter), name) == Count(st, name)
  {
  }

  /** A mapping's decision moves no drop counter of another mapping, and none of a guard that it does not have. */
  lemma AdmitCounts(m: Mapping, g: Guards, a: Allowance, rate: Site, conn: Site, p: Packet, ph: Physics, st: State, id: int, suffix: string)
    requires m.targetAddr.IPv4? && Grants(m, g, a) && suffix in ["pd", "rd", "cd"] && (m.id == id ==> Disabled(m, g, suffix))
    ensures Count(Admit(m, a, rate, conn, p, ph, st).0, CounterName(id, suffix)) == Count(st, CounterName(id, suffix))
  {
    hide CounterName, Admit, Count;
    DisabledMeans(m, g, a, suffix);
    hide Grants, Disabled;
    OtherCounter(m, id, suffix, "new");
    if a.perSource.Some? {
      OtherCounter(m, id, suffix, "pd");
    }
    if a.overall.Some? {
      OtherCounter(m, id, suffix, "rd");
    }
    if a.connections.Some? {
      OtherCounter(m, id, suffix, "cd");
    }
    AdmitMoves(m, a, rate, conn, p, ph, st, CounterName(id, suffix));
  }

  lemma DisabledMeans(m: Mapping, g: Guards, a: Allowance, suffix: string)
    requires Grants(m, g, a)
    ensures Disabled(m, g, suffix) ==>
      (suffix == "pd" && a.perSource.None?) || (suffix == "rd" && a.overall.None?) || (suffix == "cd" && a.connections.None?)
  {
  }

  /** A disabled guard counts no drop, whatever packet passes through the chain. */
  lemma DisabledIsSilent(s: Snapshot, lim: Limits, iface: Bytes, g: Guards, m: Mapping, suffix: string, p: Packet, ph: Physics, st: State)
    requires Valid(s, lim) && PoliciesOk(s) && Plannable(s) && RulesOk(Plan(s)) && IsIfName(iface) && IsIfName(p.iif)
    requires m in s.mappings && Disabled(m, g, suffix)
    ensures Count(EvalChain(Render(iface, Plan(s), g), p, ph, st).0, CounterName(m.id, suffix)) == Count(st, CounterName(m.id, suffix))
  {
    assert suffix in ["pd", "rd", "cd"];
    hide Valid, RulesOk, DistinctEndpoints, EvalChain, Render, DecideAll, Admit, Enters, Selects, IsIfName, Denied, Disabled, CounterName, PlacedIn, Count, Granted;
    if k :| k in s.mappings && Enters(iface, k, p) {
      var a := Granted(k, g);
      var rate, conn := MappingMeaning(s, lim, iface, g, k, a);
      if k.id == m.id {
        SameIdSameMapping(s, lim, k, m);
      }
      if !Denied(k, p.saddr) {
        AdmitCounts(k, g, a, rate, conn, p, ph, st, m.id, suffix);
      }
    } else {
      NatChainMeaning(iface, Plan(s), g, p, ph, st);
      forall i | 0 <= i < |Plan(s)| ensures !Selects(iface, Plan(s)[i], p) {
        assert s.mappings[i] in s.mappings;
        EntersIs(iface, s.mappings[i], p);
      }
      DecideUnselected(iface, Plan(s), g, p, ph, st);
    }
  }

  lemma SameIdSameMapping(s: Snapshot, lim: Limits, k: Mapping, m: Mapping)
    requires Valid(s, lim) && k in s.mappings && m in s.mappings && k.id == m.id
    ensures k == m
  {
    hide RetirementFits;
    var i :| 0 <= i < |s.mappings| && s.mappings[i] == k;
    var j :| 0 <= j < |s.mappings| && s.mappings[j] == m;
    assert MappingFits(s, lim, i) && MappingFits(s, lim, j);
  }

  // ---- Metering ----

  /** What the forward chain counts for a mapping: one for each translated packet, bound for its public port in the first place, that crosses the
      public interface, inwards and outwards apart; whatever fences stand behind. */
  lemma MappingIsMetered(s: Snapshot, lim: Limits, iface: Bytes, rets: seq<Retirement>, m: Mapping, p: Packet, ph: Physics, st: State)
    requires Valid(s, lim) && Plannable(s) && m in s.mappings && PacketOk(iface, p) && st.mark == Le4(p.ctMark)
    ensures var after := EvalChain(RenderForward(iface, Plan(s)) + RenderFences(iface, rets), p, ph, st).0;
      var hit := p.l4proto == (if m.proto == "udp" then 17 else 6) && p.ctOrigDport == m.publicPort && p.ctStatus & 0x20 != 0;
      && Count(after, CounterName(m.id, "in")) == Count(st, CounterName(m.id, "in")) + (if hit && p.iif == iface then 1 else 0)
      && Count(after, CounterName(m.id, "out")) == Count(st, CounterName(m.id, "out")) + (if hit && p.oif == iface then 1 else 0)
  {
    SuffixesAre();
    hide EvalChain, RenderForward, RenderFences, Valid, Count, CounterName, MeterAll, PacketOk, Le4, Fenced, DistinctEndpoints, DistinctIds, Metered;
    EndToEnd.PlanOfValid(s, lim);
    var i :| 0 <= i < |s.mappings| && s.mappings[i] == m;
    assert Plan(s)[i] in Plan(s);
    ForwardMeaning(iface, Plan(s), rets, p, ph, st);
    MeterAllCounts(iface, Plan(s), p, st, Plan(s)[i], SuffixIn);
    MeterAllCounts(iface, Plan(s), p, st, Plan(s)[i], SuffixOut);
    OneMeters(Plan(s), Plan(s)[i], p);
    MeteredIs(m, p);
  }

  lemma OneMeters(rs: seq<Rule>, r: Rule, p: Packet)
    requires DistinctIds(rs) && r in rs
    ensures (exists q :: q in rs && q.mappingId == r.mappingId && Metered(q, p)) <==> Metered(r, p)
  {
    hide DistinctIds, Metered;
    if q :| q in rs && q.mappingId == r.mappingId && Metered(q, p) {
      if q != r {
        DistinctIdsElements(rs, q, r);
      }
    }
  }

  lemma MeteredIs(m: Mapping, p: Packet)
    requires m.targetAddr.IPv4?
    ensures Metered(PlanOne(m), p) <==>
      p.l4proto == (if m.proto == "udp" then 17 else 6) && p.ctOrigDport == m.publicPort && p.ctStatus & 0x20 != 0
  {
  }

  // ---- Fences ----

  /** The fences drop exactly the translated packets that cross the public interface with the mark, the protocol and the original port of one of the
      retirements, and change nothing. */
  lemma FencesExact(iface: Bytes, rets: seq<Retirement>, q: Packet, ph: Physics, st: State)
    requires PacketOk(iface, q) && st.mark == Le4(q.ctMark)
    ensures EvalChain(RenderFences(iface, rets), q, ph, st) ==
      (st, if (q.iif == iface || q.oif == iface) && (exists r :: r in rets && q.ctMark == r.flowMark && q.l4proto == (if r.proto == "udp" then 17 else 6)
                && q.ctOrigDport == r.publicPort && q.ctStatus & 0x20 != 0) then Dropped else Accepted)
  {
    hide EvalChain, RenderFences, PacketOk, Le4;
    FencesMeaning(iface, rets, q, ph, st);
    if i :| 0 <= i < |rets| && ForwardChain.Stamped(rets[i], q) {
      assert rets[i] in rets;
    }
    if r :| r in rets && q.ctMark == r.flowMark && q.l4proto == (if r.proto == "udp" then 17 else 6)
            && q.ctOrigDport == r.publicPort && q.ctStatus & 0x20 != 0 {
      var i :| 0 <= i < |rets| && rets[i] == r;
      assert ForwardChain.Stamped(rets[i], q);
    }
  }

  // ---- Confinement ----

  /** Whatever the limits on snapshots allow is all a packet can reach: a translated packet came in through the public interface on a port inside
      the band, for a mapping whose allowlist admits its source, and goes to that mapping's target, an address inside the target network. */
  lemma TranslationsAreConfined(s: Snapshot, lim: Limits, iface: Bytes, g: Guards, p: Packet, ph: Physics, st: State) returns (m: Mapping)
    requires Valid(s, lim) && PoliciesOk(s) && Plannable(s) && RulesOk(Plan(s)) && IsIfName(iface) && IsIfName(p.iif)
    requires EvalChain(Render(iface, Plan(s), g), p, ph, st).1.Translated?
    ensures m in s.mappings && Enters(iface, m, p) && !Denied(m, p.saddr) && m.targetAddr.IPv4?
    ensures lim.bandMin <= p.dport <= lim.bandMax && SP.Contains(lim.targetCidr, m.targetAddr.addr) && m.targetPort != 0
    ensures EvalChain(Render(iface, Plan(s), g), p, ph, st).1 == ToTarget(m)
  {
    hide RulesOk, DistinctEndpoints, EvalChain, Render, DecideAll, Enters, Selects, IsIfName, Denied, ToTarget, Valid, SP.Contains, Admit, Decide, PlacedIn;
    PlanIsOk(s, lim);
    NatChainMeaning(iface, Plan(s), g, p, ph, st);
    var r := EndToEnd.TranslatedBy(iface, Plan(s), g, p, ph, st);
    var i :| 0 <= i < |Plan(s)| && Plan(s)[i] == r;
    m := s.mappings[i];
    EntersIs(iface, m, p);
    MappingInBand(s, lim, i);
    var rate, conn := MappingMeaning(s, lim, iface, g, m, Granted(m, g));
    AdmitGoesToTarget(m, Granted(m, g), rate, conn, p, ph, st);
    EntersPort(iface, m, p);
  }

  lemma EntersPort(iface: Bytes, m: Mapping, p: Packet)
    requires Enters(iface, m, p)
    ensures p.dport == m.publicPort
  {
  }

  lemma AdmitGoesToTarget(m: Mapping, a: Allowance, rate: Site, conn: Site, p: Packet, ph: Physics, st: State)
    requires m.targetAddr.IPv4?
    ensures Admit(m, a, rate, conn, p, ph, st).1.Translated? ==> Admit(m, a, rate, conn, p, ph, st).1 == ToTarget(m)
  {
    hide Pass, PerSourceLimit, CounterName, Marked, ToTarget;
  }

  lemma MappingInBand(s: Snapshot, lim: Limits, i: nat)
    requires Valid(s, lim) && i < |s.mappings|
    ensures var m := s.mappings[i];
      lim.bandMin <= m.publicPort <= lim.bandMax && m.targetAddr.IPv4? && SP.Contains(lim.targetCidr, m.targetAddr.addr) && m.targetPort != 0
  {
    hide SP.Contains;
    assert MappingFits(s, lim, i);
  }
}
