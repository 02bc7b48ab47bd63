/**
 Guards do not interfere: a packet that is dropped early touches nothing that stands
 behind the drop, and over every sequence of packets through both chains the traffic of
 one mapping never changes another mapping's limiters or prerouting counters.  The two
 forward counters are not isolated in this way: they count by protocol and original
 port, whichever mapping created the connection.
 */
module GuardIsolation {
  import opened Nft
  import opened Machine
  import opened NatChain
  import opened ForwardChain
  import opened Naming
  import opened Snapshots

  // ---- Ownership ----

  predicate OwnsSite(iface: Bytes, r: Rule, g: Guards, site: Site) {
    || site == RateSite(iface, r, EffectiveGuards(r, g))
    || site == ConnSite(iface, r, EffectiveGuards(r, g))
    || (site.SetSite? && site.setName == SetName(r.mappingId))
  }

  /** The counters that the prerouting rules bump. */
  const VerdictSuffixes: seq<string> := [SuffixNew, SuffixRate, SuffixConn, SuffixSource]

  predicate OwnsCounter(r: Rule, name: string) {
    exists s :: s in VerdictSuffixes && name == CounterName(r.mappingId, s)
  }

  lemma GuardRuleCounter(iface: Bytes, r: Rule, limit: Expr, suffix: string)
    ensures |GuardExprs(iface, r, limit, suffix)| == 9
    ensures GuardExprs(iface, r, limit, suffix)[6] == limit && GuardExprs(iface, r, limit, suffix)[7] == ObjrefCounter(r.mappingId, suffix)
  {
    hide CounterName, IfName, Be2;
  }

  lemma RateAndConnSitesDiffer(iface: Bytes, r: Rule, eff: Guards)
    ensures RateSite(iface, r, eff) != ConnSite(iface, r, eff)
  {
    hide GuardExprs;
    GuardRuleCounter(iface, r, RateLimit(eff.newConnRate, eff.newConnBurst), SuffixRate);
    GuardRuleCounter(iface, r, Connlimit(eff.maxConn, CONNLIMIT_INV), SuffixConn);
  }

  /** Two mappings with different ids share no limiter. */
  lemma SitesDisjoint(iface: Bytes, r: Rule, q: Rule, g: Guards, site: Site)
    requires r.mappingId != q.mappingId
    ensures !(OwnsSite(iface, r, g, site) && OwnsSite(iface, q, g, site))
  {
    hide GuardExprs, EffectiveGuards, CounterName, SetName;
    var e, f := EffectiveGuards(r, g), EffectiveGuards(q, g);
    GuardRuleCounter(iface, r, RateLimit(e.newConnRate, e.newConnBurst), SuffixRate);
    GuardRuleCounter(iface, r, Connlimit(e.maxConn, CONNLIMIT_INV), SuffixConn);
    GuardRuleCounter(iface, q, RateLimit(f.newConnRate, f.newConnBurst), SuffixRate);
    GuardRuleCounter(iface, q, Connlimit(f.maxConn, CONNLIMIT_INV), SuffixConn);
    if site.SetSite? && site.setName == SetName(r.mappingId) == SetName(q.mappingId) {
      SetNameInjective(r.mappingId, q.mappingId);
    }
    NamesDisjoint(r, q, SuffixRate, SuffixRate);
    NamesDisjoint(r, q, SuffixRate, SuffixConn);
    NamesDisjoint(r, q, SuffixConn, SuffixRate);
    NamesDisjoint(r, q, SuffixConn, SuffixConn);
  }

  lemma NamesDisjoint(r: Rule, q: Rule, s: string, t: string)
    requires r.mappingId != q.mappingId
    ensures CounterName(r.mappingId, s) != CounterName(q.mappingId, t)
  {
    if CounterName(r.mappingId, s) == CounterName(q.mappingId, t) {
      CounterNameInjective(r.mappingId, s, q.mappingId, t);
    }
  }

  lemma CountersDisjoint(r: Rule, q: Rule, name: string)
    requires r.mappingId != q.mappingId
    ensures !(OwnsCounter(r, name) && OwnsCounter(q, name))
  {
    hide CounterName;
    if OwnsCounter(r, name) && OwnsCounter(q, name) {
      var s :| s in VerdictSuffixes && name == CounterName(r.mappingId, s);
      var t :| t in VerdictSuffixes && name == CounterName(q.mappingId, t);
      NamesDisjoint(r, q, s, t);
    }
  }

  // ---- Early drops ----

  /** A denied source changes no limiter, no counter and no mark. */
  lemma DeniedSourceTouchesNothing(iface: Bytes, rs: seq<Rule>, g: Guards, p: Packet, ph: Physics, st: State, r: Rule)
    requires IsIfName(iface) && IsIfName(p.iif) && RulesOk(rs) && DistinctEndpoints(rs)
    requires r in rs && Selects(iface, r, p) && !SourceAllowed(r, p)
    ensures EvalChain(Render(iface, rs, g), p, ph, st) == (st, Dropped)
  {
    hide EvalChain, Render, DecideAll, Guarded;
    NatChainMeaning(iface, rs, g, p, ph, st);
    DecideBySelected(iface, rs, g, p, ph, st, r);
  }

  /** A per-source drop leaves the rate bucket and the connection list alone, a rate drop leaves the connection list
      alone, and no dropped packet gets its connection marked. */
  lemma EarlierDropTouchesLess(iface: Bytes, rs: seq<Rule>, g: Guards, p: Packet, ph: Physics, st: State, r: Rule)
    requires IsIfName(iface) && IsIfName(p.iif) && RulesOk(rs) && DistinctEndpoints(rs)
    requires r in rs && Selects(iface, r, p) && SourceAllowed(r, p)
    ensures var eff := EffectiveGuards(r, g);
      var (st', o) := EvalChain(Render(iface, rs, g), p, ph, st);
      var perSource := PerSourceGuard(r, eff, p, ph, st);
      && (perSource.1 ==> Seen(st', RateSite(iface, r, eff)) == Seen(st, RateSite(iface, r, eff)))
      && (perSource.1 || RateGuard(iface, r, eff, p, ph, perSource.0).1 ==>
            o == Dropped && Seen(st', ConnSite(iface, r, eff)) == Seen(st, ConnSite(iface, r, eff)))
      && (o == Dropped ==> st'.mark == st.mark)
  {
    var eff := EffectiveGuards(r, g);
    hide EvalChain, Render, DecideAll, Selects, SourceAllowed, IsIfName, RulesOk, DistinctEndpoints, CounterName, SetName, EffectiveGuards, RateExprs, ConnExprs, Keys;
    NatChainMeaning(iface, rs, g, p, ph, st);
    DecideBySelected(iface, rs, g, p, ph, st, r);
    RateAndConnSitesDiffer(iface, r, eff);
  }

  // ---- Slices ----

  /** What belongs to one mapping. */
  function Slice(iface: Bytes, r: Rule, g: Guards, st: State): State {
    State(map s | s in st.guards && OwnsSite(iface, r, g, s) :: st.guards[s],
          map n | n in st.counts && OwnsCounter(r, n) :: st.counts[n],
          [])
  }

  lemma SliceTouch(iface: Bytes, r: Rule, g: Guards, st: State, site: Site, p: Packet)
    ensures OwnsSite(iface, r, g, site) ==>
      Slice(iface, r, g, Touch(st, site, p)) == Touch(Slice(iface, r, g, st), site, p)
    ensures !OwnsSite(iface, r, g, site) ==> Slice(iface, r, g, Touch(st, site, p)) == Slice(iface, r, g, st)
    ensures OwnsSite(iface, r, g, site) ==> Seen(Slice(iface, r, g, st), site) == Seen(st, site)
  {
    hide OwnsSite, OwnsCounter;
    if OwnsSite(iface, r, g, site) {
      assert Slice(iface, r, g, Touch(st, site, p)).guards == Touch(Slice(iface, r, g, st), site, p).guards;
    } else {
      assert Slice(iface, r, g, Touch(st, site, p)).guards == Slice(iface, r, g, st).guards;
    }
  }

  lemma SliceBump(iface: Bytes, r: Rule, g: Guards, st: State, name: string)
    ensures OwnsCounter(r, name) ==> Slice(iface, r, g, Bump(st, name)) == Bump(Slice(iface, r, g, st), name)
    ensures !OwnsCounter(r, name) ==> Slice(iface, r, g, Bump(st, name)) == Slice(iface, r, g, st)
  {
    hide OwnsSite, OwnsCounter;
    if OwnsCounter(r, name) {
      assert Slice(iface, r, g, Bump(st, name)).counts == Bump(Slice(iface, r, g, st), name).counts;
    } else {
      assert Slice(iface, r, g, Bump(st, name)).counts == Slice(iface, r, g, st).counts;
    }
  }

  /** A guard of the mapping works on its slice alone. */
  lemma GuardOwn(iface: Bytes, r: Rule, g: Guards, site: Site, limit: Expr, name: string, p: Packet, ph: Physics, st: State)
    requires OwnsSite(iface, r, g, site) && OwnsCounter(r, name)
    ensures var (a, x) := Guard(site, limit, name, p, ph, st);
      Guard(site, limit, name, p, ph, Slice(iface, r, g, st)) == (Slice(iface, r, g, a), x)
  {
    hide OwnsSite, OwnsCounter, Slice, Touch, Bump;
    SliceTouch(iface, r, g, st, site, p);
    SliceTouch(iface, r, g, Touch(st, site, p), site, p);
    SliceBump(iface, r, g, Touch(st, site, p), name);
  }

  /** A guard of another mapping leaves the slice alone. */
  lemma GuardOther(iface: Bytes, r: Rule, g: Guards, site: Site, limit: Expr, name: string, p: Packet, ph: Physics, st: State)
    requires !OwnsSite(iface, r, g, site) && !OwnsCounter(r, name)
    ensures Slice(iface, r, g, Guard(site, limit, name, p, ph, st).0) == Slice(iface, r, g, st)
  {
    hide OwnsSite, OwnsCounter, Slice, Touch, Bump;
    SliceTouch(iface, r, g, st, site, p);
    SliceBump(iface, r, g, Touch(st, site, p), name);
  }

  lemma OwnNames(iface: Bytes, r: Rule, g: Guards, key: Bytes)
    ensures OwnsSite(iface, r, g, RateSite(iface, r, EffectiveGuards(r, g)))
    ensures OwnsSite(iface, r, g, ConnSite(iface, r, EffectiveGuards(r, g)))
    ensures OwnsSite(iface, r, g, SetSite(SetName(r.mappingId), key))
    ensures OwnsCounter(r, CounterName(r.mappingId, SuffixSource)) && OwnsCounter(r, CounterName(r.mappingId, SuffixRate))
    ensures OwnsCounter(r, CounterName(r.mappingId, SuffixConn)) && OwnsCounter(r, CounterName(r.mappingId, SuffixNew))
  {
    hide CounterName, SetName, EffectiveGuards, RateSite, ConnSite;
    assert VerdictSuffixes[0] == SuffixNew && VerdictSuffixes[1] == SuffixRate && VerdictSuffixes[2] == SuffixConn && VerdictSuffixes[3] == SuffixSource;
  }

  lemma SliceKeys(iface: Bytes, r: Rule, g: Guards, st: State)
    ensures Keys(Slice(iface, r, g, st), SetName(r.mappingId)) == Keys(st, SetName(r.mappingId))
  {
    hide SetName, RateSite, ConnSite, OwnsCounter;
    forall k ensures k in Keys(Slice(iface, r, g, st), SetName(r.mappingId)) <==> k in Keys(st, SetName(r.mappingId)) {
      assert k in Keys(st, SetName(r.mappingId)) <==> SetSite(SetName(r.mappingId), k) in st.guards;
    }
  }

  lemma MarkIsNotOwned(iface: Bytes, r: Rule, g: Guards, st: State, mark: Bytes)
    ensures Slice(iface, r, g, st.(mark := mark)) == Slice(iface, r, g, st)
  {
    hide OwnsSite, OwnsCounter;
  }

  /** The decision of a mapping depends on its own slice, and gives the same verdict on it. */
  lemma DecideOnSlice(iface: Bytes, r: Rule, g: Guards, p: Packet, ph: Physics, st: State)
    ensures var (a, o) := Decide(iface, r, g, p, ph, st);
      var (b, o') := Decide(iface, r, g, p, ph, Slice(iface, r, g, st));
      o == o' && Slice(iface, r, g, a) == Slice(iface, r, g, b)
  {
    SliceIdempotent(iface, r, g, st);
    if SourceAllowed(r, p) {
      var eff := EffectiveGuards(r, g);
      OwnNames(iface, r, g, AddrBytes(p.saddr));
      hide OwnsSite, OwnsCounter, Slice, Guard, CounterName, SetName, EffectiveGuards, RateSite, ConnSite, Keys, SourceAllowed;
      SliceKeys(iface, r, g, st);
      GuardOwn(iface, r, g, SetSite(SetName(r.mappingId), AddrBytes(p.saddr)), RateLimit(eff.perSourceRate, eff.perSourceBurst),
               CounterName(r.mappingId, SuffixSource), p, ph, st);
      var (st1, x1) := PerSourceGuard(r, eff, p, ph, st);
      assert PerSourceGuard(r, eff, p, ph, Slice(iface, r, g, st)) == (Slice(iface, r, g, st1), x1);
      GuardOwn(iface, r, g, RateSite(iface, r, eff), RateLimit(eff.newConnRate, eff.newConnBurst), CounterName(r.mappingId, SuffixRate), p, ph, st1);
      var (st2, x2) := RateGuard(iface, r, eff, p, ph, st1);
      assert RateGuard(iface, r, eff, p, ph, Slice(iface, r, g, st1)) == (Slice(iface, r, g, st2), x2);
      GuardOwn(iface, r, g, ConnSite(iface, r, eff), Connlimit(eff.maxConn, CONNLIMIT_INV), CounterName(r.mappingId, SuffixConn), p, ph, st2);
      var (st3, x3) := ConnGuard(iface, r, eff, p, ph, st2);
      assert ConnGuard(iface, r, eff, p, ph, Slice(iface, r, g, st2)) == (Slice(iface, r, g, st3), x3);
      SliceIdempotent(iface, r, g, st1);
      SliceIdempotent(iface, r, g, st2);
      SliceIdempotent(iface, r, g, st3);
      TranslateOnSlice(iface, r, g, st3);
    }
  }

  lemma SliceIdempotent(iface: Bytes, r: Rule, g: Guards, st: State)
    ensures Slice(iface, r, g, Slice(iface, r, g, st)) == Slice(iface, r, g, st)
  {
    hide OwnsSite, OwnsCounter;
  }

  lemma TranslateOnSlice(iface: Bytes, r: Rule, g: Guards, st: State)
    ensures Slice(iface, r, g, Translate(r, st).0) == Slice(iface, r, g, Translate(r, Slice(iface, r, g, st)).0)
    ensures Translate(r, st).1 == Translate(r, Slice(iface, r, g, st)).1
  {
    OwnNames(iface, r, g, []);
    hide OwnsSite, OwnsCounter, Slice, CounterName, Bump;
    var sl := Slice(iface, r, g, st);
    var name := CounterName(r.mappingId, SuffixNew);
    MarkIsNotOwned(iface, r, g, st, Le4(r.flowMark));
    MarkIsNotOwned(iface, r, g, sl, Le4(r.flowMark));
    SliceIdempotent(iface, r, g, st);
    SliceBump(iface, r, g, st, name);
    SliceBump(iface, r, g, sl, name);
    SliceBump(iface, r, g, st.(mark := Le4(r.flowMark)), name);
    SliceBump(iface, r, g, sl.(mark := Le4(r.flowMark)), name);
  }

  /** The decision of another mapping leaves the slice alone. */
  lemma DecideOther(iface: Bytes, r: Rule, q: Rule, g: Guards, p: Packet, ph: Physics, st: State)
    requires r.mappingId != q.mappingId
    ensures Slice(iface, r, g, Decide(iface, q, g, p, ph, st).0) == Slice(iface, r, g, st)
  {
    var eff := EffectiveGuards(q, g);
    OwnNames(iface, q, g, AddrBytes(p.saddr));
    hide OwnsSite, OwnsCounter, Slice, Guard, CounterName, SetName, EffectiveGuards, RateSite, ConnSite, Keys, SourceAllowed, Bump;
    var sourceSite := SetSite(SetName(q.mappingId), AddrBytes(p.saddr));
    SitesDisjoint(iface, r, q, g, sourceSite);
    SitesDisjoint(iface, r, q, g, RateSite(iface, q, eff));
    SitesDisjoint(iface, r, q, g, ConnSite(iface, q, eff));
    CountersDisjoint(r, q, CounterName(q.mappingId, SuffixSource));
    CountersDisjoint(r, q, CounterName(q.mappingId, SuffixRate));
    CountersDisjoint(r, q, CounterName(q.mappingId, SuffixConn));
    CountersDisjoint(r, q, CounterName(q.mappingId, SuffixNew));
    GuardOther(iface, r, g, sourceSite, RateLimit(eff.perSourceRate, eff.perSourceBurst), CounterName(q.mappingId, SuffixSource), p, ph, st);
    var st1 := PerSourceGuard(q, eff, p, ph, st).0;
    GuardOther(iface, r, g, RateSite(iface, q, eff), RateLimit(eff.newConnRate, eff.newConnBurst), CounterName(q.mappingId, SuffixRate), p, ph, st1);
    var st2 := RateGuard(iface, q, eff, p, ph, st1).0;
    GuardOther(iface, r, g, ConnSite(iface, q, eff), Connlimit(eff.maxConn, CONNLIMIT_INV), CounterName(q.mappingId, SuffixConn), p, ph, st2);
    var st3 := ConnGuard(iface, q, eff, p, ph, st2).0;
    MarkIsNotOwned(iface, r, g, st3, Le4(q.flowMark));
    SliceBump(iface, r, g, st3, CounterName(q.mappingId, SuffixNew));
    SliceBump(iface, r, g, st3.(mark := Le4(q.flowMark)), CounterName(q.mappingId, SuffixNew));
  }

  // ---- Packet sequences ----

  /** A packet at one of the two hooks. */
  datatype Hooked = Prerouting(packet: Packet) | Forwarding(packet: Packet)

  /** One packet through its chain, with its own connection mark. */
  function Through(iface: Bytes, rs: seq<Rule>, rets: seq<Retirement>, g: Guards, h: Hooked, ph: Physics, st: State): (State, Outcome)
    requires RulesOk(rs)
  {
    var st0 := st.(mark := Le4(h.packet.ctMark));
    if h.Prerouting? then EvalChain(Render(iface, rs, g), h.packet, ph, st0)
    else EvalChain(RenderForward(iface, rs) + RenderFences(iface, rets), h.packet, ph, st0)
  }

  /** The limiters and counters after a sequence of packets through both chains. */
  function RunPackets(iface: Bytes, rs: seq<Rule>, rets: seq<Retirement>, g: Guards, hs: seq<Hooked>, ph: Physics, st: State): State
    requires RulesOk(rs)
  {
    if hs == [] then st
    else Through(iface, rs, rets, g, hs[|hs| - 1], ph, RunPackets(iface, rs, rets, g, hs[..|hs| - 1], ph, st)).0
  }

  /** The packets that select one mapping, in order. */
  function Only(iface: Bytes, r: Rule, hs: seq<Hooked>): seq<Hooked> {
    if hs == [] then []
    else
      var rest, h := Only(iface, r, hs[..|hs| - 1]), hs[|hs| - 1];
      if h.Prerouting? && Selects(iface, r, h.packet) then rest + [h] else rest
  }

  predicate DistinctIds(rs: seq<Rule>) {
    forall i, j :: 0 <= i < j < |rs| ==> rs[i].mappingId != rs[j].mappingId
  }

  predicate WellNamed(iface: Bytes, hs: seq<Hooked>) {
    forall i :: 0 <= i < |hs| ==> PacketOk(iface, hs[i].packet)
  }

  lemma PacketStep(iface: Bytes, rs: seq<Rule>, g: Guards, p: Packet, ph: Physics, st: State, r: Rule)
    requires IsIfName(iface) && IsIfName(p.iif) && RulesOk(rs) && DistinctEndpoints(rs) && DistinctIds(rs) && r in rs
    ensures var (st', o) := EvalChain(Render(iface, rs, g), p, ph, st);
      if Selects(iface, r, p) then (st', o) == Decide(iface, r, g, p, ph, st)
      else Slice(iface, r, g, st') == Slice(iface, r, g, st)
  {
    hide EvalChain, Render, DecideAll, Decide, Selects, IsIfName, Slice, RulesOk, DistinctEndpoints;
    NatChainMeaning(iface, rs, g, p, ph, st);
    if Selects(iface, r, p) {
      DecideBySelected(iface, rs, g, p, ph, st, r);
    } else if q :| q in rs && Selects(iface, q, p) {
      DecideBySelected(iface, rs, g, p, ph, st, q);
      DistinctIdsElements(rs, q, r);
      DecideOther(iface, r, q, g, p, ph, st);
    } else {
      assert forall i :: 0 <= i < |rs| ==> rs[i] in rs;
      DecideUnselected(iface, rs, g, p, ph, st);
    }
  }

  lemma DistinctIdsElements(rs: seq<Rule>, q: Rule, r: Rule)
    requires DistinctIds(rs) && q in rs && r in rs && q != r
    ensures q.mappingId != r.mappingId
  {
    var i :| 0 <= i < |rs| && rs[i] == q;
    var j :| 0 <= j < |rs| && rs[j] == r;
    assert i < j || j < i;
  }

  // ---- The forward counters ----

  lemma NotAVerdict(r: Rule, id: int, suffix: string)
    requires suffix == SuffixIn || suffix == SuffixOut
    ensures !OwnsCounter(r, CounterName(id, suffix))
  {
    hide CounterName;
    if OwnsCounter(r, CounterName(id, suffix)) {
      var s :| s in VerdictSuffixes && CounterName(id, suffix) == CounterName(r.mappingId, s);
      CounterNameInjective(id, suffix, r.mappingId, s);
    }
  }

  /** Metering touches no limiter and no prerouting counter of any mapping. */
  lemma {:induction false} MeterLeavesSlice(iface: Bytes, rs: seq<Rule>, g: Guards, p: Packet, st: State, r: Rule)
    ensures Slice(iface, r, g, MeterAll(iface, rs, p, st)) == Slice(iface, r, g, st)
    decreases |rs|
  {
    hide Slice, Bump, CounterName, OwnsCounter, Metered, Crosses;
    if rs != [] {
      var q := rs[0];
      NotAVerdict(r, q.mappingId, SuffixIn);
      NotAVerdict(r, q.mappingId, SuffixOut);
      SliceBump(iface, r, g, st, CounterName(q.mappingId, SuffixIn));
      SliceBump(iface, r, g, st, CounterName(q.mappingId, SuffixOut));
      SliceBump(iface, r, g, Bump(st, CounterName(q.mappingId, SuffixIn)), CounterName(q.mappingId, SuffixOut));
      MeterLeavesSlice(iface, rs[1..], g, p, MeterOne(iface, q, p, st), r);
    }
  }

  function Side(suffix: string): MetaKey {
    if suffix == SuffixIn then IifName else OifName
  }

  lemma BumpCounts(st: State, name: string, other: string)
    ensures Count(Bump(st, name), other) == Count(st, other) + if name == other then 1 else 0
  {
  }

  lemma MeterOneCounts(iface: Bytes, q: Rule, p: Packet, st: State, r: Rule, suffix: string)
    requires suffix == SuffixIn || suffix == SuffixOut
    ensures Count(MeterOne(iface, q, p, st), CounterName(r.mappingId, suffix)) ==
      Count(st, CounterName(r.mappingId, suffix)) +
      if q.mappingId == r.mappingId && Crosses(iface, Side(suffix), p) && Metered(q, p) then 1 else 0
  {
    hide Bump, Count, CounterName, Metered, Crosses;
    var name := CounterName(r.mappingId, suffix);
    var a, b := CounterName(q.mappingId, SuffixIn), CounterName(q.mappingId, SuffixOut);
    BumpCounts(st, a, name);
    BumpCounts(st, b, name);
    BumpCounts(Bump(st, a), b, name);
    if a == name {
      CounterNameInjective(q.mappingId, SuffixIn, r.mappingId, suffix);
    }
    if b == name {
      CounterNameInjective(q.mappingId, SuffixOut, r.mappingId, suffix);
    }
  }

  lemma {:induction false} MeterAllCounts(iface: Bytes, rs: seq<Rule>, p: Packet, st: State, r: Rule, suffix: string)
    requires DistinctIds(rs) && (suffix == SuffixIn || suffix == SuffixOut)
    ensures Count(MeterAll(iface, rs, p, st), CounterName(r.mappingId, suffix)) ==
      Count(st, CounterName(r.mappingId, suffix)) +
      if (exists q :: q in rs && q.mappingId == r.mappingId && Metered(q, p)) && Crosses(iface, Side(suffix), p) then 1 else 0
    decreases |rs|
  {
    hide Count, CounterName, Metered, Crosses, MeterOne;
    if rs != [] {
      MeterOneCounts(iface, rs[0], p, st, r, suffix);
      MeterAllCounts(iface, rs[1..], p, MeterOne(iface, rs[0], p, st), r, suffix);
      assert forall q :: q in rs <==> q == rs[0] || q in rs[1..];
      if q :| q in rs[1..] && q.mappingId == r.mappingId {
        var i :| 1 <= i < |rs| && rs[i] == q;
        assert rs[0].mappingId != rs[i].mappingId;
      }
    }
  }

  lemma GuardKeepsCount(site: Site, limit: Expr, counter: string, p: Packet, ph: Physics, st: State, name: string)
    requires name != counter
    ensures Count(Guard(site, limit, counter, p, ph, st).0, name) == Count(st, name)
  {
  }

  /** No prerouting rule bumps a forward counter. */
  lemma DecideKeepsForward(iface: Bytes, q: Rule, g: Guards, p: Packet, ph: Physics, st: State, id: int, suffix: string)
    requires suffix == SuffixIn || suffix == SuffixOut
    ensures Count(Decide(iface, q, g, p, ph, st).0, CounterName(id, suffix)) == Count(st, CounterName(id, suffix))
  {
    var eff, name := EffectiveGuards(q, g), CounterName(id, suffix);
    OtherName(q.mappingId, SuffixSource, id, suffix);
    OtherName(q.mappingId, SuffixRate, id, suffix);
    OtherName(q.mappingId, SuffixConn, id, suffix);
    OtherName(q.mappingId, SuffixNew, id, suffix);
    hide OwnsCounter, OwnsSite, Guard, CounterName, AddrBytes, Le4, SetName, EffectiveGuards, RateSite, ConnSite, Keys, SourceAllowed, Bump, Count;
    GuardKeepsCount(SetSite(SetName(q.mappingId), AddrBytes(p.saddr)), RateLimit(eff.perSourceRate, eff.perSourceBurst),
                    CounterName(q.mappingId, SuffixSource), p, ph, st, name);
    var st1 := PerSourceGuard(q, eff, p, ph, st).0;
    GuardKeepsCount(RateSite(iface, q, eff), RateLimit(eff.newConnRate, eff.newConnBurst), CounterName(q.mappingId, SuffixRate), p, ph, st1, name);
    var st2 := RateGuard(iface, q, eff, p, ph, st1).0;
    GuardKeepsCount(ConnSite(iface, q, eff), Connlimit(eff.maxConn, CONNLIMIT_INV), CounterName(q.mappingId, SuffixConn), p, ph, st2, name);
    var st3 := ConnGuard(iface, q, eff, p, ph, st2).0;
    MarkKeepsCount(st3, Le4(q.flowMark), name);
    BumpCounts(st3, CounterName(q.mappingId, SuffixNew), name);
    BumpCounts(st3.(mark := Le4(q.flowMark)), CounterName(q.mappingId, SuffixNew), name);
  }

  lemma OtherName(id: int, suffix: string, id': int, suffix': string)
    requires suffix != suffix'
    ensures CounterName(id, suffix) != CounterName(id', suffix')
  {
    hide CounterName;
    if CounterName(id, suffix) == CounterName(id', suffix') {
      CounterNameInjective(id, suffix, id', suffix');
    }
  }

  lemma MarkKeepsCount(st: State, mark: Bytes, name: string)
    ensures Count(st.(mark := mark), name) == Count(st, name)
  {
  }

  lemma PreroutingKeepsForward(iface: Bytes, rs: seq<Rule>, g: Guards, p: Packet, ph: Physics, st: State, id: int, suffix: string)
    requires IsIfName(iface) && IsIfName(p.iif) && RulesOk(rs) && DistinctEndpoints(rs)
    requires suffix == SuffixIn || suffix == SuffixOut
    ensures Count(EvalChain(Render(iface, rs, g), p, ph, st).0, CounterName(id, suffix)) == Count(st, CounterName(id, suffix))
  {
    hide EvalChain, Render, DecideAll, Decide, Selects, IsIfName, RulesOk, DistinctEndpoints, Count, CounterName;
    NatChainMeaning(iface, rs, g, p, ph, st);
    if q :| q in rs && Selects(iface, q, p) {
      DecideBySelected(iface, rs, g, p, ph, st, q);
      DecideKeepsForward(iface, q, g, p, ph, st, id, suffix);
    } else {
      assert forall i :: 0 <= i < |rs| ==> rs[i] in rs;
      DecideUnselected(iface, rs, g, p, ph, st);
    }
  }

  /** The forwarded packets of translated flows that cross on this side with the mapping's protocol and original port. */
  function Crossings(iface: Bytes, r: Rule, suffix: string, hs: seq<Hooked>): nat {
    if hs == [] then 0
    else
      var h := hs[|hs| - 1];
      Crossings(iface, r, suffix, hs[..|hs| - 1])
      + if h.Forwarding? && Crosses(iface, Side(suffix), h.packet) && Metered(r, h.packet) then 1 else 0
  }

  lemma HookCounts(iface: Bytes, rs: seq<Rule>, rets: seq<Retirement>, g: Guards, h: Hooked, ph: Physics, st: State, r: Rule, suffix: string)
    requires RulesOk(rs) && DistinctEndpoints(rs) && DistinctIds(rs) && r in rs && PacketOk(iface, h.packet)
    requires suffix == SuffixIn || suffix == SuffixOut
    ensures Count(Through(iface, rs, rets, g, h, ph, st).0, CounterName(r.mappingId, suffix)) ==
      Count(st, CounterName(r.mappingId, suffix)) +
      if h.Forwarding? && Crosses(iface, Side(suffix), h.packet) && Metered(r, h.packet) then 1 else 0
  {
    hide EvalChain, Render, RenderForward, RenderFences, RulesOk, DistinctEndpoints, Count, CounterName, Metered, Crosses, MeterAll, Fenced;
    var p := h.packet;
    var st0 := st.(mark := Le4(p.ctMark));
    MarkKeepsCount(st, Le4(p.ctMark), CounterName(r.mappingId, suffix));
    if h.Prerouting? {
      PreroutingKeepsForward(iface, rs, g, p, ph, st0, r.mappingId, suffix);
    } else {
      ForwardMeaning(iface, rs, rets, p, ph, st0);
      MeterAllCounts(iface, rs, p, st0, r, suffix);
      forall q | q in rs && q.mappingId == r.mappingId ensures q == r {
        if q != r {
          DistinctIdsElements(rs, q, r);
        }
      }
    }
  }

  /** The forward counters, exactly: over every packet sequence a mapping's "in" and "out" counters grow by the crossings of
      translated flows with its protocol and original port, whoever created them and whether or not a fence then drops them. */
  lemma {:induction false} ForwardCountersExact(iface: Bytes, rs: seq<Rule>, rets: seq<Retirement>, g: Guards, hs: seq<Hooked>, ph: Physics, st: State, r: Rule, suffix: string)
    requires RulesOk(rs) && DistinctEndpoints(rs) && DistinctIds(rs) && r in rs && WellNamed(iface, hs)
    requires suffix == SuffixIn || suffix == SuffixOut
    ensures Count(RunPackets(iface, rs, rets, g, hs, ph, st), CounterName(r.mappingId, suffix)) ==
      Count(st, CounterName(r.mappingId, suffix)) + Crossings(iface, r, suffix, hs)
  {
    hide Through, RulesOk, DistinctEndpoints, DistinctIds, Count, CounterName, Metered, Crosses, PacketOk;
    if hs != [] {
      var init, h := hs[..|hs| - 1], hs[|hs| - 1];
      ForwardCountersExact(iface, rs, rets, g, init, ph, st, r, suffix);
      HookCounts(iface, rs, rets, g, h, ph, RunPackets(iface, rs, rets, g, init, ph, st), r, suffix);
    }
  }

  // ---- Isolation ----

  lemma HookStep(iface: Bytes, rs: seq<Rule>, rets: seq<Retirement>, g: Guards, h: Hooked, ph: Physics, st: State, r: Rule)
    requires RulesOk(rs) && DistinctEndpoints(rs) && DistinctIds(rs) && r in rs && PacketOk(iface, h.packet)
    ensures var (st', o) := Through(iface, rs, rets, g, h, ph, st);
      if h.Prerouting? && Selects(iface, r, h.packet) then (st', o) == Decide(iface, r, g, h.packet, ph, st.(mark := Le4(h.packet.ctMark)))
      else Slice(iface, r, g, st') == Slice(iface, r, g, st)
  {
    hide EvalChain, Render, RenderForward, RenderFences, Decide, Selects, Slice, RulesOk, DistinctEndpoints, DistinctIds, MeterAll, Fenced, Le4;
    var p := h.packet;
    var st0 := st.(mark := Le4(p.ctMark));
    MarkIsNotOwned(iface, r, g, st, Le4(p.ctMark));
    if h.Prerouting? {
      PacketStep(iface, rs, g, p, ph, st0, r);
    } else {
      ForwardMeaning(iface, rs, rets, p, ph, st0);
      MeterLeavesSlice(iface, rs, g, p, st0, r);
    }
  }

  /** Limiters and prerouting counters of a mapping after any traffic through both chains are those its own new connections
      alone would leave. */
  lemma {:induction false} TrafficIsIsolated(iface: Bytes, rs: seq<Rule>, rets: seq<Retirement>, g: Guards, hs: seq<Hooked>, ph: Physics, st: State, r: Rule)
    requires RulesOk(rs) && DistinctEndpoints(rs) && DistinctIds(rs) && r in rs && WellNamed(iface, hs)
    ensures Slice(iface, r, g, RunPackets(iface, rs, rets, g, hs, ph, st)) ==
            Slice(iface, r, g, RunPackets(iface, rs, rets, g, Only(iface, r, hs), ph, st))
  {
    hide Through, Decide, Selects, Slice, RulesOk, DistinctEndpoints, DistinctIds, Le4, PacketOk;
    if hs != [] {
      var init, h := hs[..|hs| - 1], hs[|hs| - 1];
      TrafficIsIsolated(iface, rs, rets, g, init, ph, st, r);
      var own := Only(iface, r, init);
      var a, b := RunPackets(iface, rs, rets, g, init, ph, st), RunPackets(iface, rs, rets, g, own, ph, st);
      HookStep(iface, rs, rets, g, h, ph, a, r);
      HookStep(iface, rs, rets, g, h, ph, b, r);
      if h.Prerouting? && Selects(iface, r, h.packet) {
        assert (own + [h])[..|own|] == own;
        SameOnSlice(iface, r, g, h.packet, ph, a, b);
      }
    }
  }

  lemma SameOnSlice(iface: Bytes, r: Rule, g: Guards, p: Packet, ph: Physics, a: State, b: State)
    requires Slice(iface, r, g, a) == Slice(iface, r, g, b)
    ensures var (a', o) := Decide(iface, r, g, p, ph, a.(mark := Le4(p.ctMark)));
      var (b', o') := Decide(iface, r, g, p, ph, b.(mark := Le4(p.ctMark)));
      o == o' && Slice(iface, r, g, a') == Slice(iface, r, g, b')
  {
    hide Decide, Slice, Le4;
    var mark := Le4(p.ctMark);
    MarkIsNotOwned(iface, r, g, a, mark);
    MarkIsNotOwned(iface, r, g, b, mark);
    DecideOnSlice(iface, r, g, p, ph, a.(mark := mark));
    DecideOnSlice(iface, r, g, p, ph, b.(mark := mark));
  }

  /** And so is the verdict on every new connection of the mapping. */
  lemma VerdictIsIsolated(iface: Bytes, rs: seq<Rule>, rets: seq<Retirement>, g: Guards, hs: seq<Hooked>, ph: Physics, st: State, r: Rule, p: Packet)
    requires RulesOk(rs) && DistinctEndpoints(rs) && DistinctIds(rs) && r in rs && WellNamed(iface, hs)
    requires PacketOk(iface, p) && Selects(iface, r, p)
    ensures Through(iface, rs, rets, g, Prerouting(p), ph, RunPackets(iface, rs, rets, g, hs, ph, st)).1 ==
            Through(iface, rs, rets, g, Prerouting(p), ph, RunPackets(iface, rs, rets, g, Only(iface, r, hs), ph, st)).1
  {
    hide Through, Decide, Selects, Slice, RulesOk, DistinctEndpoints, DistinctIds, RunPackets, Only, PacketOk, WellNamed, Le4;
    TrafficIsIsolated(iface, rs, rets, g, hs, ph, st, r);
    var a, b := RunPackets(iface, rs, rets, g, hs, ph, st), RunPackets(iface, rs, rets, g, Only(iface, r, hs), ph, st);
    HookStep(iface, rs, rets, g, Prerouting(p), ph, a, r);
    HookStep(iface, rs, rets, g, Prerouting(p), ph, b, r);
    SameOnSlice(iface, r, g, p, ph, a, b);
  }
}
