/**
 The prerouting chain preserves meaning: running the compiled rules of a mapping set on
 the register machine is the same as one decision about the mapping the packet selects.
 */
module NatChain {
  import opened Values
  import opened Nft
  import opened Machine
  import SP = SourcePolicy

  // ---- The decision ----

  /** The packet enters the public interface for this mapping's protocol and port. */
  predicate Selects(iface: Bytes, r: Rule, p: Packet) {
    p.iif == iface && p.l4proto == ProtoNumber(r.proto) && p.dport == r.publicPort
  }

  predicate SourceAllowed(r: Rule, p: Packet) {
    r.sourcePolicy.None? || exists i :: 0 <= i < |r.sourcePolicy.value| && SP.Contains(r.sourcePolicy.value[i], p.saddr)
  }

  function RateSite(iface: Bytes, r: Rule, eff: Guards): Site {
    RuleSite(RateExprs(iface, r, eff))
  }

  function ConnSite(iface: Bytes, r: Rule, eff: Guards): Site {
    RuleSite(ConnExprs(iface, r, eff))
  }

  /** A limiter at a site takes note of the packet; above its limit the packet is counted and dropped. */
  function Guard(site: Site, limit: Expr, counter: string, p: Packet, ph: Physics, st: State): (State, bool) {
    var st' := Touch(st, site, p);
    if ph.over(site, limit, Seen(st', site)) then (Bump(st', counter), true) else (st', false)
  }

  /** A full set tracks no new source: the packet passes on to the aggregate guard. */
  function PerSourceGuard(r: Rule, eff: Guards, p: Packet, ph: Physics, st: State): (State, bool) {
    var name, key := SetName(r.mappingId), AddrBytes(p.saddr);
    if eff.perSourceRate == 0 || !ph.room(name, Keys(st, name), key) then (st, false)
    else Guard(SetSite(name, key), RateLimit(eff.perSourceRate, eff.perSourceBurst), CounterName(r.mappingId, SuffixSource), p, ph, st)
  }

  function RateGuard(iface: Bytes, r: Rule, eff: Guards, p: Packet, ph: Physics, st: State): (State, bool) {
    if eff.newConnRate == 0 then (st, false)
    else Guard(RateSite(iface, r, eff), RateLimit(eff.newConnRate, eff.newConnBurst), CounterName(r.mappingId, SuffixRate), p, ph, st)
  }

  function ConnGuard(iface: Bytes, r: Rule, eff: Guards, p: Packet, ph: Physics, st: State): (State, bool) {
    if eff.maxConn == 0 then (st, false)
    else Guard(ConnSite(iface, r, eff), Connlimit(eff.maxConn, CONNLIMIT_INV), CounterName(r.mappingId, SuffixConn), p, ph, st)
  }

  /** DNAT to the target, after the connection got the mapping's mark. */
  function Translate(r: Rule, st: State): (State, Outcome) {
    (Bump(if r.flowMark != 0 then st.(mark := Le4(r.flowMark)) else st, CounterName(r.mappingId, SuffixNew)),
     Translated(AddrBytes(r.target), AddrBytes(r.target), Be2(r.targetPort), Be2(r.targetPort)))
  }

  /** The guards in order, then the translation. */
  function Guarded(iface: Bytes, r: Rule, eff: Guards, p: Packet, ph: Physics, st: State): (State, Outcome) {
    var (st1, perSource) := PerSourceGuard(r, eff, p, ph, st);
    if perSource then (st1, Dropped)
    else
      var (st2, rate) := RateGuard(iface, r, eff, p, ph, st1);
      if rate then (st2, Dropped)
      else
        var (st3, conn) := ConnGuard(iface, r, eff, p, ph, st2);
        if conn then (st3, Dropped) else Translate(r, st3)
  }

  /** What a selected mapping does with a packet. */
  function Decide(iface: Bytes, r: Rule, g: Guards, p: Packet, ph: Physics, st: State): (State, Outcome) {
    if !SourceAllowed(r, p) then (st, Dropped) else Guarded(iface, r, EffectiveGuards(r, g), p, ph, st)
  }

  /** The first rule that the packet selects decides; without one the packet passes untouched. */
  function DecideAll(iface: Bytes, rs: seq<Rule>, g: Guards, p: Packet, ph: Physics, st: State): (State, Outcome) {
    if rs == [] then (st, Accepted)
    else if Selects(iface, rs[0], p) then Decide(iface, rs[0], g, p, ph, st)
    else DecideAll(iface, rs[1..], g, p, ph, st)
  }

  // ---- Byte encodings ----

  lemma Be2Injective(x: u16, y: u16)
    ensures Be2(x) == Be2(y) <==> x == y
  {
    if Be2(x) == Be2(y) {
      assert Be2(x)[0] == Be2(y)[0] && Be2(x)[1] == Be2(y)[1];
    }
  }

  lemma Le4Injective(x: u32, y: u32)
    ensures Le4(x) == Le4(y) <==> x == y
  {
    if Le4(x) == Le4(y) {
      assert Le4(x)[0] == Le4(y)[0] && Le4(x)[1] == Le4(y)[1] && Le4(x)[2] == Le4(y)[2] && Le4(x)[3] == Le4(y)[3];
      assert x / 256 / 256 / 256 == y / 256 / 256 / 256;
      assert x / 256 / 256 == y / 256 / 256;
      assert x / 256 == y / 256;
    }
  }

  lemma IfNameInjective(m: Bytes, n: Bytes)
    requires IsIfName(m) && IsIfName(n)
    ensures IfName(m) == IfName(n) <==> m == n
  {
    if IfName(m) == IfName(n) {
      assert IfName(m)[|m|] == 0 && IfName(n)[|n|] == 0;
      forall i | 0 <= i < |m| ensures m[i] == n[i] {
        assert IfName(m)[i] == IfName(n)[i];
      }
    }
  }

  // ---- Tests and the mapping selector ----

  /** A test that loads `v` goes on exactly when `v` is the expected data. */
  lemma TestStep(load: Expr, v: Bytes, data: Bytes, rest: seq<Expr>, site: Site, p: Packet, ph: Physics, c: Config)
    requires Exec(load, site, p, ph, c) == (SetReg(c, 1, v), Continue)
    ensures ExecAll(Test(load, data) + rest, site, p, ph, c) ==
      if v == data then ExecAll(rest, site, p, ph, SetReg(c, 1, v)) else (SetReg(c, 1, v), Break)
  {
    ExecTwo(load, Cmp(CmpEq, 1, data), rest, site, p, ph, c);
  }

  /** A packet for another mapping leaves the rule at once, with nothing changed. */
  lemma MatchStep(iface: Bytes, r: Rule, rest: seq<Expr>, site: Site, p: Packet, ph: Physics, st: State)
    requires IsIfName(iface) && IsIfName(p.iif)
    ensures var (d, o) := ExecAll(MatchExprs(iface, r) + rest, site, p, ph, Config(map[], st));
      if Selects(iface, r, p) then (d, o) == ExecAll(rest, site, p, ph, Config(map[1 := Be2(p.dport)], st))
      else o == Break && d.state == st
  {
    var c0 := Config(map[], st);
    var c1 := SetReg(c0, 1, IfName(p.iif));
    var c2 := SetReg(c1, 1, [p.l4proto]);
    var c3 := SetReg(c2, 1, Be2(p.dport));
    var t1, t2, t3 := Test(LoadMeta(IifName), IfName(iface)), Test(LoadMeta(L4Proto), [ProtoNumber(r.proto)]), Test(LoadDport, Be2(r.publicPort));
    assert MatchExprs(iface, r) + rest == t1 + (t2 + (t3 + rest));
    IfNameInjective(p.iif, iface);
    Be2Injective(p.dport, r.publicPort);
    assert Exec(LoadMeta(IifName), site, p, ph, c0) == (c1, Continue);
    assert Exec(LoadMeta(L4Proto), site, p, ph, c1) == (c2, Continue);
    assert Exec(LoadDport, site, p, ph, c2) == (c3, Continue);
    assert c3 == Config(map[1 := Be2(p.dport)], st);
    hide Exec, ExecAll, Test, IfName, Be2, MatchExprs;
    TestStep(LoadMeta(IifName), IfName(p.iif), IfName(iface), t2 + (t3 + rest), site, p, ph, c0);
    TestStep(LoadMeta(L4Proto), [p.l4proto], [ProtoNumber(r.proto)], t3 + rest, site, p, ph, c1);
    TestStep(LoadDport, Be2(p.dport), Be2(r.publicPort), rest, site, p, ph, c2);
  }

  /** The registers a matched rule continues with. */
  function Matched(p: Packet, st: State): Config {
    Config(map[1 := Be2(p.dport)], st)
  }

  /** Expressions that are their own normal form. */
  predicate Plain(es: seq<Expr>) {
    forall i :: 0 <= i < |es| ==> Normal(es[i]) == es[i]
  }

  lemma PlainConcat(a: seq<Expr>, b: seq<Expr>)
    requires Plain(a) && Plain(b)
    ensures Plain(a + b)
  {
    hide Normal;
  }

  lemma {:induction false} PlainIsNormal(es: seq<Expr>)
    requires Plain(es)
    ensures Normals(es) == es
  {
    hide Normal;
    if es != [] {
      PlainIsNormal(es[1..]);
    }
  }

  lemma MatchRule(iface: Bytes, r: Rule, rest: seq<Expr>, p: Packet, ph: Physics, st: State)
    requires IsIfName(iface) && IsIfName(p.iif) && Plain(MatchExprs(iface, r) + rest)
    ensures var es := MatchExprs(iface, r) + rest;
      if Selects(iface, r, p) then
        var (c, o) := ExecAll(rest, RuleSite(es), p, ph, Matched(p, st));
        EvalRule(es, p, ph, st) == (c.state, o)
      else EvalRule(es, p, ph, st) == (st, Break)
  {
    var es := MatchExprs(iface, r) + rest;
    PlainIsNormal(es);
    hide ExecAll, Normals, MatchExprs, Plain, Selects, IsIfName;
    MatchStep(iface, r, rest, RuleSite(es), p, ph, st);
  }

  // ---- The five kinds of rule ----

  lemma WordBack(b: bv8)
    ensures ToWord(OfWord(b)) == b
  {
  }

  lemma ZeroWord()
    ensures ToWord(0) == 0
  {
  }

  lemma OfWordInjective(x: bv8, y: bv8)
    ensures OfWord(x) == OfWord(y) <==> x == y
  {
    if OfWord(x) == OfWord(y) {
      SP.ByteIsItsValue(x, y);
    }
  }

  lemma XorZero(x: bv8, m: bv8)
    ensures AndXorWord(x, m, 0) == x & m
  {
  }

  /** Masking a byte in a register is masking the machine byte. */
  lemma MaskedByte(x: bv8, m: bv8, y: bv8)
    ensures AndXorByte(OfWord(x), OfWord(m), 0) == OfWord(y) <==> SP.MaskEq(x, m, y)
  {
    hide ToWord, OfWord, AndXorWord;
    WordBack(x);
    WordBack(m);
    ZeroWord();
    XorZero(x, m);
    OfWordInjective(x & m, y);
  }

  lemma FourBytes(v: Bytes, w: Bytes)
    requires |v| == 4 && |w| == 4
    ensures v == w <==> v[0] == w[0] && v[1] == w[1] && v[2] == w[2] && v[3] == w[3]
  {
  }

  lemma MaskedSource(q: SP.Prefix, x: SP.Addr)
    requires SP.Canonical(q)
    ensures AndXor(AddrBytes(x), NetMaskBytes(q.bits), Zero4) == AddrBytes(q.addr) <==> SP.Contains(q, x)
  {
    assert q.bits <= 32;
    hide SP.Canonical, SP.Contains, SP.MaskBytes, SP.MaskEq, AndXorByte, OfWord;
    var m := SP.MaskBytes(q.bits);
    var n := NetMaskBytes(q.bits);
    SP.MaskDecidesContainment(q, x, m);
    MaskedByte(x.a, m[0], q.addr.a);
    MaskedByte(x.b, m[1], q.addr.b);
    MaskedByte(x.c, m[2], q.addr.c);
    MaskedByte(x.d, m[3], q.addr.d);
    FourBytes(AndXor(AddrBytes(x), n, Zero4), AddrBytes(q.addr));
  }

  lemma OutsideOne(q: SP.Prefix, site: Site, p: Packet, ph: Physics, c: Config)
    requires SP.Canonical(q)
    ensures var (d, o) := ExecAll(OutsidePrefix(q), site, p, ph, c);
      d.state == c.state && o == if SP.Contains(q, p.saddr) then Break else Continue
  {
    MaskedSource(q, p.saddr);
    assert q.bits <= 32;
    hide AndXor, SP.Contains, SP.Canonical, ExecAll, NetMaskBytes, OfWord;
    var m := NetMaskBytes(q.bits);
    var v := AndXor(AddrBytes(p.saddr), m, Zero4);
    var bitwise, cmp := Bitwise(1, 1, 4, m, Zero4), Cmp(CmpNeq, 1, AddrBytes(q.addr));
    assert OutsidePrefix(q) == [LoadSaddr, bitwise] + [cmp];
    ExecTwo(LoadSaddr, bitwise, [cmp], site, p, ph, c);
    var c1 := SetReg(c, 1, AddrBytes(p.saddr));
    var c2 := SetReg(c1, 1, v);
    assert Exec(LoadSaddr, site, p, ph, c) == (c1, Continue);
    assert Exec(bitwise, site, p, ph, c1) == (c2, Continue);
    ExecOne(cmp, site, p, ph, c2);
  }

  lemma {:induction false} OutsideEach(ps: SP.Policy, site: Site, p: Packet, ph: Physics, c: Config)
    requires PolicyOk(ps)
    ensures var (d, o) := ExecAll(OutsideAll(ps), site, p, ph, c);
      d.state == c.state && o == if exists i :: 0 <= i < |ps| && SP.Contains(ps[i], p.saddr) then Break else Continue
  {
    hide Exec, SP.Contains, SP.Canonical, OutsidePrefix;
    if ps != [] {
      var init, last := ps[..|ps| - 1], ps[|ps| - 1];
      OutsideEach(init, site, p, ph, c);
      hide ExecAll;
      ExecConcat(OutsideAll(init), OutsidePrefix(last), site, p, ph, c);
      var (d, o) := ExecAll(OutsideAll(init), site, p, ph, c);
      OutsideOne(last, site, p, ph, d);
      assert (exists i :: 0 <= i < |ps| && SP.Contains(ps[i], p.saddr)) <==>
        (exists i :: 0 <= i < |init| && SP.Contains(init[i], p.saddr)) || SP.Contains(last, p.saddr);
    }
  }

  lemma {:induction false} OutsidePlain(ps: SP.Policy)
    requires PolicyOk(ps)
    ensures Plain(OutsideAll(ps))
  {
    if ps != [] {
      OutsidePlain(ps[..|ps| - 1]);
      assert Plain(OutsidePrefix(ps[|ps| - 1]));
      hide OutsidePrefix, Plain;
      PlainConcat(OutsideAll(ps[..|ps| - 1]), OutsidePrefix(ps[|ps| - 1]));
    }
  }

  lemma MatchPlain(iface: Bytes, r: Rule)
    ensures Plain(MatchExprs(iface, r))
  {
  }

  /** The allowlist rule drops exactly the selected packets whose source no prefix contains. */
  lemma SourceDropMeaning(iface: Bytes, r: Rule, p: Packet, ph: Physics, st: State)
    requires IsIfName(iface) && IsIfName(p.iif) && RuleOk(r) && r.sourcePolicy.Some?
    ensures EvalRule(SourceDrop(iface, r), p, ph, st) ==
      (st, if Selects(iface, r, p) && !SourceAllowed(r, p) then Dropped else Break)
  {
    var outside, tail := OutsideAll(r.sourcePolicy.value), [Counter(0, 0), Drop];
    var site := RuleSite(SourceDrop(iface, r));
    SourceDropPlain(iface, r);
    hide ExecAll, MatchExprs, OutsideAll, Plain, SP.Contains, SP.Canonical, Selects, IsIfName;
    MatchRule(iface, r, outside + tail, p, ph, st);
    ExecConcat(outside, tail, site, p, ph, Matched(p, st));
    OutsideEach(r.sourcePolicy.value, site, p, ph, Matched(p, st));
    var (d, o) := ExecAll(outside, site, p, ph, Matched(p, st));
    assert tail == [Counter(0, 0)] + [Drop];
    ExecCons(Counter(0, 0), [Drop], site, p, ph, d);
    ExecOne(Drop, site, p, ph, d);
  }

  lemma SourceDropPlain(iface: Bytes, r: Rule)
    requires RuleOk(r) && r.sourcePolicy.Some?
    ensures Plain(SourceDrop(iface, r))
  {
    var outside, tail := OutsideAll(r.sourcePolicy.value), [Counter(0, 0), Drop];
    assert Plain(tail);
    hide Plain, OutsideAll, MatchExprs;
    OutsidePlain(r.sourcePolicy.value);
    MatchPlain(iface, r);
    PlainConcat(outside, tail);
    PlainConcat(MatchExprs(iface, r), outside + tail);
  }

  /** A limiter, its counter and the drop. */
  lemma GuardTail(limit: Expr, id: int, suffix: string, site: Site, p: Packet, ph: Physics, c: Config)
    requires (limit.Limit? && limit.over) || (limit.Connlimit? && limit.flags == CONNLIMIT_INV)
    ensures var (d, o) := ExecAll([limit, ObjrefCounter(id, suffix), Drop], site, p, ph, c);
      var (st, dropped) := Guard(site, limit, CounterName(id, suffix), p, ph, c.state);
      d.state == st && o == if dropped then Dropped else Break
  {
    var es := [limit, ObjrefCounter(id, suffix), Drop];
    hide CounterName, ExecAll;
    assert es == [limit, ObjrefCounter(id, suffix)] + [Drop];
    ExecTwo(limit, ObjrefCounter(id, suffix), [Drop], site, p, ph, c);
    var (d, o) := Exec(limit, site, p, ph, c);
    ExecOne(Drop, site, p, ph, d.(state := Bump(d.state, CounterName(id, suffix))));
  }

  lemma RateMeaning(iface: Bytes, r: Rule, eff: Guards, p: Packet, ph: Physics, st: State)
    requires IsIfName(iface) && IsIfName(p.iif) && eff.newConnRate > 0
    ensures var (st', dropped) := if Selects(iface, r, p) then RateGuard(iface, r, eff, p, ph, st) else (st, false);
      EvalRule(RateExprs(iface, r, eff), p, ph, st) == (st', if dropped then Dropped else Break)
  {
    var limit := RateLimit(eff.newConnRate, eff.newConnBurst);
    var tail := [limit, ObjrefCounter(r.mappingId, SuffixRate), Drop];
    MatchPlain(iface, r);
    assert Plain(tail);
    assert Plain(MatchExprs(iface, r) + tail);
    hide ExecAll, MatchExprs, EvalRule, Plain, CounterName;
    MatchRule(iface, r, tail, p, ph, st);
    GuardTail(limit, r.mappingId, SuffixRate, RateSite(iface, r, eff), p, ph, Matched(p, st));
  }

  lemma ConnMeaning(iface: Bytes, r: Rule, eff: Guards, p: Packet, ph: Physics, st: State)
    requires IsIfName(iface) && IsIfName(p.iif) && eff.maxConn > 0
    ensures var (st', dropped) := if Selects(iface, r, p) then ConnGuard(iface, r, eff, p, ph, st) else (st, false);
      EvalRule(ConnExprs(iface, r, eff), p, ph, st) == (st', if dropped then Dropped else Break)
  {
    var limit := Connlimit(eff.maxConn, CONNLIMIT_INV);
    var tail := [limit, ObjrefCounter(r.mappingId, SuffixConn), Drop];
    MatchPlain(iface, r);
    assert Plain(tail);
    assert Plain(MatchExprs(iface, r) + tail);
    hide ExecAll, MatchExprs, EvalRule, Plain, CounterName;
    MatchRule(iface, r, tail, p, ph, st);
    GuardTail(limit, r.mappingId, SuffixConn, ConnSite(iface, r, eff), p, ph, Matched(p, st));
  }

  lemma MeterPlain(r: Rule, eff: Guards)
    ensures Normal(SourceMeter(r, eff)) == SourceMeter(r, eff)
  {
    var es := [RateLimit(eff.perSourceRate, eff.perSourceBurst)];
    assert Normals(es) == es;
  }

  lemma MeterStep(r: Rule, eff: Guards, site: Site, p: Packet, ph: Physics, c: Config)
    requires 1 in c.regs && c.regs[1] == AddrBytes(p.saddr) && eff.perSourceRate > 0
    ensures var (d, o) := ExecAll([SourceMeter(r, eff), ObjrefCounter(r.mappingId, SuffixSource), Drop], site, p, ph, c);
      var (st, dropped) := PerSourceGuard(r, eff, p, ph, c.state);
      d.state == st && o == if dropped then Dropped else Break
  {
    var es := [SourceMeter(r, eff), ObjrefCounter(r.mappingId, SuffixSource), Drop];
    var limit := RateLimit(eff.perSourceRate, eff.perSourceBurst);
    var name, key := SetName(r.mappingId), AddrBytes(p.saddr);
    hide CounterName, SetName, ExecAll;
    assert es == [SourceMeter(r, eff), ObjrefCounter(r.mappingId, SuffixSource)] + [Drop];
    ExecTwo(SourceMeter(r, eff), ObjrefCounter(r.mappingId, SuffixSource), [Drop], site, p, ph, c);
    ExecOne(limit, SetSite(name, key), p, ph, c);
    var (d, o) := Exec(SourceMeter(r, eff), site, p, ph, c);
    ExecOne(Drop, site, p, ph, d.(state := Bump(d.state, CounterName(r.mappingId, SuffixSource))));
  }

  lemma PerSourceMeaning(iface: Bytes, r: Rule, eff: Guards, p: Packet, ph: Physics, st: State)
    requires IsIfName(iface) && IsIfName(p.iif) && eff.perSourceRate > 0
    ensures var (st', dropped) := if Selects(iface, r, p) then PerSourceGuard(r, eff, p, ph, st) else (st, false);
      EvalRule(PerSourceExprs(iface, r, eff), p, ph, st) == (st', if dropped then Dropped else Break)
  {
    var body := [SourceMeter(r, eff), ObjrefCounter(r.mappingId, SuffixSource), Drop];
    var tail := [LoadSaddr] + body;
    var site := RuleSite(PerSourceExprs(iface, r, eff));
    MatchPlain(iface, r);
    MeterPlain(r, eff);
    assert Plain(tail);
    assert PerSourceExprs(iface, r, eff) == MatchExprs(iface, r) + tail;
    assert Plain(MatchExprs(iface, r) + tail);
    MatchRule(iface, r, tail, p, ph, st);
    var c := SetReg(Matched(p, st), 1, AddrBytes(p.saddr));
    assert Exec(LoadSaddr, site, p, ph, Matched(p, st)) == (c, Continue);
    ExecCons(LoadSaddr, body, site, p, ph, Matched(p, st));
    hide ExecAll, Exec, MatchExprs, Plain, CounterName, SetName;
    MeterStep(r, eff, site, p, ph, c);
  }

  lemma NatTail(r: Rule, site: Site, p: Packet, ph: Physics, c: Config)
    ensures var es := [ObjrefCounter(r.mappingId, SuffixNew), Immediate(1, AddrBytes(r.target)), Immediate(2, Be2(r.targetPort)), DestNat];
      var (d, o) := ExecAll(es, site, p, ph, c);
      d.state == Bump(c.state, CounterName(r.mappingId, SuffixNew))
      && o == Translated(AddrBytes(r.target), AddrBytes(r.target), Be2(r.targetPort), Be2(r.targetPort))
  {
    hide CounterName, Be2, ExecAll;
    var count, addr, port := ObjrefCounter(r.mappingId, SuffixNew), Immediate(1, AddrBytes(r.target)), Immediate(2, Be2(r.targetPort));
    assert [count, addr, port, DestNat] == [count, addr] + ([port] + [DestNat]);
    var c1 := c.(state := Bump(c.state, CounterName(r.mappingId, SuffixNew)));
    var c2 := SetReg(c1, 1, AddrBytes(r.target));
    var c3 := SetReg(c2, 2, Be2(r.targetPort));
    ExecTwo(count, addr, [port] + [DestNat], site, p, ph, c);
    ExecCons(port, [DestNat], site, p, ph, c2);
    ExecOne(DestNat, site, p, ph, c3);
    assert Reg(c3, 1) == AddrBytes(r.target) && Reg(c3, 2) == Be2(r.targetPort);
  }

  lemma MarkStep(r: Rule, site: Site, p: Packet, ph: Physics, c: Config)
    ensures var (d, o) := ExecAll(MarkExprs(r), site, p, ph, c);
      o == Continue && d.state == if r.flowMark != 0 then c.state.(mark := Le4(r.flowMark)) else c.state
  {
    hide Le4;
    if r.flowMark != 0 {
      assert MarkExprs(r) == MarkExprs(r) + [];
      ExecTwo(Immediate(1, Le4(r.flowMark)), Ct(1, true, CtMark, 0, false), [], site, p, ph, c);
    }
  }

  lemma DnatMeaning(iface: Bytes, r: Rule, p: Packet, ph: Physics, st: State)
    requires IsIfName(iface) && IsIfName(p.iif)
    ensures EvalRule(DnatExprs(iface, r), p, ph, st) == if Selects(iface, r, p) then Translate(r, st) else (st, Break)
  {
    var last := [ObjrefCounter(r.mappingId, SuffixNew), Immediate(1, AddrBytes(r.target)), Immediate(2, Be2(r.targetPort)), DestNat];
    MatchPlain(iface, r);
    assert Plain(MarkExprs(r) + last);
    assert Plain(MatchExprs(iface, r) + (MarkExprs(r) + last));
    hide ExecAll, MatchExprs, MarkExprs, Plain, CounterName, Be2, Le4;
    MatchRule(iface, r, MarkExprs(r) + last, p, ph, st);
    var site := RuleSite(DnatExprs(iface, r));
    ExecConcat(MarkExprs(r), last, site, p, ph, Matched(p, st));
    MarkStep(r, site, p, ph, Matched(p, st));
    NatTail(r, site, p, ph, ExecAll(MarkExprs(r), site, p, ph, Matched(p, st)).0);
  }

  // ---- The whole chain ----

  lemma ChainCons(rule: seq<Expr>, rest: seq<seq<Expr>>, p: Packet, ph: Physics, st: State)
    ensures var (st', o) := EvalRule(rule, p, ph, st);
      EvalChain([rule] + rest, p, ph, st) == if o.Continue? || o.Break? then EvalChain(rest, p, ph, st') else (st', o)
  {
    hide EvalRule;
    assert ([rule] + rest)[1..] == rest;
  }

  /** An optional rule in front of a chain. */
  lemma ChainOpt(on: bool, rule: seq<Expr>, rest: seq<seq<Expr>>, p: Packet, ph: Physics, st: State, st': State, dropped: bool)
    requires on ==> EvalRule(rule, p, ph, st) == (st', if dropped then Dropped else Break)
    requires !on ==> st' == st && !dropped
    ensures EvalChain((if on then [rule] else []) + rest, p, ph, st) == if dropped then (st', Dropped) else EvalChain(rest, p, ph, st')
  {
    hide EvalRule;
    if on {
      ChainCons(rule, rest, p, ph, st);
    } else {
      assert [] + rest == rest;
    }
  }

  /** The guards and the translation, after the allowlist. */
  lemma GuardedRules(iface: Bytes, r: Rule, eff: Guards, rest: seq<seq<Expr>>, p: Packet, ph: Physics, st: State)
    requires IsIfName(iface) && IsIfName(p.iif) && Selects(iface, r, p)
    ensures var b := if eff.perSourceRate > 0 then [PerSourceExprs(iface, r, eff)] else [];
      var c := if eff.newConnRate > 0 then [RateExprs(iface, r, eff)] else [];
      var d := if eff.maxConn > 0 then [ConnExprs(iface, r, eff)] else [];
      EvalChain(b + (c + (d + ([DnatExprs(iface, r)] + rest))), p, ph, st) == Guarded(iface, r, eff, p, ph, st)
  {
    hide EvalRule, EvalChain, PerSourceExprs, RateExprs, ConnExprs, DnatExprs, Selects, IsIfName,
         PerSourceGuard, RateGuard, ConnGuard, Translate;
    var c := if eff.newConnRate > 0 then [RateExprs(iface, r, eff)] else [];
    var d := if eff.maxConn > 0 then [ConnExprs(iface, r, eff)] else [];
    var e := [DnatExprs(iface, r)];
    var (st1, perSource) := PerSourceGuard(r, eff, p, ph, st);
    PerSourceRule(iface, r, eff, p, ph, st);
    ChainOpt(eff.perSourceRate > 0, PerSourceExprs(iface, r, eff), c + (d + (e + rest)), p, ph, st, st1, perSource);
    if !perSource {
      var (st2, rate) := RateGuard(iface, r, eff, p, ph, st1);
      RateRule(iface, r, eff, p, ph, st1);
      ChainOpt(eff.newConnRate > 0, RateExprs(iface, r, eff), d + (e + rest), p, ph, st1, st2, rate);
      if !rate {
        var (st3, conn) := ConnGuard(iface, r, eff, p, ph, st2);
        ConnRule(iface, r, eff, p, ph, st2);
        ChainOpt(eff.maxConn > 0, ConnExprs(iface, r, eff), e + rest, p, ph, st2, st3, conn);
        if !conn {
          DnatMeaning(iface, r, p, ph, st3);
          ChainCons(DnatExprs(iface, r), rest, p, ph, st3);
          TranslateEnds(r, st3);
        }
      }
    }
  }

  lemma SelectedRules(iface: Bytes, r: Rule, g: Guards, rest: seq<seq<Expr>>, p: Packet, ph: Physics, st: State)
    requires IsIfName(iface) && IsIfName(p.iif) && RuleOk(r) && Selects(iface, r, p)
    ensures EvalChain(RenderOne(iface, r, g) + rest, p, ph, st) == Decide(iface, r, g, p, ph, st)
  {
    hide EvalRule, EvalChain, SourceDrop, PerSourceExprs, RateExprs, ConnExprs, DnatExprs, SourceAllowed, Selects, EffectiveGuards, IsIfName, RuleOk, Guarded;
    var eff := EffectiveGuards(r, g);
    var a := if r.sourcePolicy.Some? then [SourceDrop(iface, r)] else [];
    var b := if eff.perSourceRate > 0 then [PerSourceExprs(iface, r, eff)] else [];
    var c := if eff.newConnRate > 0 then [RateExprs(iface, r, eff)] else [];
    var d := if eff.maxConn > 0 then [ConnExprs(iface, r, eff)] else [];
    var e := [DnatExprs(iface, r)];
    var tail := b + (c + (d + (e + rest)));
    assert RenderOne(iface, r, g) + rest == a + tail;
    hide RenderOne;
    if r.sourcePolicy.Some? {
      SourceDropMeaning(iface, r, p, ph, st);
      ChainOpt(true, SourceDrop(iface, r), tail, p, ph, st, st, !SourceAllowed(r, p));
    } else {
      NoPolicyAllows(r, p);
      ChainOpt(false, [], tail, p, ph, st, st, false);
    }
    GuardedRules(iface, r, eff, rest, p, ph, st);
  }

  lemma NoPolicyAllows(r: Rule, p: Packet)
    requires r.sourcePolicy.None?
    ensures SourceAllowed(r, p)
  {
  }

  lemma TranslateEnds(r: Rule, st: State)
    ensures Translate(r, st).1.Translated?
  {
  }

  lemma PerSourceRule(iface: Bytes, r: Rule, eff: Guards, p: Packet, ph: Physics, st: State)
    requires IsIfName(iface) && IsIfName(p.iif) && Selects(iface, r, p)
    ensures var (st', dropped) := PerSourceGuard(r, eff, p, ph, st);
      if eff.perSourceRate > 0 then EvalRule(PerSourceExprs(iface, r, eff), p, ph, st) == (st', if dropped then Dropped else Break)
      else st' == st && !dropped
  {
    hide EvalRule, PerSourceExprs;
    if eff.perSourceRate > 0 {
      PerSourceMeaning(iface, r, eff, p, ph, st);
    }
  }

  lemma RateRule(iface: Bytes, r: Rule, eff: Guards, p: Packet, ph: Physics, st: State)
    requires IsIfName(iface) && IsIfName(p.iif) && Selects(iface, r, p)
    ensures var (st', dropped) := RateGuard(iface, r, eff, p, ph, st);
      if eff.newConnRate > 0 then EvalRule(RateExprs(iface, r, eff), p, ph, st) == (st', if dropped then Dropped else Break)
      else st' == st && !dropped
  {
    hide EvalRule, RateExprs;
    if eff.newConnRate > 0 {
      RateMeaning(iface, r, eff, p, ph, st);
    }
  }

  lemma ConnRule(iface: Bytes, r: Rule, eff: Guards, p: Packet, ph: Physics, st: State)
    requires IsIfName(iface) && IsIfName(p.iif) && Selects(iface, r, p)
    ensures var (st', dropped) := ConnGuard(iface, r, eff, p, ph, st);
      if eff.maxConn > 0 then EvalRule(ConnExprs(iface, r, eff), p, ph, st) == (st', if dropped then Dropped else Break)
      else st' == st && !dropped
  {
    hide EvalRule, ConnExprs;
    if eff.maxConn > 0 {
      ConnMeaning(iface, r, eff, p, ph, st);
    }
  }

  /** Every rule of a mapping starts with its selector. */
  predicate StartsWithMatch(iface: Bytes, r: Rule, es: seq<Expr>) {
    MatchExprs(iface, r) <= es && Plain(es)
  }

  lemma MatchFirst(iface: Bytes, r: Rule, tail: seq<Expr>)
    requires Plain(tail)
    ensures StartsWithMatch(iface, r, MatchExprs(iface, r) + tail)
  {
    MatchPlain(iface, r);
    hide Plain, MatchExprs;
    PlainConcat(MatchExprs(iface, r), tail);
  }

  lemma RenderedStartWithMatch(iface: Bytes, r: Rule, g: Guards)
    requires RuleOk(r)
    ensures forall i :: 0 <= i < |RenderOne(iface, r, g)| ==> StartsWithMatch(iface, r, RenderOne(iface, r, g)[i])
  {
    var eff := EffectiveGuards(r, g);
    MeterPlain(r, eff);
    hide MatchExprs, StartsWithMatch, SourceMeter, CounterName, Be2, Le4, EffectiveGuards, OutsideAll, RuleOk;
    MatchFirst(iface, r, [LoadSaddr, SourceMeter(r, eff), ObjrefCounter(r.mappingId, SuffixSource), Drop]);
    MatchFirst(iface, r, [RateLimit(eff.newConnRate, eff.newConnBurst), ObjrefCounter(r.mappingId, SuffixRate), Drop]);
    MatchFirst(iface, r, [Connlimit(eff.maxConn, CONNLIMIT_INV), ObjrefCounter(r.mappingId, SuffixConn), Drop]);
    MatchFirst(iface, r, MarkExprs(r) + [ObjrefCounter(r.mappingId, SuffixNew), Immediate(1, AddrBytes(r.target)), Immediate(2, Be2(r.targetPort)), DestNat]);
    if r.sourcePolicy.Some? {
      SourceDropStarts(iface, r);
    }
  }

  lemma SourceDropStarts(iface: Bytes, r: Rule)
    requires RuleOk(r) && r.sourcePolicy.Some?
    ensures StartsWithMatch(iface, r, SourceDrop(iface, r))
  {
    SourceDropPlain(iface, r);
    hide Plain, MatchExprs, OutsideAll;
  }

  /** The rules of a mapping the packet does not select do nothing at all. */
  lemma {:induction false} UnselectedRules(iface: Bytes, r: Rule, rules: seq<seq<Expr>>, rest: seq<seq<Expr>>, p: Packet, ph: Physics, st: State)
    requires IsIfName(iface) && IsIfName(p.iif) && !Selects(iface, r, p)
    requires forall i :: 0 <= i < |rules| ==> StartsWithMatch(iface, r, rules[i])
    ensures EvalChain(rules + rest, p, ph, st) == EvalChain(rest, p, ph, st)
  {
    if rules == [] {
      assert rules + rest == rest;
    } else {
      var es := rules[0];
      assert StartsWithMatch(iface, r, es);
      assert es == MatchExprs(iface, r) + es[|MatchExprs(iface, r)|..];
      hide EvalRule, MatchExprs, Selects, IsIfName, Plain;
      MatchRule(iface, r, es[|MatchExprs(iface, r)|..], p, ph, st);
      assert rules + rest == [es] + (rules[1..] + rest);
      ChainCons(es, rules[1..] + rest, p, ph, st);
      UnselectedRules(iface, r, rules[1..], rest, p, ph, st);
    }
  }

  /** The compiled prerouting chain means the decision, for every packet, limiter behaviour and state. */
  lemma {:induction false} NatChainMeaning(iface: Bytes, rs: seq<Rule>, g: Guards, p: Packet, ph: Physics, st: State)
    requires IsIfName(iface) && IsIfName(p.iif) && RulesOk(rs)
    ensures EvalChain(Render(iface, rs, g), p, ph, st) == DecideAll(iface, rs, g, p, ph, st)
  {
    hide EvalRule, RenderOne, Decide, Selects, IsIfName;
    if rs != [] {
      var rest := Render(iface, rs[1..], g);
      assert RuleOk(rs[0]);
      if Selects(iface, rs[0], p) {
        SelectedRules(iface, rs[0], g, rest, p, ph, st);
      } else {
        RenderedStartWithMatch(iface, rs[0], g);
        UnselectedRules(iface, rs[0], RenderOne(iface, rs[0], g), rest, p, ph, st);
        NatChainMeaning(iface, rs[1..], g, p, ph, st);
      }
    }
  }

  // ---- Order does not matter ----

  /** Validated mapping sets have one mapping per protocol and port. */
  predicate DistinctEndpoints(rs: seq<Rule>) {
    forall i, j :: 0 <= i < j < |rs| ==> ProtoNumber(rs[i].proto) != ProtoNumber(rs[j].proto) || rs[i].publicPort != rs[j].publicPort
  }

  lemma {:induction false} DecideBySelected(iface: Bytes, rs: seq<Rule>, g: Guards, p: Packet, ph: Physics, st: State, r: Rule)
    requires DistinctEndpoints(rs) && r in rs && Selects(iface, r, p)
    ensures DecideAll(iface, rs, g, p, ph, st) == Decide(iface, r, g, p, ph, st)
  {
    hide Decide;
    if Selects(iface, rs[0], p) {
      var i :| 0 <= i < |rs| && rs[i] == r;
      assert i == 0;
    } else {
      DecideBySelected(iface, rs[1..], g, p, ph, st, r);
    }
  }

  lemma {:induction false} DecideUnselected(iface: Bytes, rs: seq<Rule>, g: Guards, p: Packet, ph: Physics, st: State)
    requires forall i :: 0 <= i < |rs| ==> !Selects(iface, rs[i], p)
    ensures DecideAll(iface, rs, g, p, ph, st) == (st, Accepted)
  {
    if rs != [] {
      DecideUnselected(iface, rs[1..], g, p, ph, st);
    }
  }

  /** Reordering the mappings changes nothing for any packet. */
  lemma NatChainOrderIndependent(iface: Bytes, rs: seq<Rule>, qs: seq<Rule>, g: Guards, p: Packet, ph: Physics, st: State)
    requires IsIfName(iface) && IsIfName(p.iif) && RulesOk(rs) && RulesOk(qs)
    requires DistinctEndpoints(rs) && DistinctEndpoints(qs) && multiset(rs) == multiset(qs)
    ensures EvalChain(Render(iface, rs, g), p, ph, st) == EvalChain(Render(iface, qs, g), p, ph, st)
  {
    hide EvalChain, Render, DecideAll, IsIfName, Selects;
    NatChainMeaning(iface, rs, g, p, ph, st);
    NatChainMeaning(iface, qs, g, p, ph, st);
    SameMultisetSameElements(rs, qs);
    if r :| r in rs && Selects(iface, r, p) {
      DecideBySelected(iface, rs, g, p, ph, st, r);
      DecideBySelected(iface, qs, g, p, ph, st, r);
    } else {
      assert forall i :: 0 <= i < |rs| ==> rs[i] in rs;
      assert forall i :: 0 <= i < |qs| ==> qs[i] in qs;
      DecideUnselected(iface, rs, g, p, ph, st);
      DecideUnselected(iface, qs, g, p, ph, st);
    }
  }
}
