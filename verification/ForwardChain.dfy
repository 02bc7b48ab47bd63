/**
 The forward chain: counting rules for the active mappings, then one pair of fences per
 outstanding retirement; and the quarantine table.
 */
module ForwardChain {
  import opened Values
  import opened Snapshots
  import opened Nft
  import opened Machine
  import opened NatChain
  import SP = SourcePolicy

  /** The packet crosses the public interface on the given side. */
  predicate Crosses(iface: Bytes, key: MetaKey, p: Packet)
    requires key != L4Proto
  {
    (if key.IifName? then p.iif else p.oif) == iface
  }

  /** The conntrack facts of a flow that this retirement blocks. */
  predicate Stamped(r: Retirement, p: Packet) {
    && p.l4proto == ProtoNumber(r.proto)
    && p.ctMark == r.flowMark
    && p.ctOrigDport == r.publicPort
    && HasDnat(p.ctStatus)
  }

  /** Some outstanding retirement blocks the packet, in either direction across the public interface. */
  predicate Fenced(iface: Bytes, rets: seq<Retirement>, p: Packet) {
    (p.iif == iface || p.oif == iface) && exists i :: 0 <= i < |rets| && Stamped(rets[i], p)
  }

  predicate Metered(r: Rule, p: Packet) {
    p.l4proto == ProtoNumber(r.proto) && p.ctOrigDport == r.publicPort && HasDnat(p.ctStatus)
  }

  function MeterOne(iface: Bytes, r: Rule, p: Packet, st: State): State {
    var st1 := if Crosses(iface, IifName, p) && Metered(r, p) then Bump(st, CounterName(r.mappingId, SuffixIn)) else st;
    if Crosses(iface, OifName, p) && Metered(r, p) then Bump(st1, CounterName(r.mappingId, SuffixOut)) else st1
  }

  /** What the counting rules do: the flows of a mapping are metered by direction. */
  function MeterAll(iface: Bytes, rs: seq<Rule>, p: Packet, st: State): State {
    if rs == [] then st else MeterAll(iface, rs[1..], p, MeterOne(iface, rs[0], p, st))
  }

  predicate PacketOk(iface: Bytes, p: Packet) {
    IsIfName(iface) && IsIfName(p.iif) && IsIfName(p.oif)
  }

  // ---- The status test ----

  lemma StatusMaskBytes()
    ensures SP.ByteOf(CT_STATUS_DNAT, 3) == 0x20 && SP.ByteOf(CT_STATUS_DNAT, 2) == 0
    ensures SP.ByteOf(CT_STATUS_DNAT, 1) == 0 && SP.ByteOf(CT_STATUS_DNAT, 0) == 0
  {
  }

  lemma StatusBit(w: bv32)
    ensures SP.MaskEq(SP.ByteOf(w, 3), 0x20, 0) <==> !HasDnat(w)
  {
  }

  lemma NoBits(x: bv8)
    ensures SP.MaskEq(x, 0, 0)
  {
  }

  lemma ZeroByte()
    ensures OfWord(0) == 0
  {
  }

  /** Masking the status word with the DNAT bit leaves zero exactly when the flow is not translated. */
  lemma StatusMasked(w: bv32)
    ensures AndXor(StatusBytes(w), StatusBytes(CT_STATUS_DNAT), Zero4) == Zero4 <==> !HasDnat(w)
  {
    hide SP.ByteOf, AndXorByte, OfWord, HasDnat, SP.MaskEq;
    StatusMaskBytes();
    StatusBit(w);
    ZeroByte();
    NoBits(SP.ByteOf(w, 2));
    NoBits(SP.ByteOf(w, 1));
    NoBits(SP.ByteOf(w, 0));
    MaskedByte(SP.ByteOf(w, 3), 0x20, 0);
    MaskedByte(SP.ByteOf(w, 2), 0, 0);
    MaskedByte(SP.ByteOf(w, 1), 0, 0);
    MaskedByte(SP.ByteOf(w, 0), 0, 0);
    FourBytes(AndXor(StatusBytes(w), StatusBytes(CT_STATUS_DNAT), Zero4), Zero4);
  }

  lemma DnatStep(rest: seq<Expr>, site: Site, p: Packet, ph: Physics, c: Config)
    ensures var (d, o) := ExecAll(DnatTest + rest, site, p, ph, c);
      if HasDnat(p.ctStatus) then exists c': Config :: c'.state == c.state && (d, o) == ExecAll(rest, site, p, ph, c')
      else o == Break && d.state == c.state
  {
    StatusMasked(p.ctStatus);
    var mask := StatusBytes(CT_STATUS_DNAT);
    var v := AndXor(StatusBytes(p.ctStatus), mask, Zero4);
    hide AndXor, StatusBytes, ExecAll, HasDnat;
    var load, bitwise, cmp := LoadCt(CtStatus), Bitwise(1, 1, 4, mask, Zero4), Cmp(CmpNeq, 1, Zero4);
    assert DnatTest + rest == [load, bitwise] + ([cmp] + rest);
    ExecTwo(load, bitwise, [cmp] + rest, site, p, ph, c);
    var c1 := SetReg(c, 1, StatusBytes(p.ctStatus));
    var c2 := SetReg(c1, 1, v);
    FourStatusBytes(p.ctStatus);
    FourStatusBytes(CT_STATUS_DNAT);
    assert Exec(load, site, p, ph, c) == (c1, Continue);
    assert Exec(bitwise, site, p, ph, c1) == (c2, Continue);
    ExecCons(cmp, rest, site, p, ph, c2);
    assert c2.state == c.state;
  }

  lemma FourStatusBytes(w: bv32)
    ensures |StatusBytes(w)| == 4
  {
  }

  // ---- Fences ----

  /** After the interface test. */
  lemma SideStep(iface: Bytes, key: MetaKey, rest: seq<Expr>, site: Site, p: Packet, ph: Physics, c: Config)
    requires key != L4Proto && PacketOk(iface, p)
    ensures var (d, o) := ExecAll(Test(LoadMeta(key), IfName(iface)) + rest, site, p, ph, c);
      if Crosses(iface, key, p) then exists c': Config :: c'.state == c.state && (d, o) == ExecAll(rest, site, p, ph, c')
      else o == Break && d.state == c.state
  {
    var v := MetaValue(key, p);
    IfNameInjective(p.iif, iface);
    IfNameInjective(p.oif, iface);
    assert Exec(LoadMeta(key), site, p, ph, c) == (SetReg(c, 1, v), Continue);
    hide Exec, ExecAll, Test, IfName;
    TestStep(LoadMeta(key), v, IfName(iface), rest, site, p, ph, c);
    assert SetReg(c, 1, v).state == c.state;
  }

  lemma ProtoStep(proto: Byte, rest: seq<Expr>, site: Site, p: Packet, ph: Physics, c: Config)
    ensures var (d, o) := ExecAll(Test(LoadMeta(L4Proto), [proto]) + rest, site, p, ph, c);
      if p.l4proto == proto then exists c': Config :: c'.state == c.state && (d, o) == ExecAll(rest, site, p, ph, c')
      else o == Break && d.state == c.state
  {
    assert Exec(LoadMeta(L4Proto), site, p, ph, c) == (SetReg(c, 1, [p.l4proto]), Continue);
    hide Exec, ExecAll, Test;
    TestStep(LoadMeta(L4Proto), [p.l4proto], [proto], rest, site, p, ph, c);
    assert SetReg(c, 1, [p.l4proto]).state == c.state;
  }

  lemma PortStep(port: u16, rest: seq<Expr>, site: Site, p: Packet, ph: Physics, c: Config)
    ensures var (d, o) := ExecAll(Test(LoadCt(CtProtoDst), Be2(port)) + rest, site, p, ph, c);
      if p.ctOrigDport == port then exists c': Config :: c'.state == c.state && (d, o) == ExecAll(rest, site, p, ph, c')
      else o == Break && d.state == c.state
  {
    var v := Be2(p.ctOrigDport);
    Be2Injective(p.ctOrigDport, port);
    assert Exec(LoadCt(CtProtoDst), site, p, ph, c) == (SetReg(c, 1, v), Continue);
    hide Exec, ExecAll, Test, Be2;
    TestStep(LoadCt(CtProtoDst), v, Be2(port), rest, site, p, ph, c);
    assert SetReg(c, 1, v).state == c.state;
  }

  lemma MarkedStep(mark: u32, rest: seq<Expr>, site: Site, p: Packet, ph: Physics, c: Config)
    requires c.state.mark == Le4(p.ctMark)
    ensures var (d, o) := ExecAll(Test(LoadCt(CtMark), Le4(mark)) + rest, site, p, ph, c);
      if p.ctMark == mark then exists c': Config :: c'.state == c.state && (d, o) == ExecAll(rest, site, p, ph, c')
      else o == Break && d.state == c.state
  {
    var v := Le4(p.ctMark);
    Le4Injective(p.ctMark, mark);
    assert Exec(LoadCt(CtMark), site, p, ph, c) == (SetReg(c, 1, v), Continue);
    hide Exec, ExecAll, Test, Le4;
    TestStep(LoadCt(CtMark), v, Le4(mark), rest, site, p, ph, c);
    assert SetReg(c, 1, v).state == c.state;
  }

  lemma DropTail(site: Site, p: Packet, ph: Physics, c: Config)
    ensures ExecAll([Drop], site, p, ph, c) == (c, Dropped)
  {
    ExecOne(Drop, site, p, ph, c);
  }

  /** One fence drops exactly the stamped flows on its side, and never changes any state. */
  lemma FenceMeaning(iface: Bytes, r: Retirement, key: MetaKey, p: Packet, ph: Physics, st: State)
    requires key != L4Proto && PacketOk(iface, p) && st.mark == Le4(p.ctMark)
    ensures EvalRule(RetirementDropExprs(iface, r, key), p, ph, st) ==
      (st, if Crosses(iface, key, p) && Stamped(r, p) then Dropped else Break)
  {
    hide ExecAll, Test, IfName, Be2, Le4, HasDnat, Normals, PacketOk;
    var site := RuleSite(Normals(RetirementDropExprs(iface, r, key)));
    var c := Config(map[], st);
    var last := DnatTest + [Drop];
    var port := Test(LoadCt(CtProtoDst), Be2(r.publicPort)) + last;
    var mark := Test(LoadCt(CtMark), Le4(r.flowMark)) + port;
    var proto := Test(LoadMeta(L4Proto), [ProtoNumber(r.proto)]) + mark;
    SideStep(iface, key, proto, site, p, ph, c);
    if Crosses(iface, key, p) {
      var c1: Config :| c1.state == st && ExecAll(RetirementDropExprs(iface, r, key), site, p, ph, c) == ExecAll(proto, site, p, ph, c1);
      ProtoStep(ProtoNumber(r.proto), mark, site, p, ph, c1);
      if p.l4proto == ProtoNumber(r.proto) {
        var c2: Config :| c2.state == st && ExecAll(proto, site, p, ph, c1) == ExecAll(mark, site, p, ph, c2);
        MarkedStep(r.flowMark, port, site, p, ph, c2);
        if p.ctMark == r.flowMark {
          var c3: Config :| c3.state == st && ExecAll(mark, site, p, ph, c2) == ExecAll(port, site, p, ph, c3);
          PortStep(r.publicPort, last, site, p, ph, c3);
          if p.ctOrigDport == r.publicPort {
            var c4: Config :| c4.state == st && ExecAll(port, site, p, ph, c3) == ExecAll(last, site, p, ph, c4);
            DnatStep([Drop], site, p, ph, c4);
            if HasDnat(p.ctStatus) {
              var c5: Config :| c5.state == st && ExecAll(last, site, p, ph, c4) == ExecAll([Drop], site, p, ph, c5);
              DropTail(site, p, ph, c5);
            }
          }
        }
      }
    }
  }

  /** One counting rule counts exactly the translated flows of its mapping on its side, and gives no verdict. */
  lemma CountMeaning(iface: Bytes, r: Rule, key: MetaKey, suffix: string, p: Packet, ph: Physics, st: State)
    requires key != L4Proto && PacketOk(iface, p)
    ensures var (st', o) := EvalRule(ForwardCountExprs(iface, r, key, suffix), p, ph, st);
      && (o.Continue? || o.Break?)
      && st' == if Crosses(iface, key, p) && Metered(r, p) then Bump(st, CounterName(r.mappingId, suffix)) else st
  {
    hide ExecAll, Test, IfName, Be2, HasDnat, Normals, PacketOk, CounterName;
    var es := ForwardCountExprs(iface, r, key, suffix);
    var site := RuleSite(Normals(es));
    var c := Config(map[], st);
    var count := ObjrefCounter(r.mappingId, suffix);
    var last := DnatTest + [count];
    var port := Test(LoadCt(CtProtoDst), Be2(r.publicPort)) + last;
    var proto := Test(LoadMeta(L4Proto), [ProtoNumber(r.proto)]) + port;
    SideStep(iface, key, proto, site, p, ph, c);
    if Crosses(iface, key, p) {
      var c1: Config :| c1.state == st && ExecAll(es, site, p, ph, c) == ExecAll(proto, site, p, ph, c1);
      ProtoStep(ProtoNumber(r.proto), port, site, p, ph, c1);
      if p.l4proto == ProtoNumber(r.proto) {
        var c3: Config :| c3.state == st && ExecAll(proto, site, p, ph, c1) == ExecAll(port, site, p, ph, c3);
        PortStep(r.publicPort, last, site, p, ph, c3);
        if p.ctOrigDport == r.publicPort {
          var c4: Config :| c4.state == st && ExecAll(port, site, p, ph, c3) == ExecAll(last, site, p, ph, c4);
          DnatStep([count], site, p, ph, c4);
          if HasDnat(p.ctStatus) {
            var c5: Config :| c5.state == st && ExecAll(last, site, p, ph, c4) == ExecAll([count], site, p, ph, c5);
            ExecOne(count, site, p, ph, c5);
          }
        }
      }
    }
  }

  /** The fences drop a packet exactly when it is fenced, and change nothing. */
  lemma {:induction false} FencesMeaning(iface: Bytes, rets: seq<Retirement>, p: Packet, ph: Physics, st: State)
    requires PacketOk(iface, p) && st.mark == Le4(p.ctMark)
    ensures EvalChain(RenderFences(iface, rets), p, ph, st) == (st, if Fenced(iface, rets, p) then Dropped else Accepted)
  {
    hide EvalRule, RetirementDropExprs, Stamped, PacketOk, Le4;
    if rets != [] {
      var r, rest := rets[0], rets[1..];
      var a, b := RetirementDropExprs(iface, r, IifName), RetirementDropExprs(iface, r, OifName);
      assert RenderFences(iface, rets) == [a] + ([b] + RenderFences(iface, rest));
      FenceMeaning(iface, r, IifName, p, ph, st);
      FenceMeaning(iface, r, OifName, p, ph, st);
      FencesMeaning(iface, rest, p, ph, st);
      hide EvalChain;
      ChainCons(a, [b] + RenderFences(iface, rest), p, ph, st);
      ChainCons(b, RenderFences(iface, rest), p, ph, st);
      assert (exists i :: 0 <= i < |rets| && Stamped(rets[i], p)) <==>
        Stamped(r, p) || exists i :: 0 <= i < |rest| && Stamped(rest[i], p) by {
        if i :| 0 <= i < |rets| && Stamped(rets[i], p) {
          assert i == 0 || rest[i - 1] == rets[i];
        }
        if i :| 0 <= i < |rest| && Stamped(rest[i], p) {
          assert rets[i + 1] == rest[i];
        }
      }
    }
  }

  lemma MeterKeeps(iface: Bytes, r: Rule, p: Packet, st: State)
    ensures MeterOne(iface, r, p, st).mark == st.mark && MeterOne(iface, r, p, st).guards == st.guards
  {
    hide CounterName, Metered;
  }

  /** The whole forward chain: it meters the active mappings and drops exactly the fenced flows. */
  lemma {:induction false} ForwardMeaning(iface: Bytes, rs: seq<Rule>, rets: seq<Retirement>, p: Packet, ph: Physics, st: State)
    requires PacketOk(iface, p) && st.mark == Le4(p.ctMark)
    ensures EvalChain(RenderForward(iface, rs) + RenderFences(iface, rets), p, ph, st) ==
      (MeterAll(iface, rs, p, st), if Fenced(iface, rets, p) then Dropped else Accepted)
    decreases |rs|
  {
    hide EvalRule, ForwardCountExprs, Fenced, PacketOk, Le4, EvalChain, RenderFences, Crosses, Metered, Bump, CounterName;
    var fences := RenderFences(iface, rets);
    if rs == [] {
      assert RenderForward(iface, rs) + fences == fences;
      FencesMeaning(iface, rets, p, ph, st);
    } else {
      var r, rest := rs[0], rs[1..];
      var a, b := ForwardCountExprs(iface, r, IifName, SuffixIn), ForwardCountExprs(iface, r, OifName, SuffixOut);
      var tail := RenderForward(iface, rest) + fences;
      assert RenderForward(iface, rs) + fences == [a] + ([b] + tail);
      CountMeaning(iface, r, IifName, SuffixIn, p, ph, st);
      var st1 := EvalRule(a, p, ph, st).0;
      CountMeaning(iface, r, OifName, SuffixOut, p, ph, st1);
      var st2 := MeterOne(iface, r, p, st);
      assert EvalRule(b, p, ph, st1).0 == st2;
      ChainCons(a, [b] + tail, p, ph, st);
      ChainCons(b, tail, p, ph, st1);
      MeterKeeps(iface, r, p, st);
      ForwardMeaning(iface, rest, rets, p, ph, st2);
    }
  }

  // ---- Quarantine ----

  function QuarantineChain(iface: Bytes): seq<seq<Expr>> {
    [QuarantineDropExprs(iface, IifName), QuarantineDropExprs(iface, OifName)]
  }

  lemma QuarantineRule(iface: Bytes, key: MetaKey, p: Packet, ph: Physics, st: State)
    requires key != L4Proto && PacketOk(iface, p)
    ensures EvalRule(QuarantineDropExprs(iface, key), p, ph, st) ==
      (st, if Crosses(iface, key, p) && HasDnat(p.ctStatus) then Dropped else Break)
  {
    hide ExecAll, Test, IfName, HasDnat, Normals, PacketOk;
    var es := QuarantineDropExprs(iface, key);
    var site, c, last := RuleSite(Normals(es)), Config(map[], st), DnatTest + [Drop];
    SideStep(iface, key, last, site, p, ph, c);
    if Crosses(iface, key, p) {
      var c1: Config :| c1.state == st && ExecAll(es, site, p, ph, c) == ExecAll(last, site, p, ph, c1);
      DnatStep([Drop], site, p, ph, c1);
      if HasDnat(p.ctStatus) {
        var c2: Config :| c2.state == st && ExecAll(last, site, p, ph, c1) == ExecAll([Drop], site, p, ph, c2);
        DropTail(site, p, ph, c2);
      }
    }
  }

  /** The quarantine table forwards no translated flow that enters or leaves the public interface, and only those are dropped. */
  lemma QuarantineMeaning(iface: Bytes, p: Packet, ph: Physics, st: State)
    requires PacketOk(iface, p)
    ensures EvalChain(QuarantineChain(iface), p, ph, st) ==
      (st, if (p.iif == iface || p.oif == iface) && HasDnat(p.ctStatus) then Dropped else Accepted)
  {
    hide EvalRule, QuarantineDropExprs, HasDnat, PacketOk;
    var a, b := QuarantineDropExprs(iface, IifName), QuarantineDropExprs(iface, OifName);
    assert QuarantineChain(iface) == [a] + ([b] + []);
    QuarantineRule(iface, IifName, p, ph, st);
    QuarantineRule(iface, OifName, p, ph, st);
    ChainCons(a, [b] + [], p, ph, st);
    ChainCons(b, [], p, ph, st);
  }
}
