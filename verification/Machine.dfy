/**
 A register machine for rule lists: what a chain of compiled expressions does to one
 packet, to the limiter state, to the named counters and to the connection's mark.
 */
module Machine {
  import opened Values
  import opened Nft
  import SP = SourcePolicy

  /** One packet together with the conntrack facts its flow carries, among them the destination ports of both directions. */
  datatype Packet = Packet(
    iif: Bytes,
    oif: Bytes,
    l4proto: Byte,
    dport: u16,
    saddr: SP.Addr,
    ctMark: u32,
    ctStatus: bv32,
    ctOrigDport: u16,
    ctReplyDport: u16)

  /** Where limiter state lives: in the rule that holds the expression, or under a key of a named set. */
  datatype Site = RuleSite(rule: seq<Expr>) | SetSite(setName: string, key: Bytes)

  /** The packets each limiter has seen, the named counters, and the mark of the packet's connection. */
  datatype State = State(guards: map<Site, seq<Packet>>, counts: map<string, nat>, mark: Bytes)

  /** The limiter physics as an oracle: whether a limiter that saw these packets is exceeded,
      and whether a set holding these keys has room for another. */
  datatype Physics = Physics(over: (Site, Expr, seq<Packet>) -> bool, room: (string, set<Bytes>, Bytes) -> bool)

  /** `Translated` is a destination NAT of an IPv4 flow; any other NAT is `OtherNat`. */
  datatype Outcome =
    | Continue
    | Break
    | Dropped
    | Accepted
    | Translated(addrMin: Bytes, addrMax: Bytes, portMin: Bytes, portMax: Bytes)
    | OtherNat

  datatype Config = Config(regs: map<nat, Bytes>, state: State)

  function Reg(c: Config, r: nat): Bytes {
    if r in c.regs then c.regs[r] else []
  }

  function SetReg(c: Config, r: nat, v: Bytes): Config {
    c.(regs := c.regs[r := v])
  }

  function Seen(st: State, site: Site): seq<Packet> {
    if site in st.guards then st.guards[site] else []
  }

  function Touch(st: State, site: Site, p: Packet): State {
    st.(guards := st.guards[site := Seen(st, site) + [p]])
  }

  function Count(st: State, name: string): nat {
    if name in st.counts then st.counts[name] else 0
  }

  function Bump(st: State, name: string): State {
    st.(counts := st.counts[name := Count(st, name) + 1])
  }

  function Keys(st: State, setName: string): set<Bytes> {
    set s | s in st.guards && s.SetSite? && s.setName == setName :: s.key
  }

  function MetaValue(key: MetaKey, p: Packet): Bytes {
    match key
    case IifName => IfName(p.iif)
    case OifName => IfName(p.oif)
    case L4Proto => [p.l4proto]
  }

  /** A load of the destination port or of the source address; no other field is known. */
  function PayloadValue(e: Expr, p: Packet): Bytes
    requires e.Payload?
  {
    if e.base.TransportHeader? && e.offset == 2 && e.len == 2 then Be2(p.dport)
    else if e.base.NetworkHeader? && e.offset == 12 && e.len == 4 then AddrBytes(p.saddr)
    else []
  }

  /** The direction (0 original, 1 reply) matters to the port alone. */
  function CtValue(key: CtKey, direction: nat, p: Packet, st: State): Bytes {
    match key
    case CtMark => st.mark
    case CtProtoDst => Be2(if direction == 0 then p.ctOrigDport else p.ctReplyDport)
    case CtStatus => StatusBytes(p.ctStatus)
  }

  function AndXorByte(v: Byte, mask: Byte, xor: Byte): Byte {
    OfWord(AndXorWord(ToWord(v), ToWord(mask), ToWord(xor)))
  }

  function AndXorWord(v: bv8, mask: bv8, xor: bv8): bv8 {
    (v & mask) ^ xor
  }

  function AndXor(v: Bytes, mask: Bytes, xor: Bytes): Bytes
    requires |v| == |mask| == |xor|
  {
    seq(|v|, i requires 0 <= i < |v| => AndXorByte(v[i], mask[i], xor[i]))
  }

  function Masked(v: Bytes, e: Expr): Bytes
    requires e.Bitwise?
  {
    if |v| == e.len && |e.mask| == e.len && |e.xor| == e.len then AndXor(v, e.mask, e.xor) else []
  }

  function Proceed(c: Config, ok: bool): (Config, Outcome) {
    (c, if ok then Continue else Break)
  }

  /** One expression, with the kernel's numbers for operations, object types, NAT types and families.  A failed test breaks off the rule;
      a verdict or translation ends the chain. */
  function Exec(e: Expr, site: Site, p: Packet, ph: Physics, c: Config): (Config, Outcome)
    decreases e, 1
  {
    match e
    case Meta(key, register, source) => if source then (c, Break) else (SetReg(c, register, MetaValue(key, p)), Continue)
    case Cmp(op, register, data) => Proceed(c, (Reg(c, register) == data) == op.CmpEq?)
    case Payload(operation, dest, _, _, _, _, _) =>
      if operation == 0 then (SetReg(c, dest, PayloadValue(e, p)), Continue) else (c, Break)
    case Ct(register, source, key, direction, _) =>
      if !source then (SetReg(c, register, CtValue(key, direction, p, c.state)), Continue)
      else if key.CtMark? then (c.(state := c.state.(mark := Reg(c, register))), Continue)
      else (c, Break)
    case Immediate(register, data) => (SetReg(c, register, data), Continue)
    case Objref(objType, name) => (if objType == 1 then c.(state := Bump(c.state, name)) else c, Continue)
    case Nat(natType, family, addrMin, addrMax, protoMin, protoMax, _, _, _, prefix) =>
      if natType != 1 || family != 2 || prefix then (c, OtherNat)
      else
        (c, Translated(Reg(c, addrMin), Reg(c, if addrMax == 0 then addrMin else addrMax),
                       Reg(c, protoMin), Reg(c, if protoMax == 0 then protoMin else protoMax)))
    case Bitwise(src, dest, _, _, _) => (SetReg(c, dest, Masked(Reg(c, src), e)), Continue)
    case Verdict(kind) => (c, if kind.VerdictDrop? then Dropped else Accepted)
    case Counter(_, _) => (c, Continue)
    case Limit(_, _, over, _, _) =>
      var st := Touch(c.state, site, p);
      Proceed(c.(state := st), ph.over(site, e, Seen(st, site)) == over)
    case Connlimit(_, flags) =>
      var st := Touch(c.state, site, p);
      Proceed(c.(state := st), ph.over(site, e, Seen(st, site)) == (flags == 1))
    case Dynset(keyRegister, _, name, operation, _, invert, exprs) =>
      var key := Reg(c, keyRegister);
      if operation != 1 then (c, Break)
      else if !ph.room(name, Keys(c.state, name), key) then Proceed(c, invert)
      else
        var (d, o) := ExecAll(exprs, SetSite(name, key), p, ph, c);
        Proceed(d, o.Continue? != invert)
    case Unknown(_) => (c, Break)
  }

  function ExecAll(es: seq<Expr>, site: Site, p: Packet, ph: Physics, c: Config): (Config, Outcome)
    decreases es, 0
  {
    if es == [] then (c, Continue)
    else
      var (d, o) := Exec(es[0], site, p, ph, c);
      if o.Continue? then ExecAll(es[1..], site, p, ph, d) else (d, o)
  }

  // ---- Normal forms ----

  /** Two spellings of the same expression have one normal form: anonymous counter values are dropped,
      and a NAT range whose upper register repeats the lower one is a single address or port. */
  function Normal(e: Expr): Expr
    decreases e, 1
  {
    match e
    case Counter(_, _) => Counter(0, 0)
    case Nat(t, f, addrMin, addrMax, protoMin, protoMax, r, fr, ps, pf) =>
      Nat(t, f, addrMin, if addrMax == addrMin then 0 else addrMax, protoMin, if protoMax == protoMin then 0 else protoMax, r, fr, ps, pf)
    case Dynset(k, d, n, op, t, i, exprs) => Dynset(k, d, n, op, t, i, Normals(exprs))
    case _ => e
  }

  function Normals(es: seq<Expr>): (ns: seq<Expr>)
    ensures |ns| == |es|
    decreases es, 0
  {
    if es == [] then [] else [Normal(es[0])] + Normals(es[1..])
  }

  /** One rule: registers start empty, and its limiters belong to the rule itself. */
  function EvalRule(es: seq<Expr>, p: Packet, ph: Physics, st: State): (State, Outcome) {
    var (c, o) := ExecAll(es, RuleSite(Normals(es)), p, ph, Config(map[], st));
    (c.state, o)
  }

  /** A chain: rules in order until one ends the evaluation; the policy is accept. */
  function EvalChain(rules: seq<seq<Expr>>, p: Packet, ph: Physics, st: State): (State, Outcome) {
    if rules == [] then (st, Accepted)
    else
      var (st', o) := EvalRule(rules[0], p, ph, st);
      if o.Continue? || o.Break? then EvalChain(rules[1..], p, ph, st') else (st', o)
  }

  // ---- Composition ----

  lemma ExecCons(e: Expr, rest: seq<Expr>, site: Site, p: Packet, ph: Physics, c: Config)
    ensures var (d, o) := Exec(e, site, p, ph, c);
      ExecAll([e] + rest, site, p, ph, c) == if o.Continue? then ExecAll(rest, site, p, ph, d) else (d, o)
  {
    hide Exec;
    assert ([e] + rest)[1..] == rest;
  }

  lemma ExecTwo(a: Expr, b: Expr, rest: seq<Expr>, site: Site, p: Packet, ph: Physics, c: Config)
    ensures var (d, o) := Exec(a, site, p, ph, c);
      ExecAll([a, b] + rest, site, p, ph, c) ==
        if !o.Continue? then (d, o)
        else var (d', o') := Exec(b, site, p, ph, d);
          if o'.Continue? then ExecAll(rest, site, p, ph, d') else (d', o')
  {
    hide Exec;
    assert [a, b] + rest == [a] + ([b] + rest);
    ExecCons(a, [b] + rest, site, p, ph, c);
    ExecCons(b, rest, site, p, ph, Exec(a, site, p, ph, c).0);
  }

  lemma ExecOne(e: Expr, site: Site, p: Packet, ph: Physics, c: Config)
    ensures ExecAll([e], site, p, ph, c) == Exec(e, site, p, ph, c)
  {
    assert [e] == [e] + [];
    ExecCons(e, [], site, p, ph, c);
  }

  lemma {:induction false} ExecConcat(a: seq<Expr>, b: seq<Expr>, site: Site, p: Packet, ph: Physics, c: Config)
    ensures var (d, o) := ExecAll(a, site, p, ph, c);
      ExecAll(a + b, site, p, ph, c) == if o.Continue? then ExecAll(b, site, p, ph, d) else (d, o)
  {
    if a == [] {
      assert a + b == b;
    } else {
      assert (a + b)[0] == a[0] && (a + b)[1..] == a[1..] + b;
      var (d, o) := Exec(a[0], site, p, ph, c);
      hide Exec;
      ExecConcat(a[1..], b, site, p, ph, d);
    }
  }

  lemma {:induction false} ChainConcat(a: seq<seq<Expr>>, b: seq<seq<Expr>>, p: Packet, ph: Physics, st: State)
    ensures var (st', o) := EvalChain(a, p, ph, st);
      EvalChain(a + b, p, ph, st) == if o.Accepted? && EndsOpen(a, p, ph, st) then EvalChain(b, p, ph, st') else (st', o)
  {
    if a == [] {
      assert a + b == b;
    } else {
      assert (a + b)[0] == a[0] && (a + b)[1..] == a[1..] + b;
      var (st', o) := EvalRule(a[0], p, ph, st);
      hide EvalRule;
      if o.Continue? || o.Break? {
        ChainConcat(a[1..], b, p, ph, st');
      }
    }
  }

  /** The chain ran to its end without a verdict. */
  predicate EndsOpen(rules: seq<seq<Expr>>, p: Packet, ph: Physics, st: State) {
    rules == [] ||
    var (st', o) := EvalRule(rules[0], p, ph, st);
    (o.Continue? || o.Break?) && EndsOpen(rules[1..], p, ph, st')
  }

  // ---- Normal forms mean the same ----

  lemma {:induction false} NormalsAt(es: seq<Expr>, i: nat)
    requires i < |es|
    ensures Normals(es)[i] == Normal(es[i])
  {
    if i > 0 {
      NormalsAt(es[1..], i - 1);
    }
  }

  lemma {:induction false} NormalMeansSame(e: Expr, site: Site, p: Packet, ph: Physics, c: Config)
    ensures Exec(e, site, p, ph, c) == Exec(Normal(e), site, p, ph, c)
    decreases e, 1
  {
    if e.Dynset? {
      NormalsMeanSame(e.exprs, SetSite(e.setName, Reg(c, e.keyRegister)), p, ph, c);
    }
  }

  lemma {:induction false} NormalsMeanSame(es: seq<Expr>, site: Site, p: Packet, ph: Physics, c: Config)
    ensures ExecAll(es, site, p, ph, c) == ExecAll(Normals(es), site, p, ph, c)
    decreases es, 0
  {
    if es != [] {
      NormalMeansSame(es[0], site, p, ph, c);
      var (d, o) := Exec(es[0], site, p, ph, c);
      hide Exec, Normal;
      assert Normals(es)[1..] == Normals(es[1..]);
      NormalsMeanSame(es[1..], site, p, ph, d);
    }
  }

  lemma {:induction false} NormalIdempotent(e: Expr)
    ensures Normal(Normal(e)) == Normal(e)
    decreases e, 1
  {
    if e.Dynset? {
      NormalsIdempotent(e.exprs);
    }
  }

  lemma {:induction false} NormalsIdempotent(es: seq<Expr>)
    ensures Normals(Normals(es)) == Normals(es)
    decreases es, 0
  {
    if es != [] {
      NormalIdempotent(es[0]);
      NormalsIdempotent(es[1..]);
      assert Normals(es)[1..] == Normals(es[1..]);
    }
  }

  /** Rules with the same normal form do the same to every packet in every state. */
  lemma SameNormalSameRule(a: seq<Expr>, b: seq<Expr>, p: Packet, ph: Physics, st: State)
    requires Normals(a) == Normals(b)
    ensures EvalRule(a, p, ph, st) == EvalRule(b, p, ph, st)
  {
    hide ExecAll, Normals;
    NormalsMeanSame(a, RuleSite(Normals(a)), p, ph, Config(map[], st));
    NormalsMeanSame(b, RuleSite(Normals(b)), p, ph, Config(map[], st));
  }

  /** So do chains. */
  lemma {:induction false} SameNormalSameChain(a: seq<seq<Expr>>, b: seq<seq<Expr>>, p: Packet, ph: Physics, st: State)
    requires |a| == |b| && forall i :: 0 <= i < |a| ==> Normals(a[i]) == Normals(b[i])
    ensures EvalChain(a, p, ph, st) == EvalChain(b, p, ph, st)
  {
    hide Normals, EvalRule;
    if a != [] {
      SameNormalSameRule(a[0], b[0], p, ph, st);
      SameNormalSameChain(a[1..], b[1..], p, ph, EvalRule(a[0], p, ph, st).0);
    }
  }
}
