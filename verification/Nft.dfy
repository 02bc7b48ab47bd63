/**
 The nftables rules the agent compiles (internal/nftctl/nftctl.go and source_policy.go):
 expressions, the plan of a snapshot, and the expression lists of every kind of rule.
 */
module Nft {
  import opened Values
  import opened Text
  import opened Snapshots
  import SP = SourcePolicy

  type Byte = x: nat | x < 256
  type Bytes = seq<Byte>

  // ---- Expressions ----

  datatype MetaKey = IifName | OifName | L4Proto
  datatype CtKey = CtMark | CtProtoDst | CtStatus
  datatype CmpOp = CmpEq | CmpNeq
  datatype VerdictKind = VerdictDrop | VerdictAccept
  datatype Base = NetworkHeader | TransportHeader

  datatype Expr =
    | Meta(key: MetaKey, register: nat, source: bool)
    | Cmp(op: CmpOp, register: nat, data: Bytes)
    | Payload(operation: nat, dest: nat, src: nat, base: Base, offset: nat, len: nat, csum: (nat, nat, nat))
    | Ct(register: nat, source: bool, ctKey: CtKey, direction: nat, optDirection: bool)
    | Immediate(register: nat, data: Bytes)
    | Objref(objType: nat, name: string)
    | Nat(natType: nat, family: nat, addrMin: nat, addrMax: nat, protoMin: nat, protoMax: nat,
          random: bool, fullyRandom: bool, persistent: bool, prefix: bool)
    | Bitwise(src: nat, dest: nat, len: nat, mask: Bytes, xor: Bytes)
    | Verdict(kind: VerdictKind)
    | Counter(bytes: nat, packets: nat)
    | Limit(limitType: nat, rate: nat, over: bool, unit: nat, burst: nat)
    | Connlimit(count: nat, flags: nat)
    | Dynset(keyRegister: nat, dataRegister: nat, setName: string, operation: nat, timeout: nat, invert: bool, exprs: seq<Expr>)
    | Unknown(text: string)

  const PROTO_TCP: Byte := 6
  const PROTO_UDP: Byte := 17
  const CT_STATUS_DNAT: bv32 := 0x20
  const FAMILY_IPV4 := 2
  const OBJ_COUNTER := 1
  const LIMIT_PACKETS := 0
  const PER_SECOND := 1
  const CONNLIMIT_INV := 1
  const DYNSET_UPDATE := 1
  const PER_SOURCE_TIMEOUT := 60
  const PER_SOURCE_SET_SIZE := 4096

  // ---- Words as register bytes ----

  function Low(x: nat): Byte {
    x % 256
  }

  function OfWord(b: bv8): Byte {
    b as nat
  }

  function ToWord(b: Byte): bv8 {
    b as bv8
  }

  function AddrBytes(x: SP.Addr): Bytes {
    [OfWord(x.a), OfWord(x.b), OfWord(x.c), OfWord(x.d)]
  }

  function NetMaskBytes(bits: nat): Bytes
    requires bits <= 32
  {
    var m := SP.MaskBytes(bits);
    [OfWord(m[0]), OfWord(m[1]), OfWord(m[2]), OfWord(m[3])]
  }

  /** A port in network order. */
  function Be2(x: u16): Bytes {
    [Low(x / 256), Low(x)]
  }

  /** A mark in host order (little-endian). */
  function Le4(x: u32): Bytes {
    [Low(x), Low(x / 256), Low(x / 256 / 256), Low(x / 256 / 256 / 256)]
  }

  /** A status word in host order (little-endian). */
  function StatusBytes(w: bv32): Bytes {
    [OfWord(SP.ByteOf(w, 3)), OfWord(SP.ByteOf(w, 2)), OfWord(SP.ByteOf(w, 1)), OfWord(SP.ByteOf(w, 0))]
  }

  const Zero4: Bytes := [0, 0, 0, 0]

  /** The flow has a destination-NAT binding. */
  predicate HasDnat(status: bv32) {
    status & CT_STATUS_DNAT != 0
  }

  /** The kernel's fixed 16-byte form of an interface name. */
  function IfName(n: Bytes): Bytes {
    seq(16, i requires 0 <= i < 16 => if i < |n| then n[i] else 0)
  }

  /** Names the kernel can hold: shorter than the fixed form and free of NUL. */
  predicate IsIfName(n: Bytes) {
    |n| < 16 && forall i :: 0 <= i < |n| ==> n[i] != 0
  }

  function ProtoNumber(proto: string): Byte {
    if proto == "udp" then PROTO_UDP else PROTO_TCP
  }

  // ---- Plan ----

  datatype Rule = Rule(
    mappingId: int,
    proto: string,
    publicPort: u16,
    target: SP.Addr,
    targetPort: u16,
    sourcePolicy: Option<SP.Policy>,
    flowMark: u32,
    ctMax: Option<nat>,
    newConnRate: Option<nat>,
    newConnBurst: Option<nat>,
    perSourceRate: Option<nat>,
    perSourceBurst: Option<nat>)

  datatype Guards = Guards(maxConn: nat, newConnRate: nat, newConnBurst: nat, perSourceRate: nat, perSourceBurst: nat)

  function Override(o: Option<nat>, default: nat): nat {
    if o.Some? then o.value else default
  }

  /** An absent override keeps the default; an explicit value replaces it, including 0, which disables the guard. */
  function EffectiveGuards(r: Rule, g: Guards): Guards {
    Guards(Override(r.ctMax, g.maxConn), Override(r.newConnRate, g.newConnRate), Override(r.newConnBurst, g.newConnBurst),
           Override(r.perSourceRate, g.perSourceRate), Override(r.perSourceBurst, g.perSourceBurst))
  }

  function PlanOne(m: Mapping): Rule
    requires m.targetAddr.IPv4?
  {
    Rule(m.id, m.proto, m.publicPort, m.targetAddr.addr, m.targetPort, m.sourcePolicy,
         if m.flowMark.Some? then m.flowMark.value else 0,
         m.ctMax, m.newConnRate, m.newConnBurst, m.perSourceRate, m.perSourceBurst)
  }

  predicate Plannable(s: Snapshot) {
    forall i :: 0 <= i < |s.mappings| ==> s.mappings[i].targetAddr.IPv4?
  }

  function Plan(s: Snapshot): (rs: seq<Rule>)
    requires Plannable(s)
    ensures |rs| == |s.mappings| && forall i :: 0 <= i < |rs| ==> rs[i] == PlanOne(s.mappings[i])
  {
    seq(|s.mappings|, i requires 0 <= i < |s.mappings| => PlanOne(s.mappings[i]))
  }

  // ---- Names ----

  const SuffixNew := "new"
  const SuffixIn := "in"
  const SuffixOut := "out"
  const SuffixRate := "rd"
  const SuffixConn := "cd"
  const SuffixSource := "pd"

  function CounterName(id: int, suffix: string): string {
    "m" + FormatInt(id) + "_" + suffix
  }

  function SetName(id: int): string {
    "ps" + FormatInt(id)
  }

  // ---- Expression lists ----

  /** Load a value into register 1 and require it to equal the data. */
  function Test(load: Expr, data: Bytes): seq<Expr> {
    [load, Cmp(CmpEq, 1, data)]
  }

  function LoadMeta(key: MetaKey): Expr {
    Meta(key, 1, false)
  }

  const LoadDport: Expr := Payload(0, 1, 0, TransportHeader, 2, 2, (0, 0, 0))
  const LoadSaddr: Expr := Payload(0, 1, 0, NetworkHeader, 12, 4, (0, 0, 0))

  function LoadCt(key: CtKey): Expr {
    Ct(1, false, key, 0, false)
  }

  /** iifname <iface> <proto> dport <publicPort> */
  function MatchExprs(iface: Bytes, r: Rule): seq<Expr> {
    Test(LoadMeta(IifName), IfName(iface)) +
    (Test(LoadMeta(L4Proto), [ProtoNumber(r.proto)]) +
     Test(LoadDport, Be2(r.publicPort)))
  }

  function ObjrefCounter(id: int, suffix: string): Expr {
    Objref(OBJ_COUNTER, CounterName(id, suffix))
  }

  const Drop: Expr := Verdict(VerdictDrop)

  /** The three expressions that let a source outside one prefix through to the next. */
  function OutsidePrefix(p: SP.Prefix): seq<Expr>
    requires SP.Canonical(p)
  {
    [LoadSaddr, Bitwise(1, 1, 4, NetMaskBytes(p.bits), Zero4), Cmp(CmpNeq, 1, AddrBytes(p.addr))]
  }

  predicate PolicyOk(ps: SP.Policy) {
    forall i :: 0 <= i < |ps| ==> SP.Canonical(ps[i])
  }

  function OutsideAll(ps: SP.Policy): seq<Expr>
    requires PolicyOk(ps)
  {
    if ps == [] then [] else OutsideAll(ps[..|ps| - 1]) + OutsidePrefix(ps[|ps| - 1])
  }

  predicate RuleOk(r: Rule) {
    r.sourcePolicy.Some? ==> PolicyOk(r.sourcePolicy.value)
  }

  predicate RulesOk(rs: seq<Rule>) {
    forall i :: 0 <= i < |rs| ==> RuleOk(rs[i])
  }

  /** The source allowlist rule of a mapping that has a policy. */
  function SourceDrop(iface: Bytes, r: Rule): seq<Expr>
    requires RuleOk(r) && r.sourcePolicy.Some?
  {
    MatchExprs(iface, r) + (OutsideAll(r.sourcePolicy.value) + [Counter(0, 0), Drop])
  }

  function RateLimit(rate: nat, burst: nat): Expr {
    Limit(LIMIT_PACKETS, rate, true, PER_SECOND, burst)
  }

  function GuardExprs(iface: Bytes, r: Rule, limit: Expr, suffix: string): seq<Expr> {
    MatchExprs(iface, r) + [limit, ObjrefCounter(r.mappingId, suffix), Drop]
  }

  function RateExprs(iface: Bytes, r: Rule, eff: Guards): seq<Expr> {
    GuardExprs(iface, r, RateLimit(eff.newConnRate, eff.newConnBurst), SuffixRate)
  }

  function ConnExprs(iface: Bytes, r: Rule, eff: Guards): seq<Expr> {
    GuardExprs(iface, r, Connlimit(eff.maxConn, CONNLIMIT_INV), SuffixConn)
  }

  function SourceMeter(r: Rule, eff: Guards): Expr {
    Dynset(1, 0, SetName(r.mappingId), DYNSET_UPDATE, PER_SOURCE_TIMEOUT, false,
           [RateLimit(eff.perSourceRate, eff.perSourceBurst)])
  }

  function PerSourceExprs(iface: Bytes, r: Rule, eff: Guards): seq<Expr> {
    MatchExprs(iface, r) + [LoadSaddr, SourceMeter(r, eff), ObjrefCounter(r.mappingId, SuffixSource), Drop]
  }

  function MarkExprs(r: Rule): seq<Expr> {
    if r.flowMark != 0 then [Immediate(1, Le4(r.flowMark)), Ct(1, true, CtMark, 0, false)] else []
  }

  const DestNat: Expr := Nat(1, FAMILY_IPV4, 1, 0, 2, 0, false, false, false, false)

  function DnatExprs(iface: Bytes, r: Rule): seq<Expr> {
    MatchExprs(iface, r) +
    (MarkExprs(r) +
     [ObjrefCounter(r.mappingId, SuffixNew), Immediate(1, AddrBytes(r.target)), Immediate(2, Be2(r.targetPort)), DestNat])
  }

  /** The tests that only a translated flow passes. */
  const DnatTest: seq<Expr> :=
    [LoadCt(CtStatus), Bitwise(1, 1, 4, StatusBytes(CT_STATUS_DNAT), Zero4), Cmp(CmpNeq, 1, Zero4)]

  function RetirementDropExprs(iface: Bytes, r: Retirement, key: MetaKey): seq<Expr> {
    Test(LoadMeta(key), IfName(iface)) +
    (Test(LoadMeta(L4Proto), [ProtoNumber(r.proto)]) +
     (Test(LoadCt(CtMark), Le4(r.flowMark)) +
      (Test(LoadCt(CtProtoDst), Be2(r.publicPort)) + (DnatTest + [Drop]))))
  }

  function QuarantineDropExprs(iface: Bytes, key: MetaKey): seq<Expr> {
    Test(LoadMeta(key), IfName(iface)) + (DnatTest + [Drop])
  }

  function ForwardCountExprs(iface: Bytes, r: Rule, key: MetaKey, suffix: string): seq<Expr> {
    Test(LoadMeta(key), IfName(iface)) +
    (Test(LoadMeta(L4Proto), [ProtoNumber(r.proto)]) +
     (Test(LoadCt(CtProtoDst), Be2(r.publicPort)) + (DnatTest + [ObjrefCounter(r.mappingId, suffix)])))
  }

  // ---- Chains ----

  /** Source allowlist, per-source guard, rate guard, connection guard, DNAT: the rules of one mapping, in order. */
  function RenderOne(iface: Bytes, r: Rule, g: Guards): seq<seq<Expr>>
    requires RuleOk(r)
  {
    var eff := EffectiveGuards(r, g);
    (if r.sourcePolicy.Some? then [SourceDrop(iface, r)] else []) +
    ((if eff.perSourceRate > 0 then [PerSourceExprs(iface, r, eff)] else []) +
     ((if eff.newConnRate > 0 then [RateExprs(iface, r, eff)] else []) +
      ((if eff.maxConn > 0 then [ConnExprs(iface, r, eff)] else []) +
       [DnatExprs(iface, r)])))
  }

  function Render(iface: Bytes, rs: seq<Rule>, g: Guards): seq<seq<Expr>>
    requires RulesOk(rs)
  {
    if rs == [] then [] else RenderOne(iface, rs[0], g) + Render(iface, rs[1..], g)
  }

  function RenderForward(iface: Bytes, rs: seq<Rule>): seq<seq<Expr>> {
    if rs == [] then []
    else [ForwardCountExprs(iface, rs[0], IifName, SuffixIn), ForwardCountExprs(iface, rs[0], OifName, SuffixOut)] + RenderForward(iface, rs[1..])
  }

  function RenderFences(iface: Bytes, rets: seq<Retirement>): seq<seq<Expr>> {
    if rets == [] then []
    else [RetirementDropExprs(iface, rets[0], IifName), RetirementDropExprs(iface, rets[0], OifName)] + RenderFences(iface, rets[1..])
  }
}
