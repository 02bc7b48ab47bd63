/**
 Applying and reading back the managed table (internal/nftctl/nftctl.go): the table an
 apply writes, the structural comparison of expressions, and the checker that accepts a
 read-back table exactly when it conforms to the desired one.
 */
module Readback {
  import opened Values
  import opened Snapshots
  import opened Nft
  import opened Machine
  import opened Naming
  import opened GuardIsolation
  import SP = SourcePolicy

  // ---- The table ----

  /** The user data of a rule. */
  datatype Tag =
    | NoTag
    | ActiveTag(id: int, hash: Digest<string>)
    | RetiredTag(retirementId: string, direction: MetaKey)
    | QuarantineTag(direction: MetaKey)
    | OtherTag(text: string)

  datatype KernelRule = KernelRule(tag: Tag, exprs: seq<Expr>)

  datatype ChainInfo = ChainInfo(family: nat, table: Option<string>, name: string, chainType: string, hook: Option<nat>, priority: Option<int>, acceptPolicy: Option<bool>)

  datatype SetInfo = SetInfo(name: string, keyType: string, isDynamic: bool, hasTimeout: bool, timeout: nat, size: nat)

  datatype Table = Table(chains: seq<ChainInfo>, natRules: seq<KernelRule>, fwdRules: seq<KernelRule>, sets: seq<SetInfo>)

  const TableName := "pickle_relay_dnat"
  const NatChainInfo := ChainInfo(FAMILY_IPV4, Some(TableName), "prerouting", "nat", Some(0), Some(-100), Some(true))
  const FwdChainInfo := ChainInfo(FAMILY_IPV4, Some(TableName), "forward", "filter", Some(2), Some(0), Some(true))

  function PerSourceSet(id: int): SetInfo {
    SetInfo(SetName(id), "ipv4_addr", true, true, PER_SOURCE_TIMEOUT, PER_SOURCE_SET_SIZE)
  }

  function RuleTuple(r: Rule): Tuple {
    Tuple(r.mappingId, r.proto, r.publicPort, IPv4(r.target), r.targetPort, r.flowMark)
  }

  function ActiveTagOf(r: Rule): Tag {
    ActiveTag(r.mappingId, TupleHash(RuleTuple(r)))
  }

  function ExprsOf(rules: seq<KernelRule>): (es: seq<seq<Expr>>)
    ensures |es| == |rules| && forall i :: 0 <= i < |rules| ==> es[i] == rules[i].exprs
  {
    seq(|rules|, i requires 0 <= i < |rules| => rules[i].exprs)
  }

  // ---- Expected tags and sets ----

  function Blank(n: nat): seq<Tag> {
    seq(n, i => NoTag)
  }

  function GuardCount(r: Rule, g: Guards): nat {
    var eff := EffectiveGuards(r, g);
    (if r.sourcePolicy.Some? then 1 else 0) + (if eff.perSourceRate > 0 then 1 else 0)
    + (if eff.newConnRate > 0 then 1 else 0) + (if eff.maxConn > 0 then 1 else 0)
  }

  /** Every guard rule is untagged and every DNAT rule carries its mapping's tag. */
  function NatTags(rs: seq<Rule>, g: Guards): seq<Tag> {
    if rs == [] then [] else Blank(GuardCount(rs[0], g)) + [ActiveTagOf(rs[0])] + NatTags(rs[1..], g)
  }

  function FenceTags(rets: seq<Retirement>): seq<Tag> {
    if rets == [] then [] else [RetiredTag(rets[0].retirementId, IifName), RetiredTag(rets[0].retirementId, OifName)] + FenceTags(rets[1..])
  }

  function FwdTags(rs: seq<Rule>, rets: seq<Retirement>): seq<Tag> {
    Blank(2 * |rs|) + FenceTags(rets)
  }

  predicate Metering(r: Rule, g: Guards) {
    EffectiveGuards(r, g).perSourceRate > 0
  }

  /** The per-source sets, in mapping order. */
  function SetsOf(rs: seq<Rule>, g: Guards): seq<SetInfo> {
    if rs == [] then []
    else (if Metering(rs[0], g) then [PerSourceSet(rs[0].mappingId)] else []) + SetsOf(rs[1..], g)
  }

  function FwdExprs(iface: Bytes, rs: seq<Rule>, rets: seq<Retirement>): seq<seq<Expr>> {
    RenderForward(iface, rs) + RenderFences(iface, rets)
  }

  // ---- Comparing expressions ----

  /** The structural comparison: anonymous counter values do not matter, and a read-back NAT range may repeat
      the lower register where none was asked for. */
  predicate ExprEqual(got: Expr, want: Expr)
    decreases want, 1
  {
    match want
    case Nat(t, f, addrMin, addrMax, protoMin, protoMax, r, fr, ps, pf) =>
      && got.Nat? && got.natType == t && got.family == f && got.addrMin == addrMin && got.protoMin == protoMin
      && (got.addrMax == addrMax || (addrMax == 0 && got.addrMax == addrMin))
      && (got.protoMax == protoMax || (protoMax == 0 && got.protoMax == protoMin))
      && got.random == r && got.fullyRandom == fr && got.persistent == ps && got.prefix == pf
    case Counter(_, _) => got.Counter?
    case Dynset(k, d, n, op, t, i, exprs) =>
      && got.Dynset? && got.keyRegister == k && got.dataRegister == d && got.setName == n && got.operation == op
      && got.timeout == t && got.invert == i && ExprsEqual(got.exprs, exprs)
    case Unknown(_) => false
    case _ => got == want
  }

  predicate ExprsEqual(got: seq<Expr>, want: seq<Expr>)
    decreases want, 0
  {
    |got| == |want| && forall i :: 0 <= i < |want| ==> ExprEqual(got[i], want[i])
  }

  method ManagedExprsEqual(got: seq<Expr>, want: seq<Expr>) returns (equal: bool)
    ensures equal <==> ExprsEqual(got, want)
    decreases want
  {
    if |got| != |want| {
      return false;
    }
    for i := 0 to |want|
      invariant forall j :: 0 <= j < i ==> ExprEqual(got[j], want[j])
    {
      var g, w := got[i], want[i];
      if w.Dynset? {
        if !g.Dynset? || g.keyRegister != w.keyRegister || g.dataRegister != w.dataRegister || g.setName != w.setName
           || g.operation != w.operation || g.timeout != w.timeout || g.invert != w.invert {
          return false;
        }
        var nested := ManagedExprsEqual(g.exprs, w.exprs);
        if !nested {
          return false;
        }
      } else if !ExprEqual(g, w) {
        return false;
      }
    }
    equal := true;
  }

  /** Expressions the compiler emits: their own normal form, with no NAT range and nothing unknown. */
  predicate Emitted(e: Expr)
    decreases e, 1
  {
    && !e.Unknown?
    && (e.Counter? ==> e == Counter(0, 0))
    && (e.Nat? ==> e.addrMax == 0 && e.protoMax == 0)
    && (e.Dynset? ==> AllEmitted(e.exprs))
  }

  predicate AllEmitted(es: seq<Expr>)
    decreases es, 0
  {
    forall i :: 0 <= i < |es| ==> Emitted(es[i])
  }

  /** Against an emitted expression the comparison is equality of normal forms. */
  lemma {:induction false} EqualIffNormal(got: Expr, want: Expr)
    requires Emitted(want)
    ensures ExprEqual(got, want) <==> Normal(got) == want
    decreases want, 1
  {
    if want.Dynset? && got.Dynset? {
      AllEqualIffNormal(got.exprs, want.exprs);
    }
  }

  lemma {:induction false} AllEqualIffNormal(got: seq<Expr>, want: seq<Expr>)
    requires AllEmitted(want)
    ensures ExprsEqual(got, want) <==> Normals(got) == want
    decreases want, 0
  {
    if |got| == |want| {
      forall i | 0 <= i < |want| ensures ExprEqual(got[i], want[i]) <==> Normals(got)[i] == want[i] {
        NormalsAt(got, i);
        EqualIffNormal(got[i], want[i]);
      }
      hide ExprEqual, Normals, Emitted, Normal;
    }
  }

  // ---- Everything compiled is emitted ----

  lemma EmittedConcat(a: seq<Expr>, b: seq<Expr>)
    requires AllEmitted(a) && AllEmitted(b)
    ensures AllEmitted(a + b)
  {
    hide Emitted;
  }

  lemma {:induction false} OutsideEmitted(ps: seq<SP.Prefix>)
    requires PolicyOk(ps)
    ensures AllEmitted(OutsideAll(ps))
  {
    if ps != [] {
      OutsideEmitted(ps[..|ps| - 1]);
      assert AllEmitted(OutsidePrefix(ps[|ps| - 1]));
      hide AllEmitted, OutsidePrefix;
      EmittedConcat(OutsideAll(ps[..|ps| - 1]), OutsidePrefix(ps[|ps| - 1]));
    }
  }

  lemma MatchEmitted(iface: Bytes, r: Rule, tail: seq<Expr>)
    requires AllEmitted(tail)
    ensures AllEmitted(MatchExprs(iface, r) + tail)
  {
    assert AllEmitted(MatchExprs(iface, r));
    hide AllEmitted, MatchExprs;
    EmittedConcat(MatchExprs(iface, r), tail);
  }

  lemma MeterEmitted(r: Rule, eff: Guards)
    ensures Emitted(SourceMeter(r, eff))
  {
    hide SetName;
    var nested := [RateLimit(eff.perSourceRate, eff.perSourceBurst)];
    assert Emitted(nested[0]);
    assert AllEmitted(nested);
  }

  lemma RenderOneEmitted(iface: Bytes, r: Rule, g: Guards)
    requires RuleOk(r)
    ensures forall i :: 0 <= i < |RenderOne(iface, r, g)| ==> AllEmitted(RenderOne(iface, r, g)[i])
  {
    hide MatchExprs, CounterName, SetName, Be2, Le4, EffectiveGuards, OutsideAll, RuleOk;
    var eff := EffectiveGuards(r, g);
    MeterEmitted(r, eff);
    MatchEmitted(iface, r, [LoadSaddr, SourceMeter(r, eff), ObjrefCounter(r.mappingId, SuffixSource), Drop]);
    MatchEmitted(iface, r, [RateLimit(eff.newConnRate, eff.newConnBurst), ObjrefCounter(r.mappingId, SuffixRate), Drop]);
    MatchEmitted(iface, r, [Connlimit(eff.maxConn, CONNLIMIT_INV), ObjrefCounter(r.mappingId, SuffixConn), Drop]);
    MatchEmitted(iface, r, MarkExprs(r) + [ObjrefCounter(r.mappingId, SuffixNew), Immediate(1, AddrBytes(r.target)), Immediate(2, Be2(r.targetPort)), DestNat]);
    if r.sourcePolicy.Some? {
      SourceDropEmitted(iface, r);
    }
    hide AllEmitted;
  }

  lemma SourceDropEmitted(iface: Bytes, r: Rule)
    requires RuleOk(r) && r.sourcePolicy.Some?
    ensures AllEmitted(SourceDrop(iface, r))
  {
    var tail := [Counter(0, 0), Drop];
    assert AllEmitted(tail);
    hide AllEmitted, OutsideAll, MatchExprs;
    OutsideEmitted(r.sourcePolicy.value);
    EmittedConcat(OutsideAll(r.sourcePolicy.value), tail);
    MatchEmitted(iface, r, OutsideAll(r.sourcePolicy.value) + tail);
  }

  predicate ChainEmitted(chain: seq<seq<Expr>>) {
    forall i :: 0 <= i < |chain| ==> AllEmitted(chain[i])
  }

  lemma {:induction false} RenderEmitted(iface: Bytes, rs: seq<Rule>, g: Guards)
    requires RulesOk(rs)
    ensures ChainEmitted(Render(iface, rs, g))
  {
    hide AllEmitted, RenderOne;
    if rs != [] {
      assert RuleOk(rs[0]);
      RenderOneEmitted(iface, rs[0], g);
      RenderEmitted(iface, rs[1..], g);
    }
  }

  lemma CountEmitted(iface: Bytes, r: Rule, key: MetaKey, suffix: string)
    ensures AllEmitted(ForwardCountExprs(iface, r, key, suffix))
  {
    hide CounterName, Be2, IfName;
  }

  lemma FenceEmitted(iface: Bytes, r: Retirement, key: MetaKey)
    ensures AllEmitted(RetirementDropExprs(iface, r, key))
  {
    hide Be2, Le4, IfName;
  }

  lemma {:induction false} ForwardEmitted(iface: Bytes, rs: seq<Rule>)
    ensures ChainEmitted(RenderForward(iface, rs))
  {
    hide AllEmitted, ForwardCountExprs;
    if rs != [] {
      CountEmitted(iface, rs[0], IifName, SuffixIn);
      CountEmitted(iface, rs[0], OifName, SuffixOut);
      ForwardEmitted(iface, rs[1..]);
    }
  }

  lemma {:induction false} FencesEmitted(iface: Bytes, rets: seq<Retirement>)
    ensures ChainEmitted(RenderFences(iface, rets))
  {
    hide AllEmitted, RetirementDropExprs;
    if rets != [] {
      FenceEmitted(iface, rets[0], IifName);
      FenceEmitted(iface, rets[0], OifName);
      FencesEmitted(iface, rets[1..]);
    }
  }

  // ---- What the kernel may echo ----

  /** Of the translation the kernel may repeat the lower registers as the upper ones, and nothing else; and the values of an anonymous counter do
      not matter. */
  lemma EchoIff(got: Expr, addrMax: nat, protoMax: nat, bytes: nat, packets: nat)
    ensures ExprEqual(Nat(1, 2, 1, addrMax, 2, protoMax, false, false, false, false), DestNat) <==> addrMax in {0, 1} && protoMax in {0, 2}
    ensures ExprEqual(got, DestNat) ==> got.Nat? && got.(addrMax := 0, protoMax := 0) == Nat(1, 2, 1, 0, 2, 0, false, false, false, false)
    ensures ExprEqual(got, Counter(0, 0)) <==> got.Counter?
    ensures ExprEqual(got, Drop) <==> got == Verdict(VerdictDrop)
  {
  }

  // ---- Conformance ----

  function Owned(chains: seq<ChainInfo>): seq<ChainInfo> {
    if chains == [] then []
    else
      var rest := Owned(chains[..|chains| - 1]);
      var c := chains[|chains| - 1];
      if c.table == Some(TableName) && c.family == FAMILY_IPV4 then rest + [c] else rest
  }

  /** The owned table has exactly the two base chains, hooked as intended. */
  predicate ChainsOk(chains: seq<ChainInfo>) {
    |Owned(chains)| == 2 && NatChainInfo in Owned(chains) && FwdChainInfo in Owned(chains)
  }

  /** Rule by rule: the expected tag, and expressions with the desired normal form. */
  predicate RulesConform(rules: seq<KernelRule>, tags: seq<Tag>, desired: seq<seq<Expr>>) {
    && |rules| == |desired| == |tags|
    && forall i :: 0 <= i < |rules| ==> rules[i].tag == tags[i] && Normals(rules[i].exprs) == desired[i]
  }

  /** The sets are the expected ones, each named set with the expected attributes. */
  predicate SetsConform(sets: seq<SetInfo>, expected: seq<SetInfo>) {
    |sets| == |SetOf(expected)| && forall i :: 0 <= i < |sets| ==> sets[i] in expected
  }

  predicate Conforms(iface: Bytes, rs: seq<Rule>, rets: seq<Retirement>, g: Guards, t: Table)
    requires RulesOk(rs)
  {
    && ChainsOk(t.chains)
    && RulesConform(t.natRules, NatTags(rs, g), Render(iface, rs, g))
    && RulesConform(t.fwdRules, FwdTags(rs, rets), FwdExprs(iface, rs, rets))
    && SetsConform(t.sets, SetsOf(rs, g))
  }

  method ValidateOwnedChains(chains: seq<ChainInfo>) returns (ok: bool)
    ensures ok <==> ChainsOk(chains)
  {
    var owned: seq<ChainInfo> := [];
    for i := 0 to |chains|
      invariant owned == Owned(chains[..i])
    {
      assert chains[..i + 1][..i] == chains[..i];
      if chains[i].table == Some(TableName) && chains[i].family == FAMILY_IPV4 {
        owned := owned + [chains[i]];
      }
    }
    assert chains[..|chains|] == chains;
    ok := |owned| == 2 && NatChainInfo in owned && FwdChainInfo in owned;
  }

  lemma {:induction false} NatTagsLength(iface: Bytes, rs: seq<Rule>, g: Guards)
    requires RulesOk(rs)
    ensures |NatTags(rs, g)| == |Render(iface, rs, g)|
  {
    if rs != [] {
      NatTagsLength(iface, rs[1..], g);
      hide SourceDrop, PerSourceExprs, RateExprs, ConnExprs, DnatExprs, RuleOk;
      assert |RenderOne(iface, rs[0], g)| == GuardCount(rs[0], g) + 1;
    }
  }

  lemma {:induction false} FwdTagsLength(iface: Bytes, rs: seq<Rule>, rets: seq<Retirement>)
    ensures |FwdTags(rs, rets)| == |FwdExprs(iface, rs, rets)|
  {
    ForwardLength(iface, rs);
    FenceTagsLength(iface, rets);
  }

  lemma {:induction false} ForwardLength(iface: Bytes, rs: seq<Rule>)
    ensures |RenderForward(iface, rs)| == 2 * |rs|
  {
    if rs != [] {
      ForwardLength(iface, rs[1..]);
    }
  }

  lemma {:induction false} FenceTagsLength(iface: Bytes, rets: seq<Retirement>)
    ensures |FenceTags(rets)| == |RenderFences(iface, rets)| == 2 * |rets|
  {
    if rets != [] {
      FenceTagsLength(iface, rets[1..]);
    }
  }

  method CompareRules(rules: seq<KernelRule>, tags: seq<Tag>, desired: seq<seq<Expr>>) returns (ok: bool)
    requires |tags| == |desired| && ChainEmitted(desired)
    ensures ok <==> RulesConform(rules, tags, desired)
  {
    hide ExprsEqual, Normals, AllEmitted;
    if |rules| != |desired| {
      return false;
    }
    for i := 0 to |desired|
      invariant forall j :: 0 <= j < i ==> rules[j].tag == tags[j] && Normals(rules[j].exprs) == desired[j]
    {
      var equal := ManagedExprsEqual(rules[i].exprs, desired[i]);
      AllEqualIffNormal(rules[i].exprs, desired[i]);
      if rules[i].tag != tags[i] || !equal {
        return false;
      }
    }
    ok := true;
  }

  /** The readback checker accepts exactly the conforming tables. */
  method ValidateManagedReadback(iface: Bytes, rs: seq<Rule>, rets: seq<Retirement>, g: Guards, t: Table) returns (ok: bool)
    requires RulesOk(rs)
    ensures ok <==> Conforms(iface, rs, rets, g, t)
  {
    hide Render, RenderForward, RenderFences, NatTags, FwdTags, SetsOf, ChainsOk, RulesConform, RulesOk, AllEmitted;
    ok := ValidateOwnedChains(t.chains);
    if !ok {
      return;
    }
    NatTagsLength(iface, rs, g);
    RenderEmitted(iface, rs, g);
    ok := CompareRules(t.natRules, NatTags(rs, g), Render(iface, rs, g));
    if !ok {
      return;
    }
    FwdTagsLength(iface, rs, rets);
    ForwardEmitted(iface, rs);
    FencesEmitted(iface, rets);
    ok := CompareRules(t.fwdRules, FwdTags(rs, rets), FwdExprs(iface, rs, rets));
    if !ok {
      return;
    }
    var expected := SetsOf(rs, g);
    if |t.sets| != |SetOf(expected)| {
      return false;
    }
    for i := 0 to |t.sets|
      invariant forall j :: 0 <= j < i ==> t.sets[j] in expected
    {
      if t.sets[i] !in expected {
        return false;
      }
    }
    ok := true;
  }

  // ---- The tag loops ----

  predicate Managed(tag: Tag) {
    tag.ActiveTag? || tag.RetiredTag?
  }

  function TagsOf(rules: seq<KernelRule>): set<Tag> {
    set k | k in rules && k.tag != NoTag :: k.tag
  }

  lemma {:induction false} NatTagSet(rs: seq<Rule>, g: Guards, tag: Tag)
    ensures tag in NatTags(rs, g) && tag != NoTag <==> exists r :: r in rs && tag == ActiveTagOf(r)
  {
    hide ActiveTagOf, GuardCount;
    if rs != [] {
      NatTagSet(rs[1..], g, tag);
      assert forall r :: r in rs <==> r == rs[0] || r in rs[1..];
      assert ActiveTagOf(rs[0]) != NoTag by { TagIsActive(rs[0]); }
    }
  }

  lemma TagIsActive(r: Rule)
    ensures ActiveTagOf(r).ActiveTag?
  {
  }

  lemma {:induction false} FenceTagSet(rets: seq<Retirement>, tag: Tag)
    ensures tag in FenceTags(rets) <==>
      exists r :: r in rets && (tag == RetiredTag(r.retirementId, IifName) || tag == RetiredTag(r.retirementId, OifName))
  {
    if rets != [] {
      FenceTagSet(rets[1..], tag);
      assert forall r :: r in rets <==> r == rets[0] || r in rets[1..];
    }
  }

  lemma ConformingTags(rules: seq<KernelRule>, tags: seq<Tag>, desired: seq<seq<Expr>>, tag: Tag)
    requires RulesConform(rules, tags, desired)
    ensures tag in TagsOf(rules) <==> tag in tags && tag != NoTag
  {
    hide Normals;
    if tag in tags {
      var i :| 0 <= i < |tags| && tags[i] == tag;
      assert rules[i] in rules;
    }
    if tag in TagsOf(rules) {
      var k :| k in rules && k.tag == tag;
      var i :| 0 <= i < |rules| && rules[i] == k;
      assert tags[i] == tag;
    }
  }

  /** The tags a conforming table carries. */
  lemma TagsAreExpected(iface: Bytes, rs: seq<Rule>, rets: seq<Retirement>, g: Guards, t: Table, tag: Tag)
    requires RulesOk(rs) && Conforms(iface, rs, rets, g, t)
    ensures tag in TagsOf(t.natRules + t.fwdRules) <==>
      || (exists r :: r in rs && tag == ActiveTagOf(r))
      || (exists r :: r in rets && (tag == RetiredTag(r.retirementId, IifName) || tag == RetiredTag(r.retirementId, OifName)))
  {
    hide Render, RenderForward, RenderFences, NatTags, RulesConform, ChainsOk, SetsConform, RulesOk, FenceTags, ActiveTagOf;
    ConformingTags(t.natRules, NatTags(rs, g), Render(iface, rs, g), tag);
    ConformingTags(t.fwdRules, FwdTags(rs, rets), FwdExprs(iface, rs, rets), tag);
    NatTagSet(rs, g, tag);
    FenceTagSet(rets, tag);
    assert TagsOf(t.natRules + t.fwdRules) == TagsOf(t.natRules) + TagsOf(t.fwdRules);
    forall r | r in rs ensures ActiveTagOf(r) != NoTag {
      TagIsActive(r);
    }
  }

  /** The whole verification after an apply: the readback check, and then three loops over the tags, which never refuse
      what the readback check accepted. */
  method VerifyManaged(iface: Bytes, rs: seq<Rule>, rets: seq<Retirement>, g: Guards, t: Table) returns (ok: bool)
    requires RulesOk(rs)
    ensures ok <==> Conforms(iface, rs, rets, g, t)
  {
    hide Conforms, TagsOf, ActiveTagOf;
    ok := ValidateManagedReadback(iface, rs, rets, g, t);
    if !ok {
      return;
    }
    forall tag ensures tag in TagsOf(t.natRules + t.fwdRules) <==>
      || (exists r :: r in rs && tag == ActiveTagOf(r))
      || (exists r :: r in rets && (tag == RetiredTag(r.retirementId, IifName) || tag == RetiredTag(r.retirementId, OifName)))
    {
      TagsAreExpected(iface, rs, rets, g, t, tag);
    }
    var actual := TagsOf(t.natRules + t.fwdRules);
    var expected: set<Tag> := {};
    for i := 0 to |rs|
      invariant forall j :: 0 <= j < i ==> ActiveTagOf(rs[j]) in expected
    {
      expected := expected + {ActiveTagOf(rs[i])};
      assert rs[i] in rs && ActiveTagOf(rs[i]) in actual;
      if ActiveTagOf(rs[i]) !in actual {
        return false;
      }
    }
    for i := 0 to |rets|
      invariant forall r :: r in rs ==> ActiveTagOf(r) in expected
      invariant forall j :: 0 <= j < i ==> RetiredTag(rets[j].retirementId, IifName) in expected && RetiredTag(rets[j].retirementId, OifName) in expected
    {
      var a, b := RetiredTag(rets[i].retirementId, IifName), RetiredTag(rets[i].retirementId, OifName);
      expected := expected + {a, b};
      assert rets[i] in rets && a in actual && b in actual;
      if a !in actual || b !in actual {
        return false;
      }
    }
    assert forall r :: r in rets ==> RetiredTag(r.retirementId, IifName) in expected && RetiredTag(r.retirementId, OifName) in expected;
    ok := forall tag :: tag in actual && Managed(tag) ==> tag in expected;
  }

  // ---- Soundness ----

  lemma ConformingChain(rules: seq<KernelRule>, tags: seq<Tag>, desired: seq<seq<Expr>>, p: Packet, ph: Physics, st: State)
    requires RulesConform(rules, tags, desired)
    ensures EvalChain(ExprsOf(rules), p, ph, st) == EvalChain(desired, p, ph, st)
  {
    hide Normals, EvalChain;
    forall i | 0 <= i < |desired| ensures Normals(ExprsOf(rules)[i]) == Normals(desired[i]) {
      NormalsIdempotent(rules[i].exprs);
    }
    SameNormalSameChain(ExprsOf(rules), desired, p, ph, st);
  }

  /** An accepted table treats every packet as the desired rules do. */
  lemma ReadbackSound(iface: Bytes, rs: seq<Rule>, rets: seq<Retirement>, g: Guards, t: Table, p: Packet, ph: Physics, st: State)
    requires RulesOk(rs) && Conforms(iface, rs, rets, g, t)
    ensures EvalChain(ExprsOf(t.natRules), p, ph, st) == EvalChain(Render(iface, rs, g), p, ph, st)
    ensures EvalChain(ExprsOf(t.fwdRules), p, ph, st) == EvalChain(FwdExprs(iface, rs, rets), p, ph, st)
  {
    hide EvalChain, Render, FwdExprs, NatTags, FwdTags, RulesConform, ChainsOk, SetsConform, RulesOk;
    ConformingChain(t.natRules, NatTags(rs, g), Render(iface, rs, g), p, ph, st);
    ConformingChain(t.fwdRules, FwdTags(rs, rets), FwdExprs(iface, rs, rets), p, ph, st);
  }

  // ---- What an apply writes ----

  predicate EndsInNat(es: seq<Expr>) {
    es != [] && es[|es| - 1].Nat?
  }

  function NatCount(chain: seq<seq<Expr>>): nat {
    if chain == [] then 0 else NatCount(chain[..|chain| - 1]) + (if EndsInNat(chain[|chain| - 1]) then 1 else 0)
  }

  lemma {:induction false} NatCountConcat(a: seq<seq<Expr>>, b: seq<seq<Expr>>)
    ensures NatCount(a + b) == NatCount(a) + NatCount(b)
  {
    hide EndsInNat;
    if b == [] {
      assert a + b == a;
    } else {
      assert (a + b)[..|a + b| - 1] == a + b[..|b| - 1];
      NatCountConcat(a, b[..|b| - 1]);
    }
  }

  /** Of the rules of one mapping only the last ends in a translation. */
  lemma OneNatPerMapping(iface: Bytes, r: Rule, g: Guards)
    requires RuleOk(r)
    ensures var one := RenderOne(iface, r, g);
      && |one| == GuardCount(r, g) + 1 && EndsInNat(one[|one| - 1])
      && forall i :: 0 <= i < |one| - 1 ==> !EndsInNat(one[i])
  {
    hide MatchExprs, CounterName, SetName, Be2, Le4, OutsideAll, RuleOk, EffectiveGuards;
    var eff := EffectiveGuards(r, g);
    assert EndsInNat(DnatExprs(iface, r));
    assert !EndsInNat(PerSourceExprs(iface, r, eff));
    assert !EndsInNat(RateExprs(iface, r, eff)) && !EndsInNat(ConnExprs(iface, r, eff));
    if r.sourcePolicy.Some? {
      assert !EndsInNat(SourceDrop(iface, r));
    }
    hide DnatExprs, PerSourceExprs, RateExprs, ConnExprs, SourceDrop;
  }

  lemma {:induction false} NoNats(chain: seq<seq<Expr>>)
    requires forall i :: 0 <= i < |chain| ==> !EndsInNat(chain[i])
    ensures NatCount(chain) == 0
  {
    if chain != [] {
      NoNats(chain[..|chain| - 1]);
    }
  }

  /** The rule at position k: its index among the mappings is in range, and its tag is the expected one. */
  lemma {:induction false} TagAt(iface: Bytes, rs: seq<Rule>, g: Guards, k: nat)
    requires RulesOk(rs) && k < |Render(iface, rs, g)| && k < |NatTags(rs, g)|
    ensures var chain := Render(iface, rs, g); var n := NatCount(chain[..k]);
      if EndsInNat(chain[k]) then n < |rs| && NatTags(rs, g)[k] == ActiveTagOf(rs[n]) else NatTags(rs, g)[k] == NoTag
    decreases |rs|
  {
    hide RenderOne, EndsInNat, GuardCount, ActiveTagOf, RuleOk, NatCount;
    assert RuleOk(rs[0]);
    OneNatPerMapping(iface, rs[0], g);
    var one, rest, chain := RenderOne(iface, rs[0], g), Render(iface, rs[1..], g), Render(iface, rs, g);
    if k < |one| {
      assert chain[..k] == one[..k] && chain[k] == one[k];
      NoNats(one[..k]);
    } else {
      var j := k - |one|;
      assert chain[..k] == one + rest[..j] && chain[k] == rest[j];
      assert NatTags(rs, g)[k] == NatTags(rs[1..], g)[j];
      TagAt(iface, rs[1..], g, j);
      assert one == one[..|one| - 1] + [one[|one| - 1]];
      NoNats(one[..|one| - 1]);
      CountLast(one[..|one| - 1], one[|one| - 1]);
      NatCountConcat(one, rest[..j]);
      var n := NatCount(rest[..j]);
      assert n < |rs[1..]| ==> rs[1..][n] == rs[n + 1];
    }
  }

  lemma CountLast(a: seq<seq<Expr>>, x: seq<Expr>)
    ensures NatCount(a + [x]) == NatCount(a) + if EndsInNat(x) then 1 else 0
  {
    assert (a + [x])[..|a|] == a;
  }

  /** The rules of the prerouting chain with their tags, numbered through the mappings. */
  method AssembleNat(iface: Bytes, rs: seq<Rule>, g: Guards) returns (out: seq<KernelRule>)
    requires RulesOk(rs)
    ensures |out| == |Render(iface, rs, g)| == |NatTags(rs, g)|
    ensures forall i :: 0 <= i < |out| ==> out[i] == KernelRule(NatTags(rs, g)[i], Render(iface, rs, g)[i])
  {
    hide Render, NatTags, EndsInNat, RulesOk;
    NatTagsLength(iface, rs, g);
    out := [];
    var activeIndex := 0;
    var chain := Render(iface, rs, g);
    for k := 0 to |chain|
      invariant activeIndex == NatCount(chain[..k])
      invariant |out| == k && forall i :: 0 <= i < k ==> out[i] == KernelRule(NatTags(rs, g)[i], chain[i])
    {
      TagAt(iface, rs, g, k);
      assert chain[..k + 1] == chain[..k] + [chain[k]];
      CountLast(chain[..k], chain[k]);
      if EndsInNat(chain[k]) {
        out := out + [KernelRule(ActiveTagOf(rs[activeIndex]), chain[k])];
        activeIndex := activeIndex + 1;
      } else {
        out := out + [KernelRule(NoTag, chain[k])];
      }
    }
  }

  lemma {:induction false} FwdTagAt(iface: Bytes, rs: seq<Rule>, rets: seq<Retirement>)
    ensures |FenceTags(rets)| == |RenderFences(iface, rets)| == 2 * |rets|
    ensures forall i :: 0 <= i < |rets| ==>
      && FenceTags(rets)[2 * i] == RetiredTag(rets[i].retirementId, IifName) && FenceTags(rets)[2 * i + 1] == RetiredTag(rets[i].retirementId, OifName)
      && RenderFences(iface, rets)[2 * i] == RetirementDropExprs(iface, rets[i], IifName)
      && RenderFences(iface, rets)[2 * i + 1] == RetirementDropExprs(iface, rets[i], OifName)
    decreases |rets|
  {
    hide RetirementDropExprs;
    if rets != [] {
      FwdTagAt(iface, rs, rets[1..]);
      forall i | 1 <= i < |rets|
        ensures FenceTags(rets)[2 * i] == RetiredTag(rets[i].retirementId, IifName) && FenceTags(rets)[2 * i + 1] == RetiredTag(rets[i].retirementId, OifName)
        ensures RenderFences(iface, rets)[2 * i] == RetirementDropExprs(iface, rets[i], IifName)
        ensures RenderFences(iface, rets)[2 * i + 1] == RetirementDropExprs(iface, rets[i], OifName)
      {
        assert rets[1..][i - 1] == rets[i];
        assert FenceTags(rets)[2 * i] == FenceTags(rets[1..])[2 * (i - 1)];
      }
    }
  }

  method AssembleForward(iface: Bytes, rs: seq<Rule>, rets: seq<Retirement>) returns (out: seq<KernelRule>)
    ensures |out| == |FwdExprs(iface, rs, rets)| == |FwdTags(rs, rets)|
    ensures forall i :: 0 <= i < |out| ==> out[i] == KernelRule(FwdTags(rs, rets)[i], FwdExprs(iface, rs, rets)[i])
  {
    hide RenderForward, RenderFences, FenceTags, RetirementDropExprs;
    ForwardLength(iface, rs);
    FwdTagAt(iface, rs, rets);
    var counting := RenderForward(iface, rs);
    ghost var tags, exprs := FwdTags(rs, rets), FwdExprs(iface, rs, rets);
    out := [];
    for i := 0 to |counting|
      invariant |out| == i && forall k :: 0 <= k < i ==> out[k] == KernelRule(tags[k], exprs[k])
    {
      out := out + [KernelRule(NoTag, counting[i])];
    }
    for i := 0 to |rets|
      invariant |out| == |counting| + 2 * i && forall k :: 0 <= k < |out| ==> out[k] == KernelRule(tags[k], exprs[k])
    {
      out := out + [KernelRule(RetiredTag(rets[i].retirementId, IifName), RetirementDropExprs(iface, rets[i], IifName)),
                    KernelRule(RetiredTag(rets[i].retirementId, OifName), RetirementDropExprs(iface, rets[i], OifName))];
    }
  }

  method AssembleSets(rs: seq<Rule>, g: Guards) returns (sets: seq<SetInfo>)
    ensures sets == SetsOf(rs, g)
  {
    sets := [];
    for i := 0 to |rs|
      invariant sets + SetsOf(rs[i..], g) == SetsOf(rs, g)
    {
      assert rs[i..][1..] == rs[i + 1..];
      if EffectiveGuards(rs[i], g).perSourceRate > 0 {
        sets := sets + [PerSourceSet(rs[i].mappingId)];
      }
    }
  }

  lemma {:induction false} SetsAreNamedAfterMappings(rs: seq<Rule>, g: Guards, s: SetInfo)
    requires s in SetsOf(rs, g)
    ensures exists r :: r in rs && s == PerSourceSet(r.mappingId)
  {
    if !(Metering(rs[0], g) && s == PerSourceSet(rs[0].mappingId)) {
      SetsAreNamedAfterMappings(rs[1..], g, s);
    }
  }

  lemma {:induction false} SetsDistinct(rs: seq<Rule>, g: Guards)
    requires DistinctIds(rs)
    ensures |SetOf(SetsOf(rs, g))| == |SetsOf(rs, g)|
  {
    if rs != [] {
      var rest := SetsOf(rs[1..], g);
      SetsDistinct(rs[1..], g);
      hide SetName, EffectiveGuards;
      if Metering(rs[0], g) {
        var s := PerSourceSet(rs[0].mappingId);
        if s in rest {
          SetsAreNamedAfterMappings(rs[1..], g, s);
          var r :| r in rs[1..] && s == PerSourceSet(r.mappingId);
          SetNameInjective(r.mappingId, rs[0].mappingId);
        }
        assert SetOf([s] + rest) == {s} + SetOf(rest);
      } else {
        assert [] + rest == rest;
      }
    }
  }

  function Tagged(tags: seq<Tag>, chain: seq<seq<Expr>>): (rules: seq<KernelRule>)
    requires |tags| == |chain|
    ensures |rules| == |chain| && forall i :: 0 <= i < |rules| ==> rules[i] == KernelRule(tags[i], chain[i])
  {
    seq(|chain|, i requires 0 <= i < |chain| => KernelRule(tags[i], chain[i]))
  }

  /** The table of the desired state. */
  function TableOf(iface: Bytes, rs: seq<Rule>, rets: seq<Retirement>, g: Guards): Table
    requires RulesOk(rs)
  {
    NatTagsLength(iface, rs, g);
    FwdTagsLength(iface, rs, rets);
    Table([NatChainInfo, FwdChainInfo], Tagged(NatTags(rs, g), Render(iface, rs, g)),
          Tagged(FwdTags(rs, rets), FwdExprs(iface, rs, rets)), SetsOf(rs, g))
  }

  /** An apply writes the table of the desired state, and its own readback accepts it. */
  method ApplyManaged(iface: Bytes, rs: seq<Rule>, rets: seq<Retirement>, g: Guards) returns (t: Table)
    requires RulesOk(rs) && DistinctIds(rs)
    ensures t == TableOf(iface, rs, rets, g) && Conforms(iface, rs, rets, g, t)
  {
    TableOfConforms(iface, rs, rets, g);
    hide Render, RenderForward, RenderFences, NatTags, FwdTags, FwdExprs, SetsOf, RulesOk, DistinctIds, Conforms;
    var natRules := AssembleNat(iface, rs, g);
    var fwdRules := AssembleForward(iface, rs, rets);
    var sets := AssembleSets(rs, g);
    t := Table([NatChainInfo, FwdChainInfo], natRules, fwdRules, sets);
    assert natRules == TableOf(iface, rs, rets, g).natRules;
    assert fwdRules == TableOf(iface, rs, rets, g).fwdRules;
  }

  lemma TableOfConforms(iface: Bytes, rs: seq<Rule>, rets: seq<Retirement>, g: Guards)
    requires RulesOk(rs) && DistinctIds(rs)
    ensures Conforms(iface, rs, rets, g, TableOf(iface, rs, rets, g))
  {
    NatTagsLength(iface, rs, g);
    FwdTagsLength(iface, rs, rets);
    hide Render, RenderForward, RenderFences, NatTags, FwdTags, FwdExprs, SetsOf, RulesOk, DistinctIds, Normals;
    BothChains([NatChainInfo, FwdChainInfo]);
    SetsDistinct(rs, g);
    RenderEmitted(iface, rs, g);
    DesiredIsNormal(Render(iface, rs, g));
    FwdEmitted(iface, rs, rets);
    DesiredIsNormal(FwdExprs(iface, rs, rets));
  }

  lemma FwdEmitted(iface: Bytes, rs: seq<Rule>, rets: seq<Retirement>)
    ensures ChainEmitted(FwdExprs(iface, rs, rets))
  {
    hide RenderForward, RenderFences, AllEmitted;
    ForwardEmitted(iface, rs);
    FencesEmitted(iface, rets);
  }

  lemma DesiredIsNormal(chain: seq<seq<Expr>>)
    requires ChainEmitted(chain)
    ensures forall i :: 0 <= i < |chain| ==> Normals(chain[i]) == chain[i]
  {
    forall i | 0 <= i < |chain| ensures Normals(chain[i]) == chain[i] {
      AllEqualIffNormal(chain[i], chain[i]);
      SelfEqual(chain[i]);
    }
  }

  lemma {:induction false} SelfEqual(es: seq<Expr>)
    requires AllEmitted(es)
    ensures ExprsEqual(es, es)
    decreases es
  {
    forall i | 0 <= i < |es| ensures ExprEqual(es[i], es[i]) {
      if es[i].Dynset? {
        SelfEqual(es[i].exprs);
      }
    }
  }

  lemma BothChains(chains: seq<ChainInfo>)
    requires chains == [NatChainInfo, FwdChainInfo]
    ensures ChainsOk(chains)
  {
    assert chains[..1] == [NatChainInfo] && chains[..1][..0] == [];
    assert Owned(chains[..1]) == [NatChainInfo];
    assert Owned(chains) == [NatChainInfo, FwdChainInfo];
  }
}
