/**
 From the desired state to packets: what becomes of a connection that the compiled rules of
 one snapshot created, under the rules and fences of any later ledger.
 */
module EndToEnd {
  import opened Values
  import opened Snapshots
  import opened Ledgers
  import opened LedgerProofs
  import opened Nft
  import opened Machine
  import opened NatChain
  import opened ForwardChain
  import opened GuardIsolation
  import opened Readback
  import opened Conntrack
  import LedgerRuns
  import SP = SourcePolicy

  // ---- Validated snapshots compile to well-formed rules ----

  lemma PlanOfValid(s: Snapshot, lim: Limits)
    requires Valid(s, lim)
    ensures Plannable(s) && DistinctEndpoints(Plan(s)) && DistinctIds(Plan(s))
  {
    hide RetirementFits;
    forall i | 0 <= i < |s.mappings| ensures s.mappings[i].targetAddr.IPv4? {
      assert MappingFits(s, lim, i);
    }
    var rs := Plan(s);
    forall i, j | 0 <= i < j < |rs|
      ensures ProtoNumber(rs[i].proto) != ProtoNumber(rs[j].proto) || rs[i].publicPort != rs[j].publicPort
      ensures rs[i].mappingId != rs[j].mappingId && 0 <= rs[i].mappingId && 0 <= rs[j].mappingId
    {
      assert MappingFits(s, lim, i) && MappingFits(s, lim, j);
      assert !Clash(s.mappings[i], s.mappings[j]);
    }
  }

  lemma PlanElements(s: Snapshot, t: Snapshot, r: Rule)
    requires Plannable(s) && Plannable(t) && multiset(s.mappings) == multiset(t.mappings) && r in Plan(s)
    ensures r in Plan(t)
  {
    SameMultisetSameElements(s.mappings, t.mappings);
    var i :| 0 <= i < |Plan(s)| && Plan(s)[i] == r;
    assert s.mappings[i] in t.mappings;
    var j :| 0 <= j < |t.mappings| && t.mappings[j] == s.mappings[i];
    assert Plan(t)[j] == r;
  }

  lemma RulesOkByMapping(s: Snapshot, t: Snapshot)
    requires Plannable(s) && Plannable(t) && RulesOk(Plan(s)) && multiset(s.mappings) == multiset(t.mappings)
    ensures RulesOk(Plan(t))
  {
    SameMultisetSameElements(s.mappings, t.mappings);
    forall i | 0 <= i < |t.mappings| ensures RuleOk(Plan(t)[i]) {
      assert t.mappings[i] in s.mappings;
      var j :| 0 <= j < |s.mappings| && s.mappings[j] == t.mappings[i];
      assert RuleOk(Plan(s)[j]);
    }
  }

  /** Snapshots with the same desired hash compile to chains that do the same to every packet. */
  lemma SameHashSameChain(s: Snapshot, t: Snapshot, lim: Limits, iface: Bytes, g: Guards, p: Packet, ph: Physics, st: State)
    requires Valid(s, lim) && Valid(t, lim) && DesiredHash(s) == DesiredHash(t)
    requires Plannable(s) && Plannable(t) && RulesOk(Plan(s)) && IsIfName(iface) && IsIfName(p.iif)
    ensures RulesOk(Plan(t))
    ensures EvalChain(Render(iface, Plan(s), g), p, ph, st) == EvalChain(Render(iface, Plan(t), g), p, ph, st)
  {
    hide EvalChain, Render, IsIfName, DesiredHash;
    DesiredHashIdentifiesContent(s, t, lim);
    PlanOfValid(s, lim);
    PlanOfValid(t, lim);
    hide Valid, DistinctEndpoints;
    RulesOkByMapping(s, t);
    hide RulesOk;
    forall r ensures r in Plan(s) <==> r in Plan(t) {
      if r in Plan(s) {
        PlanElements(s, t, r);
      }
      if r in Plan(t) {
        PlanElements(t, s, r);
      }
    }
    SameElementsSameMultiset(Plan(s), Plan(t));
    NatChainOrderIndependent(iface, Plan(s), Plan(t), g, p, ph, st);
  }

  // ---- The connection a translation creates ----

  /** A translated packet was selected by one of the rules, which stamped its mark and chose its target. */
  lemma {:induction false} TranslatedBy(iface: Bytes, rs: seq<Rule>, g: Guards, p: Packet, ph: Physics, st: State) returns (r: Rule)
    requires DecideAll(iface, rs, g, p, ph, st).1.Translated?
    ensures r in rs && Selects(iface, r, p)
    ensures var (st', o) := DecideAll(iface, rs, g, p, ph, st);
      && (r.flowMark != 0 ==> st'.mark == Le4(r.flowMark))
      && o == Translated(AddrBytes(r.target), AddrBytes(r.target), Be2(r.targetPort), Be2(r.targetPort))
  {
    hide Guard, Le4, AddrBytes, Be2, SourceAllowed;
    r := rs[0];
    if !Selects(iface, rs[0], p) {
      r := TranslatedBy(iface, rs[1..], g, p, ph, st);
    }
  }

  /** A later packet of the connection that the first one created, in either direction. */
  predicate SameConnection(p: Packet, st: State, q: Packet) {
    q.l4proto == p.l4proto && q.ctOrigDport == p.dport && Le4(q.ctMark) == st.mark && HasDnat(q.ctStatus)
  }

  /** The conntrack entry of that connection. */
  predicate Tracks(f: Flow, p: Packet, st: State, o: Outcome)
    requires o.Translated?
  {
    && f.proto == p.l4proto && f.origDport == p.dport && Le4(f.mark) == st.mark && HasDnat(f.status)
    && AddrBytes(f.replySource) == o.addrMin && Be2(f.replyPort) == o.portMin
  }

  /** The mapping that created a connection: the first packet selected it, it stamped its mark, and chose its target. */
  ghost predicate Creator(iface: Bytes, m: Mapping, p: Packet, st: State, o: Outcome) {
    && m.flowMark.Some? && m.flowMark.value != 0 && m.targetAddr.IPv4?
    && Selects(iface, PlanOne(m), p) && st.mark == Le4(m.flowMark.value)
    && o == Translated(AddrBytes(m.targetAddr.addr), AddrBytes(m.targetAddr.addr), Be2(m.targetPort), Be2(m.targetPort))
  }

  lemma FindCreator(iface: Bytes, s: Snapshot, lim: Limits, g: Guards, p: Packet, ph: Physics, st: State) returns (m: Mapping)
    requires Valid(s, lim) && s.retirements.Some? && Plannable(s) && RulesOk(Plan(s)) && IsIfName(iface) && IsIfName(p.iif)
    requires EvalChain(Render(iface, Plan(s), g), p, ph, st).1.Translated?
    ensures m in s.mappings
    ensures var (st', o) := EvalChain(Render(iface, Plan(s), g), p, ph, st); Creator(iface, m, p, st', o)
  {
    hide EvalChain, Render, DecideAll, RulesOk, IsIfName, Le4, AddrBytes, Be2, Valid;
    NatChainMeaning(iface, Plan(s), g, p, ph, st);
    var r := TranslatedBy(iface, Plan(s), g, p, ph, st);
    var i :| 0 <= i < |Plan(s)| && Plan(s)[i] == r;
    m := s.mappings[i];
    MappingInSnapshot(s, lim, m);
  }

  lemma AddrBytesInjective(x: SP.Addr, y: SP.Addr)
    ensures AddrBytes(x) == AddrBytes(y) <==> x == y
  {
    hide OfWord;
    OfWordInjective(x.a, y.a);
    OfWordInjective(x.b, y.b);
    OfWordInjective(x.c, y.c);
    OfWordInjective(x.d, y.d);
    FourBytes(AddrBytes(x), AddrBytes(y));
  }

  /** Which forward counters a connection moves: a mapping meters it exactly when it has the protocol and public port of the mapping
      that created it, be it that mapping or a later one on the same port. */
  lemma MeteredByEndpoint(iface: Bytes, m: Mapping, p: Packet, st: State, o: Outcome, q: Packet, r: Rule)
    requires Creator(iface, m, p, st, o) && SameConnection(p, st, q)
    ensures Metered(r, q) <==> ProtoNumber(r.proto) == ProtoNumber(m.proto) && r.publicPort == m.publicPort
  {
    hide Le4, AddrBytes, Be2, HasDnat;
  }

  /** The conntrack entry of a connection that this mapping created. */
  predicate FlowOf(f: Flow, m: Mapping) {
    && m.flowMark == Some(f.mark) && f.proto == (if m.proto == "udp" then 17 else 6) && f.origDport == m.publicPort
    && m.targetAddr == IPv4(f.replySource) && f.replyPort == m.targetPort && f.status & 0x20 != 0
  }

  /** A retirement is matched by the connections of exactly those mappings whose tuple it names: one other mark, protocol, port or target, and it
      is not matched. */
  lemma MatchesIffSameTuple(f: Flow, m: Mapping, r: Retirement)
    requires FlowOf(f, m) && KnownProto(m.proto) && KnownProto(r.proto)
    ensures Matches(f, r) <==> RetirementTuple(r) == MappingTuple(m).(id := r.mappingId)
  {
  }

  // ---- Retirement safety ----

  /** An entry of a later ledger and the mapping of an earlier one agree in id exactly when they agree in mark, and then in the whole tuple. */
  lemma SameEpoch(l: Ledger, n: Ledger, s: Snapshot, lim: Limits, m: Mapping, e: Entry)
    requires LedgerInv(l) && LedgerInv(n) && Evolves(l, n) && Valid(s, lim) && Settled(l, s)
    requires m in s.mappings && m.flowMark.Some? && e in n.entries
    ensures e.retirement.mappingId == m.id <==> e.retirement.flowMark == m.flowMark.value
    ensures e.retirement.mappingId == m.id ==> RetirementTuple(e.retirement) == MappingTuple(m)
  {
    hide Valid, ValidLedger, Binds, TupleHash, DesiredHash;
    MappingInSnapshot(s, lim, m);
    var b, c := EpochOf(m), BindingOf(e);
    assert Holds(l, b) && Holds(n, c);
    BindingForever(l, n, b, c);
    if e.retirement.mappingId == m.id {
      EntryFacts(n, e);
      TupleHashInjective(RetirementTuple(e.retirement), MappingTuple(m));
    }
  }

  /** The fences of the later ledger stop the connection exactly when its mapping is retired there. */
  lemma FencedIffRetired(l: Ledger, n: Ledger, s: Snapshot, lim: Limits, iface: Bytes, m: Mapping, p: Packet, st: State, o: Outcome, q: Packet)
    requires LedgerInv(l) && LedgerInv(n) && Evolves(l, n) && Valid(s, lim) && Settled(l, s)
    requires m in s.mappings && Creator(iface, m, p, st, o) && SameConnection(p, st, q)
    ensures Fenced(iface, Retirements(n), q) <==> (q.iif == iface || q.oif == iface) && RetiredId(n.entries, m.id)
  {
    hide LedgerInv, Evolves, Valid, Settled, HasDnat;
    Le4Injective(q.ctMark, m.flowMark.value);
    hide Le4;
    var rets := Retirements(n);
    if i :| 0 <= i < |rets| && ForwardChain.Stamped(rets[i], q) {
      SameEpoch(l, n, s, lim, m, n.entries[i]);
      assert n.entries[i] in n.entries;
    }
    if RetiredId(n.entries, m.id) {
      var e :| e in n.entries && e.retirement.mappingId == m.id;
      SameEpoch(l, n, s, lim, m, e);
      var i :| 0 <= i < |n.entries| && n.entries[i] == e;
      assert RetirementTuple(e.retirement).publicPort == m.publicPort && RetirementTuple(e.retirement).proto == m.proto;
      assert ForwardChain.Stamped(rets[i], q);
    }
  }

  /** Conntrack finds the connection under an outstanding entry exactly when that entry retires its mapping. */
  lemma ClearFindsFlow(l: Ledger, n: Ledger, s: Snapshot, lim: Limits, iface: Bytes, m: Mapping, p: Packet, st: State, o: Outcome, f: Flow, e: Entry)
    requires LedgerInv(l) && LedgerInv(n) && Evolves(l, n) && Valid(s, lim) && Settled(l, s)
    requires m in s.mappings && Creator(iface, m, p, st, o) && Tracks(f, p, st, o) && e in n.entries
    ensures Matches(f, e.retirement) <==> e.retirement.mappingId == m.id
  {
    hide LedgerInv, Evolves, Valid, Settled, HasDnat;
    Le4Injective(f.mark, m.flowMark.value);
    Be2Injective(f.replyPort, m.targetPort);
    AddrBytesInjective(f.replySource, m.targetAddr.addr);
    SameEpoch(l, n, s, lim, m, e);
    hide Le4, Be2, AddrBytes;
    if e.retirement.mappingId == m.id {
      var t := RetirementTuple(e.retirement);
      assert t.publicPort == m.publicPort && t.proto == m.proto && t.targetAddr == m.targetAddr && t.targetPort == m.targetPort && t.flowMark == m.flowMark.value;
    }
  }

  /** End to end, over every run of the ledger: a connection created under the snapshot of one step is dropped by the forward
      chain of any later step, in both directions across the public interface, exactly when its mapping is an outstanding
      retirement there; and exactly then conntrack finds it to be cleared.  So no connection of an active mapping is dropped. */
  lemma RetirementSafety(t: seq<Ledger>, lim: Limits, i: nat, j: nat, s: Snapshot, iface: Bytes, g: Guards,
                         p: Packet, ph: Physics, st: State, rs: seq<Rule>, q: Packet, ph': Physics, stq: State, f: Flow)
    returns (m: Mapping)
    requires LedgerRuns.Run(t, lim) && i <= j < |t| && Valid(s, lim) && Settled(t[i], s)
    requires Plannable(s) && RulesOk(Plan(s)) && PacketOk(iface, p) && PacketOk(iface, q)
    requires EvalChain(Render(iface, Plan(s), g), p, ph, st).1.Translated?
    requires var (st', o) := EvalChain(Render(iface, Plan(s), g), p, ph, st); SameConnection(p, st', q) && Tracks(f, p, st', o)
    requires stq.mark == Le4(q.ctMark)
    ensures m in s.mappings && Selects(iface, PlanOne(m), p)
    ensures EvalChain(RenderForward(iface, rs) + RenderFences(iface, Retirements(t[j])), q, ph', stq).1 ==
      if (q.iif == iface || q.oif == iface) && RetiredId(t[j].entries, m.id) then Dropped else Accepted
    ensures RetiredId(t[j].entries, m.id) <==> exists e :: e in t[j].entries && Matches(f, e.retirement)
    ensures ActiveId(t[j], m.id) ==> !RetiredId(t[j].entries, m.id)
  {
    hide EvalChain, Render, RenderForward, RenderFences, LedgerInv, Evolves, LedgerRuns.Step, Valid, RulesOk, HasDnat, Le4, Creator, Fenced, SameConnection, Tracks, Matches, Selects;
    LedgerRuns.RunInv(t, lim, i);
    LedgerRuns.RunInv(t, lim, j);
    LedgerRuns.RunEvolves(t, lim, i, j);
    m := FindCreator(iface, s, lim, g, p, ph, st);
    var (st', o) := EvalChain(Render(iface, Plan(s), g), p, ph, st);
    FencedIffRetired(t[i], t[j], s, lim, iface, m, p, st', o, q);
    ForwardMeaning(iface, rs, Retirements(t[j]), q, ph', stq);
    forall e | e in t[j].entries ensures Matches(f, e.retirement) <==> e.retirement.mappingId == m.id {
      ClearFindsFlow(t[i], t[j], s, lim, iface, m, p, st', o, f, e);
    }
    CreatorSelects(iface, m, p, st', o);
    ActiveNotRetired(t[j], m.id);
  }

  lemma CreatorSelects(iface: Bytes, m: Mapping, p: Packet, st: State, o: Outcome)
    requires Creator(iface, m, p, st, o)
    ensures m.targetAddr.IPv4? && Selects(iface, PlanOne(m), p)
  {
    hide Le4, AddrBytes, Be2;
  }

  lemma ActiveNotRetired(n: Ledger, id: int)
    requires LedgerInv(n)
    ensures ActiveId(n, id) ==> !RetiredId(n.entries, id)
  {
    if ActiveId(n, id) {
      var a :| a in n.active && a.mappingId == id;
      ActiveFacts(n, a);
    }
  }

  /** The same of the chain read back from the kernel, once the readback was accepted. */
  lemma VerifiedTableFences(n: Ledger, iface: Bytes, rs: seq<Rule>, g: Guards, table: Table, q: Packet, ph: Physics, st: State)
    requires RulesOk(rs) && Conforms(iface, rs, Retirements(n), g, table) && PacketOk(iface, q) && st.mark == Le4(q.ctMark)
    ensures EvalChain(ExprsOf(table.fwdRules), q, ph, st).1 == if Fenced(iface, Retirements(n), q) then Dropped else Accepted
  {
    hide EvalChain, Fenced, RulesOk, RulesConform, PacketOk, Le4;
    ReadbackSound(iface, rs, Retirements(n), g, table, q, ph, st);
    ForwardMeaning(iface, rs, Retirements(n), q, ph, st);
  }
}
