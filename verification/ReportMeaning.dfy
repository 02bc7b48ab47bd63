/**
 What the platform may rely on in a report: each reported high-water mark is exactly the bound
 that the next snapshot meets at the agent, for new ids and marks, for acknowledgements, for
 new retirements and for generations.
 */
module ReportMeaning {
  import opened Values
  import opened Snapshots
  import opened Ledgers
  import opened LedgerProofs
  import opened LedgerAcceptance
  import opened AgentModel

  /** The agent holds a ledger that stands for this snapshot. */
  ghost predicate StandsFor(mem: Mem, s: Snapshot, lim: Limits) {
    mem.ledger.Some? && LedgerInv(mem.ledger.value) && Valid(s, lim) && Settled(mem.ledger.value, s)
  }

  // ---- What a settled snapshot has in common with its ledger ----

  lemma SettledMapping(l: Ledger, s: Snapshot, m: Mapping)
    requires Settled(l, s) && m in s.mappings
    ensures Admissible(l, m)
  {
    hide DesiredHash, TupleHash;
    assert EpochOf(m) in l.active;
  }

  lemma SettledActive(l: Ledger, s: Snapshot, a: Epoch)
    requires Settled(l, s) && a in l.active
    ensures exists m :: m in s.mappings && m.id == a.mappingId
  {
    hide DesiredHash, TupleHash;
    var m :| m in s.mappings && m.flowMark.Some? && EpochOf(m) == a;
  }

  lemma SettledRetirement(l: Ledger, s: Snapshot, r: Retirement)
    requires LedgerInv(l) && Settled(l, s) && r in s.retirements.value
    ensures Retirable(l, l.acknowledged, r)
  {
    hide DesiredHash, TupleHash, ValidLedger, EpochOf;
    var e :| e in l.entries && e.retirement == r;
    assert Stays(l, l.acknowledged, e);
  }

  lemma SettledHeader(l: Ledger, s: Snapshot)
    requires Settled(l, s)
    ensures s.retirements.Some? && s.acknowledged == Some(l.acknowledged) && l.armed
    ensures s.generation == l.managedGenerationHighWater && l.desiredHash == DesiredHash(s)
  {
    hide DesiredHash, EpochOf;
  }

  lemma HeaderFacts(l: Ledger)
    requires LedgerInv(l)
    ensures 0 <= l.acknowledged <= l.retirementHighWater && |l.entries| <= MAX_OUTSTANDING
    ensures forall e :: e in l.entries ==> l.acknowledged < e.retirement.generation
    ensures l.armed ==> 0 < l.managedGenerationHighWater
  {
    hide IsUUID, ValidActive, ValidEntries, ValidTuple;
  }

  /** The ids of the entries are at most as many as the entries. */
  lemma {:induction false} FewIds(es: seq<Entry>)
    ensures |set e | e in es :: e.retirement.retirementId| <= |es|
  {
    if es != [] {
      var init, last := es[..|es| - 1], es[|es| - 1];
      FewIds(init);
      var a, b := set e | e in es :: e.retirement.retirementId, set e | e in init :: e.retirement.retirementId;
      assert es == init + [last];
      assert a == b + {last.retirement.retirementId};
    }
  }

  /** Listing nothing beyond what is outstanding keeps the cap. */
  lemma OutstandingFits(l: Ledger, ack: int, rs: seq<Retirement>)
    requires LedgerInv(l) && forall r :: r in rs ==> exists e :: e in l.entries && e.retirement.retirementId == r.retirementId
    ensures |OutstandingIds(l, ack, rs)| <= MAX_OUTSTANDING
  {
    HeaderFacts(l);
    FewIds(l.entries);
    hide LedgerInv;
    var ids := set e | e in l.entries :: e.retirement.retirementId;
    assert OutstandingIds(l, ack, rs) <= ids;
    SubsetCard(OutstandingIds(l, ack, rs), ids);
  }

  lemma SubsetCard(a: set<string>, b: set<string>)
    requires a <= b
    ensures |a| <= |b|
  {
    assert b == a + (b - a);
  }

  lemma SettledOutstanding(l: Ledger, s: Snapshot)
    requires LedgerInv(l) && Settled(l, s)
    ensures |OutstandingIds(l, l.acknowledged, s.retirements.value)| <= MAX_OUTSTANDING
  {
    SettledHeader(l, s);
    forall r | r in s.retirements.value ensures exists e :: e in l.entries && e.retirement.retirementId == r.retirementId {
      SettledRetirementKnown(l, s, r);
    }
    hide LedgerInv, Settled;
    OutstandingFits(l, l.acknowledged, s.retirements.value);
  }

  lemma SettledRetirementKnown(l: Ledger, s: Snapshot, r: Retirement)
    requires Settled(l, s) && r in s.retirements.value
    ensures exists e :: e in l.entries && e.retirement.retirementId == r.retirementId
  {
    hide DesiredHash, EpochOf;
  }

  // ---- Generations ----

  /** The snapshot again, at another generation. */
  function AtGeneration(s: Snapshot, generation: int): Snapshot {
    s.(generation := generation)
  }

  /** The reported generation is the lowest one accepted: the same content is accepted at a generation if and only if it is not lower. */
  lemma ReportedGenerationIsLowest(mem: Mem, s: Snapshot, lim: Limits, generation: int)
    requires StandsFor(mem, s, lim) && Valid(AtGeneration(s, generation), lim)
    ensures Readable(AtGeneration(s, generation))
    ensures Prepare(mem.ledger.value, AtGeneration(s, generation)).Ok? <==> ReportOf(mem).managedGenerationHighWater <= generation
  {
    hide Valid, Settled, LedgerInv, DesiredHash, Admissible, Retirable, OutstandingIds, Prepare, Receipts;
    var l, t := mem.ledger.value, AtGeneration(s, generation);
    SettledHeader(l, s);
    HeaderFacts(l);
    AcceptedIff(l, t, lim);
    forall m | m in t.mappings ensures Admissible(l, m) {
      SettledMapping(l, s, m);
    }
    forall r | r in t.retirements.value ensures Retirable(l, l.acknowledged, r) {
      SettledRetirement(l, s, r);
    }
    forall a | a in l.active ensures exists m :: m in t.mappings && m.id == a.mappingId {
      SettledActive(l, s, a);
    }
    SettledOutstanding(l, s);
    assert generation == s.generation ==> t == s;
    assert Obeys(l, t) <==> l.managedGenerationHighWater <= generation;
  }

  // ---- New mappings ----

  /** The next generation with one more mapping. */
  function WithMapping(s: Snapshot, m: Mapping): Snapshot {
    s.(generation := s.generation + 1, mappings := s.mappings + [m])
  }

  lemma NewIsNew(s: Snapshot, m: Mapping, lim: Limits)
    requires Valid(WithMapping(s, m), lim) && s.retirements.Some?
    ensures m.flowMark.Some? && forall q :: q in s.mappings ==> q.id != m.id
  {
    hide RetirementFits, MappingOk;
    var t, k := WithMapping(s, m), |s.mappings|;
    assert t.mappings[k] == m && MappingFits(t, lim, k);
    MarkedNew(t, k, lim);
    forall q | q in s.mappings ensures q.id != m.id {
      var i :| 0 <= i < |s.mappings| && s.mappings[i] == q;
      assert t.mappings[i] == q && !Clash(t.mappings[i], t.mappings[k]);
    }
  }

  lemma MarkedNew(t: Snapshot, k: nat, lim: Limits)
    requires k < |t.mappings| && MappingFits(t, lim, k) && t.retirements.Some?
    ensures t.mappings[k].flowMark.Some?
  {
  }

  lemma NewIsAdmissible(l: Ledger, s: Snapshot, lim: Limits, m: Mapping)
    requires Settled(l, s) && Valid(WithMapping(s, m), lim)
    ensures m.flowMark.Some?
    ensures Admissible(l, m) <==> l.mappingIdHighWater < m.id && l.flowMarkHighWater < m.flowMark.value
  {
    hide Valid, Settled, TupleHash;
    SettledHeader(l, s);
    NewIsNew(s, m, lim);
    forall a | a in l.active ensures a.mappingId != m.id {
      SettledActive(l, s, a);
    }
  }

  /** The reported pair of marks bounds exactly what a new mapping must exceed: one more mapping is accepted if and only if its id and its mark
      are above both. */
  lemma ReportedMarksBoundMappings(mem: Mem, s: Snapshot, lim: Limits, m: Mapping)
    requires StandsFor(mem, s, lim) && Valid(WithMapping(s, m), lim)
    ensures m.flowMark.Some? && Readable(WithMapping(s, m))
    ensures Prepare(mem.ledger.value, WithMapping(s, m)).Ok? <==>
      ReportOf(mem).mappingIdHighWater < m.id && ReportOf(mem).flowMarkHighWater < m.flowMark.value
  {
    hide Valid, Settled, LedgerInv, DesiredHash, Admissible, Retirable, OutstandingIds, Prepare, Receipts;
    var l, t := mem.ledger.value, WithMapping(s, m);
    SettledHeader(l, s);
    HeaderFacts(l);
    AcceptedIff(l, t, lim);
    NewIsAdmissible(l, s, lim, m);
    assert forall q :: q in t.mappings <==> q in s.mappings || q == m;
    forall q | q in s.mappings ensures Admissible(l, q) {
      SettledMapping(l, s, q);
    }
    forall r | r in t.retirements.value ensures Retirable(l, l.acknowledged, r) {
      SettledRetirement(l, s, r);
    }
    forall a | a in l.active ensures exists q :: q in t.mappings && q.id == a.mappingId {
      SettledActive(l, s, a);
    }
    SettledOutstanding(l, s);
    assert Obeys(l, t) <==> Admissible(l, m);
  }

  // ---- Acknowledgements ----

  /** The next generation with another acknowledgement. */
  function Acknowledging(s: Snapshot, ack: int): Snapshot {
    s.(generation := s.generation + 1, retirements := Some([]), acknowledged := Some(ack))
  }

  /** The reported retirement high-water mark is the largest acknowledgement accepted: one is accepted if and only if it does not fall back, is
      not above that mark, and covers only what was cleared. */
  lemma ReportedMarkBoundsAcknowledgement(mem: Mem, s: Snapshot, lim: Limits, ack: int)
    requires StandsFor(mem, s, lim) && Valid(Acknowledging(s, ack), lim)
    ensures Readable(Acknowledging(s, ack))
    ensures Prepare(mem.ledger.value, Acknowledging(s, ack)).Ok? <==>
      && mem.ledger.value.acknowledged <= ack <= ReportOf(mem).retirementHighWater
      && forall e :: e in mem.ledger.value.entries && e.retirement.generation <= ack ==> e.cleared
  {
    hide Valid, Settled, LedgerInv, DesiredHash, Admissible, Retirable, OutstandingIds, Prepare, Receipts;
    var l, t := mem.ledger.value, Acknowledging(s, ack);
    SettledHeader(l, s);
    HeaderFacts(l);
    AcceptedIff(l, t, lim);
    forall q | q in t.mappings ensures Admissible(l, q) {
      SettledMapping(l, s, q);
    }
    forall a | a in l.active ensures exists q :: q in t.mappings && q.id == a.mappingId {
      SettledActive(l, s, a);
    }
    OutstandingFits(l, ack, []);
    assert Obeys(l, t) <==>
      l.acknowledged <= ack <= l.retirementHighWater && forall e :: e in l.entries && e.retirement.generation <= ack ==> e.cleared;
  }

  // ---- New retirements ----

  /** The mapping's retirement. */
  function RetiringOf(m: Mapping, retirementId: string, generation: int): Retirement
    requires m.flowMark.Some?
  {
    Retirement(retirementId, m.id, generation, m.proto, m.publicPort, m.targetAddr, m.targetPort, m.flowMark.value, TupleHash(MappingTuple(m)))
  }

  /** A later generation in which one mapping is retired. */
  function Retired(s: Snapshot, i: nat, retirementId: string, generation: int, later: int): Snapshot
    requires i < |s.mappings| && s.mappings[i].flowMark.Some?
  {
    s.(generation := later, mappings := s.mappings[..i] + s.mappings[i + 1..], retirements := Some([RetiringOf(s.mappings[i], retirementId, generation)]))
  }

  /** A retirement of an active epoch under an id that is not outstanding. */
  lemma NewIsRetirable(l: Ledger, s: Snapshot, lim: Limits, i: nat, retirementId: string, generation: int)
    requires LedgerInv(l) && Settled(l, s) && i < |s.mappings| && s.mappings[i].flowMark.Some?
    requires forall e :: e in l.entries ==> e.retirement.retirementId != retirementId
    ensures Retirable(l, l.acknowledged, RetiringOf(s.mappings[i], retirementId, generation)) <==> l.retirementHighWater < generation
  {
    hide LedgerInv, DesiredHash, TupleHash;
    var m := s.mappings[i];
    assert m in s.mappings && EpochOf(m) in l.active;
    assert RetirementTuple(RetiringOf(m, retirementId, generation)) == MappingTuple(m);
  }

  lemma OthersStay(s: Snapshot, i: nat, q: Mapping)
    requires i < |s.mappings| && q in s.mappings
    ensures q == s.mappings[i] || q in s.mappings[..i] + s.mappings[i + 1..]
  {
    var k :| 0 <= k < |s.mappings| && s.mappings[k] == q;
    if k < i {
      assert s.mappings[..i][k] == q;
    } else if k > i {
      assert s.mappings[i + 1..][k - i - 1] == q;
    }
  }

  lemma OneMoreOutstanding(l: Ledger, ack: int, r: Retirement)
    requires LedgerInv(l) && |l.entries| < MAX_OUTSTANDING
    ensures |OutstandingIds(l, ack, [r])| <= MAX_OUTSTANDING
  {
    FewIds(l.entries);
    hide LedgerInv;
    var ids := set e | e in l.entries :: e.retirement.retirementId;
    assert OutstandingIds(l, ack, [r]) <= ids + {r.retirementId};
    SubsetCard(OutstandingIds(l, ack, [r]), ids + {r.retirementId});
  }

  /** The same mark is the bound for new retirements: retiring a mapping under a new id is accepted if and only if the retirement's generation
      is above it. */
  lemma ReportedMarkBoundsRetirement(mem: Mem, s: Snapshot, lim: Limits, i: nat, retirementId: string, generation: int, later: int)
    requires StandsFor(mem, s, lim) && i < |s.mappings| && s.mappings[i].flowMark.Some? && s.generation < later
    requires Valid(Retired(s, i, retirementId, generation, later), lim)
    requires |mem.ledger.value.entries| < MAX_OUTSTANDING && forall e :: e in mem.ledger.value.entries ==> e.retirement.retirementId != retirementId
    ensures Readable(Retired(s, i, retirementId, generation, later))
    ensures Prepare(mem.ledger.value, Retired(s, i, retirementId, generation, later)).Ok? <==> ReportOf(mem).retirementHighWater < generation
  {
    hide Valid, Settled, LedgerInv, DesiredHash, Admissible, Retirable, OutstandingIds, Prepare, Receipts, RetiringOf;
    var l, t, r := mem.ledger.value, Retired(s, i, retirementId, generation, later), RetiringOf(s.mappings[i], retirementId, generation);
    SettledHeader(l, s);
    HeaderFacts(l);
    AcceptedIff(l, t, lim);
    NewIsRetirable(l, s, lim, i, retirementId, generation);
    forall q | q in t.mappings ensures Admissible(l, q) {
      SettledMapping(l, s, q);
    }
    RetiringId(s.mappings[i], retirementId, generation);
    forall a | a in l.active ensures (exists q :: q in t.mappings && q.id == a.mappingId) || r.mappingId == a.mappingId {
      SettledActive(l, s, a);
      var q :| q in s.mappings && q.id == a.mappingId;
      OthersStay(s, i, q);
    }
    OneMoreOutstanding(l, l.acknowledged, r);
    assert t.retirements.value == [r] && r in t.retirements.value;
    assert Obeys(l, t) <==> Retirable(l, l.acknowledged, r);
  }

  lemma RetiringId(m: Mapping, retirementId: string, generation: int)
    requires m.flowMark.Some?
    ensures RetiringOf(m, retirementId, generation).mappingId == m.id
  {
  }

  // ---- All at once ----

  /** The ledger with everything that a report tells put in the place of what it holds. */
  function AsReported(l: Ledger, r: Report): Ledger {
    l.(ledgerId := r.ledgerId, mappingIdHighWater := r.mappingIdHighWater, flowMarkHighWater := r.flowMarkHighWater,
       retirementHighWater := r.retirementHighWater, managedGenerationHighWater := r.managedGenerationHighWater)
  }

  /** The platform can decide from the reported marks which managed snapshot will be accepted. */
  lemma ReportDecidesAcceptance(mem: Mem, s: Snapshot, lim: Limits)
    requires mem.ledger.Some? && LedgerInv(mem.ledger.value) && Valid(s, lim) && s.retirements.Some?
    ensures s.acknowledged.Some? && Readable(s)
    ensures Prepare(mem.ledger.value, s).Ok? <==> Acceptable(AsReported(mem.ledger.value, ReportOf(mem)), s)
  {
    hide Valid, LedgerInv, Acceptable, Prepare, Receipts;
    AcceptedIff(mem.ledger.value, s, lim);
  }
}
