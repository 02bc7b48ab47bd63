/**
 Which snapshots a ledger accepts, told by the ledger and the snapshot alone (ids, marks,
 tuples and generations), and the ledger that acceptance leads to, told the same way.
 */
module LedgerAcceptance {
  import opened Values
  import opened Snapshots
  import opened Ledgers
  import opened LedgerProofs
  import opened LedgerValidation
  import LedgerRuns

  // ---- What the platform has to obey ----

  /** A later generation, or the recorded one again with the recorded content; never the reserved generation 0. */
  ghost predicate Timely(l: Ledger, s: Snapshot) {
    0 < s.generation && (if l.armed && s.generation == l.managedGenerationHighWater then l.desiredHash == DesiredHash(s) else l.managedGenerationHighWater < s.generation)
  }

  /** Outstanding and not covered by the acknowledgement. */
  predicate Stays(l: Ledger, ack: int, e: Entry) {
    e in l.entries && ack < e.retirement.generation
  }

  /** This exact epoch is active. */
  predicate ExactlyActive(l: Ledger, id: int, mark: u32, tuple: Tuple) {
    exists a :: a in l.active && a.mappingId == id && a.flowMark == mark && a.tupleHash == TupleHash(tuple)
  }

  /** The mapping keeps its epoch, or is new above both high-water marks. */
  predicate Admissible(l: Ledger, m: Mapping) {
    && m.flowMark.Some?
    && (ExactlyActive(l, m.id, m.flowMark.value, MappingTuple(m)) || (l.mappingIdHighWater < m.id && l.flowMarkHighWater < m.flowMark.value))
  }

  /** The retirement repeats an outstanding one, or retires an exact active epoch under a new id and above the high-water mark. */
  ghost predicate Retirable(l: Ledger, ack: int, r: Retirement) {
    || (exists e :: Stays(l, ack, e) && e.retirement == r)
    || (ExactlyActive(l, r.mappingId, r.flowMark, RetirementTuple(r)) && l.retirementHighWater < r.generation
        && forall e :: Stays(l, ack, e) ==> e.retirement.retirementId != r.retirementId)
  }

  /** The ids of all retirements that would be outstanding. */
  function OutstandingIds(l: Ledger, ack: int, rs: seq<Retirement>): set<string> {
    (set e | e in l.entries && ack < e.retirement.generation :: e.retirement.retirementId) + (set r | r in rs :: r.retirementId)
  }

  /** Timely, with an acknowledgement in range that covers only what was cleared, and with every mapping and retirement in order; and no
      active epoch is silently left out. */
  ghost predicate Obeys(l: Ledger, s: Snapshot)
    requires s.retirements.Some? && s.acknowledged.Some?
  {
    var ack, rs := s.acknowledged.value, s.retirements.value;
    && Timely(l, s)
    && l.acknowledged <= ack <= l.retirementHighWater
    && (forall e :: e in l.entries && e.retirement.generation <= ack ==> e.cleared)
    && (forall m :: m in s.mappings ==> Admissible(l, m))
    && (forall r :: r in rs ==> Retirable(l, ack, r))
    && (forall a :: a in l.active ==> (exists m :: m in s.mappings && m.id == a.mappingId) || exists r :: r in rs && r.mappingId == a.mappingId)
  }

  /** It obeys, and keeps the cap on outstanding retirements. */
  ghost predicate Acceptable(l: Ledger, s: Snapshot)
    requires s.retirements.Some? && s.acknowledged.Some?
  {
    Obeys(l, s) && |OutstandingIds(l, s.acknowledged.value, s.retirements.value)| <= MAX_OUTSTANDING
  }

  // ---- Mappings ----

  lemma MappingAgrees(l: Ledger, m: Mapping)
    requires ValidLedger(l)
    ensures MappingAccepted(l, m) <==> Admissible(l, m)
  {
    hide ValidLedger, TupleHash;
    if m.flowMark.Some? {
      if a :| a in l.active && a.mappingId == m.id {
        ActiveFacts(l, a);
      }
    }
  }

  lemma MappingsAgree(l: Ledger, ms: seq<Mapping>)
    requires ValidLedger(l)
    ensures MappingsAccepted(l, ms) <==> forall m :: m in ms ==> Admissible(l, m)
  {
    hide ValidLedger, MappingAccepted, Admissible;
    forall m | m in ms ensures MappingAccepted(l, m) <==> Admissible(l, m) {
      MappingAgrees(l, m);
    }
    if forall m :: m in ms ==> Admissible(l, m) {
      forall i | 0 <= i < |ms| ensures MappingAccepted(l, ms[i]) {
        assert ms[i] in ms;
      }
    }
    if MappingsAccepted(l, ms) {
      forall m | m in ms ensures Admissible(l, m) {
        var i :| 0 <= i < |ms| && ms[i] == m;
        assert MappingAccepted(l, ms[i]);
      }
    }
  }

  // ---- Retirements ----

  lemma {:induction false} AbsorbMembers(kept: seq<Entry>, rs: seq<Retirement>, e: Entry)
    requires e in Absorb(kept, rs)
    ensures e in kept || e.retirement in rs
  {
    if rs != [] && e in Absorb(kept, rs[..|rs| - 1]) {
      AbsorbMembers(kept, rs[..|rs| - 1], e);
    }
  }

  /** The ids of a valid snapshot's retirements differ, so what was absorbed before does not matter to the next one. */
  lemma KnownIsKept(l: Ledger, ack: int, kept: seq<Entry>, rs: seq<Retirement>, i: nat)
    requires kept == Kept(l.entries, ack) && i < |rs|
    requires forall j :: 0 <= j < i ==> rs[j].retirementId != rs[i].retirementId
    ensures forall e :: e in Absorb(kept, rs[..i]) && e.retirement.retirementId == rs[i].retirementId ==> Stays(l, ack, e)
    ensures forall e :: Stays(l, ack, e) ==> e in Absorb(kept, rs[..i])
  {
    KeptFacts(l.entries, ack);
    hide Kept, Absorb;
    forall e | e in Absorb(kept, rs[..i]) && e.retirement.retirementId == rs[i].retirementId ensures Stays(l, ack, e) {
      AbsorbMembers(kept, rs[..i], e);
    }
    assert kept <= Absorb(kept, rs[..i]);
  }

  lemma OneEntryPerId(l: Ledger, e: Entry, f: Entry)
    requires ValidLedger(l) && e in l.entries && f in l.entries && e.retirement.retirementId == f.retirement.retirementId
    ensures e == f
  {
    EntryFacts(l, e);
  }

  lemma RetirementAgrees(l: Ledger, s: Snapshot, lim: Limits, ack: int, i: nat)
    requires ValidLedger(l) && Valid(s, lim) && s.retirements.Some? && i < |s.retirements.value|
    ensures var rs := s.retirements.value;
      RetirementAccepted(l, Absorb(Kept(l.entries, ack), rs[..i]), rs[i]) <==> Retirable(l, ack, rs[i])
  {
    var rs, r := s.retirements.value, s.retirements.value[i];
    var es := Absorb(Kept(l.entries, ack), rs[..i]);
    assert RetirementFits(s, lim, i);
    hide ValidLedger, TupleHash, Kept, Absorb, Valid, IsUUID;
    KnownIsKept(l, ack, Kept(l.entries, ack), rs, i);
    if Known(es, r.retirementId) {
      var e :| e in es && e.retirement.retirementId == r.retirementId;
      forall f | f in es && f.retirement.retirementId == r.retirementId ensures f == e {
        OneEntryPerId(l, e, f);
      }
    } else {
      assert forall e :: Stays(l, ack, e) ==> e.retirement.retirementId != r.retirementId;
      assert RetiresEpoch(l, r) <==> ExactlyActive(l, r.mappingId, r.flowMark, RetirementTuple(r)) && l.retirementHighWater < r.generation;
    }
  }

  lemma RetirementsAgree(l: Ledger, s: Snapshot, lim: Limits, ack: int)
    requires ValidLedger(l) && Valid(s, lim) && s.retirements.Some?
    ensures RetirementsAccepted(l, Kept(l.entries, ack), s.retirements.value) <==> forall r :: r in s.retirements.value ==> Retirable(l, ack, r)
  {
    hide ValidLedger, Valid, RetirementAccepted, Retirable, Kept, Absorb;
    var rs, kept := s.retirements.value, Kept(l.entries, ack);
    forall i | 0 <= i < |rs| ensures RetirementAccepted(l, Absorb(kept, rs[..i]), rs[i]) <==> Retirable(l, ack, rs[i]) {
      RetirementAgrees(l, s, lim, ack, i);
    }
    if forall r :: r in rs ==> Retirable(l, ack, r) {
      forall i | 0 <= i < |rs| ensures RetirementAccepted(l, Absorb(kept, rs[..i]), rs[i]) {
        assert rs[i] in rs;
      }
    }
    if RetirementsAccepted(l, kept, rs) {
      forall r | r in rs ensures Retirable(l, ack, r) {
        var i :| 0 <= i < |rs| && rs[i] == r;
        assert RetirementAccepted(l, Absorb(kept, rs[..i]), rs[i]);
      }
    }
  }

  // ---- Nothing disappears ----

  lemma RetiredAgrees(l: Ledger, ack: int, rs: seq<Retirement>, a: Epoch)
    requires ValidLedger(l) && RetirementsAccepted(l, Kept(l.entries, ack), rs) && a in l.active
    ensures RetiredId(Absorb(Kept(l.entries, ack), rs), a.mappingId) <==> exists r :: r in rs && r.mappingId == a.mappingId
  {
    hide ValidLedger, RetirementsAccepted, Kept, Absorb;
    var kept := Kept(l.entries, ack);
    KeptFacts(l.entries, ack);
    if RetiredId(Absorb(kept, rs), a.mappingId) {
      var e :| e in Absorb(kept, rs) && e.retirement.mappingId == a.mappingId;
      AbsorbMembers(kept, rs, e);
      ActiveFacts(l, a);
    }
    if r :| r in rs && r.mappingId == a.mappingId {
      AbsorbCovers(l, kept, rs, r);
    }
  }

  lemma NothingLostAgrees(l: Ledger, s: Snapshot, ack: int)
    requires ValidLedger(l) && s.retirements.Some? && RetirementsAccepted(l, Kept(l.entries, ack), s.retirements.value)
    ensures (exists a :: a in l.active && !Ledgers.Present(s.mappings, a.mappingId) && !RetiredId(Absorb(Kept(l.entries, ack), s.retirements.value), a.mappingId))
      <==> !forall a :: a in l.active ==>
             (exists m :: m in s.mappings && m.id == a.mappingId) || exists r :: r in s.retirements.value && r.mappingId == a.mappingId
  {
    hide ValidLedger, RetirementsAccepted, Kept, Absorb, RetiredId;
    forall a | a in l.active
      ensures RetiredId(Absorb(Kept(l.entries, ack), s.retirements.value), a.mappingId) <==>
        exists r :: r in s.retirements.value && r.mappingId == a.mappingId
    {
      RetiredAgrees(l, ack, s.retirements.value, a);
    }
  }

  // ---- The cap ----

  lemma IdsOfNext(l: Ledger, ack: int, rs: seq<Retirement>, id: string)
    requires RetirementsAccepted(l, Kept(l.entries, ack), rs)
    ensures id in OutstandingIds(l, ack, rs) <==> exists e :: e in Absorb(Kept(l.entries, ack), rs) && e.retirement.retirementId == id
  {
    hide RetirementsAccepted, Kept, Absorb;
    var es := Absorb(Kept(l.entries, ack), rs);
    KeptFacts(l.entries, ack);
    if e :| e in es && e.retirement.retirementId == id {
      AbsorbMembers(Kept(l.entries, ack), rs, e);
    }
    if e :| e in l.entries && ack < e.retirement.generation && e.retirement.retirementId == id {
      assert e in Kept(l.entries, ack) && Kept(l.entries, ack) <= es;
    }
    if r :| r in rs && r.retirementId == id {
      AbsorbCovers(l, Kept(l.entries, ack), rs, r);
    }
  }

  lemma DistinctIdsCount(es: seq<Entry>, ids: set<string>)
    requires DistinctRetirements(es) && forall id :: id in ids <==> exists e :: e in es && e.retirement.retirementId == id
    ensures |es| == |ids|
  {
    var list := seq(|es|, i requires 0 <= i < |es| => es[i].retirement.retirementId);
    DistinctCardinality(list);
    forall id ensures id in SetOf(list) <==> id in ids {
      if id in list {
        var i :| 0 <= i < |list| && list[i] == id;
        assert es[i] in es;
      }
      if id in ids {
        var e :| e in es && e.retirement.retirementId == id;
        var i :| 0 <= i < |es| && es[i] == e;
        assert list[i] == id;
      }
    }
    assert SetOf(list) == ids;
  }

  lemma OutstandingCount(l: Ledger, s: Snapshot, lim: Limits)
    requires Checked(l, s, lim) && s.acknowledged.Some?
    ensures |NextEntries(l, s)| == |OutstandingIds(l, s.acknowledged.value, s.retirements.value)|
  {
    hide Checked, ValidLedger, Verdict, Prepared, RetirementsAccepted, MappingsAccepted, Kept, Absorb, OutstandingIds, DistinctRetirements, DesiredHash;
    EntriesDistinct(l, s, lim);
    CheckedFacts(l, s, lim);
    CheckedValid(l, s, lim);
    var ack, rs := s.acknowledged.value, s.retirements.value;
    forall id ensures id in OutstandingIds(l, ack, rs) <==> exists e :: e in NextEntries(l, s) && e.retirement.retirementId == id {
      IdsOfNext(l, ack, rs, id);
    }
    DistinctIdsCount(NextEntries(l, s), OutstandingIds(l, ack, rs));
  }

  // ---- Acceptance ----

  /** The checks before the final validation, one by one. */
  ghost predicate Passes(l: Ledger, s: Snapshot)
    requires s.retirements.Some? && s.acknowledged.Some?
  {
    var ack := s.acknowledged.value;
    && l.managedGenerationHighWater <= s.generation
    && (s.generation == l.managedGenerationHighWater ==> l.desiredHash == NoHash || l.desiredHash == DesiredHash(s))
    && l.acknowledged <= ack <= l.retirementHighWater
    && (forall e :: e in l.entries && e.retirement.generation <= ack ==> e.cleared)
    && MappingsAccepted(l, s.mappings)
    && RetirementsAccepted(l, Kept(l.entries, ack), s.retirements.value)
    && !exists a :: a in l.active && !Ledgers.Present(s.mappings, a.mappingId) && !RetiredId(NextEntries(l, s), a.mappingId)
  }

  lemma PassesIsChecked(l: Ledger, s: Snapshot, lim: Limits)
    requires LedgerInv(l) && Valid(s, lim) && s.retirements.Some? && s.acknowledged.Some?
    ensures Passes(l, s) <==> Checked(l, s, lim)
  {
    hide LedgerInv, Valid, MappingsAccepted, RetirementsAccepted, Kept, Absorb, Ledgers.Present, RetiredId, ValidLedger, Prepared, DesiredHash;
  }

  lemma TimelyAgrees(l: Ledger, s: Snapshot)
    requires LedgerInv(l) && 0 < s.generation
    ensures Timely(l, s) <==>
      && l.managedGenerationHighWater <= s.generation
      && (s.generation == l.managedGenerationHighWater ==> l.desiredHash == NoHash || l.desiredHash == DesiredHash(s))
  {
    hide ValidLedger, DesiredHash;
  }

  lemma PassesAgrees(l: Ledger, s: Snapshot, lim: Limits)
    requires LedgerInv(l) && Valid(s, lim) && s.retirements.Some? && s.acknowledged.Some? && 0 < s.generation
    ensures Passes(l, s) <==> Obeys(l, s)
  {
    InvValid(l);
    TimelyAgrees(l, s);
    hide LedgerInv, Valid, MappingsAccepted, RetirementsAccepted, Kept, Absorb, Ledgers.Present, RetiredId, ValidLedger, DesiredHash, Timely, Admissible, Retirable;
    var ack := s.acknowledged.value;
    MappingsAgree(l, s.mappings);
    RetirementsAgree(l, s, lim, ack);
    if RetirementsAccepted(l, Kept(l.entries, ack), s.retirements.value) {
      NothingLostAgrees(l, s, ack);
    }
  }

  /** Exactly the managed snapshots that obey the platform's side are accepted: nothing that breaks a rule, and nothing less than all that keep
      the rules. */
  lemma AcceptedIff(l: Ledger, s: Snapshot, lim: Limits)
    requires LedgerInv(l) && Valid(s, lim) && s.retirements.Some?
    ensures s.acknowledged.Some? && Readable(s)
    ensures Prepare(l, s).Ok? <==> Acceptable(l, s)
  {
    HeaderOnly(s, lim);
    hide LedgerInv, Valid, Passes, Obeys, Checked, Verdict, Prepared, NextEntries, OutstandingIds;
    PassesIsChecked(l, s, lim);
    TimelyPositive(l, s);
    if 0 < s.generation {
      PassesAgrees(l, s, lim);
    }
    if Checked(l, s, lim) {
      FinalValidationIsTheCap(l, s, lim);
      OutstandingCount(l, s, lim);
      VerdictIsOne(l, s, lim);
    } else {
      NotChecked(l, s, lim);
    }
  }

  lemma TimelyPositive(l: Ledger, s: Snapshot)
    requires s.retirements.Some? && s.acknowledged.Some?
    ensures Obeys(l, s) ==> 0 < s.generation
  {
    hide Admissible, Retirable, DesiredHash;
  }

  lemma NotChecked(l: Ledger, s: Snapshot, lim: Limits)
    requires LedgerInv(l) && Valid(s, lim) && s.retirements.Some? && Readable(s) && !Checked(l, s, lim)
    ensures Prepare(l, s).Err?
  {
    hide LedgerInv, Valid, Verdict, Prepared;
  }

  /** A legacy snapshot is accepted exactly by a ledger that was never armed, which stays as it is. */
  lemma LegacyAcceptedIff(l: Ledger, s: Snapshot)
    requires s.retirements.None?
    ensures Readable(s) && (Prepare(l, s) == Ok(l) <==> !l.armed) && (Prepare(l, s).Err? <==> l.armed)
  {
  }

  lemma AcceptableIgnoresOrder(l: Ledger, s: Snapshot, t: Snapshot)
    requires s.retirements.Some? && s.acknowledged.Some? && t.retirements.Some? && t.acknowledged == s.acknowledged && s.generation == t.generation
    requires DesiredHash(s) == DesiredHash(t)
    requires forall m :: m in s.mappings <==> m in t.mappings
    requires forall r :: r in s.retirements.value <==> r in t.retirements.value
    ensures Acceptable(l, s) <==> Acceptable(l, t)
  {
    hide DesiredHash, Admissible, Retirable, OutstandingIds;
    assert Obeys(l, s) <==> Obeys(l, t);
    SameOutstanding(l, s.acknowledged.value, s.retirements.value, t.retirements.value);
  }

  lemma SameOutstanding(l: Ledger, ack: int, rs: seq<Retirement>, qs: seq<Retirement>)
    requires forall r :: r in rs <==> r in qs
    ensures OutstandingIds(l, ack, rs) == OutstandingIds(l, ack, qs)
  {
  }

  /** Listing order and stamp make no difference to acceptance. */
  lemma AcceptanceIgnoresOrder(l: Ledger, s: Snapshot, t: Snapshot, lim: Limits)
    requires LedgerInv(l) && Valid(s, lim) && Valid(t, lim) && SameContent(s, t)
    ensures Readable(s) && Readable(t) && (Prepare(l, s).Ok? <==> Prepare(l, t).Ok?)
  {
    hide LedgerInv, Valid, DesiredHash, Acceptable, Prepare;
    HeaderOnly(s, lim);
    HeaderOnly(t, lim);
    DesiredHashIdentifiesContent(s, t, lim);
    SameMultisetSameElements(s.mappings, t.mappings);
    if s.retirements.Some? {
      SameMultisetSameElements(s.retirements.value, t.retirements.value);
      AcceptedIff(l, s, lim);
      AcceptedIff(l, t, lim);
      AcceptableIgnoresOrder(l, s, t);
    } else {
      LegacyAcceptedIff(l, s);
      LegacyAcceptedIff(l, t);
    }
  }

  // ---- The ledger after acceptance ----

  /** The largest of the old value and the new ones. */
  predicate Largest(x: int, old_: int, fresh_: set<int>) {
    old_ <= x && (forall y :: y in fresh_ ==> y <= x) && (x == old_ || x in fresh_)
  }

  /** No outstanding entry that stays has this retirement id. */
  ghost predicate Unheard(l: Ledger, ack: int, r: Retirement) {
    forall e :: Stays(l, ack, e) ==> e.retirement.retirementId != r.retirementId
  }

  lemma {:induction false} MaxIdReached(base: int, es: seq<Epoch>)
    ensures MaxId(base, es) == base || exists a :: a in es && a.mappingId == MaxId(base, es)
  {
    if es != [] {
      MaxIdReached(base, es[..|es| - 1]);
      assert es[|es| - 1] in es;
    }
  }

  lemma {:induction false} MaxMarkReached(base: u32, es: seq<Epoch>)
    ensures MaxMark(base, es) == base || exists a :: a in es && a.flowMark == MaxMark(base, es)
  {
    if es != [] {
      MaxMarkReached(base, es[..|es| - 1]);
      assert es[|es| - 1] in es;
    }
  }

  lemma {:induction false} MaxGenerationReached(base: int, es: seq<Entry>)
    ensures MaxGeneration(base, es) == base || exists e :: e in es && e.retirement.generation == MaxGeneration(base, es)
  {
    if es != [] {
      MaxGenerationReached(base, es[..|es| - 1]);
      assert es[|es| - 1] in es;
    }
  }

  /** Ids and marks: the high-water marks are exactly the largest that were ever listed. */
  lemma AcceptedMarks(l: Ledger, s: Snapshot, lim: Limits, n: Ledger)
    requires ManagedStep(l, s, lim, n)
    ensures Largest(n.mappingIdHighWater, l.mappingIdHighWater, set m | m in s.mappings :: m.id)
    ensures Largest(n.flowMarkHighWater, l.flowMarkHighWater, set m | m in s.mappings && m.flowMark.Some? :: m.flowMark.value)
  {
    hide ManagedStep, ValidLedger, MappingsAccepted, RetirementsAccepted, Kept, Absorb, Surviving, MaxId, MaxMark, MaxGeneration, TupleHash, Largest;
    StepFacts(l, s, lim, n);
    StepMarks(l, s, lim, n);
    IdIsLargest(l.mappingIdHighWater, s.mappings);
    MarkIsLargest(l.flowMarkHighWater, s.mappings);
  }

  lemma IdIsLargest(base: int, ms: seq<Mapping>)
    requires Marked(ms)
    ensures Largest(MaxId(base, Epochs(ms)), base, set m | m in ms :: m.id)
  {
    hide MaxId, TupleHash;
    var es := Epochs(ms);
    MaxIdFacts(base, es);
    MaxIdReached(base, es);
    forall m | m in ms ensures m.id <= MaxId(base, es) {
      var i :| 0 <= i < |ms| && ms[i] == m;
      assert es[i] in es && es[i].mappingId == m.id;
    }
    if a :| a in es && a.mappingId == MaxId(base, es) {
      var i :| 0 <= i < |es| && es[i] == a;
      assert ms[i] in ms && ms[i].id == a.mappingId;
    }
  }

  lemma MarkIsLargest(base: u32, ms: seq<Mapping>)
    requires Marked(ms)
    ensures Largest(MaxMark(base, Epochs(ms)), base, set m | m in ms && m.flowMark.Some? :: m.flowMark.value)
  {
    hide MaxMark, TupleHash;
    var es := Epochs(ms);
    MaxMarkFacts(base, es);
    MaxMarkReached(base, es);
    forall m | m in ms && m.flowMark.Some? ensures m.flowMark.value <= MaxMark(base, es) {
      var i :| 0 <= i < |ms| && ms[i] == m;
      assert es[i] in es && es[i].flowMark == m.flowMark.value;
    }
    if a :| a in es && a.flowMark == MaxMark(base, es) {
      var i :| 0 <= i < |es| && es[i] == a;
      assert ms[i] in ms && ms[i].flowMark == Some(a.flowMark);
    }
  }

  lemma EntriesAre(l: Ledger, kept: seq<Entry>, rs: seq<Retirement>, e: Entry)
    requires RetirementsAccepted(l, kept, rs) && DistinctRetirements(Absorb(kept, rs))
    ensures e in Absorb(kept, rs) <==>
      e in kept || (!e.cleared && e.retirement in rs && forall f :: f in kept ==> f.retirement.retirementId != e.retirement.retirementId)
  {
    hide RetirementsAccepted, Absorb, RetiresEpoch, DistinctRetirements;
    var es := Absorb(kept, rs);
    assert es == kept + es[|kept|..];
    if e in es && e !in kept {
      AbsorbAdds(l, kept, rs, e);
      forall f | f in kept ensures f.retirement.retirementId != e.retirement.retirementId {
        DistinctByMember(es, e, f);
      }
    } else if e !in kept && !e.cleared && e.retirement in rs && forall f :: f in kept ==> f.retirement.retirementId != e.retirement.retirementId {
      AbsorbCovers(l, kept, rs, e.retirement);
      var f :| f in es && f.retirement == e.retirement;
      if f !in kept {
        AbsorbAdds(l, kept, rs, f);
      }
    }
  }

  /** An entry that was not there before stems from the snapshot and is new in it. */
  lemma AddedIsUnheard(l: Ledger, s: Snapshot, lim: Limits, n: Ledger, e: Entry)
    requires ManagedStep(l, s, lim, n)
    ensures s.retirements.Some?
    ensures e in n.entries <==> Stays(l, n.acknowledged, e) || (!e.cleared && e.retirement in s.retirements.value && Unheard(l, n.acknowledged, e.retirement))
  {
    hide ManagedStep, ValidLedger, MappingsAccepted, RetirementsAccepted, Kept, Absorb, Surviving, TupleHash, DistinctRetirements;
    StepFacts(l, s, lim, n);
    StepDistinct(l, s, lim, n);
    KeptFacts(l.entries, n.acknowledged);
    EntriesAre(l, Kept(l.entries, n.acknowledged), s.retirements.value, e);
  }

  lemma DistinctByMember(es: seq<Entry>, e: Entry, f: Entry)
    requires DistinctRetirements(es) && e in es && f in es && e != f
    ensures e.retirement.retirementId != f.retirement.retirementId
  {
    var i :| 0 <= i < |es| && es[i] == e;
    var j :| 0 <= j < |es| && es[j] == f;
  }

  lemma StepDistinct(l: Ledger, s: Snapshot, lim: Limits, n: Ledger)
    requires ManagedStep(l, s, lim, n)
    ensures DistinctRetirements(n.entries)
  {
    StepFacts(l, s, lim, n);
    hide ManagedStep, MappingsAccepted, RetirementsAccepted, Kept, Absorb, Surviving, ValidLedger;
    ValidDistinct(n);
  }

  lemma AcceptedRetirementMark(l: Ledger, s: Snapshot, lim: Limits, n: Ledger)
    requires ManagedStep(l, s, lim, n)
    ensures Largest(n.retirementHighWater, l.retirementHighWater, set e | e in n.entries && e !in l.entries :: e.retirement.generation)
  {
    hide ManagedStep, ValidLedger, MappingsAccepted, RetirementsAccepted, Kept, Absorb, Surviving, MaxId, MaxMark, MaxGeneration, TupleHash;
    StepFacts(l, s, lim, n);
    StepMarks(l, s, lim, n);
    OldGenerations(l, s, lim, n);
    var kept := Kept(l.entries, n.acknowledged);
    KeptFacts(l.entries, n.acknowledged);
    GenerationIsLargest(l, kept, s.retirements.value);
  }

  lemma GenerationIsLargest(l: Ledger, kept: seq<Entry>, rs: seq<Retirement>)
    requires RetirementsAccepted(l, kept, rs) && forall e :: e in kept ==> e in l.entries
    requires forall e :: e in l.entries ==> e.retirement.generation <= l.retirementHighWater
    ensures var es := Absorb(kept, rs);
      Largest(MaxGeneration(l.retirementHighWater, es[|kept|..]), l.retirementHighWater, set e | e in es && e !in l.entries :: e.retirement.generation)
  {
    hide RetirementsAccepted, Absorb, MaxGeneration;
    var es := Absorb(kept, rs);
    var added := es[|kept|..];
    assert es == kept + added;
    MaxGenerationFacts(l.retirementHighWater, added);
    MaxGenerationReached(l.retirementHighWater, added);
    forall e | e in added ensures e in es && e !in l.entries {
      AbsorbAdds(l, kept, rs, e);
    }
  }

  lemma OldGenerations(l: Ledger, s: Snapshot, lim: Limits, n: Ledger)
    requires ManagedStep(l, s, lim, n)
    ensures forall e :: e in l.entries ==> e.retirement.generation <= l.retirementHighWater
  {
    hide ValidLedger, Leads, ValidTuple;
  }

  /** The ledger that acceptance leads to, field by field. */
  lemma AcceptedLedger(l: Ledger, s: Snapshot, lim: Limits, n: Ledger)
    requires ManagedStep(l, s, lim, n)
    ensures n.version == l.version && n.ledgerId == l.ledgerId && n.armed
    ensures n.managedGenerationHighWater == s.generation && n.desiredHash == DesiredHash(s) && s.acknowledged == Some(n.acknowledged)
    ensures Largest(n.mappingIdHighWater, l.mappingIdHighWater, set m | m in s.mappings :: m.id)
    ensures Largest(n.flowMarkHighWater, l.flowMarkHighWater, set m | m in s.mappings && m.flowMark.Some? :: m.flowMark.value)
    ensures Largest(n.retirementHighWater, l.retirementHighWater, set e | e in n.entries && e !in l.entries :: e.retirement.generation)
    ensures |n.active| == |s.mappings| && forall i :: 0 <= i < |s.mappings| ==>
      s.mappings[i].flowMark.Some?
      && n.active[i] == Epoch(s.mappings[i].id, s.mappings[i].flowMark.value, TupleHash(MappingTuple(s.mappings[i])))
    ensures forall e :: e in n.entries <==>
      Stays(l, n.acknowledged, e) || (!e.cleared && e.retirement in s.retirements.value && Unheard(l, n.acknowledged, e.retirement))
    ensures DistinctRetirements(n.entries)
  {
    StepFacts(l, s, lim, n);
    StepMarks(l, s, lim, n);
    ActiveIsTheSnapshot(l, s, lim, n);
    AcceptedMarks(l, s, lim, n);
    AcceptedRetirementMark(l, s, lim, n);
    StepDistinct(l, s, lim, n);
    StepVersionIs(l, s, lim, n);
    hide ManagedStep, ValidLedger, MappingsAccepted, RetirementsAccepted, Kept, Absorb, Surviving, MaxId, MaxMark, MaxGeneration, TupleHash, DesiredHash, Largest, Unheard, Stays, DistinctRetirements;
    forall e ensures e in n.entries <==>
      Stays(l, n.acknowledged, e) || (!e.cleared && e.retirement in s.retirements.value && Unheard(l, n.acknowledged, e.retirement)) {
      AddedIsUnheard(l, s, lim, n, e);
    }
  }

  lemma StepVersionIs(l: Ledger, s: Snapshot, lim: Limits, n: Ledger)
    requires ManagedStep(l, s, lim, n)
    ensures n.version == l.version && n.ledgerId == l.ledgerId
  {
    hide ValidLedger, Valid, RetirementsAccepted, MappingsAccepted, Kept, Absorb, Surviving, MaxId, MaxMark, MaxGeneration, DesiredHash;
  }

  // ---- The marks among each other ----

  ghost predicate MarksInOrder(l: Ledger) {
    l.acknowledged <= l.retirementHighWater <= l.managedGenerationHighWater
  }

  lemma StepKeepsOrder(l: Ledger, s: Snapshot, lim: Limits, n: Ledger)
    requires ManagedStep(l, s, lim, n) && MarksInOrder(l)
    ensures MarksInOrder(n)
  {
    hide ManagedStep, ValidLedger, TupleHash, DesiredHash, DistinctRetirements;
    AcceptedLedger(l, s, lim, n);
    StepFacts(l, s, lim, n);
    StepMarks(l, s, lim, n);
    if n.retirementHighWater != l.retirementHighWater {
      var e :| e in n.entries && e !in l.entries && e.retirement.generation == n.retirementHighWater;
      GenerationInSnapshot(l, s, lim, n, e.retirement);
    }
  }

  lemma GenerationInSnapshot(l: Ledger, s: Snapshot, lim: Limits, n: Ledger, r: Retirement)
    requires ManagedStep(l, s, lim, n) && r in s.retirements.value
    ensures r.generation <= s.generation
  {
    hide LedgerInv, MappingFits, TupleHash, Verdict, Prepared;
    var i :| 0 <= i < |s.retirements.value| && s.retirements.value[i] == r;
    assert RetirementFits(s, lim, i);
  }

  /** Over every run of the ledger: acknowledgements never run ahead of retirements, nor retirements of the generation that was accepted. */
  lemma {:induction false} MarksStayInOrder(t: seq<Ledger>, lim: Limits, i: nat)
    requires LedgerRuns.Run(t, lim) && i < |t|
    ensures MarksInOrder(t[i])
  {
    hide LedgerInv, Leads;
    if i > 0 {
      MarksStayInOrder(t, lim, i - 1);
      LedgerRuns.RunInv(t, lim, i - 1);
      assert LedgerRuns.Step(t[i - 1], t[i - 1 + 1], lim);
      var l, n := t[i - 1], t[i];
      if s :| Leads(l, s, lim, n) {
        if s.retirements.Some? {
          assert ManagedStep(l, s, lim, n);
          StepKeepsOrder(l, s, lim, n);
        } else {
          LedgerRuns.LegacyLeads(l, s, lim, n);
        }
      }
    }
  }
}
