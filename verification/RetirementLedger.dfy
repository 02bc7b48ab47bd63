/**
 The retirement ledger as the object the agent holds (internal/retirement/ledger.go):
 Prepare works on a deep copy and compacts slices in place, Clear updates entries in place.
 */
module RetirementLedger {
  import opened Values
  import opened Snapshots
  import opened Ledgers

  // ---- Validate ----

  method ValidateActive(l: Ledger) returns (ok: bool, ids: set<int>, marks: set<u32>)
    ensures ok <==> ValidActive(l)
    ensures ok ==> ids == (set i | 0 <= i < |l.active| :: l.active[i].mappingId)
    ensures ok ==> marks == (set i | 0 <= i < |l.active| :: l.active[i].flowMark)
  {
    ids, marks := {}, {};
    for k := 0 to |l.active|
      invariant forall i :: 0 <= i < k ==> EpochOk(l, l.active[i])
      invariant forall i, j :: 0 <= i < j < k ==> !EpochsClash(l.active[i], l.active[j])
      invariant ids == set i | 0 <= i < k :: l.active[i].mappingId
      invariant marks == set i | 0 <= i < k :: l.active[i].flowMark
    {
      var a := l.active[k];
      if a.mappingId <= 0 || a.mappingId > l.mappingIdHighWater || a.flowMark == 0 || a.flowMark > l.flowMarkHighWater
         || a.tupleHash.Length() != 64 || a.mappingId in ids || a.flowMark in marks {
        assert a.mappingId in ids || a.flowMark in marks ==> exists i :: 0 <= i < k && EpochsClash(l.active[i], l.active[k]);
        return false, ids, marks;
      }
      ids, marks := ids + {a.mappingId}, marks + {a.flowMark};
    }
    ok := true;
  }

  method ValidateEntries(l: Ledger, activeIds: set<int>, activeMarks: set<u32>) returns (ok: bool)
    requires activeIds == set i | 0 <= i < |l.active| :: l.active[i].mappingId
    requires activeMarks == set i | 0 <= i < |l.active| :: l.active[i].flowMark
    ensures ok <==> ValidEntries(l)
  {
    hide EntryOk;
    var ids, marks := activeIds, activeMarks;
    var rids: set<string> := {};
    for k := 0 to |l.entries|
      invariant forall i :: 0 <= i < k ==> EntryOk(l, l.entries[i])
      invariant forall i, j :: 0 <= i < j < k ==> !EntriesClash(l.entries[i], l.entries[j])
      invariant forall i, j :: 0 <= i < |l.active| && 0 <= j < k ==> !EpochsClash(l.active[i], BindingOf(l.entries[j]))
      invariant rids == set i | 0 <= i < k :: l.entries[i].retirement.retirementId
      invariant ids == activeIds + set i | 0 <= i < k :: l.entries[i].retirement.mappingId
      invariant marks == activeMarks + set i | 0 <= i < k :: l.entries[i].retirement.flowMark
    {
      var r := l.entries[k].retirement;
      ghost var clash := (exists i :: 0 <= i < k && EntriesClash(l.entries[i], l.entries[k]))
        || exists i :: 0 <= i < |l.active| && EpochsClash(l.active[i], BindingOf(l.entries[k]));
      if !EntryOk(l, l.entries[k]) {
        return false;
      }
      if r.retirementId in rids || r.mappingId in ids || r.flowMark in marks {
        assert r.mappingId in activeIds || r.flowMark in activeMarks ==> clash;
        assert clash;
        return false;
      }
      assert !clash;
      rids, ids, marks := rids + {r.retirementId}, ids + {r.mappingId}, marks + {r.flowMark};
    }
    ok := true;
  }

  // ---- The stages of Prepare ----

  lemma KeptOneMore(es: seq<Entry>, e: Entry, ack: int)
    ensures Kept(es + [e], ack) == Kept(es, ack) + if e.retirement.generation <= ack then [] else [e]
  {
    assert (es + [e])[..|es|] == es;
  }

  lemma KeptOfNone(ack: int)
    ensures Kept([], ack) == []
  {
  }

  /** `kept := entries[:0]`: drops the acknowledged entries in place, and reports one that is not cleared. */
  method CompactEntries(a: array<Entry>, ack: int) returns (n: nat, ok: bool)
    modifies a
    ensures n <= a.Length
    ensures ok <==> !exists e :: e in old(a[..]) && e.retirement.generation <= ack && !e.cleared
    ensures ok ==> a[..n] == Kept(old(a[..]), ack)
  {
    hide Kept;
    n, ok := 0, true;
    ghost var before := a[..];
    KeptOfNone(ack);
    for i := 0 to a.Length
      invariant n <= i
      invariant a[i..] == before[i..]
      invariant a[..n] == Kept(before[..i], ack)
      invariant forall e :: e in before[..i] && e.retirement.generation <= ack ==> e.cleared
    {
      var e := a[i];
      assert before[..i + 1] == before[..i] + [before[i]];
      assert e == before[i];
      KeptOneMore(before[..i], e, ack);
      if e.retirement.generation <= ack {
        if !e.cleared {
          return n, false;
        }
      } else {
        a[n] := e;
        n := n + 1;
        assert a[..n] == a[..n - 1] + [e];
      }
    }
    assert before[..a.Length] == before;
  }

  lemma SurvivingOneMore(next: seq<Epoch>, e: Epoch, es: seq<Entry>)
    ensures Surviving(next + [e], es) == Surviving(next, es) + if RetiredId(es, e.mappingId) then [] else [e]
  {
    assert (next + [e])[..|next|] == next;
  }

  lemma SurvivingOfNone(es: seq<Entry>)
    ensures Surviving([], es) == []
  {
  }

  /** `filtered := next[:0]`: drops the retired epochs in place. */
  method FilterEpochs(a: array<Epoch>, retired: set<int>, ghost es: seq<Entry>) returns (n: nat)
    requires forall id :: id in retired <==> RetiredId(es, id)
    modifies a
    ensures n <= a.Length && a[..n] == Surviving(old(a[..]), es)
  {
    hide Surviving, RetiredId;
    n := 0;
    ghost var before := a[..];
    SurvivingOfNone(es);
    for i := 0 to a.Length
      invariant n <= i
      invariant a[i..] == before[i..]
      invariant a[..n] == Surviving(before[..i], es)
    {
      var e := a[i];
      assert before[..i + 1] == before[..i] + [before[i]];
      assert e == before[i];
      SurvivingOneMore(before[..i], e, es);
      if e.mappingId !in retired {
        a[n] := e;
        n := n + 1;
        assert a[..n] == a[..n - 1] + [e];
      }
    }
    assert before[..a.Length] == before;
  }

  /** The epochs indexed by mapping id. */
  ghost predicate Indexes(old_: map<int, Epoch>, active: seq<Epoch>) {
    && (forall id :: id in old_ <==> exists a :: a in active && a.mappingId == id)
    && (forall id :: id in old_ ==> old_[id] in active && old_[id].mappingId == id)
  }

  method IndexActive(l: Ledger) returns (old_: map<int, Epoch>)
    ensures Indexes(old_, l.active)
  {
    old_ := map[];
    for i := 0 to |l.active|
      invariant Indexes(old_, l.active[..i])
    {
      assert l.active[..i + 1] == l.active[..i] + [l.active[i]];
      old_ := old_[l.active[i].mappingId := l.active[i]];
    }
    assert l.active[..|l.active|] == l.active;
  }

  /** An indexed lookup finds the only epoch with that id. */
  lemma LookupIsExact(l: Ledger, old_: map<int, Epoch>, e: Epoch)
    requires ValidLedger(l) && Indexes(old_, l.active)
    ensures e in l.active <==> e.mappingId in old_ && old_[e.mappingId] == e
  {
    hide ValidEntries;
    if e in l.active {
      var i :| 0 <= i < |l.active| && l.active[i] == e;
      var j :| 0 <= j < |l.active| && l.active[j] == old_[e.mappingId];
      assert i == j;
    }
  }

  lemma MappingVerdict(l: Ledger, old_: map<int, Epoch>, m: Mapping)
    requires ValidLedger(l) && Indexes(old_, l.active) && m.flowMark.Some?
    ensures MappingAccepted(l, m) <==>
      if m.id in old_ then old_[m.id] == EpochOf(m)
      else l.mappingIdHighWater < m.id && l.flowMarkHighWater < m.flowMark.value
    ensures m.id in old_ ==> old_[m.id].mappingId == m.id
    ensures m.id in old_ && MappingAccepted(l, m) ==> m.id <= l.mappingIdHighWater && m.flowMark.value <= l.flowMarkHighWater
  {
    hide ValidLedger, TupleHash;
    LookupIsExact(l, old_, EpochOf(m));
    if EpochOf(m) in l.active {
      EpochWithinHighWater(l, EpochOf(m));
    }
  }

  lemma MaximaOfOneMore(id: int, mark: u32, es: seq<Epoch>, e: Epoch)
    ensures MaxId(id, es + [e]) == Max(MaxId(id, es), e.mappingId)
    ensures MaxMark(mark, es + [e]) == if MaxMark(mark, es) < e.flowMark then e.flowMark else MaxMark(mark, es)
  {
    assert (es + [e])[..|es|] == es;
  }

  lemma MaximaOfNone(id: int, mark: u32)
    ensures MaxId(id, []) == id && MaxMark(mark, []) == mark
  {
  }

  method AdmitMappings(l: Ledger, old_: map<int, Epoch>, ms: seq<Mapping>)
    returns (ok: bool, next: seq<Epoch>, idHighWater: int, markHighWater: u32)
    requires ValidLedger(l) && Indexes(old_, l.active)
    ensures ok <==> MappingsAccepted(l, ms)
    ensures ok ==> next == Epochs(ms)
    ensures ok ==> idHighWater == MaxId(l.mappingIdHighWater, next) && markHighWater == MaxMark(l.flowMarkHighWater, next)
  {
    next, idHighWater, markHighWater := [], l.mappingIdHighWater, l.flowMarkHighWater;
    hide ValidLedger, Indexes, MaxId, MaxMark, TupleHash;
    MaximaOfNone(l.mappingIdHighWater, l.flowMarkHighWater);
    for i := 0 to |ms|
      invariant forall k :: 0 <= k < i ==> MappingAccepted(l, ms[k])
      invariant |next| == i && forall k :: 0 <= k < i ==> next[k] == EpochOf(ms[k])
      invariant idHighWater == MaxId(l.mappingIdHighWater, next) && l.mappingIdHighWater <= idHighWater
      invariant markHighWater == MaxMark(l.flowMarkHighWater, next) && l.flowMarkHighWater <= markHighWater
    {
      var m := ms[i];
      if m.flowMark.None? {
        assert !MappingAccepted(l, ms[i]);
        return false, next, idHighWater, markHighWater;
      }
      hide MappingAccepted;
      var e := EpochOf(m);
      MappingVerdict(l, old_, m);
      MaximaOfOneMore(l.mappingIdHighWater, l.flowMarkHighWater, next, e);
      if m.id in old_ {
        if old_[m.id].flowMark != e.flowMark || old_[m.id].tupleHash != e.tupleHash {
          return false, next, idHighWater, markHighWater;
        }
      } else {
        if m.id <= l.mappingIdHighWater || m.flowMark.value <= l.flowMarkHighWater {
          return false, next, idHighWater, markHighWater;
        }
        idHighWater := Max(idHighWater, m.id);
        markHighWater := if markHighWater < m.flowMark.value then m.flowMark.value else markHighWater;
      }
      next := next + [e];
    }
    ok := true;
  }

  lemma EpochWithinHighWater(l: Ledger, e: Epoch)
    requires ValidLedger(l) && e in l.active
    ensures e.mappingId <= l.mappingIdHighWater && e.flowMark <= l.flowMarkHighWater
  {
    var i :| 0 <= i < |l.active| && l.active[i] == e;
    assert EpochOk(l, l.active[i]);
  }

  /** Whether the retirement is outstanding already; an outstanding one that differs is an error. */
  method FindRetirement(es: seq<Entry>, r: Retirement) returns (found: bool, same: bool)
    ensures same <==> forall e :: e in es && e.retirement.retirementId == r.retirementId ==> e.retirement == r
    ensures same ==> (found <==> Known(es, r.retirementId))
    ensures !same ==> Known(es, r.retirementId)
  {
    found, same := false, true;
    for i := 0 to |es|
      invariant found <==> exists e :: e in es[..i] && e.retirement.retirementId == r.retirementId
      invariant forall e :: e in es[..i] && e.retirement.retirementId == r.retirementId ==> e.retirement == r
    {
      assert es[..i + 1] == es[..i] + [es[i]];
      if es[i].retirement.retirementId == r.retirementId {
        assert es[i] in es;
        found := true;
        if es[i].retirement != r {
          return true, false;
        }
      }
    }
    assert es[..|es|] == es;
  }

  lemma NewRetirementVerdict(l: Ledger, old_: map<int, Epoch>, es: seq<Entry>, r: Retirement)
    requires ValidLedger(l) && Indexes(old_, l.active) && !Known(es, r.retirementId)
    ensures RetirementAccepted(l, es, r) <==>
      && r.mappingId in old_ && old_[r.mappingId] == Epoch(r.mappingId, r.flowMark, r.tupleHash)
      && l.retirementHighWater < r.generation
  {
    hide ValidLedger, Indexes;
    LookupIsExact(l, old_, Epoch(r.mappingId, r.flowMark, r.tupleHash));
  }

  lemma AbsorbOne(kept: seq<Entry>, rs: seq<Retirement>, i: nat)
    requires i < |rs|
    ensures var es := Absorb(kept, rs[..i]);
      Absorb(kept, rs[..i + 1]) == if Known(es, rs[i].retirementId) then es else es + [Entry(rs[i], false)]
  {
    assert rs[..i + 1][..i] == rs[..i];
  }

  lemma MaxGenerationOfOneMore(base: int, es: seq<Entry>, e: Entry)
    ensures MaxGeneration(base, es + [e]) == Max(MaxGeneration(base, es), e.retirement.generation)
  {
    assert (es + [e])[..|es|] == es;
  }

  method AbsorbRetirements(l: Ledger, old_: map<int, Epoch>, kept: seq<Entry>, rs: seq<Retirement>)
    returns (ok: bool, es: seq<Entry>, retired: set<int>, highWater: int)
    requires ValidLedger(l) && Indexes(old_, l.active)
    ensures ok <==> RetirementsAccepted(l, kept, rs)
    ensures ok ==> es == Absorb(kept, rs) && highWater == MaxGeneration(l.retirementHighWater, es[|kept|..])
    ensures ok ==> forall id :: id in retired <==> RetiredId(es, id)
  {
    hide ValidLedger, Indexes, RetirementAccepted, Absorb, MaxGeneration, Known;
    es, highWater := kept, l.retirementHighWater;
    retired := set e | e in kept :: e.retirement.mappingId;
    AbsorbNothing(kept, l.retirementHighWater);
    assert rs[..0] == [];
    for i := 0 to |rs|
      invariant kept <= es && es == Absorb(kept, rs[..i])
      invariant forall k :: 0 <= k < i ==> RetirementAccepted(l, Absorb(kept, rs[..k]), rs[k])
      invariant highWater == MaxGeneration(l.retirementHighWater, es[|kept|..])
      invariant retired == set e | e in es :: e.retirement.mappingId
    {
      var r := rs[i];
      AbsorbOne(kept, rs, i);
      var found, same := FindRetirement(es, r);
      if !same || found {
        KnownRetirementVerdict(l, es, r);
        if !same {
          return false, es, retired, highWater;
        }
      } else {
        NewRetirementVerdict(l, old_, es, r);
        if r.mappingId !in old_ || old_[r.mappingId] != Epoch(r.mappingId, r.flowMark, r.tupleHash) || r.generation <= l.retirementHighWater {
          return false, es, retired, highWater;
        }
        assert (es + [Entry(r, false)])[|kept|..] == es[|kept|..] + [Entry(r, false)];
        MaxGenerationOfOneMore(l.retirementHighWater, es[|kept|..], Entry(r, false));
        es := es + [Entry(r, false)];
        retired := retired + {r.mappingId};
        highWater := Max(highWater, r.generation);
      }
    }
    assert rs[..|rs|] == rs;
    ok := true;
  }

  lemma AbsorbNothing(kept: seq<Entry>, base: int)
    ensures Absorb(kept, []) == kept && MaxGeneration(base, kept[|kept|..]) == base
  {
  }

  lemma KnownRetirementVerdict(l: Ledger, es: seq<Entry>, r: Retirement)
    requires Known(es, r.retirementId)
    ensures RetirementAccepted(l, es, r) <==> forall e :: e in es && e.retirement.retirementId == r.retirementId ==> e.retirement == r
  {
  }

  /** Every epoch that is no longer listed must be retired. */
  method NothingDisappeared(l: Ledger, ms: seq<Mapping>, next: seq<Epoch>, retired: set<int>, ghost es: seq<Entry>) returns (ok: bool)
    requires |next| == |ms| && forall i :: 0 <= i < |ms| ==> next[i].mappingId == ms[i].id
    requires forall id :: id in retired <==> RetiredId(es, id)
    ensures ok <==> !exists a :: a in l.active && !Present(ms, a.mappingId) && !RetiredId(es, a.mappingId)
  {
    for i := 0 to |l.active|
      invariant forall a :: a in l.active[..i] ==> Present(ms, a.mappingId) || RetiredId(es, a.mappingId)
    {
      assert l.active[..i + 1] == l.active[..i] + [l.active[i]];
      var present := false;
      for j := 0 to |next|
        invariant present <==> exists k :: 0 <= k < j && next[k].mappingId == l.active[i].mappingId
      {
        if next[j].mappingId == l.active[i].mappingId {
          present := true;
        }
      }
      assert present <==> Present(ms, l.active[i].mappingId) by {
        if present {
          var k :| 0 <= k < |next| && next[k].mappingId == l.active[i].mappingId;
          assert ms[k] in ms;
        }
        if Present(ms, l.active[i].mappingId) {
          var m :| m in ms && m.id == l.active[i].mappingId;
          var k :| 0 <= k < |ms| && ms[k] == m;
          assert next[k].mappingId == l.active[i].mappingId;
        }
      }
      if !present && l.active[i].mappingId !in retired {
        return false;
      }
    }
    assert l.active[..|l.active|] == l.active;
    ok := true;
  }

  function UnclearedEntry(e: Entry, ids: set<string>): Entry {
    if e.retirement.retirementId in ids then e.(cleared := false) else e
  }

  // ---- The object ----

  class LedgerObject {
    var version: int
    var ledgerId: string
    var armed: bool
    var mappingIdHighWater: int
    var flowMarkHighWater: u32
    var retirementHighWater: int
    var managedGenerationHighWater: int
    var desiredHash: Digest<Snapshot>
    var acknowledged: int
    var active: seq<Epoch>
    var entries: seq<Entry>

    function View(): Ledger
      reads this
    {
      Ledger(version, ledgerId, armed, mappingIdHighWater, flowMarkHighWater, retirementHighWater,
             managedGenerationHighWater, desiredHash, acknowledged, active, entries)
    }

    /** A deep copy of a ledger value (the JSON round trip). */
    constructor Of(l: Ledger)
      ensures View() == l
    {
      version, ledgerId, armed := l.version, l.ledgerId, l.armed;
      mappingIdHighWater, flowMarkHighWater, retirementHighWater := l.mappingIdHighWater, l.flowMarkHighWater, l.retirementHighWater;
      managedGenerationHighWater, desiredHash := l.managedGenerationHighWater, l.desiredHash;
      acknowledged, active, entries := l.acknowledged, l.active, l.entries;
    }

    method Validate() returns (ok: bool)
      ensures ok <==> ValidLedger(View())
    {
      if version != 1 || !IsUUID(ledgerId) || |entries| > MAX_OUTSTANDING {
        return false;
      }
      var good, ids, marks := ValidateActive(View());
      if !good {
        return false;
      }
      good := ValidateEntries(View(), ids, marks);
      if !good || acknowledged > retirementHighWater {
        return false;
      }
      ok := !armed || (managedGenerationHighWater > 0 && desiredHash.Length() == 64);
    }

    /** Accepts or refuses a snapshot; the receiver itself is never changed. */
    method Prepare(s: Snapshot) returns (r: Result<LedgerObject, Rejection>)
      requires ValidLedger(View()) && Readable(s)
      ensures r.Err? ==> Verdict(View(), s) == Some(r.error)
      ensures r.Ok? ==> Accepts(View(), s) && r.value.View() == Prepared(View(), s)
      ensures r.Ok? ==> if s.retirements.None? then r.value == this else fresh(r.value)
    {
      hide DesiredHash, ValidLedger, MappingsAccepted, RetirementsAccepted, Kept, Absorb, Surviving, MaxId, MaxMark, MaxGeneration, Present, RetiredId;
      if s.retirements.None? {
        if armed {
          return Err(LegacyAfterArmed);
        }
        return Ok(this);
      }
      var n := new LedgerObject.Of(View());
      n.armed := true;
      var hash := DesiredHash(s);
      if s.generation < n.managedGenerationHighWater {
        return Err(GenerationRegressed);
      }
      if s.generation == n.managedGenerationHighWater && n.desiredHash != NoHash && n.desiredHash != hash {
        return Err(ContentChanged);
      }
      if s.generation > n.managedGenerationHighWater {
        n.managedGenerationHighWater, n.desiredHash := s.generation, hash;
      } else if n.desiredHash == NoHash {
        n.desiredHash := hash;
      }
      var ack := s.acknowledged.value;
      if ack < n.acknowledged || ack > n.retirementHighWater {
        return Err(AcknowledgementOutOfRange);
      }
      var ok := n.Acknowledge(ack);
      if !ok {
        return Err(AcknowledgedNotCleared);
      }
      var rejection := n.Converge(View(), s);
      if rejection.Some? {
        return Err(rejection.value);
      }
      ok := n.Validate();
      if !ok {
        return Err(InvalidResult);
      }
      return Ok(n);
    }

    /** Drops the entries the acknowledgement covers. */
    method Acknowledge(ack: int) returns (ok: bool)
      modifies this
      ensures ok <==> !exists e :: e in old(entries) && e.retirement.generation <= ack && !e.cleared
      ensures ok ==> View() == old(View()).(entries := Kept(old(entries), ack), acknowledged := ack)
    {
      var slice := new Entry[|entries|](i requires 0 <= i < |entries| reads this => entries[i]);
      assert slice[..] == entries;
      var n;
      n, ok := CompactEntries(slice, ack);
      if ok {
        entries, acknowledged := slice[..n], ack;
      }
    }

    /** Admits the mappings, absorbs the retirements and drops the retired epochs. */
    method Converge(l: Ledger, s: Snapshot) returns (rejection: Option<Rejection>)
      requires ValidLedger(l) && s.retirements.Some? && s.acknowledged.Some?
      requires active == l.active && entries == Kept(l.entries, s.acknowledged.value)
      requires mappingIdHighWater == l.mappingIdHighWater && flowMarkHighWater == l.flowMarkHighWater
      requires retirementHighWater == l.retirementHighWater
      modifies this
      ensures rejection == Some(BadMapping) <==> !MappingsAccepted(l, s.mappings)
      ensures rejection == Some(BadRetirement) <==>
        MappingsAccepted(l, s.mappings) && !RetirementsAccepted(l, old(entries), s.retirements.value)
      ensures rejection == Some(Disappeared) <==>
        && MappingsAccepted(l, s.mappings) && RetirementsAccepted(l, old(entries), s.retirements.value)
        && exists a :: a in l.active && !Present(s.mappings, a.mappingId) && !RetiredId(NextEntries(l, s), a.mappingId)
      ensures rejection in {None, Some(BadMapping), Some(BadRetirement), Some(Disappeared)}
      ensures rejection.None? ==> View() == old(View()).(
        mappingIdHighWater := MaxId(l.mappingIdHighWater, Epochs(s.mappings)),
        flowMarkHighWater := MaxMark(l.flowMarkHighWater, Epochs(s.mappings)),
        retirementHighWater := MaxGeneration(l.retirementHighWater, NextEntries(l, s)[|old(entries)|..]),
        entries := NextEntries(l, s),
        active := Surviving(Epochs(s.mappings), NextEntries(l, s)))
    {
      hide ValidLedger, MappingsAccepted, RetirementsAccepted, Kept, Absorb, MaxId, MaxMark, MaxGeneration, Surviving;
      var old_ := IndexActive(l);
      var ok, next, idMark, flowMark := AdmitMappings(l, old_, s.mappings);
      if !ok {
        return Some(BadMapping);
      }
      var absorbed, es, retired, highWater := AbsorbRetirements(l, old_, entries, s.retirements.value);
      if !absorbed {
        return Some(BadRetirement);
      }
      var complete := NothingDisappeared(l, s.mappings, next, retired, es);
      if !complete {
        return Some(Disappeared);
      }
      var slice := new Epoch[|next|](i requires 0 <= i < |next| => next[i]);
      assert slice[..] == next;
      var n := FilterEpochs(slice, retired, es);
      mappingIdHighWater, flowMarkHighWater, retirementHighWater := idMark, flowMark, highWater;
      entries, active := es, slice[..n];
      rejection := None;
    }

    /** The fences the kernel must hold: one per outstanding entry, in order. */
    method Retirements() returns (rs: seq<Retirement>)
      ensures rs == Ledgers.Retirements(View())
    {
      rs := [];
      for i := 0 to |entries|
        invariant |rs| == i && forall k :: 0 <= k < i ==> rs[k] == entries[k].retirement
      {
        rs := rs + [entries[i].retirement];
      }
    }

    /** Marks the listed retirements cleared, in place. */
    method Clear(ids: set<string>)
      modifies this`entries
      ensures View() == Cleared(old(View()), ids)
    {
      for i := 0 to |entries|
        invariant |entries| == |old(entries)|
        invariant forall k :: 0 <= k < i ==> entries[k] == ClearedEntry(old(entries)[k], ids)
        invariant forall k :: i <= k < |entries| ==> entries[k] == old(entries)[k]
      {
        if entries[i].retirement.retirementId in ids {
          entries := entries[i := entries[i].(cleared := true)];
        }
      }
      assert entries == Cleared(old(View()), ids).entries;
    }

    /** The rollback after a failed persist: the listed entries become uncleared again. */
    method Unclear(ids: set<string>)
      modifies this`entries
      ensures |entries| == |old(entries)|
      ensures forall k :: 0 <= k < |entries| ==> entries[k] == UnclearedEntry(old(entries)[k], ids)
    {
      for i := 0 to |entries|
        invariant |entries| == |old(entries)|
        invariant forall k :: 0 <= k < i ==> entries[k] == UnclearedEntry(old(entries)[k], ids)
        invariant forall k :: i <= k < |entries| ==> entries[k] == old(entries)[k]
      {
        if entries[i].retirement.retirementId in ids {
          entries := entries[i := entries[i].(cleared := false)];
        }
      }
    }

    /** The receipts to report: exactly the cleared entries, in order. */
    method ClearedEntries() returns (out: seq<Entry>)
      ensures out == ClearedList(entries)
    {
      out := [];
      for i := 0 to |entries|
        invariant out == ClearedList(entries[..i])
      {
        assert entries[..i + 1][..i] == entries[..i];
        if entries[i].cleared {
          out := out + [entries[i]];
        }
      }
      assert entries[..|entries|] == entries;
    }
  }
}
