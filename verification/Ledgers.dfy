/**
 The retirement ledger as a value (internal/retirement/ledger.go): what makes a ledger
 valid, when a snapshot is accepted, and which ledger it leads to.
 */
module Ledgers {
  import opened Values
  import opened Snapshots

  const MAX_OUTSTANDING := 4096

  /** An active mapping epoch: the id, its never-reused flow mark and the hash of its tuple. */
  datatype Epoch = Epoch(mappingId: int, flowMark: u32, tupleHash: Digest<string>)

  datatype Entry = Entry(retirement: Retirement, cleared: bool)

  datatype Ledger = Ledger(
    version: int,
    ledgerId: string,
    armed: bool,
    mappingIdHighWater: int,
    flowMarkHighWater: u32,
    retirementHighWater: int,
    managedGenerationHighWater: int,
    desiredHash: Digest<Snapshot>,
    acknowledged: int,
    active: seq<Epoch>,
    entries: seq<Entry>)

  const NoHash: Digest<Snapshot> := Literal("")

  /** The ledger `New` creates. */
  function Fresh(ledgerId: string): Ledger {
    Ledger(1, ledgerId, false, 0, 0, 0, 0, NoHash, 0, [], [])
  }

  // ---- Validity ----

  predicate EpochOk(l: Ledger, a: Epoch) {
    && 0 < a.mappingId <= l.mappingIdHighWater
    && 0 < a.flowMark <= l.flowMarkHighWater
    && a.tupleHash.Length() == 64
  }

  predicate EntryOk(l: Ledger, e: Entry) {
    var r := e.retirement;
    && IsUUID(r.retirementId)
    && 0 < r.mappingId <= l.mappingIdHighWater
    && 0 < r.flowMark <= l.flowMarkHighWater
    && r.generation <= l.retirementHighWater
    && r.tupleHash == TupleHash(RetirementTuple(r))
  }

  predicate EpochsClash(a: Epoch, b: Epoch) {
    a.mappingId == b.mappingId || a.flowMark == b.flowMark
  }

  predicate EntriesClash(e: Entry, f: Entry) {
    e.retirement.retirementId == f.retirement.retirementId || EpochsClash(BindingOf(e), BindingOf(f))
  }

  /** The epoch a retirement retires. */
  function BindingOf(e: Entry): Epoch {
    Epoch(e.retirement.mappingId, e.retirement.flowMark, e.retirement.tupleHash)
  }

  predicate ValidActive(l: Ledger) {
    && (forall i :: 0 <= i < |l.active| ==> EpochOk(l, l.active[i]))
    && (forall i, j :: 0 <= i < j < |l.active| ==> !EpochsClash(l.active[i], l.active[j]))
  }

  predicate ValidEntries(l: Ledger) {
    && (forall i :: 0 <= i < |l.entries| ==> EntryOk(l, l.entries[i]))
    && (forall i, j :: 0 <= i < j < |l.entries| ==> !EntriesClash(l.entries[i], l.entries[j]))
    && (forall i, j :: 0 <= i < |l.active| && 0 <= j < |l.entries| ==> !EpochsClash(l.active[i], BindingOf(l.entries[j])))
  }

  predicate ValidHeader(l: Ledger) {
    l.version == 1 && IsUUID(l.ledgerId) && |l.entries| <= MAX_OUTSTANDING
  }

  predicate ValidMarks(l: Ledger) {
    && l.acknowledged <= l.retirementHighWater
    && (l.armed ==> 0 < l.managedGenerationHighWater && l.desiredHash.Length() == 64)
  }

  predicate ValidLedger(l: Ledger) {
    ValidHeader(l) && ValidActive(l) && ValidEntries(l) && ValidMarks(l)
  }

  // ---- Prepare ----

  /** Why a snapshot is refused, in the order the checks are made. */
  datatype Rejection =
    | LegacyAfterArmed
    | GenerationRegressed
    | ContentChanged
    | AcknowledgementOutOfRange
    | AcknowledgedNotCleared
    | BadMapping
    | BadRetirement
    | Disappeared
    | InvalidResult

  function EpochOf(m: Mapping): Epoch
    requires m.flowMark.Some?
  {
    Epoch(m.id, m.flowMark.value, TupleHash(MappingTuple(m)))
  }

  predicate Marked(ms: seq<Mapping>) {
    forall i :: 0 <= i < |ms| ==> ms[i].flowMark.Some?
  }

  function Epochs(ms: seq<Mapping>): (es: seq<Epoch>)
    requires Marked(ms)
    ensures |es| == |ms| && forall i :: 0 <= i < |ms| ==> es[i] == EpochOf(ms[i])
  {
    seq(|ms|, i requires 0 <= i < |ms| => EpochOf(ms[i]))
  }

  predicate ActiveId(l: Ledger, id: int) {
    exists a :: a in l.active && a.mappingId == id
  }

  /** A mapping keeps its exact epoch, or is new above both high-water marks. */
  predicate MappingAccepted(l: Ledger, m: Mapping) {
    && m.flowMark.Some?
    && if ActiveId(l, m.id) then EpochOf(m) in l.active
       else l.mappingIdHighWater < m.id && l.flowMarkHighWater < m.flowMark.value
  }

  predicate MappingsAccepted(l: Ledger, ms: seq<Mapping>) {
    forall i :: 0 <= i < |ms| ==> MappingAccepted(l, ms[i])
  }

  predicate Present(ms: seq<Mapping>, id: int) {
    exists m :: m in ms && m.id == id
  }

  /** The entries an acknowledgement leaves outstanding. */
  function Kept(es: seq<Entry>, ack: int): seq<Entry> {
    if es == [] then []
    else
      var k := Kept(es[..|es| - 1], ack);
      if es[|es| - 1].retirement.generation <= ack then k else k + [es[|es| - 1]]
  }

  predicate Known(es: seq<Entry>, retirementId: string) {
    exists e :: e in es && e.retirement.retirementId == retirementId
  }

  predicate RetiresEpoch(l: Ledger, r: Retirement) {
    Epoch(r.mappingId, r.flowMark, r.tupleHash) in l.active && l.retirementHighWater < r.generation
  }

  /** A retirement repeats a known one exactly, or retires an exact active epoch. */
  predicate RetirementAccepted(l: Ledger, es: seq<Entry>, r: Retirement) {
    if Known(es, r.retirementId) then forall e :: e in es && e.retirement.retirementId == r.retirementId ==> e.retirement == r
    else RetiresEpoch(l, r)
  }

  /** The outstanding entries after the listed retirements were added. */
  function Absorb(kept: seq<Entry>, rs: seq<Retirement>): (all: seq<Entry>)
    ensures kept <= all
  {
    if rs == [] then kept
    else
      var es := Absorb(kept, rs[..|rs| - 1]);
      var r := rs[|rs| - 1];
      if Known(es, r.retirementId) then es else es + [Entry(r, false)]
  }

  predicate RetirementsAccepted(l: Ledger, kept: seq<Entry>, rs: seq<Retirement>) {
    forall i :: 0 <= i < |rs| ==> RetirementAccepted(l, Absorb(kept, rs[..i]), rs[i])
  }

  predicate RetiredId(es: seq<Entry>, id: int) {
    exists e :: e in es && e.retirement.mappingId == id
  }

  /** The epochs that no outstanding entry retires. */
  function Surviving(next: seq<Epoch>, es: seq<Entry>): seq<Epoch> {
    if next == [] then []
    else
      var k := Surviving(next[..|next| - 1], es);
      if RetiredId(es, next[|next| - 1].mappingId) then k else k + [next[|next| - 1]]
  }

  function MaxId(base: int, es: seq<Epoch>): int {
    if es == [] then base else Max(MaxId(base, es[..|es| - 1]), es[|es| - 1].mappingId)
  }

  function MaxMark(base: u32, es: seq<Epoch>): u32 {
    if es == [] then base
    else
      var m := MaxMark(base, es[..|es| - 1]);
      if m < es[|es| - 1].flowMark then es[|es| - 1].flowMark else m
  }

  function MaxGeneration(base: int, es: seq<Entry>): int {
    if es == [] then base else Max(MaxGeneration(base, es[..|es| - 1]), es[|es| - 1].retirement.generation)
  }

  /** A managed snapshot always carries its acknowledgement (validation demands it). */
  predicate Readable(s: Snapshot) {
    s.retirements.Some? ==> s.acknowledged.Some?
  }

  function NextEntries(l: Ledger, s: Snapshot): seq<Entry>
    requires s.retirements.Some? && s.acknowledged.Some?
  {
    Absorb(Kept(l.entries, s.acknowledged.value), s.retirements.value)
  }

  /** The ledger an accepted snapshot leads to; a legacy snapshot leaves it alone. */
  function Prepared(l: Ledger, s: Snapshot): Ledger
    requires Readable(s) && (s.retirements.Some? ==> Marked(s.mappings))
  {
    if s.retirements.None? then l
    else
      var kept := Kept(l.entries, s.acknowledged.value);
      var es := NextEntries(l, s);
      l.(armed := true,
         managedGenerationHighWater := Max(l.managedGenerationHighWater, s.generation),
         desiredHash := if l.managedGenerationHighWater < s.generation || l.desiredHash == NoHash then DesiredHash(s) else l.desiredHash,
         acknowledged := s.acknowledged.value,
         mappingIdHighWater := MaxId(l.mappingIdHighWater, Epochs(s.mappings)),
         flowMarkHighWater := MaxMark(l.flowMarkHighWater, Epochs(s.mappings)),
         retirementHighWater := MaxGeneration(l.retirementHighWater, es[|kept|..]),
         entries := es,
         active := Surviving(Epochs(s.mappings), es))
  }

  /** The first check a snapshot fails, if any. */
  function Verdict(l: Ledger, s: Snapshot): Option<Rejection>
    requires Readable(s)
  {
    if s.retirements.None? then
      if l.armed then Some(LegacyAfterArmed) else None
    else
      var ack := s.acknowledged.value;
      var es := NextEntries(l, s);
      if s.generation < l.managedGenerationHighWater then Some(GenerationRegressed)
      else if s.generation == l.managedGenerationHighWater && l.desiredHash != NoHash && l.desiredHash != DesiredHash(s) then Some(ContentChanged)
      else if ack < l.acknowledged || l.retirementHighWater < ack then Some(AcknowledgementOutOfRange)
      else if exists e :: e in l.entries && e.retirement.generation <= ack && !e.cleared then Some(AcknowledgedNotCleared)
      else if !MappingsAccepted(l, s.mappings) then Some(BadMapping)
      else if !RetirementsAccepted(l, Kept(l.entries, ack), s.retirements.value) then Some(BadRetirement)
      else if exists a :: a in l.active && !Present(s.mappings, a.mappingId) && !RetiredId(es, a.mappingId) then Some(Disappeared)
      else if !ValidLedger(Prepared(l, s)) then Some(InvalidResult)
      else None
  }

  predicate Accepts(l: Ledger, s: Snapshot) {
    Readable(s) && Verdict(l, s) == None
  }

  /** Accept and move on, or refuse. */
  function Prepare(l: Ledger, s: Snapshot): Result<Ledger, Rejection>
    requires Readable(s)
  {
    match Verdict(l, s)
    case Some(why) => Err(why)
    case None => Ok(Prepared(l, s))
  }

  /** The entries with the listed retirement ids marked cleared. */
  function ClearedEntry(e: Entry, ids: set<string>): Entry {
    if e.retirement.retirementId in ids then e.(cleared := true) else e
  }

  function Cleared(l: Ledger, ids: set<string>): Ledger {
    l.(entries := seq(|l.entries|, i requires 0 <= i < |l.entries| => ClearedEntry(l.entries[i], ids)))
  }

  function Retirements(l: Ledger): (rs: seq<Retirement>)
    ensures |rs| == |l.entries| && forall i :: 0 <= i < |rs| ==> rs[i] == l.entries[i].retirement
  {
    seq(|l.entries|, i requires 0 <= i < |l.entries| => l.entries[i].retirement)
  }

  /** The cleared entries, in order. */
  function ClearedList(es: seq<Entry>): seq<Entry> {
    if es == [] then []
    else ClearedList(es[..|es| - 1]) + if es[|es| - 1].cleared then [es[|es| - 1]] else []
  }
}
