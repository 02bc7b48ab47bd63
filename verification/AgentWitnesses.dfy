/**
 Concrete runs, each from a host on which the agent never ran, that show a property failing
 which the agent keeps elsewhere: a save that took effect but reported failure (of a
 new ledger, or of a clearing), a re-assert under a newer ledger, a retirement id used again in the snapshot that compacts it, a kernel
 batch that committed but reported failure, and a public port given to another mapping.
 */
module AgentWitnesses {
  import opened Values
  import opened Snapshots
  import opened Ledgers
  import opened LedgerProofs
  import opened Nft
  import opened Machine
  import opened NatChain
  import opened ForwardChain
  import opened GuardIsolation
  import opened Conntrack
  import opened AgentModel
  import opened AgentSafety
  import opened AgentTraffic
  import opened AgentRuns
  import opened AgentHistory
  import opened AgentLifecycle
  import opened AgentBehind
  import E2E = EndToEnd
  import SP = SourcePolicy
  import RB = Readback

  // ---- One host and three generations ----

  const Host := SP.Addr(10, 0, 0, 1)
  const Here := Setup(Limits(SP.Prefix(Host, 32), 20000, 30000), 3600)
  const LedgerName := "0a0a0a0a-1111-4222-8333-444444444444"
  const RetirementName := "0b0b0b0b-1111-4222-8333-444444444444"
  const Iface: Bytes := [101]
  const Unguarded := Guards(0, 0, 0, 0, 0)

  lemma Names()
    ensures IsUUID(LedgerName) && IsUUID(RetirementName)
  {
  }

  /** A mapping whose mark is its id. */
  function MappingOn(id: u16, port: u16): Mapping {
    Mapping(id, "tcp", port, Address.IPv4(Host), 80, None, Some(id), None, None, None, None, None)
  }

  function Retiring(id: u16, port: u16, generation: nat): Retirement {
    Retirement(RetirementName, id, generation, "tcp", port, Address.IPv4(Host), 80, id, EpochOf(MappingOn(id, port)).tupleHash)
  }

  const M1 := MappingOn(1, 20001)
  const M2 := MappingOn(2, 20002)
  const M3 := MappingOn(3, 20001)
  const R1 := Retiring(1, 20001, 2)
  const R2 := Retiring(2, 20002, 3)

  /** Two mappings; then the first is retired and its port given to a third; then the second is retired under the retirement id
      that the same snapshot acknowledges. */
  const G1 := Snapshot(1, [M1, M2], Some([]), Some(0), 0)
  const G2 := Snapshot(2, [M2, M3], Some([R1]), Some(0), 0)
  const G3 := Snapshot(3, [M3], Some([R2]), Some(2), 0)

  const L0 := Fresh(LedgerName)
  const L1 := Ledger(1, LedgerName, true, 2, 2, 0, 1, DesiredHash(G1), 0, [EpochOf(M1), EpochOf(M2)], [])
  const L2 := Ledger(1, LedgerName, true, 3, 3, 2, 2, DesiredHash(G2), 0, [EpochOf(M2), EpochOf(M3)], [Entry(R1, false)])
  const L2Cleared := L2.(entries := [Entry(R1, true)])
  const L3 := Ledger(1, LedgerName, true, 3, 3, 3, 3, DesiredHash(G3), 2, [EpochOf(M3)], [Entry(R2, false)])

  lemma HostAllowed()
    ensures SP.Contains(Here.lim.targetCidr, Host)
  {
  }

  lemma MappingFine(id: u16, port: u16)
    requires 0 < id && 20000 <= port <= 30000
    ensures MappingOk(MappingOn(id, port), true, Here.lim)
  {
    HostAllowed();
  }

  lemma RetiringFine(id: u16, port: u16, generation: nat)
    ensures RetirementTuple(Retiring(id, port, generation)) == MappingTuple(MappingOn(id, port))
    ensures ValidTuple(RetirementTuple(Retiring(id, port, generation)))
  {
    hide TupleHash;
  }

  lemma G1Valid()
    ensures Valid(G1, Here.lim)
  {
    MappingFine(1, 20001);
    MappingFine(2, 20002);
    hide MappingOk, TupleHash;
    assert MappingFits(G1, Here.lim, 0) && MappingFits(G1, Here.lim, 1);
  }

  lemma G2Valid()
    ensures Valid(G2, Here.lim)
  {
    R1Allowed();
    MappingFine(2, 20002);
    MappingFine(3, 20001);
    hide MappingOk, TupleHash, RetirementOk;
    assert MappingFits(G2, Here.lim, 0) && MappingFits(G2, Here.lim, 1);
    assert RetirementFits(G2, Here.lim, 0);
  }

  lemma R1Allowed()
    ensures RetirementOk(R1, G2, Here.lim)
  {
    Names();
    RetiringFine(1, 20001, 2);
    hide TupleHash, IsUUID;
  }

  lemma G3Valid()
    ensures Valid(G3, Here.lim)
  {
    Names();
    MappingFine(3, 20001);
    RetiringFine(2, 20002, 3);
    hide MappingOk, TupleHash, IsUUID;
    assert MappingFits(G3, Here.lim, 0);
    assert RetirementFits(G3, Here.lim, 0);
  }

  lemma HashLength(s: Snapshot)
    ensures DesiredHash(s).Length() == 64
  {
    hide CanonicalForm;
  }

  lemma EpochLength(m: Mapping)
    requires m.flowMark.Some?
    ensures EpochOf(m).tupleHash.Length() == 64
  {
    hide TuplePreimage;
  }

  lemma L1Valid()
    ensures ValidLedger(L0) && ValidLedger(L1)
  {
    L0Good();
    InvValid(L0);
    hide ValidLedger, LedgerInv;
    L1Fits();
  }

  lemma TwoActive(l: Ledger, a: Epoch, b: Epoch)
    requires l.active == [a, b] && EpochOk(l, a) && EpochOk(l, b) && !EpochsClash(a, b)
    ensures ValidActive(l)
  {
  }

  lemma OneActive(l: Ledger, a: Epoch)
    requires l.active == [a] && EpochOk(l, a)
    ensures ValidActive(l)
  {
  }

  lemma OneEntry(l: Ledger, e: Entry)
    requires l.entries == [e] && EntryOk(l, e) && forall i :: 0 <= i < |l.active| ==> !EpochsClash(l.active[i], BindingOf(e))
    ensures ValidEntries(l)
  {
    hide EntryOk, EpochsClash;
  }

  lemma L1Fits()
    ensures ValidLedger(L1)
  {
    Names();
    HashLength(G1);
    EpochLength(M1);
    EpochLength(M2);
    hide IsUUID, TupleHash, DesiredHash, ValidActive;
    TwoActive(L1, EpochOf(M1), EpochOf(M2));
  }

  lemma R1Fits()
    ensures EntryOk(L2, Entry(R1, false))
  {
    Names();
    RetiringFine(1, 20001, 2);
    hide IsUUID, TupleHash, DesiredHash;
  }

  lemma L2Valid()
    ensures ValidLedger(L2)
  {
    Names();
    HashLength(G2);
    EpochLength(M2);
    EpochLength(M3);
    R1Fits();
    hide IsUUID, TupleHash, DesiredHash, EntryOk, ValidActive, ValidEntries;
    TwoActive(L2, EpochOf(M2), EpochOf(M3));
    OneEntry(L2, Entry(R1, false));
  }

  lemma R2Fits()
    ensures EntryOk(L3, Entry(R2, false))
  {
    Names();
    RetiringFine(2, 20002, 3);
    hide IsUUID, TupleHash, DesiredHash;
  }

  lemma L3Valid()
    ensures ValidLedger(L3)
  {
    Names();
    HashLength(G3);
    EpochLength(M3);
    R2Fits();
    hide IsUUID, TupleHash, DesiredHash, EntryOk, ValidActive, ValidEntries;
    OneActive(L3, EpochOf(M3));
    OneEntry(L3, Entry(R2, false));
  }

  // ---- The ledger accepts them ----

  lemma TwoMaxima(id: int, mark: u32, a: Epoch, b: Epoch)
    requires id <= a.mappingId < b.mappingId && mark <= a.flowMark < b.flowMark
    ensures MaxId(id, [a, b]) == b.mappingId && MaxMark(mark, [a, b]) == b.flowMark
  {
    var es := [a, b];
    assert es[..1] == [a] && [a][..0] == [];
    assert MaxId(id, [a]) == a.mappingId && MaxMark(mark, [a]) == a.flowMark;
  }

  lemma TwoEpochs(m: Mapping, k: Mapping)
    requires m.flowMark.Some? && k.flowMark.Some?
    ensures Marked([m, k]) && Epochs([m, k]) == [EpochOf(m), EpochOf(k)]
  {
    hide TupleHash;
  }

  lemma AllSurvive(es: seq<Epoch>, entries: seq<Entry>)
    requires forall a :: a in es ==> !RetiredId(entries, a.mappingId)
    ensures Surviving(es, entries) == es
  {
    SurvivingFacts(es, entries);
  }

  lemma FirstChecks()
    ensures MappingsAccepted(L0, G1.mappings) && RetirementsAccepted(L0, [], G1.retirements.value)
    ensures Kept(L0.entries, 0) == [] && NextEntries(L0, G1) == []
  {
    hide TupleHash, DesiredHash;
  }

  lemma FirstLedger()
    ensures Marked(G1.mappings) && Prepared(L0, G1) == L1
  {
    FirstChecks();
    TwoEpochs(M1, M2);
    TwoMaxima(0, 0, EpochOf(M1), EpochOf(M2));
    AllSurvive(L1.active, []);
    hide TupleHash, DesiredHash, MaxId, MaxMark, Surviving, Kept, NextEntries;
    PreparedAs(L0, G1, L1);
  }

  lemma FirstStep()
    ensures Valid(G1, Here.lim) && LedgerInv(L0) && Leads(L0, G1, Here.lim, L1)
  {
    G1Valid();
    L1Valid();
    FirstChecks();
    FirstLedger();
    L0Good();
    hide Valid, ValidLedger, DesiredHash, TupleHash, Prepared, MappingsAccepted, RetirementsAccepted, Kept, NextEntries, LedgerInv;
    AllChecks(L0, G1);
  }

  lemma L0Good()
    ensures LedgerInv(L0)
  {
    Names();
    hide IsUUID;
  }

  lemma OneAbsorbed(r: Retirement)
    ensures Absorb([], [r]) == [Entry(r, false)] && [r][..0] == []
    ensures MaxGeneration(0, [Entry(r, false)]) == Max(0, r.generation)
    ensures MaxGeneration(2, [Entry(r, false)]) == Max(2, r.generation)
  {
    hide TupleHash;
    assert [r][..0] == [] && Absorb([], [r][..0]) == [];
    assert [Entry(r, false)][..0] == [];
  }

  lemma SecondEntries()
    ensures Kept(L1.entries, 0) == [] && NextEntries(L1, G2) == L2.entries
    ensures RetirementsAccepted(L1, [], G2.retirements.value)
  {
    hide TupleHash, DesiredHash;
    OneAbsorbed(R1);
    assert Absorb([], [R1][..0]) == [];
    assert EpochOf(M1) in L1.active;
  }

  lemma SecondChecks()
    ensures MappingsAccepted(L1, G2.mappings)
    ensures forall a :: a in L1.active ==> Ledgers.Present(G2.mappings, a.mappingId) || RetiredId(L2.entries, a.mappingId)
  {
    hide TupleHash, DesiredHash;
    assert EpochOf(M2) in L1.active && EpochOf(M2).mappingId == 2;
    assert MappingAccepted(L1, M2) && MappingAccepted(L1, M3);
    assert G2.mappings[0] == M2 && M2 in G2.mappings;
    assert L2.entries[0] in L2.entries;
  }

  lemma SecondSurvive()
    ensures Surviving(L2.active, L2.entries) == L2.active
  {
    hide TupleHash, DesiredHash;
    AllSurvive(L2.active, L2.entries);
  }

  lemma SecondLedger()
    ensures Marked(G2.mappings) && Prepared(L1, G2) == L2
  {
    hide TupleHash, DesiredHash, MaxId, MaxMark, MaxGeneration, Surviving, Kept, NextEntries, Absorb, Prepared, RetirementsAccepted;
    SecondEntries();
    SecondSurvive();
    TwoEpochs(M2, M3);
    TwoMaxima(2, 2, EpochOf(M2), EpochOf(M3));
    OneAbsorbed(R1);
    assert L2.entries[0..] == L2.entries;
    PreparedAs(L1, G2, L2);
  }

  lemma SecondStep()
    ensures Valid(G2, Here.lim) && LedgerInv(L1) && Leads(L1, G2, Here.lim, L2)
  {
    FirstStep();
    PrepareKeeps(L0, G1, Here.lim, L1);
    G2Valid();
    L2Valid();
    SecondEntries();
    SecondChecks();
    SecondLedger();
    hide Valid, ValidLedger, DesiredHash, TupleHash, Prepared, MappingsAccepted, RetirementsAccepted, Kept, NextEntries, LedgerInv, Ledgers.Present, RetiredId;
    AllChecks(L1, G2);
  }

  lemma ThirdEntries()
    ensures Kept(L2Cleared.entries, 2) == [] && NextEntries(L2Cleared, G3) == L3.entries
    ensures RetirementsAccepted(L2Cleared, [], G3.retirements.value)
  {
    hide TupleHash, DesiredHash;
    OneAbsorbed(R2);
    assert L2Cleared.entries[..0] == [];
    assert Absorb([], [R2][..0]) == [];
    assert EpochOf(M2) in L2Cleared.active;
  }

  lemma OneEpoch(m: Mapping, id: int, mark: u32)
    requires m.flowMark.Some? && m.id <= id && m.flowMark.value <= mark
    ensures Marked([m]) && Epochs([m]) == [EpochOf(m)] && MaxId(id, [EpochOf(m)]) == id && MaxMark(mark, [EpochOf(m)]) == mark
  {
    hide TupleHash;
    assert [EpochOf(m)][..0] == [];
  }

  lemma L2ClearedIs()
    ensures L2Cleared == Cleared(L2, {RetirementName})
  {
    hide TupleHash, DesiredHash;
    assert L2Cleared.entries == Cleared(L2, {RetirementName}).entries;
  }

  lemma ThirdChecks()
    ensures MappingsAccepted(L2Cleared, G3.mappings)
    ensures forall a :: a in L2Cleared.active ==> Ledgers.Present(G3.mappings, a.mappingId) || RetiredId(L3.entries, a.mappingId)
  {
    hide TupleHash, DesiredHash;
    assert EpochOf(M3) in L2Cleared.active && EpochOf(M3).mappingId == 3;
    assert MappingAccepted(L2Cleared, M3);
    assert G3.mappings[0] == M3 && M3 in G3.mappings;
    assert L3.entries[0] in L3.entries;
  }

  lemma ThirdSurvive()
    ensures Surviving(L3.active, L3.entries) == L3.active
  {
    hide TupleHash, DesiredHash;
    AllSurvive(L3.active, L3.entries);
  }

  lemma ThirdLedger()
    ensures Marked(G3.mappings) && Prepared(L2Cleared, G3) == L3
  {
    hide TupleHash, DesiredHash, MaxId, MaxMark, MaxGeneration, Surviving, Kept, NextEntries, Absorb, Prepared, RetirementsAccepted;
    ThirdEntries();
    ThirdSurvive();
    OneEpoch(M3, 3, 3);
    OneAbsorbed(R2);
    assert L3.entries[0..] == L3.entries;
    PreparedAs(L2Cleared, G3, L3);
  }

  lemma L2ClearedGood()
    ensures LedgerInv(L2) && LedgerInv(L2Cleared)
  {
    SecondStep();
    PrepareKeeps(L1, G2, Here.lim, L2);
    ClearKeeps(L2, {RetirementName});
    L2ClearedIs();
  }

  lemma ThirdStep()
    ensures Valid(G3, Here.lim) && LedgerInv(L2Cleared) && Leads(L2Cleared, G3, Here.lim, L3)
  {
    L2ClearedGood();
    G3Valid();
    L3Valid();
    ThirdEntries();
    ThirdChecks();
    ThirdLedger();
    hide Valid, ValidLedger, DesiredHash, TupleHash, Prepared, MappingsAccepted, RetirementsAccepted, Kept, NextEntries, LedgerInv, Ledgers.Present, RetiredId;
    AllChecks(L2Cleared, G3);
  }

  // ---- Steps of a run ----

  const Blind := Inspection(Iface, Unguarded, None)
  const NoInstall := ApplyEnv(Refused, Blind, [], Refused)
  const Clean := Sys(None, World(NoLedger, NoSnap, NoTable, {}), {})
  const Start := Booting(BootEnv(1, true, true, true, true, Some(LedgerName), Done, ApplyEnv(Done, Blind, [], Done), true, Done), None)
  const Idling := Blank.(ledger := Some(L0), applied := true)

  /** The platform sends a snapshot, and the table is not known to be present. */
  function Sending(s: Snapshot, saveLedger: Call, apply: ApplyEnv): CycleEnv {
    CycleEnv(Body(s), [], Missing, saveLedger, Done, 1, apply, Done)
  }

  /** A boot or cycle that nothing disturbs. */
  function Next(s: Sys, o: AgentModel.Outcome): Sys {
    Sys(Some(o.mem), DoAll(s.world, o.effects), SealAll(s.sealed, o.effects))
  }

  lemma NextPerforms(s: Sys, o: AgentModel.Outcome)
    ensures Performs(s, o, None, Next(s, o))
  {
    hide DoAll, SealAll, Interleaved;
    Undisturbed(s.world, o.effects);
  }

  lemma Started() returns (n: Sys)
    ensures Steps(Clean, Start, n, Here) && n.mem == Some(Idling)
    ensures n.world == Clean.world.(ledgerFile := StoredLedger(L0), kernel := Installed([], []))
  {
    hide DoAll, SealAll, Performs, Boot;
    var o := Boot(Clean.world, Start.boot, Here);
    n := Next(Clean, o);
    NextPerforms(Clean, o);
    BootOfClean();
    var a, b := WriteLedger(L0), Install([], []);
    DoConcat(Clean.world, [a], [b]);
    DoOne(Clean.world, a);
    DoOne(Do(Clean.world, a), b);
  }

  lemma BootOfClean()
    ensures var o := Boot(Clean.world, Start.boot, Here); o.mem == Idling && o.effects == [WriteLedger(L0)] + [Install([], [])]
  {
    FirstLoad();
    FirstApply();
    hide LoadLedgerFile, ApplySnapshot;
    assert [WriteLedger(L0)] + [] == [WriteLedger(L0)];
  }

  lemma FirstLoad()
    ensures LoadLedgerFile(Clean.world, Start.boot, Here) == Held(L0, [WriteLedger(L0)])
  {
    L1Valid();
    hide ValidLedger;
  }

  lemma FirstApply()
    ensures ApplySnapshot(L0, None, Start.boot.apply) == Ran(L0, true, [Install([], [])])
  {
    hide Verified;
    assert Retirements(L0) == [];
  }

  /** A cycle that receives an acceptable snapshot converges to it. */
  lemma Sent(s: Sys, snap: Snapshot, n: Ledger, saveLedger: Call, apply: ApplyEnv) returns (o: AgentModel.Outcome, next: Sys)
    requires s.mem.Some? && !s.mem.value.ledgerLost && s.mem.value.ledger.Some? && Leads(s.mem.value.ledger.value, snap, Here.lim, n)
    requires ZeroAll(s.mem.value.ledger.value.entries, n, s.world.flows, [])
    ensures o == Converge(s.mem.value, n, snap, Sending(snap, saveLedger, apply)) && next == Next(s, o)
    ensures Steps(s, Cycling(Sending(snap, saveLedger, apply), None), next, Here)
  {
    hide Valid, Prepared, Ledgers.Verdict, ZeroAll, Converge, Performs, Received;
    var env := Sending(snap, saveLedger, apply);
    ReceivedGoes(s.mem.value, snap, s.world.flows, env, Here.lim);
    o := Cycle(s.mem.value, s.world.flows, env, Here.lim);
    next := Next(s, o);
    NextPerforms(s, o);
  }

  lemma NoEntriesNoCheck(n: Ledger, flows: set<Flow>)
    ensures ZeroAll([], n, flows, [])
  {
  }

  /** The save takes effect but reports failure: disk moves on, memory does not. */
  lemma Unsaved(s: Sys, snap: Snapshot, n: Ledger) returns (next: Sys)
    requires s.mem.Some? && s.mem.value.ledger == Some(L0) && !s.mem.value.ledgerLost
    requires Leads(L0, snap, Here.lim, n) && n.armed && ValidLedger(n)
    ensures Steps(s, Cycling(Sending(snap, Unsure, NoInstall), None), next, Here)
    ensures next.world.ledgerFile == StoredLedger(n)
    ensures next.mem.Some? && next.mem.value.ledger == Some(L0) && !next.mem.value.ledgerLost
  {
    NoEntriesNoCheck(n, s.world.flows);
    var o;
    o, next := Sent(s, snap, n, Unsure, NoInstall);
    hide ValidLedger, Leads, SealAll, Steps, ZeroAll;
    DoOne(s.world, WriteLedger(n));
  }

  /** Both files are stored, but the table cannot be installed. */
  lemma SavedOnly(s: Sys, snap: Snapshot, n: Ledger) returns (next: Sys)
    requires s.mem.Some? && !s.mem.value.ledgerLost && s.mem.value.ledger.Some? && Leads(s.mem.value.ledger.value, snap, Here.lim, n)
    requires ZeroAll(s.mem.value.ledger.value.entries, n, s.world.flows, []) && n.armed && ValidLedger(n)
    ensures Steps(s, Cycling(Sending(snap, Done, NoInstall), None), next, Here)
    ensures next.mem == Some(s.mem.value.(ledger := Some(n), hasError := true))
    ensures next.world == s.world.(ledgerFile := StoredLedger(n), snapFile := StoredSnap(AgentModel.Stamped(snap, 1)))
  {
    var o;
    o, next := Sent(s, snap, n, Done, NoInstall);
    hide ValidLedger, Leads, SealAll, Steps, ZeroAll, DoAll;
    var a, b := WriteLedger(n), WriteSnap(AgentModel.Stamped(snap, 1));
    assert o.effects == [a] + [b];
    DoConcat(s.world, [a], [b]);
    DoOne(s.world, a);
    DoOne(Do(s.world, a), b);
  }

  // ---- A save that took effect but reported failure ----

  /** The ledger of a managed snapshot without mappings. */
  function BareLedger(generation: nat): Ledger {
    L0.(armed := true, managedGenerationHighWater := generation, desiredHash := DesiredHash(Bare(generation)))
  }

  lemma BareStep(generation: nat)
    requires generation > 0
    ensures Leads(L0, Bare(generation), Here.lim, BareLedger(generation)) && ValidLedger(BareLedger(generation))
  {
    L0Good();
    hide LedgerInv, Prepared, ValidLedger, Leads, DesiredHash;
    BareOffered(L0, generation, Here.lim);
  }

  /** Durable high-water marks can fall: after a save that took effect but reported failure, the next, lower generation is
      accepted and stored over it. */
  lemma UnsureSaveRegresses() returns (t: seq<Sys>, evs: seq<Event>)
    ensures Run(t, evs, Here) && |t| == 4
    ensures t[2].world.ledgerFile.StoredLedger? && t[3].world.ledgerFile.StoredLedger?
    ensures t[3].world.ledgerFile.ledger.managedGenerationHighWater < t[2].world.ledgerFile.ledger.managedGenerationHighWater
  {
    BareStep(10);
    BareStep(9);
    hide Steps, Leads, ValidLedger, DesiredHash, ZeroAll;
    var s1 := Started();
    var s2 := Unsaved(s1, Bare(10), BareLedger(10));
    NoEntriesNoCheck(BareLedger(9), s2.world.flows);
    var s3 := SavedOnly(s2, Bare(9), BareLedger(9));
    var e1, e2 := Cycling(Sending(Bare(10), Unsure, NoInstall), None), Cycling(Sending(Bare(9), Done, NoInstall), None);
    t, evs := [Clean, s1, s2, s3], [Start, e1, e2];
    RunOf4(t, evs);
  }

  lemma RunOf4(t: seq<Sys>, evs: seq<Event>)
    requires |t| == 4 && |evs| == 3 && t[0] == Clean
    requires Steps(t[0], evs[0], t[1], Here) && Steps(t[1], evs[1], t[2], Here) && Steps(t[2], evs[2], t[3], Here)
    ensures Run(t, evs, Here)
  {
    StepEnabled(t[0], evs[0], t[1]);
    StepEnabled(t[1], evs[1], t[2]);
    StepEnabled(t[2], evs[2], t[3]);
    hide Steps, Enabled;
  }

  lemma StepEnabled(s: Sys, ev: Event, n: Sys)
    requires Steps(s, ev, n, Here)
    ensures Enabled(s, ev)
  {
    hide Performs, Drifts;
  }

  lemma MovedHere() returns (n: Ledger)
    ensures Leads(L0, WithMoved(G1, 0), Here.lim, n) && Rebinds(L1, n) && n.armed && ValidLedger(n)
  {
    hide Leads, ValidLedger, DesiredHash, Prepared, Rebinds, TupleHash, LedgerInv, Valid;
    FirstStep();
    assert ManagedStep(L0, G1, Here.lim, L1);
    hide ManagedStep;
    MovedRebinds(L0, G1, 0, Here.lim, L1);
    MovedPrepared(L0, G1, 0, Here.lim, L1);
    n := Prepared(L0, WithMoved(G1, 0));
  }

  /** An id and its mark can be bound anew on disk, in the same way. */
  lemma UnsureSaveRebinds() returns (t: seq<Sys>, evs: seq<Event>)
    ensures Run(t, evs, Here) && |t| == 4
    ensures t[2].world.ledgerFile.StoredLedger? && t[3].world.ledgerFile.StoredLedger?
    ensures Rebinds(t[2].world.ledgerFile.ledger, t[3].world.ledgerFile.ledger)
  {
    hide Steps, Leads, ValidLedger, DesiredHash, ZeroAll, Prepared, Rebinds, TupleHash, LedgerInv, Valid;
    FirstStep();
    L1Valid();
    var g := WithMoved(G1, 0);
    var n := MovedHere();
    var s1 := Started();
    var s2 := Unsaved(s1, G1, L1);
    NoEntriesNoCheck(n, s2.world.flows);
    var s3 := SavedOnly(s2, g, n);
    var e1, e2 := Cycling(Sending(G1, Unsure, NoInstall), None), Cycling(Sending(g, Done, NoInstall), None);
    t, evs := [Clean, s1, s2, s3], [Start, e1, e2];
    RunOf4(t, evs);
  }

  // ---- Applies that go through ----

  lemma PlainRules(s: Snapshot)
    requires Plannable(s) && forall i :: 0 <= i < |s.mappings| ==> s.mappings[i].sourcePolicy.None?
    ensures RulesOk(PlanOf(Some(s)))
  {
  }

  /** The kernel shows exactly what is asked for, and every call succeeds. */
  function Smooth(s: Snapshot, l: Ledger): ApplyEnv
    requires RulesOk(PlanOf(Some(s)))
  {
    ApplyEnv(Done, Inspection(Iface, Unguarded, Some(RB.TableOf(Iface, PlanOf(Some(s)), Retirements(l), Unguarded))), [ClearedAll], Done)
  }

  lemma SmoothVerifies(s: Snapshot, l: Ledger)
    requires Valid(s, Here.lim) && RulesOk(PlanOf(Some(s)))
    ensures Verified(Smooth(s, l).readback, PlanOf(Some(s)), Retirements(l))
  {
    E2E.PlanOfValid(s, Here.lim);
    hide RulesOk, DistinctIds, DistinctEndpoints, Valid, RB.Conforms, RB.TableOf;
    RB.TableOfConforms(Iface, PlanOf(Some(s)), Retirements(l), Unguarded);
  }

  lemma SmoothApply(s: Snapshot, l: Ledger)
    requires Valid(s, Here.lim) && RulesOk(PlanOf(Some(s))) && LedgerInv(l) && l.armed && ClearAll(l.entries, [ClearedAll]).0
    ensures var ran := ApplySnapshot(l, Some(s), Smooth(s, l)); ran.ok && ran.ledger == Cleared(l, ClearAll(l.entries, [ClearedAll]).2)
  {
    hide Verified, Valid, RulesOk, LedgerInv, ValidLedger, Cleared, PlanOf, RB.TableOf, ClearAll, ApplySnapshot;
    var ids := ClearAll(l.entries, [ClearedAll]).2;
    SmoothVerifies(s, l);
    ClearKeeps(l, ids);
    InvValid(Cleared(l, ids));
    AppliesWhole(l, Some(s), Smooth(s, l));
  }

  lemma AppliesWhole(l: Ledger, s: Option<Snapshot>, env: ApplyEnv)
    requires l.armed && env.install.Done? && Verified(env.readback, PlanOf(s), Retirements(l)) && ClearAll(l.entries, env.clears).0
    requires env.persist.Done? && ValidLedger(Cleared(l, ClearAll(l.entries, env.clears).2))
    ensures var ran := ApplySnapshot(l, s, env); ran.ok && ran.ledger == Cleared(l, ClearAll(l.entries, env.clears).2)
  {
    hide Verified, ValidLedger, Cleared, PlanOf, ClearAll, Retirements;
  }

  /** Everything succeeds: files, kernel and connections. */
  lemma Applied(s: Sys, snap: Snapshot, n: Ledger) returns (next: Sys)
    requires s.mem.Some? && !s.mem.value.ledgerLost && s.mem.value.ledger.Some? && Leads(s.mem.value.ledger.value, snap, Here.lim, n)
    requires ZeroAll(s.mem.value.ledger.value.entries, n, s.world.flows, []) && n.armed && LedgerInv(n)
    requires Valid(snap, Here.lim) && RulesOk(PlanOf(Some(snap))) && ClearAll(n.entries, [ClearedAll]).0
    ensures Steps(s, Cycling(Sending(snap, Done, Smooth(snap, n)), None), next, Here)
    ensures next.mem == Some(Mem(Some(Cleared(n, ClearAll(n.entries, [ClearedAll]).2)), false, true, snap.generation, Some(snap), false, false))
    ensures next.world.flows <= s.world.flows
  {
    SmoothApply(snap, n);
    InvValid(n);
    var o;
    o, next := Sent(s, snap, n, Done, Smooth(snap, n));
    hide ApplySnapshot, ValidLedger, Leads, LedgerInv, Valid, SealAll, Steps, ZeroAll, Cleared, ClearAll, RulesOk, Smooth;
    FlowsShrink(s.world, o.effects);
  }

  lemma {:induction false} FlowsShrink(w: World, es: seq<Effect>)
    ensures DoAll(w, es).flows <= w.flows
    decreases |es|
  {
    hide Matching;
    if es != [] {
      FlowsShrink(Do(w, es[0]), es[1..]);
    }
  }

  // ---- A re-assert under a newer ledger ----

  lemma NoRulesChecked()
    ensures RulesOk(PlanOf(Some(G1))) && RulesOk(PlanOf(Some(G2)))
  {
    hide TupleHash;
    PlainRules(G1);
    PlainRules(G2);
  }

  lemma NothingToClear(l: Ledger)
    requires l.entries == []
    ensures ClearAll(l.entries, [ClearedAll]) == (true, [], {}) && Cleared(l, {}) == l
  {
    ClearedNothing(l);
  }

  /** Generation 1 applied and reported. */
  lemma Generation1() returns (s1: Sys, s2: Sys)
    ensures Steps(Clean, Start, s1, Here) && Steps(s1, Cycling(First(), None), s2, Here)
    ensures s2.mem == Some(Mem(Some(L1), false, true, 1, Some(G1), false, false)) && s2.world.flows == {}
  {
    FirstStep();
    SecondStep();
    NoRulesChecked();
    NothingToClear(L1);
    hide Steps, Leads, LedgerInv, Valid, RulesOk, DesiredHash, TupleHash, ZeroAll, ClearAll, Cleared;
    s1 := Started();
    NoEntriesNoCheck(L1, s1.world.flows);
    s2 := Applied(s1, G1, L1);
  }

  function First(): CycleEnv {
    NoRulesChecked();
    Sending(G1, Done, Smooth(G1, L1))
  }

  /** The re-assert finds the table missing and everything else in order. */
  function Reasserting(): CycleEnv {
    NoRulesChecked();
    CycleEnv(Unchanged, [], Missing, Done, Done, 1, Smooth(G1, L2), Done)
  }

  lemma OneToClear()
    ensures ClearAll(L2.entries, [ClearedAll]).0 && ClearAll(L2.entries, [ClearedAll]).2 == {RetirementName}
  {
    hide TupleHash, DesiredHash;
    assert L2.entries[1..] == [] && [ClearedAll][1..] == [];
    assert ClearAll([], []) == (true, [], {});
    assert {RetirementName} + {} == {RetirementName};
  }

  lemma Reasserted(s: Sys) returns (next: Sys)
    requires s.mem == Some(Mem(Some(L2), false, true, 1, Some(G1), false, true))
    ensures Steps(s, Cycling(Reasserting(), None), next, Here)
    ensures next.mem.Some? && R1 in ReportOf(next.mem.value).receipts
    ensures next.world.kernel.Installed? && exists q :: q in next.world.kernel.rules && q.flowMark == R1.flowMark
  {
    hide ApplySnapshot, Leads, LedgerInv, Valid, RulesOk, DesiredHash, TupleHash, ClearAll, Cleared, Receipts, PlanOf, Smooth, Performs, Cycle, DoAll, SealAll;
    ReassertSucceeds();
    var env, mem := Reasserting(), s.mem.value;
    var o := Cycle(mem, s.world.flows, env, Here.lim);
    next := Next(s, o);
    NextPerforms(s, o);
    ReassertIs(mem, s.world.flows, env);
    assert L2.entries[0] == Entry(R1, false) && Retirements(L2)[0] == R1;
    ApplyClearsAll(s.world, L2, Some(G1), env.apply, R1);
    PlanOfG1();
  }

  lemma ReassertSucceeds()
    ensures ApplySnapshot(L2, Some(G1), Reasserting().apply).ok
  {
    FirstStep();
    NoRulesChecked();
    L2ClearedGood();
    OneToClear();
    hide ApplySnapshot, Leads, LedgerInv, Valid, RulesOk, DesiredHash, TupleHash, ClearAll, Cleared, PlanOf, Smooth;
    SmoothApply(G1, L2);
  }

  lemma ReassertIs(mem: Mem, flows: set<Flow>, env: CycleEnv)
    requires mem == Mem(Some(L2), false, true, 1, Some(G1), false, true) && env.sync.Unchanged? && env.present.Missing?
    requires ApplySnapshot(L2, Some(G1), env.apply).ok
    ensures var o, ran := Cycle(mem, flows, env, Here.lim), ApplySnapshot(L2, Some(G1), env.apply);
      o.effects == ran.effects && o.mem.ledger == Some(ran.ledger)
  {
    hide ApplySnapshot, TupleHash, DesiredHash;
  }

  lemma PlanOfG1()
    ensures exists q :: q in PlanOf(Some(G1)) && q.flowMark == 1
  {
    hide TupleHash;
    assert PlanOf(Some(G1))[0].flowMark == 1;
  }

  /** A whole run: generation 1 is applied; generation 2, which retires mapping 1, is stored but cannot be installed; the table is wiped; and
      "unchanged" is answered although the applied generation is behind.  The re-assert installs the retired mapping again, reports it as
      cleared, and the kernel goes on stamping its mark. */
  lemma UnfaithfulAnswerBreaksReceipt() returns (t: seq<Sys>, evs: seq<Event>)
    ensures Run(t, evs, Here) && |t| == 6
    ensures t[5].mem.Some? && R1 in ReportOf(t[5].mem.value).receipts
    ensures t[5].world.kernel.Installed? && exists q :: q in t[5].world.kernel.rules && q.flowMark == R1.flowMark
  {
    SecondStep();
    L2Valid();
    hide Steps, Leads, LedgerInv, Valid, ValidLedger, DesiredHash, TupleHash, ZeroAll, Receipts, First, Reasserting;
    var s1, s2 := Generation1();
    NoEntriesNoCheck(L2, s2.world.flows);
    var s3 := SavedOnly(s2, G2, L2);
    var s4 := s3.(world := s3.world.(kernel := NoTable));
    WipeSteps(s3);
    var s5 := Reasserted(s4);
    t := [Clean, s1, s2, s3, s4, s5];
    evs := [Start, Cycling(First(), None), Cycling(Sending(G2, Done, NoInstall), None), Resting, Cycling(Reasserting(), None)];
    RunOf6(t, evs);
  }

  lemma WipeSteps(s: Sys)
    ensures Steps(s, Resting, s.(world := s.world.(kernel := NoTable)), Here)
  {
  }

  lemma RunOf6(t: seq<Sys>, evs: seq<Event>)
    requires |t| == 6 && |evs| == 5 && t[0] == Clean
    requires Steps(t[0], evs[0], t[1], Here) && Steps(t[1], evs[1], t[2], Here) && Steps(t[2], evs[2], t[3], Here)
    requires Steps(t[3], evs[3], t[4], Here) && Steps(t[4], evs[4], t[5], Here)
    ensures Run(t, evs, Here)
  {
    StepEnabled(t[0], evs[0], t[1]);
    StepEnabled(t[1], evs[1], t[2]);
    StepEnabled(t[2], evs[2], t[3]);
    StepEnabled(t[3], evs[3], t[4]);
    StepEnabled(t[4], evs[4], t[5]);
    hide Steps, Enabled;
  }

  // ---- A clearing that was stored but reported as failed ----

  /** Generation 2 goes through up to the last save, which takes effect but reports failure. */
  function SecondUnsure(): CycleEnv {
    NoRulesChecked();
    Sending(G2, Done, Smooth(G2, L2).(persist := Unsure))
  }

  lemma UnsureApply(l: Ledger, s: Option<Snapshot>, env: ApplyEnv)
    requires l.armed && env.install.Done? && Verified(env.readback, PlanOf(s), Retirements(l)) && ClearAll(l.entries, env.clears).0
    requires env.persist.Unsure? && ValidLedger(Cleared(l, ClearAll(l.entries, env.clears).2))
    ensures var (ok, deletions, ids) := ClearAll(l.entries, env.clears);
      ApplySnapshot(l, s, env) == Ran(l, false, [Install(PlanOf(s), Retirements(l))] + deletions + [WriteLedger(Cleared(l, ids))])
  {
    hide Verified, ValidLedger, Cleared, PlanOf, ClearAll, Retirements;
  }

  lemma SecondUnsureApplies() returns (before: seq<Effect>)
    ensures ApplySnapshot(L2, Some(G2), SecondUnsure().apply) == Ran(L2, false, before + [WriteLedger(L2Cleared)])
  {
    SecondStep();
    NoRulesChecked();
    OneToClear();
    L2ClearedIs();
    L2ClearedGood();
    InvValid(L2Cleared);
    hide ApplySnapshot, Leads, LedgerInv, Valid, ValidLedger, RulesOk, DesiredHash, TupleHash, ClearAll, Cleared, PlanOf, Verified;
    SmoothVerifies(G2, L2);
    UnsureApply(L2, Some(G2), SecondUnsure().apply);
    before := [Install(PlanOf(Some(G2)), Retirements(L2))] + ClearAll(L2.entries, [ClearedAll]).1;
  }

  lemma ClearedUnsurely(s: Sys) returns (next: Sys)
    requires s.mem == Some(Mem(Some(L1), false, true, 1, Some(G1), false, false))
    ensures Steps(s, Cycling(SecondUnsure(), None), next, Here)
    ensures next.world.ledgerFile == StoredLedger(L2Cleared)
    ensures next.mem.Some? && next.mem.value.ledger == Some(L2) && !next.mem.value.ledgerLost
  {
    SecondStep();
    L2Valid();
    NoEntriesNoCheck(L2, s.world.flows);
    var before := SecondUnsureApplies();
    hide ApplySnapshot, Leads, LedgerInv, Valid, ValidLedger, RulesOk, DesiredHash, TupleHash, Steps, ZeroAll, DoAll, SealAll, Smooth;
    var env := SecondUnsure();
    var o;
    o, next := Sent(s, G2, L2, Done, env.apply);
    var files := [WriteLedger(L2), WriteSnap(AgentModel.Stamped(G2, 1))];
    assert o.effects == (files + before) + [WriteLedger(L2Cleared)];
    DoConcat(s.world, files + before, [WriteLedger(L2Cleared)]);
    DoOne(DoAll(s.world, files + before), WriteLedger(L2Cleared));
  }

  lemma SentAgain()
    ensures Leads(L2, G2, Here.lim, L2)
  {
    SecondStep();
    assert ManagedStep(L1, G2, Here.lim, L2);
    L2ClearedGood();
    TwoEpochs(M2, M3);
    hide ManagedStep, LedgerInv, Valid, DesiredHash, TupleHash, Settled, Prepared, Ledgers.Verdict;
    PrepareSettles(L1, G2, Here.lim, L2);
    SettledPrepare(L2, G2, Here.lim);
  }

  /** A whole run: generation 2 retires mapping 1, its connections are deleted, and the ledger that says so is stored, but the save
      reports failure, so that memory takes the clearing back.  Neither the stored generation nor a stored id is above those in memory.
      Yet when generation 2 is sent again, the ledger in memory is stored, and on disk the retirement is no longer cleared. */
  lemma UnsurePersistUnclears() returns (t: seq<Sys>, evs: seq<Event>)
    ensures Run(t, evs, Here) && |t| == 5
    ensures t[3].mem.Some? && t[3].mem.value.ledger == Some(L2)
    ensures t[3].world.ledgerFile == StoredLedger(L2Cleared) && t[4].world.ledgerFile == StoredLedger(L2)
    ensures Entry(R1, true) in L2Cleared.entries && Entry(R1, false) in L2.entries
    ensures !Evolves(L2Cleared, L2) && Binds(L2Cleared, L2)
  {
    SentAgain();
    L2Valid();
    Unclears();
    hide Steps, Leads, LedgerInv, Valid, ValidLedger, DesiredHash, TupleHash, ZeroAll, First, SecondUnsure, Evolves, Binds;
    var s1, s2 := Generation1();
    var s3 := ClearedUnsurely(s2);
    assert forall e :: e in L2.entries ==> Known(L2.entries, e.retirement.retirementId);
    NothingToCheck(L2.entries, L2, s3.world.flows);
    var s4 := SavedOnly(s3, G2, L2);
    t := [Clean, s1, s2, s3, s4];
    evs := [Start, Cycling(First(), None), Cycling(SecondUnsure(), None), Cycling(Sending(G2, Done, NoInstall), None)];
    RunOf5(t, evs);
  }

  lemma Unclears()
    ensures Entry(R1, true) in L2Cleared.entries && Entry(R1, false) in L2.entries
    ensures !Evolves(L2Cleared, L2) && Binds(L2Cleared, L2)
  {
    L2ClearedGood();
    L2ClearedIs();
    hide LedgerInv, DesiredHash, TupleHash, Cleared;
    assert L2Cleared.entries[0] == Entry(R1, true) && L2.entries[0] == Entry(R1, false);
    ClearedBinds(L2, {RetirementName});
    assert L2Cleared.entries[0] in L2Cleared.entries && L2.entries[0] in L2.entries;
  }

  // ---- A retirement id used again ----

  function Second(): CycleEnv {
    NoRulesChecked();
    Sending(G2, Done, Smooth(G2, L2))
  }

  lemma ReusedPasses(flows: set<Flow>)
    ensures ZeroAll(L2Cleared.entries, L3, flows, [])
  {
    hide TupleHash, DesiredHash, Matching;
    assert L3.entries[0].retirement.retirementId == RetirementName && L3.entries[0] in L3.entries;
    assert L2Cleared.entries[1..] == [];
  }

  /** A whole run: mapping 1 is retired and cleared in generation 2; generation 3 acknowledges it and gives its retirement id to mapping 2.
      No zero check is made, and had one been made it would have failed for want of an answer; the entry is compacted all the same. */
  lemma ReusedIdSkipsZeroCheck() returns (t: seq<Sys>, evs: seq<Event>)
    ensures Run(t, evs, Here) && |t| == 5 && evs[3].Cycling? && evs[3].cycle.zeros == []
    ensures t[3].mem.Some? && t[3].mem.value.ledger.Some? && Entry(R1, true) in t[3].mem.value.ledger.value.entries
    ensures t[4].mem.Some? && t[4].mem.value.ledger.Some? && forall e :: e in t[4].mem.value.ledger.value.entries ==> e.retirement != R1
  {
    SecondStep();
    ThirdStep();
    L3Valid();
    L2ClearedGood();
    L2ClearedIs();
    OneToClear();
    NoRulesChecked();
    hide Steps, Leads, LedgerInv, Valid, ValidLedger, DesiredHash, TupleHash, ZeroAll, ClearAll, Cleared, RulesOk, First, Smooth;
    var s1, s2 := Generation1();
    NoEntriesNoCheck(L2, s2.world.flows);
    var s3 := Applied(s2, G2, L2);
    ReusedPasses(s3.world.flows);
    var s4 := SavedOnly(s3, G3, L3);
    t := [Clean, s1, s2, s3, s4];
    evs := [Start, Cycling(First(), None), Cycling(Second(), None), Cycling(Sending(G3, Done, NoInstall), None)];
    RunOf5(t, evs);
  }

  lemma RunOf5(t: seq<Sys>, evs: seq<Event>)
    requires |t| == 5 && |evs| == 4 && t[0] == Clean
    requires Steps(t[0], evs[0], t[1], Here) && Steps(t[1], evs[1], t[2], Here)
    requires Steps(t[2], evs[2], t[3], Here) && Steps(t[3], evs[3], t[4], Here)
    ensures Run(t, evs, Here)
  {
    StepEnabled(t[0], evs[0], t[1]);
    StepEnabled(t[1], evs[1], t[2]);
    StepEnabled(t[2], evs[2], t[3]);
    StepEnabled(t[3], evs[3], t[4]);
    hide Steps, Enabled;
  }

  // ---- A batch that committed but reported failure ----

  /** Legacy snapshots: one mapping, then none. */
  const A1 := Snapshot(1, [M1.(flowMark := None)], None, None, 0)
  const A2 := Snapshot(2, [], None, None, 0)

  lemma LegacyFine()
    ensures Valid(A1, Here.lim) && Valid(A2, Here.lim) && PlanOf(Some(A1)) != PlanOf(Some(A2))
  {
    HostAllowed();
    assert MappingFits(A1, Here.lim, 0);
    assert |PlanOf(Some(A1))| == 1 && |PlanOf(Some(A2))| == 0;
  }

  function Batch(s: Snapshot, install: Call): CycleEnv {
    CycleEnv(Body(s), [], Missing, Done, Done, 1, ApplyEnv(install, Blind, [], Done), Done)
  }

  lemma LegacyApplied(s: Sys) returns (next: Sys)
    requires s.mem == Some(Idling)
    ensures Steps(s, Cycling(Batch(A1, Done), None), next, Here)
    ensures next.mem == Some(Mem(Some(L0), false, true, 1, Some(A1), false, false))
    ensures Exact(next.mem.value, next.world.kernel)
  {
    hide Performs, Valid, PlanOf, ApplySnapshot, SealAll, DoAll, LedgerInv, Cycle, Exact;
    LegacyFine();
    var env, mem := Batch(A1, Done), s.mem.value;
    var o := Cycle(mem, s.world.flows, env, Here.lim);
    next := Next(s, o);
    NextPerforms(s, o);
    LegacyOutcome(mem, s.world);
  }

  lemma LegacyOutcome(mem: Mem, w: World)
    requires mem == Idling && Valid(A1, Here.lim)
    ensures var o := Cycle(mem, w.flows, Batch(A1, Done), Here.lim);
      o.mem == Mem(Some(L0), false, true, 1, Some(A1), false, false) && Exact(o.mem, DoAll(w, o.effects).kernel)
  {
    var env := Batch(A1, Done);
    hide Valid, PlanOf, ApplySnapshot, DoAll, Received;
    LegacyReceived(mem, A1, w.flows, env, Here.lim);
    UnarmedApply(w, L0, Some(A1), env.apply);
    var ran := ApplySnapshot(L0, Some(A1), env.apply);
    var snapWrite := Try(env.saveSnap, WriteSnap(AgentModel.Stamped(A1, env.now)));
    assert [] + [] + ran.effects == ran.effects;
    DoConcat(w, ran.effects, snapWrite);
    FileEffectsKeepKernel(DoAll(w, ran.effects), snapWrite);
  }

  /** A whole run of a host that was never armed: the batch of the second snapshot commits but reports failure, and the table is no
      longer the plan of the snapshot the agent believes to have applied last. */
  lemma OvertakenKernel() returns (t: seq<Sys>, evs: seq<Event>)
    ensures Run(t, evs, Here) && |t| == 4
    ensures t[3].mem.Some? && !t[3].mem.value.ledgerLost && !Exact(t[3].mem.value, t[3].world.kernel)
  {
    LegacyFine();
    L0Good();
    hide Steps, Valid, PlanOf, LedgerInv, Exact, Cycle;
    var s1 := Started();
    var s2 := LegacyApplied(s1);
    var mem, env := s2.mem.value, Batch(A2, Unsure);
    var o := Cycle(mem, s2.world.flows, env, Here.lim);
    var s3 := Next(s2, o);
    OvertakenStep(s2, o);
    CycleExactIff(mem, s2.world, env, Here.lim);
    t, evs := [Clean, s1, s2, s3], [Start, Cycling(Batch(A1, Done), None), Cycling(env, None)];
    RunOf4(t, evs);
  }

  lemma OvertakenStep(s: Sys, o: AgentModel.Outcome)
    requires s.mem.Some? && Healthy(s.mem.value) && !s.mem.value.ledgerLost && o == Cycle(s.mem.value, s.world.flows, Batch(A2, Unsure), Here.lim)
    ensures Steps(s, Cycling(Batch(A2, Unsure), None), Next(s, o), Here) && !o.mem.ledgerLost
  {
    NextPerforms(s, o);
    hide Performs, ApplySnapshot, Valid, Prepared, Ledgers.Verdict, ZeroAll, LedgerChanged, Next;
  }

  // ---- A public port given to another mapping ----

  /** A new connection to the first mapping, and a later packet of it. */
  const Opening := Packet(Iface, [], PROTO_TCP, 20001, Host, 0, 0, 20001, 40000)
  const Later := Packet(Iface, [], PROTO_TCP, 20001, Host, 1, 0x20, 20001, 40000)

  /** Generation 2 is accepted after generation 1.  A packet of a connection that the retired mapping 1 created is dropped by its fence, but
      before that it is counted as traffic of mapping 3, which now has the port. */
  lemma RetiredTrafficIsMisattributed(ph: Physics, st: State)
    requires st.mark == Le4(Later.ctMark)
    ensures Leads(L0, G1, Here.lim, L1) && Leads(L1, G2, Here.lim, L2)
    ensures Plannable(G1) && Plannable(G2) && RulesOk(Plan(G1))
    ensures var (created, o) := EvalChain(Render(Iface, Plan(G1), Unguarded), Opening, ph, st);
      && E2E.Creator(Iface, M1, Opening, created, o) && E2E.SameConnection(Opening, created, Later)
    ensures var (after, o) := EvalChain(RenderForward(Iface, Plan(G2)) + RenderFences(Iface, Retirements(L2)), Later, ph, st);
      && o == Dropped
      && Count(after, CounterName(M3.id, SuffixIn)) == Count(st, CounterName(M3.id, SuffixIn)) + 1
  {
    FirstStep();
    SecondStep();
    PlansHere();
    NoRulesChecked();
    hide Leads, LedgerInv, Valid, TupleHash, DesiredHash, EvalChain, Render, RenderForward, RenderFences, RulesOk, Count, CounterName, MeterAll, Le4, DistinctIds, DistinctEndpoints;
    OpeningTranslated(ph, st);
    ForwardMeaning(Iface, Plan(G2), Retirements(L2), Later, ph, st);
    LaterFenced();
    var q := PlanOne(M3);
    assert Plan(G2)[1] == q && q in Plan(G2) && Metered(q, Later);
    MeterAllCounts(Iface, Plan(G2), Later, st, q, SuffixIn);
  }

  lemma PlansHere()
    ensures Plannable(G1) && Plannable(G2) && DistinctIds(Plan(G2)) && DistinctEndpoints(Plan(G1)) && HasDnat(Later.ctStatus)
  {
    G1Valid();
    G2Valid();
    hide Valid, TupleHash;
    E2E.PlanOfValid(G1, Here.lim);
    E2E.PlanOfValid(G2, Here.lim);
  }

  lemma LaterFenced()
    ensures Fenced(Iface, Retirements(L2), Later)
  {
    hide TupleHash, DesiredHash;
    assert Retirements(L2)[0] == R1;
    assert ForwardChain.Stamped(Retirements(L2)[0], Later);
  }

  lemma OpeningTranslated(ph: Physics, st: State)
    requires Plannable(G1) && RulesOk(Plan(G1)) && DistinctEndpoints(Plan(G1)) && HasDnat(Later.ctStatus)
    ensures var (created, o) := EvalChain(Render(Iface, Plan(G1), Unguarded), Opening, ph, st);
      E2E.Creator(Iface, M1, Opening, created, o) && E2E.SameConnection(Opening, created, Later)
  {
    hide EvalChain, Render, DecideAll, TupleHash, CounterName, Le4, AddrBytes, Be2, RulesOk, DistinctEndpoints;
    var q := PlanOne(M1);
    assert Plan(G1)[0] == q && q in Plan(G1);
    NatChainMeaning(Iface, Plan(G1), Unguarded, Opening, ph, st);
    DecideBySelected(Iface, Plan(G1), Unguarded, Opening, ph, st, q);
  }
}
