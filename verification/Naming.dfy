/**
 Names of the per-mapping kernel objects and the read-out of the named counters
 (internal/nftctl/nftctl.go): printing and parsing are inverse, and a listing in any
 order is folded back into one record per mapping.
 */
module Naming {
  import opened Values
  import opened Text
  import opened Nft

  const Suffixes: seq<string> := [SuffixNew, SuffixIn, SuffixOut, SuffixRate, SuffixConn, SuffixSource]

  /** Inverts `CounterName`; anything malformed is refused. */
  function ParseCounterName(name: string): Option<(int, string)> {
    if name == [] || name[0] != 'm' then None
    else match Cut(name[1..], '_')
      case None => None
      case Some((num, suffix)) =>
        var id := ParseInt(num);
        if id.None? || id.value < 0 || suffix !in Suffixes then None else Some((id.value, suffix))
  }

  lemma CutOfName(id: int, suffix: string)
    ensures CounterName(id, suffix)[0] == 'm' && Cut(CounterName(id, suffix)[1..], '_') == Some((FormatInt(id), suffix))
  {
    hide FormatInt;
    FormatIntHasNo('_', id);
    assert CounterName(id, suffix)[1..] == FormatInt(id) + ['_'] + suffix;
    CutOfJoin(FormatInt(id), '_', suffix);
  }

  /** Parsing a printed name returns the pair it was printed from. */
  lemma CounterNameRoundTrip(id: int, suffix: string)
    requires 0 <= id <= INT64_MAX && suffix in Suffixes
    ensures ParseCounterName(CounterName(id, suffix)) == Some((id, suffix))
  {
    hide FormatInt, ParseInt;
    CutOfName(id, suffix);
    ParseOfFormat(id);
  }

  /** Distinct pairs have distinct names. */
  lemma CounterNameInjective(id: int, suffix: string, id': int, suffix': string)
    requires CounterName(id, suffix) == CounterName(id', suffix')
    ensures id == id' && suffix == suffix'
  {
    hide FormatInt;
    CutOfName(id, suffix);
    CutOfName(id', suffix');
    FormatIntInjective(id, id');
  }

  lemma SetNameInjective(id: int, id': int)
    requires SetName(id) == SetName(id')
    ensures id == id'
  {
    hide FormatInt;
    assert SetName(id)[2..] == FormatInt(id) && SetName(id')[2..] == FormatInt(id');
    FormatIntInjective(id, id');
  }

  // ---- Reading the counters back ----

  datatype Counters = Counters(
    newConns: nat,
    inPackets: nat,
    inBytes: nat,
    outPackets: nat,
    outBytes: nat,
    rateDropped: nat,
    connDropped: nat,
    perSourceDropped: nat)

  const NoCounters := Counters(0, 0, 0, 0, 0, 0, 0, 0)

  datatype Object = CounterObj(name: string, packets: nat, bytes: nat) | OtherObj

  /** The object reports the counter of this mapping and suffix. */
  predicate Reports(o: Object, id: int, suffix: string) {
    o.CounterObj? && ParseCounterName(o.name) == Some((id, suffix))
  }

  predicate Mentions(o: Object, id: int) {
    o.CounterObj? && ParseCounterName(o.name).Some? && ParseCounterName(o.name).value.0 == id
  }

  /** Packets and bytes of the last object that reports the pair, zero without one. */
  function LastReading(objs: seq<Object>, id: int, suffix: string): (nat, nat) {
    if objs == [] then (0, 0)
    else
      var o := objs[|objs| - 1];
      if Reports(o, id, suffix) then (o.packets, o.bytes) else LastReading(objs[..|objs| - 1], id, suffix)
  }

  function Reading(objs: seq<Object>, id: int): Counters {
    Counters(
      LastReading(objs, id, SuffixNew).0,
      LastReading(objs, id, SuffixIn).0, LastReading(objs, id, SuffixIn).1,
      LastReading(objs, id, SuffixOut).0, LastReading(objs, id, SuffixOut).1,
      LastReading(objs, id, SuffixRate).0,
      LastReading(objs, id, SuffixConn).0,
      LastReading(objs, id, SuffixSource).0)
  }

  function Store(e: Counters, suffix: string, o: Object): Counters
    requires o.CounterObj?
  {
    if suffix == SuffixNew then e.(newConns := o.packets)
    else if suffix == SuffixIn then e.(inPackets := o.packets, inBytes := o.bytes)
    else if suffix == SuffixOut then e.(outPackets := o.packets, outBytes := o.bytes)
    else if suffix == SuffixRate then e.(rateDropped := o.packets)
    else if suffix == SuffixConn then e.(connDropped := o.packets)
    else if suffix == SuffixSource then e.(perSourceDropped := o.packets)
    else e
  }

  lemma ReadingOfOneMore(objs: seq<Object>, o: Object, id: int)
    ensures Reading(objs + [o], id) ==
      if Mentions(o, id) then Store(Reading(objs, id), ParseCounterName(o.name).value.1, o) else Reading(objs, id)
  {
    assert (objs + [o])[..|objs|] == objs;
    hide CounterName;
    assert o.CounterObj? && ParseCounterName(o.name).Some? ==> ParseCounterName(o.name).value.1 in Suffixes;
    hide ParseCounterName;
  }

  /** The mappings whose counters are listed. */
  function Mentioned(objs: seq<Object>): set<int> {
    set o | o in objs && o.CounterObj? && ParseCounterName(o.name).Some? :: ParseCounterName(o.name).value.0
  }

  /** One record per mapping whose counters are listed. */
  function Readout(objs: seq<Object>): map<int, Counters> {
    map id | id in Mentioned(objs) :: Reading(objs, id)
  }

  /** Folds the listed objects into one record per mapping, skipping what does not parse. */
  method ReadCounters(objs: seq<Object>) returns (out: map<int, Counters>)
    ensures out == Readout(objs)
  {
    hide ParseCounterName, Reading;
    out := map[];
    NothingRead(objs[..0]);
    for i := 0 to |objs|
      invariant forall id :: id in out <==> exists o :: o in objs[..i] && Mentions(o, id)
      invariant forall id :: id !in out ==> Reading(objs[..i], id) == NoCounters
      invariant forall id :: id in out ==> out[id] == Reading(objs[..i], id)
    {
      var o := objs[i];
      assert objs[..i + 1] == objs[..i] + [o];
      forall id ensures Reading(objs[..i + 1], id) ==
        if Mentions(o, id) then Store(Reading(objs[..i], id), ParseCounterName(o.name).value.1, o) else Reading(objs[..i], id)
      {
        ReadingOfOneMore(objs[..i], o, id);
      }
      if o.CounterObj? && ParseCounterName(o.name).Some? {
        var (id, suffix) := ParseCounterName(o.name).value;
        var e := if id in out then out[id] else NoCounters;
        out := out[id := Store(e, suffix, o)];
        assert Mentions(o, id);
      }
    }
    assert objs[..|objs|] == objs;
    forall id ensures id in out <==> id in Mentioned(objs) {
      if id in out {
        var o :| o in objs && Mentions(o, id);
      }
    }
    assert out.Keys == Readout(objs).Keys;
    assert forall id :: id in out ==> out[id] == Readout(objs)[id];
  }

  lemma NothingRead(objs: seq<Object>)
    requires objs == []
    ensures forall id :: Reading(objs, id) == NoCounters
  {
  }

  /** The only object that reports a pair is the one read, wherever it stands in the listing. */
  lemma {:induction false} ListingOrderIrrelevant(objs: seq<Object>, id: int, suffix: string, o: Object)
    requires o in objs && Reports(o, id, suffix)
    requires forall q :: q in objs && Reports(q, id, suffix) ==> q == o
    ensures LastReading(objs, id, suffix) == (o.packets, o.bytes)
  {
    hide Reports;
    var init, last := objs[..|objs| - 1], objs[|objs| - 1];
    assert objs == init + [last];
    if !Reports(last, id, suffix) {
      assert o in init;
      ListingOrderIrrelevant(init, id, suffix, o);
    }
  }

  // ---- The objects an apply creates ----

  /** What the kernel has counted under each name. */
  type Tally = (int, string) -> (nat, nat)

  function CounterOf(id: int, suffix: string, tally: Tally): Object {
    CounterObj(CounterName(id, suffix), tally(id, suffix).0, tally(id, suffix).1)
  }

  /** Six counters per mapping, as an apply adds them. */
  function Created(ids: seq<int>, tally: Tally): seq<Object> {
    if ids == [] then []
    else
      Created(ids[..|ids| - 1], tally) + seq(|Suffixes|, i requires 0 <= i < |Suffixes| => CounterOf(ids[|ids| - 1], Suffixes[i], tally))
  }

  function Tallied(id: int, tally: Tally): Counters {
    Counters(tally(id, SuffixNew).0, tally(id, SuffixIn).0, tally(id, SuffixIn).1, tally(id, SuffixOut).0, tally(id, SuffixOut).1,
             tally(id, SuffixRate).0, tally(id, SuffixConn).0, tally(id, SuffixSource).0)
  }

  lemma {:induction false} CreatedObjects(ids: seq<int>, tally: Tally, o: Object)
    ensures o in Created(ids, tally) <==> exists id, s :: id in ids && s in Suffixes && o == CounterOf(id, s, tally)
  {
    hide CounterOf;
    if ids != [] {
      var init, last := ids[..|ids| - 1], ids[|ids| - 1];
      assert ids == init + [last];
      CreatedObjects(init, tally, o);
      var six := seq(|Suffixes|, i requires 0 <= i < |Suffixes| => CounterOf(last, Suffixes[i], tally));
      if o in six {
        var i :| 0 <= i < |six| && six[i] == o;
        assert Suffixes[i] in Suffixes && last in ids;
      }
      if id, s :| id in ids && s in Suffixes && o == CounterOf(id, s, tally) {
        if id == last {
          var i :| 0 <= i < |Suffixes| && Suffixes[i] == s;
          assert six[i] == o;
        }
      }
    }
  }

  /** The listing shows what the apply created, in any order, and otherwise only names that do not parse. */
  ghost predicate Lists(objs: seq<Object>, ids: seq<int>, tally: Tally) {
    && (forall o :: o in Created(ids, tally) ==> o in objs)
    && (forall o :: o in objs ==> o in Created(ids, tally) || o.OtherObj? || ParseCounterName(o.name).None?)
  }

  predicate Ids(ids: seq<int>) {
    forall i :: 0 <= i < |ids| ==> 0 <= ids[i] <= INT64_MAX
  }

  lemma PermutedLists(objs: seq<Object>, ids: seq<int>, tally: Tally)
    requires multiset(objs) == multiset(Created(ids, tally))
    ensures Lists(objs, ids, tally)
  {
    hide Created;
    SameMultisetSameElements(objs, Created(ids, tally));
  }

  /** Under each name of each mapping the listing reports exactly what was counted there. */
  lemma ReportsItsOwn(objs: seq<Object>, ids: seq<int>, tally: Tally, id: int, suffix: string)
    requires Ids(ids) && Lists(objs, ids, tally) && id in ids && suffix in Suffixes
    ensures LastReading(objs, id, suffix) == tally(id, suffix)
  {
    hide ParseCounterName, Created, CounterName, LastReading;
    var o := CounterOf(id, suffix, tally);
    CreatedObjects(ids, tally, o);
    CounterNameRoundTrip(id, suffix);
    forall q | q in objs && Reports(q, id, suffix) ensures q == o {
      CreatedObjects(ids, tally, q);
      var id', s' :| id' in ids && s' in Suffixes && q == CounterOf(id', s', tally);
      CounterNameRoundTrip(id', s');
    }
    ListingOrderIrrelevant(objs, id, suffix, o);
  }

  lemma MentionsItsOwn(objs: seq<Object>, ids: seq<int>, tally: Tally, id: int)
    requires Ids(ids) && Lists(objs, ids, tally)
    ensures id in Mentioned(objs) <==> id in ids
  {
    hide ParseCounterName, Created, CounterName;
    if id in ids {
      assert SuffixNew in Suffixes;
      var o := CounterOf(id, SuffixNew, tally);
      CreatedObjects(ids, tally, o);
      CounterNameRoundTrip(id, SuffixNew);
      assert o in objs;
    }
    if id in Mentioned(objs) {
      var o :| o in objs && o.CounterObj? && ParseCounterName(o.name).Some? && ParseCounterName(o.name).value.0 == id;
      CreatedObjects(ids, tally, o);
      var id', s' :| id' in ids && s' in Suffixes && o == CounterOf(id', s', tally);
      CounterNameRoundTrip(id', s');
    }
  }

  /** Reading the counters of the mappings an apply created, listed in any order and among any names that do not parse, returns
      exactly these mappings, each with what was counted under its own names. */
  lemma ReadoutOfApplied(objs: seq<Object>, ids: seq<int>, tally: Tally)
    requires Ids(ids) && Lists(objs, ids, tally)
    ensures Readout(objs) == map id | id in SetOf(ids) :: Tallied(id, tally)
  {
    hide Lists, Mentioned, LastReading, CounterName;
    var want := map id | id in SetOf(ids) :: Tallied(id, tally);
    forall id ensures id in Readout(objs) <==> id in want {
      MentionsItsOwn(objs, ids, tally, id);
    }
    assert Readout(objs).Keys == want.Keys;
    forall id | id in want ensures Readout(objs)[id] == want[id] {
      ReportsItsOwn(objs, ids, tally, id, SuffixNew);
      ReportsItsOwn(objs, ids, tally, id, SuffixIn);
      ReportsItsOwn(objs, ids, tally, id, SuffixOut);
      ReportsItsOwn(objs, ids, tally, id, SuffixRate);
      ReportsItsOwn(objs, ids, tally, id, SuffixConn);
      ReportsItsOwn(objs, ids, tally, id, SuffixSource);
    }
  }

  /** Distinct names alone would not do: a name with a leading zero parses too, so with names an apply never creates the order matters. */
  lemma ForeignNamesClash()
    ensures var a, b := CounterObj("m7_new", 1, 0), CounterObj("m07_new", 2, 0);
      a.name != b.name && Readout([a, b]) != Readout([b, a])
  {
    var a, b := CounterObj("m7_new", 1, 0), CounterObj("m07_new", 2, 0);
    SevenParses();
    hide ParseCounterName, Reading;
    LastOfTwo(a, b);
    LastOfTwo(b, a);
  }

  lemma LastOfTwo(a: Object, b: Object)
    requires Reports(a, 7, SuffixNew) && Reports(b, 7, SuffixNew)
    ensures 7 in Readout([a, b]) && Readout([a, b])[7].newConns == b.packets
  {
    hide ParseCounterName;
    assert b in [a, b] && [a, b][1] == b;
    assert LastReading([a, b], 7, SuffixNew) == (b.packets, b.bytes);
  }

  lemma SevenParses()
    ensures ParseCounterName("m7_new") == Some((7, SuffixNew)) && ParseCounterName("m07_new") == Some((7, SuffixNew))
  {
    assert "m7_new"[1..] == "7" + ['_'] + "new" && "m07_new"[1..] == "07" + ['_'] + "new";
    CutOfJoin("7", '_', "new");
    CutOfJoin("07", '_', "new");
    assert "7"[..0] == [] && "07"[..1] == "0" && "0"[..0] == [];
    assert Value("0") == 0 && Value("7") == 7 && Value("07") == 7;
  }
}
