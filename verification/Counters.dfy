/**
 Cumulative counters and their reports (internal/agent/counters.go): kernel counters reset
 on every table replace, so readings are folded into totals; and a report that cannot
 carry every mapping rotates through them.
 */
module Counters {
  import opened Values
  import opened Naming

  const MAX_REPORTED := 2000

  datatype MappingCounter = MappingCounter(cum: Counters, last: Counters)

  datatype Row = Row(mappingId: int, values: Counters)

  // ---- Folding ----

  datatype Field = NewConns | InPackets | InBytes | OutPackets | OutBytes | RateDropped | ConnDropped | PerSourceDropped

  function Get(c: Counters, f: Field): nat {
    match f
    case NewConns => c.newConns
    case InPackets => c.inPackets
    case InBytes => c.inBytes
    case OutPackets => c.outPackets
    case OutBytes => c.outBytes
    case RateDropped => c.rateDropped
    case ConnDropped => c.connDropped
    case PerSourceDropped => c.perSourceDropped
  }

  /** What a reading adds: the growth since the last one, or all of it when the counter went backwards. */
  function Delta(last: nat, k: nat): nat {
    if last <= k then k - last else k
  }

  function FoldOne(mc: MappingCounter, k: Counters): MappingCounter {
    MappingCounter(
      Counters(
        mc.cum.newConns + Delta(mc.last.newConns, k.newConns),
        mc.cum.inPackets + Delta(mc.last.inPackets, k.inPackets),
        mc.cum.inBytes + Delta(mc.last.inBytes, k.inBytes),
        mc.cum.outPackets + Delta(mc.last.outPackets, k.outPackets),
        mc.cum.outBytes + Delta(mc.last.outBytes, k.outBytes),
        mc.cum.rateDropped + Delta(mc.last.rateDropped, k.rateDropped),
        mc.cum.connDropped + Delta(mc.last.connDropped, k.connDropped),
        mc.cum.perSourceDropped + Delta(mc.last.perSourceDropped, k.perSourceDropped)),
      k)
  }

  const Unread := MappingCounter(NoCounters, NoCounters)

  function At(m: map<int, MappingCounter>, id: int): MappingCounter {
    if id in m then m[id] else Unread
  }

  /** The totals after a readout, and after a reset of every baseline. */
  function Folded(m: map<int, MappingCounter>, read: map<int, Counters>): map<int, MappingCounter> {
    map id | id in m.Keys + read.Keys :: if id in read then FoldOne(At(m, id), read[id]) else m[id]
  }

  function Rebaselined(m: map<int, MappingCounter>): map<int, MappingCounter> {
    map id | id in m :: m[id].(last := NoCounters)
  }

  function Pruned(m: map<int, MappingCounter>, keep: set<int>): map<int, MappingCounter> {
    map id | id in m && id in keep :: m[id]
  }

  // ---- Rotation ----

  /** In the circular order that starts at the cursor, `y` comes before `x`. */
  predicate Before(cursor: int, y: int, x: int) {
    if cursor <= x then cursor <= y < x else cursor <= y || y < x
  }

  /** The live ids that a report starting at the cursor carries before `x`. */
  function Ahead(live: set<int>, cursor: int, x: int): set<int> {
    set y | y in live && Before(cursor, y, x)
  }

  /** The ids one report carries. */
  function Reported(live: set<int>, cursor: int, cap: nat): set<int> {
    if |live| <= cap then live else set x | x in live && |Ahead(live, cursor, x)| < cap
  }

  /** Where the next report resumes: at the first id left out, or at the front again. */
  predicate Resumes(live: set<int>, cursor: int, cap: nat, next: int) {
    if |live| <= cap then next == 0 else next in live && |Ahead(live, cursor, next)| == cap
  }

  predicate Ascending(ids: seq<int>) {
    forall i, j :: 0 <= i < j < |ids| ==> ids[i] < ids[j]
  }

  /** Where sort.Search places the cursor. */
  predicate StartsAt(ids: seq<int>, cursor: int, start: nat) {
    && start < |ids|
    && if exists i :: 0 <= i < |ids| && cursor <= ids[i] then
         (forall i :: 0 <= i < start ==> ids[i] < cursor) && cursor <= ids[start]
       else start == 0
  }

  /** The i-th id of the rotated listing. */
  function Rotated(ids: seq<int>, start: nat, i: nat): int
    requires start < |ids| && i < |ids|
  {
    ids[if start + i < |ids| then start + i else start + i - |ids|]
  }

  /** The rotated listing follows the circular order: i ids come before the i-th. */
  lemma RotatedRank(ids: seq<int>, cursor: int, start: nat, i: nat)
    requires Ascending(ids) && StartsAt(ids, cursor, start) && i < |ids|
    ensures |Ahead(SetOf(ids), cursor, Rotated(ids, start, i))| == i
  {
    var x := Rotated(ids, start, i);
    var front := if start + i < |ids| then ids[start..start + i] else ids[start..] + ids[..start + i - |ids|];
    forall y ensures y in front <==> y in SetOf(ids) && Before(cursor, y, x) {
      if y in ids {
        var k :| 0 <= k < |ids| && ids[k] == y;
        RotatedMember(ids, cursor, start, i, k);
      }
    }
    assert Ahead(SetOf(ids), cursor, x) == SetOf(front);
    DistinctCardinality(front);
  }

  lemma RotatedMember(ids: seq<int>, cursor: int, start: nat, i: nat, k: nat)
    requires Ascending(ids) && StartsAt(ids, cursor, start) && i < |ids| && k < |ids|
    ensures var front := if start + i < |ids| then ids[start..start + i] else ids[start..] + ids[..start + i - |ids|];
      ids[k] in front <==> Before(cursor, ids[k], Rotated(ids, start, i))
  {
    var x := Rotated(ids, start, i);
    if start + i < |ids| {
      assert ids[k] in ids[start..start + i] <==> start <= k < start + i by {
        if start <= k < start + i {
          assert ids[start..start + i][k - start] == ids[k];
        }
      }
    } else {
      var j := start + i - |ids|;
      assert ids[k] in ids[start..] <==> start <= k by {
        if start <= k {
          assert ids[start..][k - start] == ids[k];
        }
      }
      assert ids[k] in ids[..j] <==> k < j by {
        if k < j {
          assert ids[..j][k] == ids[k];
        }
      }
    }
  }

  /** The rows of one report: ascending by id, at most the cap, the ids that are next in rotation, each with its total. */
  ghost predicate IsReport(m: map<int, MappingCounter>, cursor: int, rows: seq<Row>) {
    && (forall i, j :: 0 <= i < j < |rows| ==> rows[i].mappingId < rows[j].mappingId)
    && |rows| <= MAX_REPORTED
    && (forall i :: 0 <= i < |rows| ==> rows[i].mappingId in m && rows[i].values == m[rows[i].mappingId].cum)
    && (forall id :: id in Reported(m.Keys, cursor, MAX_REPORTED) <==> exists i :: 0 <= i < |rows| && rows[i].mappingId == id)
  }

  /** Where the rotation goes on after a report. */
  ghost predicate MovesOn(m: map<int, MappingCounter>, cursor: int, next: int) {
    if m == map[] then next == cursor else Resumes(m.Keys, cursor, MAX_REPORTED, next)
  }

  /** Consecutive reports of these totals, each going on where the one before it ended. */
  ghost predicate InRotation(shown: seq<map<int, MappingCounter>>, cursors: seq<int>, rows: seq<seq<Row>>) {
    && |shown| == |rows| && |cursors| == |rows| + 1
    && forall k :: 0 <= k < |rows| ==> IsReport(shown[k], cursors[k], rows[k]) && MovesOn(shown[k], cursors[k], cursors[k + 1])
  }

  // ---- The object ----

  class CounterState {
    var m: map<int, MappingCounter>
    var cursor: int

    constructor ()
      ensures m == map[] && cursor == 0
    {
      m, cursor := map[], 0;
    }

    /** Merges one kernel readout into the totals. */
    method Fold(read: map<int, Counters>)
      modifies this`m
      ensures m == Folded(old(m), read)
    {
      var todo := read.Keys;
      while todo != {}
        invariant todo <= read.Keys
        invariant m.Keys == old(m).Keys + (read.Keys - todo)
        invariant forall id :: id in m ==> m[id] == if id in read && id !in todo then FoldOne(At(old(m), id), read[id]) else old(m)[id]
        decreases todo
      {
        HasElement(todo);
        var id: int :| id in todo;
        var mc := At(m, id);
        m := m[id := FoldOne(mc, read[id])];
        todo := todo - {id};
      }
      assert m.Keys == Folded(old(m), read).Keys;
      assert forall id :: id in m ==> m[id] == Folded(old(m), read)[id];
    }

    /** Zeroes every baseline, after a table replace recreated the counters at zero. */
    method MarkReset()
      modifies this`m
      ensures m == Rebaselined(old(m))
    {
      var todo := m.Keys;
      while todo != {}
        invariant todo <= m.Keys && m.Keys == old(m).Keys
        invariant forall id :: id in m ==> m[id] == if id in todo then old(m)[id] else old(m)[id].(last := NoCounters)
        decreases todo
      {
        HasElement(todo);
        var id: int :| id in todo;
        m := m[id := m[id].(last := NoCounters)];
        todo := todo - {id};
      }
      assert m.Keys == Rebaselined(old(m)).Keys;
      assert forall id :: id in m ==> m[id] == Rebaselined(old(m))[id];
    }

    /** Drops the mappings that are no longer applied. */
    method Prune(keep: set<int>)
      modifies this`m
      ensures m == Pruned(old(m), keep)
    {
      var todo := m.Keys;
      while todo != {}
        invariant m.Keys == old(m).Keys * keep + todo && todo <= old(m).Keys
        invariant forall id :: id in m ==> m[id] == old(m)[id]
        decreases todo
      {
        HasElement(todo);
        var id: int :| id in todo;
        if id !in keep {
          m := m - {id};
        }
        todo := todo - {id};
      }
      assert m.Keys == Pruned(old(m), keep).Keys;
      assert forall id :: id in m ==> m[id] == Pruned(old(m), keep)[id];
    }

    /** One report: ascending, no id twice, at most the cap, and the rotation moves on. */
    method Snapshot() returns (rows: seq<Row>)
      modifies this`cursor
      ensures IsReport(m, old(cursor), rows)
      ensures MovesOn(m, old(cursor), cursor)
    {
      if m == map[] {
        NothingReported(cursor);
        return [];
      }
      var picked, next := Pick(m.Keys, cursor);
      cursor := next;
      hide Reported, Resumes;
      rows := MakeRows(m, picked);
    }
  }

  /** The picked ids in ascending order, each with its total. */
  method MakeRows(m: map<int, MappingCounter>, picked: seq<int>) returns (rows: seq<Row>)
    requires SetOf(picked) <= m.Keys && forall i, j :: 0 <= i < j < |picked| ==> picked[i] != picked[j]
    ensures |rows| == |picked|
    ensures forall i, j :: 0 <= i < j < |rows| ==> rows[i].mappingId < rows[j].mappingId
    ensures forall i :: 0 <= i < |rows| ==> rows[i].mappingId in m && rows[i].values == m[rows[i].mappingId].cum
    ensures forall id :: id in SetOf(picked) <==> exists i :: 0 <= i < |rows| && rows[i].mappingId == id
  {
    var order := SortedIds(SetOf(picked));
    SameElementsSameLength(order, picked);
    assert forall k :: 0 <= k < |order| ==> order[k] in SetOf(order);
    rows := [];
    for i := 0 to |order|
      invariant |rows| == i && forall k :: 0 <= k < i ==> rows[k] == Row(order[k], m[order[k]].cum)
    {
      rows := rows + [Row(order[i], m[order[i]].cum)];
    }
    forall id ensures id in SetOf(picked) <==> exists i :: 0 <= i < |rows| && rows[i].mappingId == id {
      if id in order {
        var k :| 0 <= k < |order| && order[k] == id;
        assert rows[k].mappingId == id;
      }
    }
  }

  lemma NothingReported(cursor: int)
    ensures IsReport(map[], cursor, [])
  {
    assert Reported({}, cursor, MAX_REPORTED) == {};
  }

  /** The ids of the next report, and where the one after it resumes. */
  method Pick(live: set<int>, cursor: int) returns (picked: seq<int>, next: int)
    requires live != {}
    ensures SetOf(picked) == Reported(live, cursor, MAX_REPORTED) <= live && |picked| <= MAX_REPORTED
    ensures forall i, j :: 0 <= i < j < |picked| ==> picked[i] != picked[j]
    ensures Resumes(live, cursor, MAX_REPORTED, next)
  {
    var ids := SortedIds(live);
    DistinctCardinality(ids);
    picked, next := ids, 0;
    if |ids| > MAX_REPORTED {
      var start := FindStart(ids, cursor);
      picked := Window(ids, cursor, start, MAX_REPORTED);
      RotatedRank(ids, cursor, start, MAX_REPORTED);
      next := Rotated(ids, start, MAX_REPORTED);
    }
    hide Ahead;
  }

  lemma SameElementsSameLength(a: seq<int>, b: seq<int>)
    requires Ascending(a) && SetOf(a) == SetOf(b) && forall i, j :: 0 <= i < j < |b| ==> b[i] != b[j]
    ensures |a| == |b|
  {
    DistinctCardinality(a);
    DistinctCardinality(b);
  }

  predicate Le(a: int, b: int) {
    a <= b
  }

  /** The keys of a map, in whatever order the iteration yields them. */
  method ListIds(live: set<int>) returns (list: seq<int>)
    ensures SetOf(list) == live
    ensures forall i, j :: 0 <= i < j < |list| ==> list[i] != list[j]
  {
    var todo := live;
    list := [];
    while todo != {}
      invariant todo <= live && SetOf(list) == live - todo
      invariant forall i, j :: 0 <= i < j < |list| ==> list[i] != list[j]
      decreases todo
    {
      HasElement(todo);
      var id: int :| id in todo;
      assert id !in SetOf(list);
      assert SetOf(list + [id]) == SetOf(list) + {id};
      list, todo := list + [id], todo - {id};
    }
  }

  /** The keys of a map in ascending order. */
  method SortedIds(live: set<int>) returns (ids: seq<int>)
    ensures Ascending(ids) && SetOf(ids) == live
  {
    var list := ListIds(live);
    SortFacts(Le, list);
    ids := Sort(Le, list);
    SortedAscending(ids, list);
    SameMultisetSameElements(ids, list);
    hide SortedBy;
    assert SetOf(ids) == SetOf(list);
  }

  lemma SortedAscending(ids: seq<int>, list: seq<int>)
    requires SortedBy(Le, ids) && multiset(ids) == multiset(list) && forall i, j :: 0 <= i < j < |list| ==> list[i] != list[j]
    ensures Ascending(ids)
  {
    forall i, j | 0 <= i < j < |ids| ensures ids[i] < ids[j] {
      assert Le(ids[i], ids[j]);
      if ids[i] == ids[j] {
        TwiceCountsTwice(ids, i, j);
        OccursAtMostOnce(list, ids[i]);
      }
    }
  }

  lemma TwiceCountsTwice(ids: seq<int>, i: nat, j: nat)
    requires i < j < |ids| && ids[i] == ids[j]
    ensures multiset(ids)[ids[i]] >= 2
  {
    var a, b := ids[..j], ids[j..];
    assert ids == a + b;
    assert a[i] == ids[i] && b[0] == ids[i];
    assert multiset(ids) == multiset(a) + multiset(b);
    assert ids[i] in multiset(a) && ids[i] in multiset(b);
  }

  /** The first id at or after the cursor; none means the front. */
  method FindStart(ids: seq<int>, cursor: int) returns (start: nat)
    requires ids != [] && Ascending(ids)
    ensures StartsAt(ids, cursor, start)
  {
    start := 0;
    while start < |ids| && ids[start] < cursor
      invariant start <= |ids| && forall i :: 0 <= i < start ==> ids[i] < cursor
    {
      start := start + 1;
    }
    if start == |ids| {
      start := 0;
    }
  }

  /** The first `count` ids of the rotated listing are the ones a report carries. */
  method Window(ids: seq<int>, cursor: int, start: nat, count: nat) returns (picked: seq<int>)
    requires Ascending(ids) && StartsAt(ids, cursor, start) && count < |ids|
    ensures |picked| == count && forall i, j :: 0 <= i < j < |picked| ==> picked[i] != picked[j]
    ensures SetOf(picked) == Reported(SetOf(ids), cursor, count)
  {
    DistinctCardinality(ids);
    picked := [];
    for i := 0 to count
      invariant |picked| == i && forall k :: 0 <= k < i ==> picked[k] == Rotated(ids, start, k)
    {
      picked := picked + [Rotated(ids, start, i)];
    }
    WindowIsReport(ids, cursor, start, count, picked);
  }

  lemma WindowIsReport(ids: seq<int>, cursor: int, start: nat, count: nat, picked: seq<int>)
    requires Ascending(ids) && StartsAt(ids, cursor, start) && count < |ids| == |SetOf(ids)|
    requires |picked| == count && forall k :: 0 <= k < count ==> picked[k] == Rotated(ids, start, k)
    ensures SetOf(picked) == Reported(SetOf(ids), cursor, count)
    ensures forall i, j :: 0 <= i < j < |picked| ==> picked[i] != picked[j]
  {
    hide Ahead;
    var live := SetOf(ids);
    forall x ensures x in SetOf(picked) <==> x in Reported(live, cursor, count) {
      if x in picked {
        var k :| 0 <= k < count && picked[k] == x;
        RotatedRank(ids, cursor, start, k);
      }
      if x in live && |Ahead(live, cursor, x)| < count {
        var k :| 0 <= k < |ids| && ids[k] == x;
        var i := if start <= k then k - start else k - start + |ids|;
        assert Rotated(ids, start, i) == x;
        RotatedRank(ids, cursor, start, i);
        assert picked[i] == x;
      }
    }
  }

  // ---- No starvation ----

  /** Skipping a full report brings every id left out exactly one cap closer. */
  lemma RankShift(live: set<int>, cursor: int, next: int, x: int)
    requires x in live && next in live && |Ahead(live, cursor, next)| <= |Ahead(live, cursor, x)|
    ensures |Ahead(live, next, x)| == |Ahead(live, cursor, x)| - |Ahead(live, cursor, next)|
  {
    var a, b, c := Ahead(live, cursor, next), Ahead(live, next, x), Ahead(live, cursor, x);
    SubsetNotLarger(c * a, a);
    assert x in a ==> c * a == c && c != a;
    assert c == a + b && a !! b;
  }

  lemma SubsetNotLarger(s: set<int>, t: set<int>)
    requires s <= t
    ensures |s| <= |t| && (s != t ==> |s| < |t|)
  {
    assert t == s + (t - s);
    if t - s == {} {
      assert s == t;
    }
  }

  /** Consecutive reports: mappings may be pruned in between, none is added. */
  ghost predicate Reports(lives: seq<set<int>>, cursors: seq<int>, cap: nat) {
    && |lives| == |cursors|
    && (forall k :: 0 <= k < |lives| - 1 ==> lives[k + 1] <= lives[k])
    && (forall k :: 0 <= k < |lives| - 1 ==> Resumes(lives[k], cursors[k], cap, cursors[k + 1]))
  }

  lemma {:induction false} RankFalls(lives: seq<set<int>>, cursors: seq<int>, cap: nat, id: int, k: nat)
    requires cap > 0 && Reports(lives, cursors, cap) && k < |lives|
    requires forall j :: 0 <= j < |lives| ==> id in lives[j]
    requires forall j :: 0 <= j < k ==> id !in Reported(lives[j], cursors[j], cap)
    ensures |Ahead(lives[k], cursors[k], id)| + k * cap < |lives[0]|
  {
    if k == 0 {
      assert id !in Ahead(lives[0], cursors[0], id) && id in lives[0];
      SubsetNotLarger(Ahead(lives[0], cursors[0], id), lives[0]);
    } else {
      RankFalls(lives, cursors, cap, id, k - 1);
      var l, c, c' := lives[k - 1], cursors[k - 1], cursors[k];
      assert id in l && id !in Reported(l, c, cap);
      assert lives[k - 1 + 1] <= l && Resumes(l, c, cap, cursors[k - 1 + 1]);
      RankShift(l, c, c', id);
      assert Ahead(lives[k], c', id) <= Ahead(l, c', id);
      SubsetNotLarger(Ahead(lives[k], c', id), Ahead(l, c', id));
      assert k * cap == (k - 1) * cap + cap;
    }
  }

  /** With n live ids every surviving id is carried by one of any ceil(n / cap) consecutive reports,
      even if the cursor's own id was pruned. */
  lemma RotationNeverStarves(lives: seq<set<int>>, cursors: seq<int>, cap: nat, id: int)
    requires cap > 0 && lives != [] && Reports(lives, cursors, cap)
    requires forall j :: 0 <= j < |lives| ==> id in lives[j]
    requires |lives| * cap >= |lives[0]|
    ensures exists k :: 0 <= k < |lives| && id in Reported(lives[k], cursors[k], cap)
  {
    var n := |lives|;
    assert n * cap == (n - 1) * cap + cap;
    assert id in lives[n - 1];
    if forall k :: 0 <= k < n - 1 ==> id !in Reported(lives[k], cursors[k], cap) {
      RankFalls(lives, cursors, cap, id, n - 1);
      assert id in Reported(lives[n - 1], cursors[n - 1], cap);
    }
  }

  // ---- Accounting ----

  /** One counter of one mapping: what the kernel shows, the total and the baseline the agent keeps, what really happened,
      and how much of the kernel value has been folded already. */
  datatype Account = Account(kernel: nat, cum: nat, last: nat, total: nat, counted: nat)

  datatype Event = Traffic(n: nat) | Read | Replaced | Rebased | Dropped

  /** Traffic counts in the kernel; a read folds; a replace (or an outside wipe) restarts the kernel counter at zero;
      MarkReset forgets the baseline; a prune forgets the total too. */
  function Happens(x: Account, e: Event): Account {
    match e
    case Traffic(n) => x.(kernel := x.kernel + n, total := x.total + n)
    case Read => x.(cum := x.cum + Delta(x.last, x.kernel), last := x.kernel, counted := x.kernel)
    case Replaced => x.(kernel := 0, counted := 0)
    case Rebased => x.(last := 0)
    case Dropped => x.(cum := 0, last := 0)
  }

  function AfterAll(x: Account, es: seq<Event>): Account {
    if es == [] then x else Happens(AfterAll(x, es[..|es| - 1]), es[|es| - 1])
  }

  /** A process starts with nothing read, on a kernel counter that may show what an earlier one left. */
  function Opened(left: nat): Account {
    Account(left, 0, 0, left, 0)
  }

  /** What happened, is not reported, and can no longer be read. */
  function Lost(x: Account): int {
    x.total - x.cum - (x.kernel - x.counted)
  }

  /** Baseline and total are only forgotten after a replace, with no read in between. */
  predicate SinceReplace(es: seq<Event>) {
    es != [] && (es[|es| - 1].Replaced? || (!es[|es| - 1].Read? && SinceReplace(es[..|es| - 1])))
  }

  predicate Orderly(es: seq<Event>) {
    forall i :: 0 <= i < |es| && (es[i].Rebased? || es[i].Dropped?) ==> SinceReplace(es[..i])
  }

  predicate Sane(x: Account) {
    x.counted <= x.kernel && (x.last == x.counted || x.counted == 0)
  }

  /** What one event loses: a replace, what nobody has read; a read over a stale baseline, that baseline
      if the counter has climbed past it; a prune, the total. */
  function Loses(x: Account, e: Event): nat
    requires x.counted <= x.kernel
  {
    match e
    case Traffic(_) => 0
    case Read => if x.last != x.counted && x.last <= x.kernel then x.last else 0
    case Replaced => x.kernel - x.counted
    case Rebased => 0
    case Dropped => x.cum
  }

  lemma {:induction false} NothingCountedSinceReplace(left: nat, es: seq<Event>)
    requires SinceReplace(es)
    ensures AfterAll(Opened(left), es).counted == 0
  {
    if !es[|es| - 1].Replaced? {
      NothingCountedSinceReplace(left, es[..|es| - 1]);
    }
  }

  lemma EventLoses(x: Account, e: Event)
    requires Sane(x) && (e.Rebased? || e.Dropped? ==> x.counted == 0)
    ensures Sane(Happens(x, e)) && Lost(Happens(x, e)) == Lost(x) + Loses(x, e)
  {
  }

  /** The sum of what the events of a run lose. */
  ghost function AllLosses(left: nat, es: seq<Event>): nat {
    if es == [] then 0
    else
      var x := AfterAll(Opened(left), es[..|es| - 1]);
      AllLosses(left, es[..|es| - 1]) + if x.counted <= x.kernel then Loses(x, es[|es| - 1]) else 0
  }

  /** Every run, with failed reads, wipes, prunes and commits reported as failures: a report never exceeds what happened, and it falls
      short by exactly the unread kernel value and the losses of the single events. */
  lemma {:induction false} AccountsBalance(left: nat, es: seq<Event>)
    requires Orderly(es)
    ensures var x := AfterAll(Opened(left), es);
      Sane(x) && Lost(x) == AllLosses(left, es) && x.cum + (x.kernel - x.counted) + AllLosses(left, es) == x.total && x.cum <= x.total
  {
    assert Sane(Opened(left));
    hide Happens, Orderly, Loses, Sane;
    if es != [] {
      var init, e := es[..|es| - 1], es[|es| - 1];
      OrderlyPrefix(es);
      AccountsBalance(left, init);
      if e.Rebased? || e.Dropped? {
        NothingCountedSinceReplace(left, init);
      }
      EventLoses(AfterAll(Opened(left), init), e);
      SaneCounted(AfterAll(Opened(left), init));
    }
    SaneCounted(AfterAll(Opened(left), es));
  }

  lemma SaneCounted(x: Account)
    requires Sane(x)
    ensures x.counted <= x.kernel
  {
  }

  lemma OrderlyPrefix(es: seq<Event>)
    requires Orderly(es) && es != []
    ensures Orderly(es[..|es| - 1]) && (es[|es| - 1].Rebased? || es[|es| - 1].Dropped? ==> SinceReplace(es[..|es| - 1]))
  {
    hide SinceReplace;
    var init := es[..|es| - 1];
    forall i | 0 <= i < |init| && (init[i].Rebased? || init[i].Dropped?) ensures SinceReplace(init[..i]) {
      assert init[..i] == es[..i];
    }
  }

  /** Reported values never decrease while the mapping is not pruned. */
  lemma {:induction false} TotalsNeverDecrease(x: Account, es: seq<Event>)
    requires forall i :: 0 <= i < |es| ==> !es[i].Dropped?
    ensures x.cum <= AfterAll(x, es).cum
  {
    if es != [] {
      TotalsNeverDecrease(x, es[..|es| - 1]);
    }
  }

  // ---- Runs without failures ----

  /** What the agent does when nothing fails: traffic, reads, and replaces, which fold, commit and reset; traffic goes on between the
      fold and the commit (`missed`) and between the commit and the reset (`early`). */
  datatype CleanEvent = Flowing(n: nat) | Polling | Replacing(missed: nat, early: nat)

  function Steps(e: CleanEvent): seq<Event> {
    match e
    case Flowing(n) => [Traffic(n)]
    case Polling => [Read]
    case Replacing(missed, early) => [Read, Traffic(missed), Replaced, Traffic(early), Rebased]
  }

  function Expand(es: seq<CleanEvent>): seq<Event> {
    if es == [] then [] else Expand(es[..|es| - 1]) + Steps(es[|es| - 1])
  }

  /** The traffic between fold and commit, over all replaces. */
  function Missed(es: seq<CleanEvent>): nat {
    if es == [] then 0
    else Missed(es[..|es| - 1]) + if es[|es| - 1].Replacing? then es[|es| - 1].missed else 0
  }

  lemma {:induction false} AfterConcat(x: Account, a: seq<Event>, b: seq<Event>)
    ensures AfterAll(x, a + b) == AfterAll(AfterAll(x, a), b)
    decreases |b|
  {
    hide Happens;
    if b == [] {
      assert a + b == a;
    } else {
      assert (a + b)[..|a + b| - 1] == a + b[..|b| - 1];
      AfterConcat(x, a, b[..|b| - 1]);
    }
  }

  /** Totals and the next reading, `missed` apart, make up everything that happened. */
  predicate ExactUpTo(x: Account, missed: nat) {
    x.last == x.counted <= x.kernel && x.cum + Delta(x.last, x.kernel) + missed == x.total
  }

  lemma CleanStep(x: Account, e: CleanEvent, missed: nat)
    requires ExactUpTo(x, missed)
    ensures ExactUpTo(AfterAll(x, Steps(e)), missed + if e.Replacing? then e.missed else 0)
  {
    match e {
      case Flowing(n) =>
        AfterOne(x, [], Traffic(n));
      case Polling =>
        AfterOne(x, [], Read);
      case Replacing(a, b) =>
        AfterOne(x, [], Read);
        AfterOne(x, [Read], Traffic(a));
        AfterOne(x, [Read] + [Traffic(a)], Replaced);
        AfterOne(x, [Read] + [Traffic(a)] + [Replaced], Traffic(b));
        AfterOne(x, [Read] + [Traffic(a)] + [Replaced] + [Traffic(b)], Rebased);
        assert Steps(e) == [Read] + [Traffic(a)] + [Replaced] + [Traffic(b)] + [Rebased];
        hide AfterAll;
    }
  }

  lemma AfterOne(x: Account, es: seq<Event>, e: Event)
    ensures AfterAll(x, es + [e]) == Happens(AfterAll(x, es), e)
    ensures es == [] ==> es + [e] == [e]
  {
    hide Happens;
    assert (es + [e])[..|es|] == es;
  }

  /** When nothing fails, exactly the traffic between fold and commit of the replaces is lost, and nothing else; so the
      totals and the next reading make up everything if and only if no such traffic happened. */
  lemma {:induction false} CleanRunsLoseOnlyTheGap(left: nat, es: seq<CleanEvent>)
    ensures var x := AfterAll(Opened(left), Expand(es));
      && ExactUpTo(x, Missed(es)) && Lost(x) == Missed(es)
      && (x.cum + Delta(x.last, x.kernel) == x.total <==> forall i :: 0 <= i < |es| && es[i].Replacing? ==> es[i].missed == 0)
  {
    NothingMissed(es);
    if es != [] {
      var init, e := es[..|es| - 1], es[|es| - 1];
      CleanRunsLoseOnlyTheGap(left, init);
      AfterConcat(Opened(left), Expand(init), Steps(e));
      CleanStep(AfterAll(Opened(left), Expand(init)), e, Missed(init));
    }
  }

  lemma {:induction false} NothingMissed(es: seq<CleanEvent>)
    ensures Missed(es) == 0 <==> forall i :: 0 <= i < |es| && es[i].Replacing? ==> es[i].missed == 0
  {
    if es != [] {
      var init := es[..|es| - 1];
      NothingMissed(init);
      assert forall i :: 0 <= i < |init| ==> init[i] == es[i];
    }
  }

  // ---- The object follows the accounts ----

  /** What happens in the kernel: one counter of one mapping grows, or a replace or wipe restarts all of them. */
  datatype Outside = Counted(id: int, f: Field, n: nat) | Restarted

  /** What happens to the counter object and to the kernel counters. */
  datatype Operation =
    | Fold(read: map<int, Counters>)
    | Reset
    | Prune(keep: set<int>)
    | Kernel(o: Outside)

  function Operate(m: map<int, MappingCounter>, op: Operation): map<int, MappingCounter> {
    match op
    case Fold(read) => Folded(m, read)
    case Reset => Rebaselined(m)
    case Prune(keep) => Pruned(m, keep)
    case Kernel(_) => m
  }

  /** The account of one field of one mapping agrees with the object. */
  predicate Tallies(m: map<int, MappingCounter>, id: int, f: Field, x: Account) {
    Get(At(m, id).cum, f) == x.cum && Get(At(m, id).last, f) == x.last
  }

  /** What an operation means for that account: a readout without the mapping, a prune that keeps it and the counting of another counter
      do not concern it. */
  function Concerns(op: Operation, id: int, f: Field): seq<Event> {
    match op
    case Fold(read) => if id in read then [Read] else []
    case Reset => [Rebased]
    case Prune(keep) => if id in keep then [] else [Dropped]
    case Kernel(Counted(i, g, n)) => if i == id && g == f then [Traffic(n)] else []
    case Kernel(Restarted) => [Replaced]
  }

  function Project(ops: seq<Operation>, id: int, f: Field): seq<Event> {
    if ops == [] then [] else Project(ops[..|ops| - 1], id, f) + Concerns(ops[|ops| - 1], id, f)
  }

  lemma {:induction false} ProjectConcat(a: seq<Operation>, b: seq<Operation>, id: int, f: Field)
    ensures Project(a + b, id, f) == Project(a, id, f) + Project(b, id, f)
    decreases |b|
  {
    hide Concerns;
    if b == [] {
      assert a + b == a;
    } else {
      assert (a + b)[..|a + b| - 1] == a + b[..|b| - 1];
      ProjectConcat(a, b[..|b| - 1], id, f);
    }
  }

  function OperateAll(m: map<int, MappingCounter>, ops: seq<Operation>): map<int, MappingCounter> {
    if ops == [] then m else Operate(OperateAll(m, ops[..|ops| - 1]), ops[|ops| - 1])
  }

  lemma {:induction false} OperateConcat(m: map<int, MappingCounter>, a: seq<Operation>, b: seq<Operation>)
    ensures OperateAll(m, a + b) == OperateAll(OperateAll(m, a), b)
    decreases |b|
  {
    hide Operate;
    if b == [] {
      assert a + b == a;
    } else {
      assert (a + b)[..|a + b| - 1] == a + b[..|b| - 1];
      OperateConcat(m, a, b[..|b| - 1]);
    }
  }

  /** All that ever counted for this field of this mapping. */
  function Happened(ops: seq<Operation>, id: int, f: Field): nat {
    if ops == [] then 0
    else
      var op := ops[|ops| - 1];
      Happened(ops[..|ops| - 1], id, f) + if op.Kernel? && op.o.Counted? && op.o.id == id && op.o.f == f then op.o.n else 0
  }

  /** Every readout shows, for this field of this mapping, what its account says the kernel shows. */
  ghost predicate ReadsKernel(left: nat, ops: seq<Operation>, id: int, f: Field) {
    forall i :: 0 <= i < |ops| && ops[i].Fold? && id in ops[i].read ==>
      Get(ops[i].read[id], f) == AfterAll(Opened(left), Project(ops[..i], id, f)).kernel
  }

  lemma FoldOneTallies(mc: MappingCounter, k: Counters, f: Field)
    ensures Get(FoldOne(mc, k).cum, f) == Get(mc.cum, f) + Delta(Get(mc.last, f), Get(k, f)) && Get(FoldOne(mc, k).last, f) == Get(k, f)
  {
  }

  lemma NothingRead(f: Field)
    ensures Get(NoCounters, f) == 0
  {
  }

  lemma OperationTallies(m: map<int, MappingCounter>, op: Operation, id: int, f: Field, x: Account)
    requires Tallies(m, id, f, x) && (op.Fold? && id in op.read ==> Get(op.read[id], f) == x.kernel)
    ensures Tallies(Operate(m, op), id, f, AfterAll(x, Concerns(op, id, f)))
  {
    NothingRead(f);
    hide Get, FoldOne, Delta, AfterAll;
    OneEvent(x, op, id, f);
    if op.Fold? && id in op.read {
      FoldOneTallies(At(m, id), op.read[id], f);
    }
  }

  lemma OneEvent(x: Account, op: Operation, id: int, f: Field)
    ensures var es := Concerns(op, id, f); |es| <= 1 && AfterAll(x, es) == if es == [] then x else Happens(x, es[0])
  {
    hide Happens;
    var es := Concerns(op, id, f);
    if es != [] {
      AfterOne(x, [], es[0]);
      assert es == [es[0]];
    }
  }

  /** For every field of every mapping, the object's totals over any sequence of folds, resets, prunes, replaces and traffic
      are those of its account, which knows exactly what happened; so all that is proved of accounts is true of the object. */
  lemma {:induction false} ObjectFollowsAccounts(left: nat, ops: seq<Operation>, id: int, f: Field)
    requires ReadsKernel(left, ops, id, f)
    ensures var x := AfterAll(Opened(left), Project(ops, id, f));
      Tallies(OperateAll(map[], ops), id, f, x) && x.total == left + Happened(ops, id, f)
  {
    hide Operate, Happens, Tallies;
    if ops != [] {
      var init, op := ops[..|ops| - 1], ops[|ops| - 1];
      ReadsPrefix(left, ops, id, f);
      ObjectFollowsAccounts(left, init, id, f);
      var x := AfterAll(Opened(left), Project(init, id, f));
      AfterConcat(Opened(left), Project(init, id, f), Concerns(op, id, f));
      OperationTallies(OperateAll(map[], init), op, id, f, x);
      OperationTotal(x, op, id, f);
    } else {
      NothingTallied(left, id, f);
    }
  }

  lemma NothingTallied(left: nat, id: int, f: Field)
    ensures Tallies(map[], id, f, Opened(left))
  {
  }

  lemma OperationTotal(x: Account, op: Operation, id: int, f: Field)
    ensures AfterAll(x, Concerns(op, id, f)).total ==
      x.total + if op.Kernel? && op.o.Counted? && op.o.id == id && op.o.f == f then op.o.n else 0
  {
    hide AfterAll;
    OneEvent(x, op, id, f);
  }

  lemma ReadsPrefix(left: nat, ops: seq<Operation>, id: int, f: Field)
    requires ReadsKernel(left, ops, id, f) && ops != []
    ensures ReadsKernel(left, ops[..|ops| - 1], id, f)
    ensures var op := ops[|ops| - 1];
      op.Fold? && id in op.read ==> Get(op.read[id], f) == AfterAll(Opened(left), Project(ops[..|ops| - 1], id, f)).kernel
  {
    hide AfterAll, Project;
    var init := ops[..|ops| - 1];
    forall i | 0 <= i < |init| && init[i].Fold? && id in init[i].read
      ensures Get(init[i].read[id], f) == AfterAll(Opened(left), Project(init[..i], id, f)).kernel
    {
      assert init[..i] == ops[..i];
    }
  }
}
