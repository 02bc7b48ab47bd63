/**
 Value types shared by every component: machine words, optional values, and the
 few facts about sequences (sorting, filtering, maxima) the other modules rest on.
 */
module Values {

  type u16 = x: nat | x < 0x1_0000
  type u32 = x: nat | x < 0x1_0000_0000

  datatype Option<+T> = None | Some(value: T)

  datatype Result<+T, +E> = Ok(value: T) | Err(error: E)

  /** A SHA-256 digest in hexadecimal (section 6.2 of FIPS 180-4), treated as a
      perfect hash: a digest stands for what was hashed.  `Literal` is any other text. */
  datatype Digest<+P> = Sha256(preimage: P) | Literal(text: string) {
    function Length(): nat {
      if Sha256? then 64 else |text|
    }
  }

  function Max(a: int, b: int): int {
    if a < b then b else a
  }

  function SetOf<T>(s: seq<T>): set<T> {
    set x | x in s
  }

  lemma HasElement(s: set<int>)
    ensures s == {} || exists x :: x in s
  {
    if forall x :: x !in s {
      assert s == {};
    }
  }

  // ---- Distinct keys ----

  /** Sequences without repeated elements that hold the same elements are permutations of each other. */
  lemma {:induction false} SameElementsSameMultiset<T>(s: seq<T>, t: seq<T>)
    requires forall i, j :: 0 <= i < j < |s| ==> s[i] != s[j]
    requires forall i, j :: 0 <= i < j < |t| ==> t[i] != t[j]
    requires forall x :: x in s <==> x in t
    ensures multiset(s) == multiset(t)
  {
    forall x ensures multiset(s)[x] == multiset(t)[x] {
      OccursAtMostOnce(s, x);
      OccursAtMostOnce(t, x);
    }
  }

  lemma {:induction false} OccursAtMostOnce<T>(s: seq<T>, x: T)
    requires forall i, j :: 0 <= i < j < |s| ==> s[i] != s[j]
    ensures multiset(s)[x] == if x in s then 1 else 0
  {
    if s != [] {
      assert s == [s[0]] + s[1..];
      OccursAtMostOnce(s[1..], x);
    }
  }

  lemma SameMultisetSameElements<T>(s: seq<T>, t: seq<T>)
    requires multiset(s) == multiset(t)
    ensures |s| == |t| && forall x :: x in s <==> x in t
  {
    assert |multiset(s)| == |multiset(t)|;
    forall x ensures x in s <==> x in t {
      assert x in multiset(s) <==> x in multiset(t);
    }
  }

  lemma {:induction false} DistinctCardinality<T>(s: seq<T>)
    requires forall i, j :: 0 <= i < j < |s| ==> s[i] != s[j]
    ensures |SetOf(s)| == |s|
  {
    if s != [] {
      var init, last := s[..|s| - 1], s[|s| - 1];
      DistinctCardinality(init);
      assert SetOf(s) == SetOf(init) + {last};
    }
  }

  // ---- Sorting ----

  ghost predicate TotalPreorder<T(!new)>(le: (T, T) -> bool) {
    && (forall a, b :: le(a, b) || le(b, a))
    && (forall a, b, c :: le(a, b) && le(b, c) ==> le(a, c))
  }

  ghost predicate SortedBy<T>(le: (T, T) -> bool, s: seq<T>) {
    forall i, j :: 0 <= i < j < |s| ==> le(s[i], s[j])
  }

  function Insert<T>(le: (T, T) -> bool, x: T, s: seq<T>): seq<T> {
    if s == [] then [x] else if le(x, s[0]) then [x] + s else [s[0]] + Insert(le, x, s[1..])
  }

  /** Stands for the library sort. */
  function Sort<T>(le: (T, T) -> bool, s: seq<T>): seq<T> {
    if s == [] then [] else Insert(le, s[0], Sort(le, s[1..]))
  }

  lemma {:induction false} InsertKeepsElements<T>(le: (T, T) -> bool, x: T, s: seq<T>)
    ensures multiset(Insert(le, x, s)) == multiset(s) + multiset{x}
  {
    if s != [] {
      assert s == [s[0]] + s[1..];
      InsertKeepsElements(le, x, s[1..]);
    }
  }

  lemma {:induction false} InsertKeepsOrder<T(!new)>(le: (T, T) -> bool, x: T, s: seq<T>)
    requires TotalPreorder(le) && SortedBy(le, s)
    ensures SortedBy(le, Insert(le, x, s))
  {
    if s != [] && !le(x, s[0]) {
      var rest := Insert(le, x, s[1..]);
      InsertKeepsOrder(le, x, s[1..]);
      InsertKeepsElements(le, x, s[1..]);
      hide Insert;
      forall k | 0 <= k < |rest| ensures le(s[0], rest[k]) {
        assert rest[k] in multiset(rest);
        assert rest[k] == x || rest[k] in s[1..];
      }
    }
  }

  /** Sorted, and a permutation of the input. */
  lemma {:induction false} SortFacts<T(!new)>(le: (T, T) -> bool, s: seq<T>)
    requires TotalPreorder(le)
    ensures SortedBy(le, Sort(le, s)) && multiset(Sort(le, s)) == multiset(s)
  {
    hide TotalPreorder, SortedBy, Insert;
    if s == [] {
      EmptySorted(le);
    } else {
      assert s == [s[0]] + s[1..];
      SortFacts(le, s[1..]);
      InsertKeepsOrder(le, s[0], Sort(le, s[1..]));
      InsertKeepsElements(le, s[0], Sort(le, s[1..]));
    }
  }

  lemma EmptySorted<T>(le: (T, T) -> bool)
    ensures SortedBy(le, [])
  {
  }

  /** When no two distinct elements tie, there is only one sorted permutation. */
  lemma {:induction false} SortedIsUnique<T(!new)>(le: (T, T) -> bool, s: seq<T>, t: seq<T>)
    requires SortedBy(le, s) && SortedBy(le, t) && multiset(s) == multiset(t)
    requires forall a, b :: a in s && b in s && le(a, b) && le(b, a) ==> a == b
    ensures s == t
  {
    SameMultisetSameElements(s, t);
    if s != [] {
      SameLeast(le, s, t);
      TailFacts(le, s);
      TailFacts(le, t);
      SortedIsUnique(le, s[1..], t[1..]);
    }
  }

  lemma TailFacts<T(!new)>(le: (T, T) -> bool, s: seq<T>)
    requires SortedBy(le, s) && s != []
    ensures SortedBy(le, s[1..]) && s == [s[0]] + s[1..]
    ensures multiset(s[1..]) == multiset(s) - multiset{s[0]}
    ensures forall a :: a in s[1..] ==> a in s
  {
    var u := s[1..];
    assert s == [s[0]] + u;
  }

  lemma SameLeast<T(!new)>(le: (T, T) -> bool, s: seq<T>, t: seq<T>)
    requires SortedBy(le, s) && SortedBy(le, t) && s != [] && t != []
    requires s[0] in t && t[0] in s
    requires forall a, b :: a in s && b in s && le(a, b) && le(b, a) ==> a == b
    ensures s[0] == t[0]
  {
    var i :| 0 <= i < |s| && s[i] == t[0];
    var j :| 0 <= j < |t| && t[j] == s[0];
    assert i != 0 && j != 0 ==> le(s[0], s[i]) && le(t[0], t[j]);
  }
}
