/** Go strings: their byte order, sorting, and writing one after the other. */
module ByteStrings {
  import opened Domain

  /** Byte-wise lexicographic order. */
  predicate Leq(a: Bytes, b: Bytes) {
    a == [] || (b != [] && (a[0] < b[0] || (a[0] == b[0] && Leq(a[1..], b[1..]))))
  }

  /** One string is a prefix of the other, or the first byte that differs decides. */
  lemma {:induction false} LeqByFirstDifference(a: Bytes, b: Bytes)
    ensures Leq(a, b) <==>
      (|a| <= |b| && b[..|a|] == a) || exists i :: 0 <= i < |a| && i < |b| && a[..i] == b[..i] && a[i] < b[i]
  {
    if a != [] && b != [] {
      var a', b' := a[1..], b[1..];
      assert a == [a[0]] + a' && b == [b[0]] + b';
      LeqByFirstDifference(a', b');
      if a[0] < b[0] {
        assert a[..0] == b[..0];
      } else if a[0] == b[0] {
        if |a'| <= |b'| && b'[..|a'|] == a' { assert b[..|a|] == a; }
        if i :| 0 <= i < |a'| && i < |b'| && a'[..i] == b'[..i] && a'[i] < b'[i] {
          assert a[..i + 1] == [a[0]] + a'[..i] && b[..i + 1] == [b[0]] + b'[..i];
          assert a[i + 1] < b[i + 1];
        }
        if |a| <= |b| && b[..|a|] == a { assert b'[..|a'|] == a'; }
        if i :| 0 <= i < |a| && i < |b| && a[..i] == b[..i] && a[i] < b[i] {
          assert a[..i][1..] == a'[..i - 1] && b[..i][1..] == b'[..i - 1];
          assert a'[i - 1] < b'[i - 1];
        }
      }
    }
  }

  lemma {:induction false} LeqTotal(a: Bytes, b: Bytes)
    ensures Leq(a, b) || Leq(b, a)
  {
    if a != [] && b != [] { LeqTotal(a[1..], b[1..]); }
  }

  lemma {:induction false} LeqTransitive(a: Bytes, b: Bytes, c: Bytes)
    requires Leq(a, b) && Leq(b, c)
    ensures Leq(a, c)
  {
    if a != [] && a[0] == b[0] && b[0] == c[0] { LeqTransitive(a[1..], b[1..], c[1..]); }
  }

  lemma {:induction false} LeqAntisymmetric(a: Bytes, b: Bytes)
    requires Leq(a, b) && Leq(b, a)
    ensures a == b
  {
    if a != [] {
      LeqAntisymmetric(a[1..], b[1..]);
      assert a == [a[0]] + a[1..] && b == [b[0]] + b[1..];
    }
  }

  predicate Sorted(s: seq<Bytes>) {
    forall i, j :: 0 <= i < j < |s| ==> Leq(s[i], s[j])
  }

  function Insert(x: Bytes, s: seq<Bytes>): (r: seq<Bytes>)
    ensures multiset(r) == multiset(s) + multiset{x}
  {
    if s == [] then [x]
    else if Leq(x, s[0]) then [x] + s
    else
      assert s == [s[0]] + s[1..];
      [s[0]] + Insert(x, s[1..])
  }

  /** The sorted arrangement of a list. */
  function Sort(s: seq<Bytes>): (r: seq<Bytes>)
    ensures multiset(r) == multiset(s)
    ensures |r| == |s|
  {
    if s == [] then []
    else
      assert s == [s[0]] + s[1..];
      var r := Insert(s[0], Sort(s[1..]));
      assert |r| == |multiset(r)| == |multiset(s)| == |s|;
      r
  }

  lemma {:induction false} InsertKeepsSorted(x: Bytes, s: seq<Bytes>)
    requires Sorted(s)
    ensures Sorted(Insert(x, s))
  {
    if s == [] {
    } else if Leq(x, s[0]) {
      forall j | 0 <= j < |s| ensures Leq(x, s[j]) {
        if j > 0 { LeqTransitive(x, s[0], s[j]); }
      }
    } else {
      LeqTotal(x, s[0]);
      InsertKeepsSorted(x, s[1..]);
      var r := Insert(x, s[1..]);
      forall j | 0 <= j < |r| ensures Leq(s[0], r[j]) {
        assert r[j] in multiset(r);
        assert r[j] in multiset(s[1..]) + multiset{x};
      }
    }
  }

  lemma {:induction false} SortSorts(s: seq<Bytes>)
    ensures Sorted(Sort(s))
  {
    if s != [] {
      SortSorts(s[1..]);
      InsertKeepsSorted(s[0], Sort(s[1..]));
    }
  }

  /** A multiset has one sorted arrangement. */
  lemma {:induction false} SortedIsUnique(s: seq<Bytes>, t: seq<Bytes>)
    requires Sorted(s) && Sorted(t) && multiset(s) == multiset(t)
    ensures s == t
  {
    hide Leq;
    if s == [] {
      NonemptyHasElements(t);
    } else {
      assert s[0] in multiset(t);
      HeadsAgree(s, t);
      assert s == [s[0]] + s[1..] && t == [t[0]] + t[1..];
      assert multiset(s[1..]) == multiset(s) - multiset{s[0]};
      assert multiset(t[1..]) == multiset(t) - multiset{t[0]};
      hide Sorted;
      TailSorted(s);
      TailSorted(t);
      SortedIsUnique(s[1..], t[1..]);
    }
  }

  lemma NonemptyHasElements(t: seq<Bytes>)
    ensures t != [] ==> multiset(t) != multiset{}
  {
    if t != [] { assert t[0] in multiset(t); }
  }

  lemma TailSorted(s: seq<Bytes>)
    requires s != [] && Sorted(s)
    ensures Sorted(s[1..])
  {}

  lemma HeadsAgree(s: seq<Bytes>, t: seq<Bytes>)
    requires s != [] && t != [] && Sorted(s) && Sorted(t) && multiset(s) == multiset(t)
    ensures s[0] == t[0]
  {
    hide Leq, Sorted;
    assert s[0] in multiset(s) && t[0] in multiset(t);
    HeadIsLeast(s, t[0]);
    HeadIsLeast(t, s[0]);
    LeqAntisymmetric(s[0], t[0]);
  }

  lemma HeadIsLeast(s: seq<Bytes>, x: Bytes)
    requires Sorted(s) && x in multiset(s)
    ensures Leq(s[0], x)
  {
    var i :| 0 <= i < |s| && s[i] == x;
    LeqTotal(x, x);
  }

  /** Sorting forgets the order, and nothing else. */
  lemma SortIsCanonical(s: seq<Bytes>, t: seq<Bytes>)
    ensures Sort(s) == Sort(t) <==> multiset(s) == multiset(t)
  {
    SortSorts(s);
    SortSorts(t);
    if multiset(s) == multiset(t) { SortedIsUnique(Sort(s), Sort(t)); }
  }

  function Concat(s: seq<Bytes>): Bytes {
    if s == [] then [] else Concat(s[..|s| - 1]) + s[|s| - 1]
  }

  /** Strings are written in their order, one behind the other. */
  lemma {:induction false} ConcatInOrder(s: seq<Bytes>, x: Bytes, t: seq<Bytes>)
    ensures Concat(s + [x] + t) == Concat(s) + x + Concat(t)
  {
    var all := s + [x] + t;
    if t == [] {
      assert all[..|all| - 1] == s;
    } else {
      assert all[..|all| - 1] == s + [x] + t[..|t| - 1];
      ConcatInOrder(s, x, t[..|t| - 1]);
    }
  }

  /** With strings of one non-zero length, nothing is lost by writing no separators. */
  lemma {:induction false} ConcatDetermines(s: seq<Bytes>, t: seq<Bytes>, len: nat)
    requires len > 0
    requires forall x :: x in s || x in t ==> |x| == len
    requires Concat(s) == Concat(t)
    ensures s == t
  {
    if s != [] && t != [] {
      var s', t', x, y := s[..|s| - 1], t[..|t| - 1], s[|s| - 1], t[|t| - 1];
      assert x in s && y in t && s == s' + [x] && t == t' + [y];
      assert Concat(s) == Concat(s') + x && Concat(t) == Concat(t') + y;
      assert Concat(s)[..|Concat(s')|] == Concat(s') && Concat(s)[|Concat(s')|..] == x;
      assert Concat(t)[..|Concat(t')|] == Concat(t') && Concat(t)[|Concat(t')|..] == y;
      ConcatDetermines(s', t', len);
    } else {
      ConcatNonempty(s, len);
      ConcatNonempty(t, len);
    }
  }

  lemma ConcatNonempty(s: seq<Bytes>, len: nat)
    requires len > 0 && forall x :: x in s ==> |x| == len
    ensures s != [] ==> Concat(s) != []
  {
    if s != [] { assert s[|s| - 1] in s; }
  }
}
