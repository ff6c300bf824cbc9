/**
 * The hash manager. The digest is represented by the bytes fed to it, so two results are equal
 * here exactly when the streams are.
 */
module Hash {
  import opened Domain
  import opened ByteStrings
  import opened LittleEndian

  /** Whether the manager had a hash to write to. */
  datatype Outcome = Added | HashNil

  /** The bytes AddArray writes for a list. */
  function ArrayStream(s: seq<Bytes>): Bytes {
    Concat(Sort(s))
  }

  /** The list's order never shows in its stream. */
  lemma ArrayStreamIgnoresOrder(s: seq<Bytes>, t: seq<Bytes>)
    requires multiset(s) == multiset(t)
    ensures ArrayStream(s) == ArrayStream(t)
  {
    SortIsCanonical(s, t);
  }

  /** For non-empty strings of one length the stream determines the multiset. */
  lemma ArrayStreamDetermines(s: seq<Bytes>, t: seq<Bytes>, len: nat)
    requires len > 0 && forall x :: x in s || x in t ==> |x| == len
    ensures ArrayStream(s) == ArrayStream(t) <==> multiset(s) == multiset(t)
  {
    SortIsCanonical(s, t);
    forall x | x in Sort(s) ensures x in s {
      assert x in multiset(Sort(s));
    }
    forall x | x in Sort(t) ensures x in t {
      assert x in multiset(Sort(t));
    }
    if ArrayStream(s) == ArrayStream(t) { ConcatDetermines(Sort(s), Sort(t), len); }
  }

  ghost predicate Enumerates(keys: seq<Bytes>, s: set<Bytes>) {
    && (forall k :: k in keys <==> k in s)
    && (forall i, j :: 0 <= i < j < |keys| ==> keys[i] != keys[j])
  }

  function ValuesOf(m: map<Bytes, Bytes>, keys: seq<Bytes>): (values: seq<Bytes>)
    requires KeysIn(keys, m)
    ensures |values| == |keys| && forall i :: 0 <= i < |keys| ==> values[i] == m[keys[i]]
  {
    seq(|keys|, i requires 0 <= i < |keys| => m[keys[i]])
  }

  /** The bytes AddMap writes, given any listing of the keys: the keys in order, then their values. */
  ghost function MapStream(m: map<Bytes, Bytes>, keys: seq<Bytes>): Bytes
    requires Enumerates(keys, m.Keys)
  {
    SortedKeysIn(m, keys, Sort(keys));
    Concat(Sort(keys)) + Concat(ValuesOf(m, Sort(keys)))
  }

  ghost predicate KeysIn(keys: seq<Bytes>, m: map<Bytes, Bytes>) {
    forall i :: 0 <= i < |keys| ==> keys[i] in m
  }

  lemma SortedKeysIn(m: map<Bytes, Bytes>, keys: seq<Bytes>, sorted: seq<Bytes>)
    requires Enumerates(keys, m.Keys) && sorted == Sort(keys)
    ensures KeysIn(sorted, m)
  {
    forall i | 0 <= i < |sorted| ensures sorted[i] in m {
      assert sorted[i] in multiset(sorted);
    }
  }

  lemma MapStreamIs(m: map<Bytes, Bytes>, listed: seq<Bytes>, keys: seq<Bytes>, values: seq<Bytes>)
    requires Enumerates(listed, m.Keys) && keys == Sort(listed) && KeysIn(keys, m)
    requires |values| == |keys| && forall i :: 0 <= i < |keys| ==> values[i] == m[keys[i]]
    ensures MapStream(m, listed) == Concat(keys) + Concat(values)
  {
    assert values == ValuesOf(m, keys);
  }

  lemma {:induction false} CountsOnce(keys: seq<Bytes>, k: Bytes)
    requires forall i, j :: 0 <= i < j < |keys| ==> keys[i] != keys[j]
    ensures multiset(keys)[k] == if k in keys then 1 else 0
  {
    if keys != [] {
      assert keys == [keys[0]] + keys[1..];
      CountsOnce(keys[1..], k);
    }
  }

  /** However a map is iterated, the same bytes are written. */
  lemma MapStreamIgnoresOrder(m: map<Bytes, Bytes>, ks: seq<Bytes>, ls: seq<Bytes>)
    requires Enumerates(ks, m.Keys) && Enumerates(ls, m.Keys)
    ensures MapStream(m, ks) == MapStream(m, ls)
  {
    forall k ensures multiset(ks)[k] == multiset(ls)[k] {
      CountsOnce(ks, k);
      CountsOnce(ls, k);
    }
    assert multiset(ks) == multiset(ls);
    SortIsCanonical(ks, ls);
  }

  /** A map of one entry: the key, then the value. */
  lemma OneEntry(k: Bytes, v: Bytes)
    ensures Enumerates([k], map[k := v].Keys) && MapStream(map[k := v], [k]) == k + v
  {
    assert [k][..0] == [] && [v][..0] == [] && [k][1..] == [];
    assert Sort([k]) == [k];
    assert ValuesOf(map[k := v], [k]) == [v];
    assert Concat([k]) == Concat([k][..0]) + k && Concat([v]) == Concat([v][..0]) + v;
  }

  lemma AnyListing(m: map<Bytes, Bytes>, listed: seq<Bytes>)
    requires Enumerates(listed, m.Keys)
    ensures forall keys :: Enumerates(keys, m.Keys) ==> MapStream(m, keys) == MapStream(m, listed)
  {
    forall keys | Enumerates(keys, m.Keys) ensures MapStream(m, keys) == MapStream(m, listed) {
      MapStreamIgnoresOrder(m, keys, listed);
    }
  }

  /** The standard library's in-place sort of strings. */
  method SortStrings(a: array<Bytes>)
    modifies a
    ensures a[..] == Sort(old(a[..]))
  {
    var sorted := Sort(a[..]);
    for i := 0 to a.Length
      invariant a[..i] == sorted[..i]
    {
      a[i] := sorted[i];
    }
    assert a[..] == a[..a.Length] && sorted == sorted[..a.Length];
  }

  class Manager {
    var hash: Option<Bytes>

    constructor (hash: Option<Bytes>)
      ensures this.hash == hash
    {
      this.hash := hash;
    }

    /** Discards whatever was hashed before. A manager without a hash panics here. */
    method ResetHash()
      requires hash.Some?
      modifies this
      ensures hash == Some([])
    {
      hash := Some([]);
    }

    method Write(b: Bytes)
      requires hash.Some?
      modifies this
      ensures hash == Some(old(hash).value + b)
    {
      hash := Some(hash.value + b);
    }

    method AddSortedArray(a: array<Bytes>)
      requires hash.Some?
      modifies this
      ensures hash == Some(old(hash).value + Concat(a[..]))
    {
      ghost var h0 := hash.value;
      assert h0 + Concat(a[..0]) == h0;
      for i := 0 to a.Length
        invariant hash == Some(h0 + Concat(a[..i]))
      {
        assert a[..i + 1][..i] == a[..i];
        assert (h0 + Concat(a[..i])) + a[i] == h0 + (Concat(a[..i]) + a[i]);
        Write(a[i]);
      }
      assert a[..a.Length] == a[..];
    }

    /** Writes the list in sorted order; it sorts a copy, so the caller's list is as it was. */
    method AddArray(arr: array?<Bytes>) returns (outcome: Outcome)
      modifies this
      ensures outcome == if old(hash).None? then HashNil else Added
      ensures old(hash).None? ==> hash == None
      ensures old(hash).Some? ==> hash == Some(old(hash).value + if arr == null then [] else ArrayStream(arr[..]))
      ensures arr != null ==> arr[..] == old(arr[..])
    {
      if hash.None? {
        return HashNil;
      }
      if arr != null {
        var arrCopy := new Bytes[arr.Length](i requires 0 <= i < arr.Length reads arr => arr[i]);
        assert arrCopy[..] == arr[..];
        SortStrings(arrCopy);
        AddSortedArray(arrCopy);
      } else {
        assert hash.value + [] == hash.value;
      }
      return Added;
    }

    /** Writes the keys in sorted order and then their values, whatever order the map is iterated in. */
    method AddMap(m: map<Bytes, Bytes>) returns (outcome: Outcome)
      modifies this
      ensures outcome == if old(hash).None? then HashNil else Added
      ensures old(hash).None? ==> hash == None
      ensures old(hash).Some? ==>
        hash.Some? && forall keys :: Enumerates(keys, m.Keys) ==> hash == Some(old(hash).value + MapStream(m, keys))
    {
      if hash.None? {
        return HashNil;
      }
      hide MapStream, Enumerates, Sort, Concat, ValuesOf;
      var keys := KeysOf(m);
      ghost var listed := keys[..];
      SortStrings(keys);
      AddKeysAndValues(m, keys, listed);
      AnyListing(m, listed);
      return Added;
    }

    method AddKeysAndValues(m: map<Bytes, Bytes>, keys: array<Bytes>, ghost listed: seq<Bytes>)
      requires hash.Some? && Enumerates(listed, m.Keys) && keys[..] == Sort(listed)
      modifies this
      ensures hash == Some(old(hash).value + MapStream(m, listed))
    {
      hide *;
      ghost var h0 := hash.value;
      SortedKeysIn(m, listed, keys[..]);
      var values := ValuesInOrder(m, keys);
      MapStreamIs(m, listed, keys[..], values[..]);
      AddSortedArray(keys);
      AddSortedArray(values);
      assert (h0 + Concat(keys[..])) + Concat(values[..]) == h0 + (Concat(keys[..]) + Concat(values[..]));
    }

    /** The values of the keys, in the order of the array. */
    method ValuesInOrder(m: map<Bytes, Bytes>, keys: array<Bytes>) returns (values: array<Bytes>)
      requires KeysIn(keys[..], m)
      ensures fresh(values) && values.Length == keys.Length
      ensures forall i :: 0 <= i < keys.Length ==> values[i] == m[keys[i]]
    {
      values := new Bytes[keys.Length](_ => []);
      var i := 0;
      while i < keys.Length
        invariant 0 <= i <= keys.Length
        invariant forall j :: 0 <= j < i ==> values[j] == m[keys[j]]
      {
        values[i] := m[keys[i]];
        i := i + 1;
      }
    }

    /** Fills an array with the keys in the order the iteration happens to give them. */
    method KeysOf(m: map<Bytes, Bytes>) returns (keys: array<Bytes>)
      ensures fresh(keys) && Enumerates(keys[..], m.Keys)
    {
      keys := new Bytes[|m|](_ => []);
      var left := m.Keys;
      var i := 0;
      while left != {}
        invariant 0 <= i && i + |left| == keys.Length && left <= m.Keys
        invariant forall k :: k in keys[..i] <==> k in m.Keys - left
        invariant forall a, b :: 0 <= a < b < i ==> keys[a] != keys[b]
        decreases left
      {
        var key :| key in left;
        keys[i] := key;
        assert keys[..i + 1] == keys[..i] + [key];
        assert forall a :: 0 <= a < i ==> keys[a] in keys[..i];
        left := left - {key};
        i := i + 1;
      }
      assert keys[..i] == keys[..];
    }

    method AddString(s: Bytes) returns (outcome: Outcome)
      modifies this
      ensures outcome == if old(hash).None? then HashNil else Added
      ensures hash == if old(hash).None? then None else Some(old(hash).value + s)
    {
      outcome := AddBytes(s);
    }

    /** The nil check and the write every adder shares. */
    method AddBytes(b: Bytes) returns (outcome: Outcome)
      modifies this
      ensures outcome == if old(hash).None? then HashNil else Added
      ensures hash == if old(hash).None? then None else Some(old(hash).value + b)
    {
      if hash.None? {
        return HashNil;
      }
      Write(b);
      return Added;
    }

    method AddUint32(n: uint32) returns (outcome: Outcome)
      modifies this
      ensures outcome == if old(hash).None? then HashNil else Added
      ensures hash == if old(hash).None? then None else Some(old(hash).value + Uint32(n))
    {
      outcome := AddBytes(Uint32(n));
    }

    method AddInt32(n: int32) returns (outcome: Outcome)
      modifies this
      ensures outcome == if old(hash).None? then HashNil else Added
      ensures hash == if old(hash).None? then None else Some(old(hash).value + Int32(n))
    {
      outcome := AddBytes(Int32(n));
    }

    method AddUint64(n: uint64) returns (outcome: Outcome)
      modifies this
      ensures outcome == if old(hash).None? then HashNil else Added
      ensures hash == if old(hash).None? then None else Some(old(hash).value + Uint64(n))
    {
      outcome := AddBytes(Uint64(n));
    }

    method AddInt64(n: int64) returns (outcome: Outcome)
      modifies this
      ensures outcome == if old(hash).None? then HashNil else Added
      ensures hash == if old(hash).None? then None else Some(old(hash).value + Int64(n))
    {
      outcome := AddBytes(Int64(n));
    }

    method AddBool(b: bool) returns (outcome: Outcome)
      modifies this
      ensures outcome == if old(hash).None? then HashNil else Added
      ensures hash == if old(hash).None? then None else Some(old(hash).value + Bool(b))
    {
      outcome := AddBytes(Bool(b));
    }

    /** The digest, represented by its input. */
    method Generate() returns (digest: Option<Bytes>)
      ensures digest == hash
    {
      digest := hash;
    }
  }
}
