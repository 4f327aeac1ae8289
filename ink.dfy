/** Types and storage helpers shared by the two ink! contracts.

    An ink! `Mapping<K, V>` is modelled as a Dafny `map<int, V>`: `get(k)` is
    `if k in m then Some(m[k]) else None`, and `insert(k, v)` is `m[k := v]`.
    Both contracts read their mappings back with the same loop: for every key
    from 0 up to a counter, in ascending order, append the stored value if
    there is one. Its result is `Stored(m, n)` below. */
module Ink {

  /** An account on the chain. Only equality between accounts matters to the
      contracts, so a natural number stands for the 32-byte identifier. */
  type AccountId = nat

  datatype Option<T> = None | Some(value: T)

  /** The values stored under the keys 0 .. n-1, in ascending key order,
      skipping keys that hold nothing. */
  function Stored<V>(m: map<int, V>, n: int): seq<V>
    decreases n
  {
    if n <= 0 then []
    else Stored(m, n - 1) + (if n - 1 in m then [m[n - 1]] else [])
  }

  /** The keys of `m` below `n`, in the order `Stored` visits them. */
  ghost function KeysBelow<V>(m: map<int, V>, n: int): seq<int>
    decreases n
  {
    if n <= 0 then []
    else KeysBelow(m, n - 1) + (if n - 1 in m then [n - 1] else [])
  }

  /** `KeysBelow(m, n)` is the ascending enumeration of the keys of `m` in
      [0, n): it holds exactly those keys, each once, smallest first. */
  lemma {:induction false} KeysBelowEnumerates<V>(m: map<int, V>, n: int)
    ensures forall k :: k in KeysBelow(m, n) <==> k in m && 0 <= k < n
    ensures forall i, j :: 0 <= i < j < |KeysBelow(m, n)| ==> KeysBelow(m, n)[i] < KeysBelow(m, n)[j]
    decreases n
  {
    if n > 0 {
      KeysBelowEnumerates(m, n - 1);
      var prev := KeysBelow(m, n - 1);
      forall i | 0 <= i < |prev|
        ensures prev[i] < n - 1
      {
        assert prev[i] in prev;
      }
    }
  }

  /** The i-th value of `Stored(m, n)` is the value under the i-th key of
      `KeysBelow(m, n)`: together with `KeysBelowEnumerates` this says that
      `Stored` lists every entry of `m` under a key in [0, n) exactly once,
      in ascending key order. */
  lemma {:induction false} StoredAt<V>(m: map<int, V>, n: int)
    ensures |Stored(m, n)| == |KeysBelow(m, n)|
    ensures forall i :: 0 <= i < |Stored(m, n)| ==>
      KeysBelow(m, n)[i] in m && Stored(m, n)[i] == m[KeysBelow(m, n)[i]]
    decreases n
  {
    if n > 0 {
      StoredAt(m, n - 1);
    }
  }

  /** When every key of `m` is in [0, n), `Stored(m, n)` holds exactly the
      values of `m`. */
  lemma StoredValues<V>(m: map<int, V>, n: int)
    requires forall k :: k in m ==> 0 <= k < n
    ensures forall k :: k in m ==> m[k] in Stored(m, n)
    ensures forall v :: v in Stored(m, n) ==> exists k :: k in m && m[k] == v
  {
    StoredAt(m, n);
    KeysBelowEnumerates(m, n);
    forall k | k in m
      ensures m[k] in Stored(m, n)
    {
      var i :| 0 <= i < |KeysBelow(m, n)| && KeysBelow(m, n)[i] == k;
      assert Stored(m, n)[i] == m[k];
    }
    forall v | v in Stored(m, n)
      ensures exists k :: k in m && m[k] == v
    {
      var i :| 0 <= i < |Stored(m, n)| && Stored(m, n)[i] == v;
      assert m[KeysBelow(m, n)[i]] == v;
    }
  }

  /** Number of bytes in the UTF-8 encoding of one character: Rust's
      `String::len` counts these, not characters. */
  function Utf8Width(c: char): (w: nat)
    ensures 1 <= w <= 4
  {
    if c as int < 0x80 then 1
    else if c as int < 0x800 then 2
    else if c as int < 0x1_0000 then 3
    else 4
  }

  /** `String::len`: the length in bytes of the UTF-8 encoding of `s`. */
  function Utf8Length(s: string): (n: nat)
    ensures |s| <= n <= 4 * |s|
    ensures n == 0 <==> s == []
  {
    if s == [] then 0 else Utf8Width(s[0]) + Utf8Length(s[1..])
  }

  /** For a string of ASCII characters the byte length is the character count. */
  lemma {:induction false} AsciiLength(s: string)
    requires forall i :: 0 <= i < |s| ==> s[i] as int < 0x80
    ensures Utf8Length(s) == |s|
  {
    if s != [] {
      AsciiLength(s[1..]);
    }
  }
}
