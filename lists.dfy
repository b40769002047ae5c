/**
 * The three array operations the stores apply to their cached collections,
 * each selecting entries by an identity key: `find` (first entry with the
 * key), `map` with a conditional update, and `filter` on a differing key.
 */
module Lists {
  import opened Common

  /** The index of the entry `s.find(x => key(x) === k)` returns: the first entry with the key. */
  function FindKey<T, K(==)>(s: seq<T>, key: T -> K, k: K): (r: Option<nat>)
    ensures r.None? <==> forall i :: 0 <= i < |s| ==> key(s[i]) != k
    ensures r.Some? ==> r.value < |s| && key(s[r.value]) == k
    ensures r.Some? ==> forall j :: 0 <= j < r.value ==> key(s[j]) != k
  {
    if s == [] then None
    else if key(s[0]) == k then Some(0)
    else match FindKey(s[1..], key, k)
      case None => None
      case Some(i) => Some(i + 1)
  }

  /** `s.map(x => key(x) === k ? f(x) : x)`: every entry with the key is updated, the rest kept. */
  function UpdateKey<T, K(==)>(s: seq<T>, key: T -> K, k: K, f: T -> T): (r: seq<T>)
    ensures |r| == |s|
    ensures forall i :: 0 <= i < |s| && key(s[i]) == k ==> r[i] == f(s[i])
    ensures forall i :: 0 <= i < |s| && key(s[i]) != k ==> r[i] == s[i]
  {
    if s == [] then []
    else [if key(s[0]) == k then f(s[0]) else s[0]] + UpdateKey(s[1..], key, k, f)
  }

  /** `s.filter(x => key(x) !== k)`: every entry with the key is dropped. */
  function RemoveKey<T(==), K(==)>(s: seq<T>, key: T -> K, k: K): (r: seq<T>)
    ensures |r| <= |s|
    ensures forall i :: 0 <= i < |r| ==> r[i] in s && key(r[i]) != k
    ensures forall i :: 0 <= i < |s| && key(s[i]) != k ==> s[i] in r
  {
    if s == [] then []
    else
      assert s == [s[0]] + s[1..];
      (if key(s[0]) == k then [] else [s[0]]) + RemoveKey(s[1..], key, k)
  }

  /** Removal distributes over concatenation, so the survivors keep their relative order. */
  lemma {:induction false} RemoveKeyConcat<T, K>(s: seq<T>, t: seq<T>, key: T -> K, k: K)
    ensures RemoveKey(s + t, key, k) == RemoveKey(s, key, k) + RemoveKey(t, key, k)
  {
    if s == [] {
      assert s + t == t;
    } else {
      assert (s + t)[0] == s[0];
      assert (s + t)[1..] == s[1..] + t;
      RemoveKeyConcat(s[1..], t, key, k);
    }
  }

  /** Removing a key nothing carries changes nothing. */
  lemma {:induction false} RemoveKeyAbsent<T, K>(s: seq<T>, key: T -> K, k: K)
    requires forall i :: 0 <= i < |s| ==> key(s[i]) != k
    ensures RemoveKey(s, key, k) == s
  {
    if s != [] {
      RemoveKeyAbsent(s[1..], key, k);
    }
  }

  /** Removing the same key twice is removing it once. */
  lemma RemoveKeyIdempotent<T, K>(s: seq<T>, key: T -> K, k: K)
    ensures RemoveKey(RemoveKey(s, key, k), key, k) == RemoveKey(s, key, k)
  {
    var r := RemoveKey(s, key, k);
    RemoveKeyAbsent(r, key, k);
  }

  /** Appending an entry and then removing its key undoes the append when the key was new. */
  lemma RemoveKeyUndoesAppend<T, K>(s: seq<T>, x: T, key: T -> K)
    requires forall i :: 0 <= i < |s| ==> key(s[i]) != key(x)
    ensures RemoveKey(s + [x], key, key(x)) == s
  {
    RemoveKeyConcat(s, [x], key, key(x));
    RemoveKeyAbsent(s, key, key(x));
    assert RemoveKey([x], key, key(x)) == [];
  }

  /** An update whose key nothing carries changes nothing. */
  lemma UpdateKeyAbsent<T, K>(s: seq<T>, key: T -> K, k: K, f: T -> T)
    requires forall i :: 0 <= i < |s| ==> key(s[i]) != k
    ensures UpdateKey(s, key, k, f) == s
  {
  }

  /**
   * Repeating an update is harmless when `f` is idempotent on every entry
   * that still carries the key afterwards.
   */
  lemma UpdateKeyTwice<T, K>(s: seq<T>, key: T -> K, k: K, f: T -> T)
    requires forall x :: key(x) == k && key(f(x)) == k ==> f(f(x)) == f(x)
    ensures UpdateKey(UpdateKey(s, key, k, f), key, k, f) == UpdateKey(s, key, k, f)
  {
    var once := UpdateKey(s, key, k, f);
    var twice := UpdateKey(once, key, k, f);
    forall i | 0 <= i < |s| ensures twice[i] == once[i] {
      if key(s[i]) == k {
        assert once[i] == f(s[i]);
      }
    }
  }
}
