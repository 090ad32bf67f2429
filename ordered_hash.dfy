/**
 * A Ruby Hash with string keys. Ruby hashes remember insertion order, and
 * callers observe it (`rendered[:_links].keys`), so a hash is a sequence of
 * key/value pairs: assigning to a new key appends, assigning to an existing
 * key replaces its value where it stands. This is the hash the core builds
 * by assignment; an object that is only printed is a `Ruby.Value.Hash`, and a
 * hash that is only looked up by key is a `map`.
 */
module OrderedHash {
  import opened Wrappers

  type Hash<V> = seq<(string, V)>

  function Keys<V>(h: Hash<V>): seq<string> {
    seq(|h|, k requires 0 <= k < |h| => h[k].0)
  }

  predicate DistinctKeys<V>(h: Hash<V>) {
    forall i, j :: 0 <= i < j < |h| ==> h[i].0 != h[j].0
  }

  /** `hash[key]`, or None when the key is absent. */
  function Get<V>(h: Hash<V>, key: string): Option<V>
    decreases |h|
  {
    if h == [] then None
    else if h[0].0 == key then Some(h[0].1)
    else Get(h[1..], key)
  }

  /** `hash[key] = v`. */
  function Store<V>(h: Hash<V>, key: string, v: V): Hash<V>
    decreases |h|
  {
    if h == [] then [(key, v)]
    else if h[0].0 == key then [(key, v)] + h[1..]
    else [h[0]] + Store(h[1..], key, v)
  }

  /** The hash obtained by assigning each pair in turn, starting from `{}`. */
  function StoreAll<V>(pairs: seq<(string, V)>): Hash<V>
    decreases |pairs|
  {
    if pairs == [] then []
    else Store(StoreAll(pairs[..|pairs| - 1]), pairs[|pairs| - 1].0, pairs[|pairs| - 1].1)
  }

  /** The keys of `s` in the order they first occur, each once. */
  function FirstOccurrences(s: seq<string>): seq<string>
    decreases |s|
  {
    if s == [] then []
    else if s[|s| - 1] in s[..|s| - 1] then FirstOccurrences(s[..|s| - 1])
    else FirstOccurrences(s[..|s| - 1]) + [s[|s| - 1]]
  }

  lemma {:induction false} KeysOfPrefix<V>(h: Hash<V>, n: nat)
    requires n <= |h|
    ensures Keys(h[..n]) == Keys(h)[..n]
  {
  }

  /** After `hash[key] = v`, `key` maps to `v` and every other key is as before. */
  lemma {:induction false} StoreGet<V>(h: Hash<V>, key: string, v: V, other: string)
    ensures Get(Store(h, key, v), other) == if other == key then Some(v) else Get(h, other)
    decreases |h|
  {
    if h != [] && h[0].0 != key {
      StoreGet(h[1..], key, v, other);
      assert Store(h, key, v)[1..] == Store(h[1..], key, v);
    }
  }

  /** Assigning to a present key keeps the key order; a new key goes last. */
  lemma {:induction false} StoreKeys<V>(h: Hash<V>, key: string, v: V)
    ensures Keys(Store(h, key, v)) == if key in Keys(h) then Keys(h) else Keys(h) + [key]
    decreases |h|
  {
    if h == [] {
    } else if h[0].0 == key {
      assert Keys(h)[0] == key;
    } else {
      StoreKeys(h[1..], key, v);
      assert Keys(h) == [h[0].0] + Keys(h[1..]);
      assert Keys(Store(h, key, v)) == [h[0].0] + Keys(Store(h[1..], key, v));
    }
  }

  lemma {:induction false} FirstOccurrencesMembers(s: seq<string>, x: string)
    ensures x in FirstOccurrences(s) <==> x in s
    decreases |s|
  {
    if s != [] {
      FirstOccurrencesMembers(s[..|s| - 1], x);
      assert s == s[..|s| - 1] + [s[|s| - 1]];
    }
  }

  /** Without repeated keys, first-occurrence order is the sequence itself. */
  lemma {:induction false} FirstOccurrencesOfDistinct(s: seq<string>)
    requires forall i, j :: 0 <= i < j < |s| ==> s[i] != s[j]
    ensures FirstOccurrences(s) == s
    decreases |s|
  {
    if s != [] {
      var n := |s| - 1;
      FirstOccurrencesOfDistinct(s[..n]);
      assert s == s[..n] + [s[n]];
    }
  }

  /** The keys of the hash built by assigning `pairs` are their keys in first-occurrence order. */
  lemma {:induction false} StoreAllKeys<V>(pairs: seq<(string, V)>)
    ensures Keys(StoreAll(pairs)) == FirstOccurrences(Keys(pairs))
    decreases |pairs|
  {
    if pairs != [] {
      var n := |pairs| - 1;
      var last := pairs[n];
      StoreAllKeys(pairs[..n]);
      StoreKeys(StoreAll(pairs[..n]), last.0, last.1);
      KeysOfPrefix(pairs, n);
      FirstOccurrencesMembers(Keys(pairs[..n]), last.0);
    }
  }

  /** Later assignments win: each key holds the value of its LAST pair, absent keys hold nothing. */
  lemma {:induction false} StoreAllGet<V>(pairs: seq<(string, V)>, key: string)
    ensures key !in Keys(pairs) ==> Get(StoreAll(pairs), key) == None
    ensures forall i :: 0 <= i < |pairs| && pairs[i].0 == key &&
                        (forall j :: i < j < |pairs| ==> pairs[j].0 != key) ==>
                        Get(StoreAll(pairs), key) == Some(pairs[i].1)
    decreases |pairs|
  {
    if pairs != [] {
      var n := |pairs| - 1;
      StoreAllGet(pairs[..n], key);
      StoreGet(StoreAll(pairs[..n]), pairs[n].0, pairs[n].1, key);
      KeysOfPrefix(pairs, n);
      assert Keys(pairs) == Keys(pairs[..n]) + [pairs[n].0];
      forall i | 0 <= i < |pairs| && pairs[i].0 == key && (forall j :: i < j < |pairs| ==> pairs[j].0 != key)
        ensures Get(StoreAll(pairs), key) == Some(pairs[i].1)
      {
        if i < n {
          assert pairs[..n][i] == pairs[i];
        }
      }
    }
  }

  /** Assignment never creates a duplicate key. */
  lemma {:induction false} StoreAllDistinct<V>(pairs: seq<(string, V)>)
    ensures DistinctKeys(StoreAll(pairs))
    decreases |pairs|
  {
    if pairs != [] {
      var n := |pairs| - 1;
      var h := StoreAll(pairs[..n]);
      StoreAllDistinct(pairs[..n]);
      StoreKeys(h, pairs[n].0, pairs[n].1);
      var h' := StoreAll(pairs);
      assert Keys(h') == Keys(h) || Keys(h') == Keys(h) + [pairs[n].0];
      forall i, j | 0 <= i < j < |h'| ensures h'[i].0 != h'[j].0 {
        assert Keys(h')[i] == h'[i].0 && Keys(h')[j] == h'[j].0;
        if j < |h| {
          assert Keys(h)[i] == h[i].0 && Keys(h)[j] == h[j].0;
        } else {
          assert Keys(h)[i] == h[i].0;
        }
      }
    }
  }
}
