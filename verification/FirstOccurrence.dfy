/** Keeping the first occurrence of every key, for any element type and key function. */
module FirstOccurrence {

  function Keys<T, K>(key: T -> K, s: seq<T>): set<K> {
    if s == [] then {} else Keys(key, s[..|s| - 1]) + {key(s[|s| - 1])}
  }

  /** No two elements share a key. */
  ghost predicate Distinct<T, K>(key: T -> K, s: seq<T>) {
    forall i, j :: 0 <= i < j < |s| ==> key(s[i]) != key(s[j])
  }

  /** The elements whose key is neither in seen nor carried by an earlier element, in order. */
  function Keep<T, K(==)>(key: T -> K, s: seq<T>, seen: set<K>): seq<T> {
    if s == [] then []
    else
      var init, last := s[..|s| - 1], s[|s| - 1];
      Keep(key, init, seen) + (if key(last) in seen + Keys(key, init) then [] else [last])
  }

  lemma KeepSnoc<T, K>(key: T -> K, s: seq<T>, x: T, seen: set<K>)
    ensures Keys(key, s + [x]) == Keys(key, s) + {key(x)}
    ensures Keep(key, s + [x], seen) == Keep(key, s, seen) + (if key(x) in seen + Keys(key, s) then [] else [x])
  {
    assert (s + [x])[..|s|] == s;
  }

  lemma {:induction false} KeysAt<T, K>(key: T -> K, s: seq<T>)
    ensures forall i :: 0 <= i < |s| ==> key(s[i]) in Keys(key, s)
    ensures forall k :: k in Keys(key, s) ==> exists i :: 0 <= i < |s| && key(s[i]) == k
  {
    if s != [] {
      var n := |s| - 1;
      KeysAt(key, s[..n]);
      forall k | k in Keys(key, s) ensures exists i :: 0 <= i < |s| && key(s[i]) == k {
        if k == key(s[n]) {
        } else {
          var i :| 0 <= i < n && key(s[..n][i]) == k;
          assert key(s[i]) == k;
        }
      }
      forall i | 0 <= i < |s| ensures key(s[i]) in Keys(key, s) {
        if i < n { assert key(s[..n][i]) in Keys(key, s[..n]); }
      }
    }
  }

  lemma {:induction false} KeysConcat<T, K>(key: T -> K, a: seq<T>, b: seq<T>)
    ensures Keys(key, a + b) == Keys(key, a) + Keys(key, b)
  {
    if b == [] {
      assert a + b == a;
    } else {
      var n := |b| - 1;
      KeysConcat(key, a, b[..n]);
      assert (a + b)[..|a + b| - 1] == a + b[..n];
      assert (a + b)[|a + b| - 1] == b[n];
    }
  }

  lemma DistinctSnoc<T, K>(key: T -> K, s: seq<T>, x: T)
    ensures Distinct(key, s + [x]) <==> Distinct(key, s) && key(x) !in Keys(key, s)
  {
    var a := s + [x];
    KeysAt(key, s);
    assert forall i :: 0 <= i < |s| ==> a[i] == s[i];
    assert a[|s|] == x;
    if Distinct(key, a) {
      assert forall i :: 0 <= i < |s| ==> key(a[i]) != key(a[|s|]);
    }
  }

  /** Keeping drops exactly the keys already seen, and never keeps a key twice. */
  lemma {:induction false} KeepKeys<T, K>(key: T -> K, s: seq<T>, seen: set<K>)
    ensures Keys(key, Keep(key, s, seen)) == Keys(key, s) - seen
    ensures Distinct(key, Keep(key, s, seen))
  {
    if s != [] {
      var init, last := s[..|s| - 1], s[|s| - 1];
      KeepKeys(key, init, seen);
      var kept := Keep(key, init, seen);
      if key(last) in seen + Keys(key, init) {
        assert Keep(key, s, seen) == kept;
      } else {
        KeepSnoc(key, kept, last, seen);
        DistinctSnoc(key, kept, last);
      }
    }
  }

  lemma {:induction false} KeepAllSeen<T, K>(key: T -> K, s: seq<T>, seen: set<K>)
    requires Keys(key, s) <= seen
    ensures Keep(key, s, seen) == []
  {
    if s != [] { KeepAllSeen(key, s[..|s| - 1], seen); }
  }

  /** Nothing is dropped exactly when the keys are distinct and unseen. */
  lemma {:induction false} KeepIdentity<T, K>(key: T -> K, s: seq<T>, seen: set<K>)
    ensures |Keep(key, s, seen)| <= |s|
    ensures |Keep(key, s, seen)| == |s| <==> Distinct(key, s) && Keys(key, s) !! seen
    ensures |Keep(key, s, seen)| == |s| ==> Keep(key, s, seen) == s
  {
    if s != [] {
      var init, last := s[..|s| - 1], s[|s| - 1];
      assert s == init + [last];
      KeepIdentity(key, init, seen);
      DistinctSnoc(key, init, last);
    }
  }

  /** An element is kept exactly when it stands at a position where its key is new. */
  lemma {:induction false} KeptAreFirst<T, K>(key: T -> K, s: seq<T>, seen: set<K>, x: T)
    ensures x in Keep(key, s, seen) <==> exists i :: 0 <= i < |s| && s[i] == x && key(x) !in seen + Keys(key, s[..i])
  {
    if s != [] {
      var n := |s| - 1;
      KeptAreFirst(key, s[..n], seen, x);
      assert forall i :: 0 <= i <= n ==> s[..n][..i] == s[..i];
    }
  }

  lemma DistinctConcat<T, K>(key: T -> K, a: seq<T>, b: seq<T>)
    requires Distinct(key, a) && Distinct(key, b) && Keys(key, a) !! Keys(key, b)
    ensures Distinct(key, a + b)
  {
    KeysAt(key, a);
    KeysAt(key, b);
    var c := a + b;
    forall i, j | 0 <= i < j < |c| ensures key(c[i]) != key(c[j]) {
      if i < |a| <= j {
        assert key(a[i]) in Keys(key, a) && key(b[j - |a|]) in Keys(key, b);
      }
    }
  }

  /** Deduplicating s and then keeping what t adds is the union of the keys, each once; doing it again changes
      nothing. */
  lemma UnionOfKeys<T, K>(key: T -> K, s: seq<T>, t: seq<T>)
    ensures var u := Keep(key, s, {}) + Keep(key, t, Keys(key, s));
            && Keys(key, u) == Keys(key, s) + Keys(key, t)
            && Distinct(key, u)
            && Keep(key, t, Keys(key, u)) == []
            && Keep(key, u, {}) == u
  {
    var d, a := Keep(key, s, {}), Keep(key, t, Keys(key, s));
    KeepKeys(key, s, {});
    KeepKeys(key, t, Keys(key, s));
    KeysConcat(key, d, a);
    DistinctConcat(key, d, a);
    KeepAllSeen(key, t, Keys(key, d + a));
    KeepIdentity(key, d + a, {});
  }
}
