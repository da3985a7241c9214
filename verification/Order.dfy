// The order of Rust's strings, and so of every `BTreeMap` keyed by one:
// lexicographic, character by character. (Comparing UTF-8 bytes and
// comparing code points order two texts alike.)
module Order {
  import opened Basics

  predicate Less(a: string, b: string) {
    if b == [] then false
    else if a == [] then true
    else a[0] < b[0] || (a[0] == b[0] && Less(a[1..], b[1..]))
  }

  predicate AtMost(a: string, b: string) {
    a == b || Less(a, b)
  }

  lemma {:induction false} LessIsAsymmetric(a: string, b: string)
    requires Less(a, b)
    ensures !Less(b, a) && a != b
  {
    if a != [] && a[0] == b[0] {
      LessIsAsymmetric(a[1..], b[1..]);
    }
  }

  lemma {:induction false} LessIsTotal(a: string, b: string)
    ensures a == b || Less(a, b) || Less(b, a)
  {
    if a != [] && b != [] && a[0] == b[0] {
      LessIsTotal(a[1..], b[1..]);
      if a[1..] == b[1..] {
        assert a == [a[0]] + a[1..] && b == [b[0]] + b[1..];
      }
    }
  }

  lemma {:induction false} LessIsTransitive(a: string, b: string, c: string)
    requires Less(a, b) && Less(b, c)
    ensures Less(a, c)
  {
    if a != [] && a[0] == b[0] && b[0] == c[0] {
      LessIsTransitive(a[1..], b[1..], c[1..]);
    }
  }

  // The keys with a given prefix are an interval, which the prefix opens.
  lemma {:induction false} PrefixOpensItsInterval(p: string, s: string)
    requires p <= s
    ensures AtMost(p, s)
  {
    if p != [] {
      PrefixOpensItsInterval(p[1..], s[1..]);
      assert p[1..] == s[1..] ==> p == s;
    }
  }

  lemma {:induction false} PrefixIntervalIsConvex(p: string, x: string, s: string)
    requires AtMost(p, x) && AtMost(x, s) && p <= s
    ensures p <= x
  {
    if p != [] && x != s && p != x {
      assert p[0] == x[0] == s[0];
      PrefixIntervalIsConvex(p[1..], x[1..], s[1..]);
      assert x == [x[0]] + x[1..] && p == [p[0]] + p[1..];
    }
  }

  predicate IsLeast(k: string, keys: set<string>) {
    k in keys && forall x :: x in keys ==> AtMost(k, x)
  }

  lemma {:induction false} LeastExists(keys: set<string>)
    requires keys != {}
    ensures exists k :: IsLeast(k, keys)
  {
    var k :| k in keys;
    var rest := keys - {k};
    if rest == {} {
      assert keys == {k};
      assert IsLeast(k, keys);
    } else {
      LeastExists(rest);
      var m :| IsLeast(m, rest);
      LessIsTotal(k, m);
      if AtMost(m, k) {
        assert IsLeast(m, keys);
      } else {
        forall x | x in keys ensures AtMost(k, x) {
          if x != k && x != m {
            assert x in rest;
            assert AtMost(m, x);
            LessIsTransitive(k, m, x);
          }
        }
        assert IsLeast(k, keys);
      }
    }
  }

  lemma LeastIsUnique(keys: set<string>)
    ensures forall a, b :: IsLeast(a, keys) && IsLeast(b, keys) ==> a == b
  {
    forall a, b | IsLeast(a, keys) && IsLeast(b, keys) ensures a == b {
      if a != b {
        LessIsAsymmetric(a, b);
      }
    }
  }

  // The first key of a `BTreeMap`.
  function Least(keys: set<string>): (k: string)
    requires keys != {}
    ensures IsLeast(k, keys)
  {
    LeastExists(keys);
    LeastIsUnique(keys);
    var k :| IsLeast(k, keys);
    k
  }

  // The keys, once each, in the order a `BTreeMap` iterates over them.
  ghost predicate InOrder(s: seq<string>, keys: set<string>) {
    && |s| == |keys|
    && (forall k {:trigger k in s} :: k in s <==> k in keys)
    && Increasing(s)
  }

  ghost predicate Increasing(s: seq<string>) {
    forall i, j {:trigger Less(s[i], s[j])} :: 0 <= i < j < |s| ==> Less(s[i], s[j])
  }

  // In order, the keys are all there, and only they.
  lemma InOrderHas(s: seq<string>, keys: set<string>)
    requires InOrder(s, keys)
    ensures forall k :: k in keys ==> k in s
    ensures forall i :: 0 <= i < |s| ==> s[i] in keys
  {
    forall i | 0 <= i < |s| ensures s[i] in keys {
      assert s[i] in s;
    }
    forall k | k in keys ensures k in s {
      assert k in s <==> k in keys;
    }
  }

  lemma LeastFirst(k: string, rest: seq<string>, keys: set<string>)
    requires IsLeast(k, keys) && InOrder(rest, keys - {k})
    ensures InOrder([k] + rest, keys)
  {
    var s := [k] + rest;
    forall i, j | 0 <= i < j < |s| ensures Less(s[i], s[j]) {
      if i == 0 {
        assert s[j] == rest[j - 1] && rest[j - 1] in rest;
        assert AtMost(k, s[j]);
      }
    }
  }

  // The walk over a map's keys.
  method KeysInOrder(keys: set<string>) returns (s: seq<string>)
    ensures InOrder(s, keys)
    decreases keys
  {
    if keys == {} {
      return [];
    }
    var k := Least(keys);
    var rest := KeysInOrder(keys - {k});
    LeastFirst(k, rest, keys);
    s := [k] + rest;
  }

  lemma {:induction false} AnOrderExists(keys: set<string>)
    ensures exists s :: InOrder(s, keys)
  {
    if keys == {} {
      assert InOrder([], keys);
    } else {
      var k := Least(keys);
      AnOrderExists(keys - {k});
      var rest :| InOrder(rest, keys - {k});
      LeastFirst(k, rest, keys);
    }
  }

  lemma FirstIsLeast(s: seq<string>, keys: set<string>)
    requires InOrder(s, keys) && s != []
    ensures IsLeast(s[0], keys) && InOrder(s[1..], keys - {s[0]})
  {
    assert s[0] in s;
    InOrderHas(s, keys);
    forall x | x in keys ensures AtMost(s[0], x) && (x in s[1..] <==> x != s[0]) {
      var i :| 0 <= i < |s| && s[i] == x;
      if i > 0 {
        LessIsAsymmetric(s[0], s[i]);
        assert s[1..][i - 1] == x;
      }
      if j :| 0 <= j < |s| - 1 && s[1..][j] == s[0] {
        LessIsAsymmetric(s[0], s[j + 1]);
      }
    }
  }

  // The order leaves no choice.
  lemma {:induction false} TheOrderIsUnique(s: seq<string>, t: seq<string>, keys: set<string>)
    requires InOrder(s, keys) && InOrder(t, keys)
    ensures s == t
    decreases |s|
  {
    if s != [] {
      FirstIsLeast(s, keys);
      FirstIsLeast(t, keys);
      LeastIsUnique(keys);
      TheOrderIsUnique(s[1..], t[1..], keys - {s[0]});
      assert s == [s[0]] + s[1..] && t == [t[0]] + t[1..];
    }
  }

  lemma SortedHas(keys: set<string>)
    ensures forall k :: k in keys <==> k in Sorted(keys)
    ensures Increasing(Sorted(keys)) && |Sorted(keys)| == |keys|
    ensures Sorted(keys)[..|keys|] == Sorted(keys)
  {
    InOrderHas(Sorted(keys), keys);
  }

  ghost function Sorted(keys: set<string>): (s: seq<string>)
    ensures InOrder(s, keys)
  {
    AnOrderExists(keys);
    var s :| InOrder(s, keys);
    s
  }
}
