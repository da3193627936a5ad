/** The order of Rust strings (by code point), and sorted listings of sets of them. */
module Ordering {

  predicate Less(a: string, b: string) {
    b != "" && (a == "" || a[0] < b[0] || (a[0] == b[0] && Less(a[1..], b[1..])))
  }

  // At the first place where the two differ, or at its end, the smaller one is first.
  ghost predicate Precedes(a: string, b: string, n: nat) {
    && n <= |a| && n < |b| && a[..n] == b[..n]
    && (n == |a| || a[n] < b[n])
  }

  lemma SameHead(a: string, b: string, n: nat)
    requires Precedes(a, b, n) && n > 0
    ensures a[0] == b[0]
  {
    assert a[..n][0] == b[..n][0];
  }

  lemma {:induction false} LessIsLexicographic(a: string, b: string)
    ensures Less(a, b) <==> exists n: nat :: Precedes(a, b, n)
  {
    if a != "" && b != "" && a[0] == b[0] {
      LessIsLexicographic(a[1..], b[1..]);
      if Less(a, b) {
        var n: nat :| Precedes(a[1..], b[1..], n);
        assert a[..n + 1] == [a[0]] + a[1..][..n] && b[..n + 1] == [b[0]] + b[1..][..n];
        assert Precedes(a, b, n + 1);
      }
      if n: nat :| Precedes(a, b, n) {
        assert a[1..][..n - 1] == a[..n][1..] && b[1..][..n - 1] == b[..n][1..];
        assert Precedes(a[1..], b[1..], n - 1);
      }
    } else if b != "" {
      assert a[..0] == b[..0];
      assert a == "" || a[0] < b[0] ==> Precedes(a, b, 0);
      if n: nat :| Precedes(a, b, n) {
        if n > 0 {
          SameHead(a, b, n);
        }
      }
    }
  }

  lemma {:induction false} LessTransitive(a: string, b: string, c: string)
    requires Less(a, b) && Less(b, c)
    ensures Less(a, c)
  {
    if a != "" && a[0] == b[0] && b[0] == c[0] {
      LessTransitive(a[1..], b[1..], c[1..]);
    }
  }

  lemma {:induction false} LessIrreflexive(a: string)
    ensures !Less(a, a)
  {
    if a != "" {
      LessIrreflexive(a[1..]);
    }
  }

  lemma {:induction false} LessConnected(a: string, b: string)
    ensures a == b || Less(a, b) || Less(b, a)
  {
    if a != "" && b != "" && a[0] == b[0] {
      LessConnected(a[1..], b[1..]);
      assert a == [a[0]] + a[1..] && b == [b[0]] + b[1..];
    }
  }

  // Strictly increasing.
  predicate Sorted(keys: seq<string>) {
    forall i, j :: 0 <= i < j < |keys| ==> Less(keys[i], keys[j])
  }

  ghost predicate IsListing(keys: seq<string>, elements: set<string>) {
    Sorted(keys) && (forall k :: k in keys <==> k in elements)
  }

  // A set has one sorted listing.
  lemma {:induction false} ListingIsUnique(a: seq<string>, b: seq<string>)
    requires Sorted(a) && Sorted(b)
    requires forall k :: k in a <==> k in b
    ensures a == b
    decreases |a|
  {
    assert b == [] || b[0] in b;
    if a != [] {
      assert a[0] in a;
      var i :| 0 <= i < |b| && b[i] == a[0];
      var j :| 0 <= j < |a| && a[j] == b[0];
      if i > 0 && j > 0 {
        LessTransitive(a[0], b[0], a[0]);
        LessIrreflexive(a[0]);
      }
      assert a[0] == b[0];
      LessIrreflexive(a[0]);
      forall k ensures k in a[1..] <==> k in b[1..] {
        assert k in a <==> k == a[0] || k in a[1..];
        assert k in b <==> k == b[0] || k in b[1..];
        assert a[0] !in a[1..] && b[0] !in b[1..];
      }
      ListingIsUnique(a[1..], b[1..]);
    }
  }

  // Where a key belongs in a listing that does not have it.
  method Position(keys: seq<string>, key: string) returns (at: nat)
    requires Sorted(keys)
    ensures at <= |keys|
    ensures forall i :: 0 <= i < at ==> Less(keys[i], key)
    ensures forall i :: at <= i < |keys| ==> !Less(keys[i], key)
  {
    at := 0;
    while at < |keys| && Less(keys[at], key)
      invariant at <= |keys|
      invariant forall i :: 0 <= i < at ==> Less(keys[i], key)
    {
      at := at + 1;
    }
    forall i | at <= i < |keys| ensures !Less(keys[i], key) {
      if at < i && Less(keys[i], key) {
        LessTransitive(keys[at], keys[i], key);
      }
    }
  }

  lemma InsertKeepsSorted(keys: seq<string>, key: string, at: nat)
    requires Sorted(keys) && key !in keys && at <= |keys|
    requires forall i :: 0 <= i < at ==> Less(keys[i], key)
    requires forall i :: at <= i < |keys| ==> !Less(keys[i], key)
    ensures Sorted(keys[..at] + [key] + keys[at..])
    ensures forall k :: k in keys[..at] + [key] + keys[at..] <==> k == key || k in keys
  {
    forall i | at <= i < |keys| ensures Less(key, keys[i]) {
      LessConnected(key, keys[i]);
    }
    var after := keys[..at] + [key] + keys[at..];
    forall i, j | 0 <= i < j < |after| ensures Less(after[i], after[j]) {
    }
    forall k ensures k in after <==> k == key || k in keys {
      assert keys == keys[..at] + keys[at..];
    }
  }

  method SortedKeys(elements: set<string>) returns (keys: seq<string>)
    ensures IsListing(keys, elements)
  {
    keys := [];
    var rest := elements;
    while rest != {}
      invariant rest <= elements && IsListing(keys, elements - rest)
      decreases |rest|
    {
      var key :| key in rest;
      var at := Position(keys, key);
      InsertKeepsSorted(keys, key, at);
      keys := keys[..at] + [key] + keys[at..];
      rest := rest - {key};
    }
    assert elements - rest == elements;
  }
}
