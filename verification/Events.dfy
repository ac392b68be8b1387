/** Container events, and what it means for one stream to interleave two others. */
module Events {
  import opened Prelude

  datatype Action = ActionStart | ActionStop | ActionOther

  datatype Event = Event(id: string, action: Action)

  /** s is an order-preserving interleaving of a and b: nothing lost, repeated or reordered. */
  predicate Interleaves(s: seq<Event>, a: seq<Event>, b: seq<Event>) {
    if s == [] then a == [] && b == []
    else
      || (a != [] && Last(a) == Last(s) && Interleaves(Front(s), Front(a), b))
      || (b != [] && Last(b) == Last(s) && Interleaves(Front(s), a, Front(b)))
  }

  lemma InterleavesAppend(s: seq<Event>, a: seq<Event>, b: seq<Event>, e: Event)
    requires Interleaves(s, a, b)
    ensures Interleaves(s + [e], a + [e], b) && Interleaves(s + [e], a, b + [e])
  {
    FrontOfAppend(s, e);
    FrontOfAppend(a, e);
    FrontOfAppend(b, e);
  }

  lemma {:induction false} InterleavesLength(s: seq<Event>, a: seq<Event>, b: seq<Event>)
    requires Interleaves(s, a, b)
    ensures |s| == |a| + |b|
  {
    if s != [] {
      if a != [] && Last(a) == Last(s) && Interleaves(Front(s), Front(a), b) {
        InterleavesLength(Front(s), Front(a), b);
      } else {
        InterleavesLength(Front(s), a, Front(b));
      }
    }
  }

  /** A prefix of an interleaving interleaves prefixes of the two streams. */
  lemma {:induction false} InterleavesPrefix(s: seq<Event>, a: seq<Event>, b: seq<Event>, n: nat)
    returns (i: nat, j: nat)
    requires Interleaves(s, a, b) && n <= |s|
    ensures i <= |a| && j <= |b| && Interleaves(s[..n], a[..i], b[..j])
  {
    if n == |s| {
      i, j := |a|, |b|;
      assert s[..n] == s && a[..i] == a && b[..j] == b;
    } else if a != [] && Last(a) == Last(s) && Interleaves(Front(s), Front(a), b) {
      i, j := InterleavesPrefix(Front(s), Front(a), b, n);
      assert Front(s)[..n] == s[..n] && Front(a)[..i] == a[..i];
    } else {
      i, j := InterleavesPrefix(Front(s), a, Front(b), n);
      assert Front(s)[..n] == s[..n] && Front(b)[..j] == b[..j];
    }
  }

  /** The cut at n of an interleaving cuts the two streams at i and j. */
  predicate CutsAt(s: seq<Event>, a: seq<Event>, b: seq<Event>, n: nat, i: nat, j: nat) {
    && n <= |s| && i <= |a| && j <= |b|
    && Interleaves(s[..n], a[..i], b[..j]) && Interleaves(s[n..], a[i..], b[j..])
  }

  /** Both parts of a cut interleaving interleave the parts of its streams. */
  lemma {:induction false} InterleavesCut(s: seq<Event>, a: seq<Event>, b: seq<Event>, n: nat)
    returns (i: nat, j: nat)
    requires Interleaves(s, a, b) && n <= |s|
    ensures CutsAt(s, a, b, n, i, j)
  {
    if n == |s| {
      i, j := |a|, |b|;
      assert s[..n] == s && a[..i] == a && b[..j] == b;
    } else if a != [] && Last(a) == Last(s) && Interleaves(Front(s), Front(a), b) {
      i, j := InterleavesCut(Front(s), Front(a), b, n);
      CutGrowsLeft(s, a, b, n, i, j);
    } else {
      i, j := InterleavesCut(Front(s), a, Front(b), n);
      CutGrowsRight(s, a, b, n, i, j);
    }
  }

  lemma CutGrowsLeft(s: seq<Event>, a: seq<Event>, b: seq<Event>, n: nat, i: nat, j: nat)
    requires s != [] && a != [] && Last(a) == Last(s) && CutsAt(Front(s), Front(a), b, n, i, j)
    ensures CutsAt(s, a, b, n, i, j)
  {
    var e := Last(s);
    InterleavesAppend(Front(s)[n..], Front(a)[i..], b[j..], e);
    assert s[..n] == Front(s)[..n] && s[n..] == Front(s)[n..] + [e];
    assert a[..i] == Front(a)[..i] && a[i..] == Front(a)[i..] + [e];
  }

  lemma CutGrowsRight(s: seq<Event>, a: seq<Event>, b: seq<Event>, n: nat, i: nat, j: nat)
    requires s != [] && b != [] && Last(b) == Last(s) && CutsAt(Front(s), a, Front(b), n, i, j)
    ensures CutsAt(s, a, b, n, i, j)
  {
    var e := Last(s);
    InterleavesAppend(Front(s)[n..], a[i..], Front(b)[j..], e);
    assert s[..n] == Front(s)[..n] && s[n..] == Front(s)[n..] + [e];
    assert b[..j] == Front(b)[..j] && b[j..] == Front(b)[j..] + [e];
  }
}
