/** The winding correction of generated point sequences: reversing a suffix
    of a sequence while leaving everything before it in place. */
module Winding {

  /** `s` read backwards. */
  function Reversed<T>(s: seq<T>): (r: seq<T>)
    ensures |r| == |s|
    ensures forall i :: 0 <= i < |s| ==> r[i] == s[|s| - 1 - i]
  {
    if s == [] then [] else Reversed(s[1..]) + [s[0]]
  }

  /** Reading a sequence backwards twice gives it back. */
  lemma {:induction false} ReversedTwice<T>(s: seq<T>)
    ensures Reversed(Reversed(s)) == s
  {
    var r := Reversed(Reversed(s));
    assert |r| == |s|;
    forall i | 0 <= i < |s| ensures r[i] == s[i] {
      assert r[i] == Reversed(s)[|s| - 1 - i];
    }
  }

  /** Reversal keeps every element with its multiplicity. */
  lemma {:induction false} ReversedSameElements<T>(s: seq<T>)
    ensures multiset(Reversed(s)) == multiset(s)
  {
    if s != [] {
      ReversedSameElements(s[1..]);
      assert s == [s[0]] + s[1..];
    }
  }

  /** Concatenation is associative. */
  lemma AppendAssociates<T>(a: seq<T>, b: seq<T>, c: seq<T>)
    ensures (a + b) + c == a + (b + c)
  {
  }

  /** `s` with its last `n` elements reversed, position by position: an element
      before the last `n` stays where it is, and an element among them moves to
      its mirror image within them. A non-positive `n` reverses nothing. */
  function ReverseTail<T>(s: seq<T>, n: int): (r: seq<T>)
    requires n <= |s|
    ensures |r| == |s|
  {
    seq(|s|, m requires 0 <= m < |s| => if 0 < n && |s| - n <= m then s[2 * |s| - n - 1 - m] else s[m])
  }

  /** Reversing the last `n` elements is keeping the rest and appending those
      `n` read backwards; a non-positive `n` changes nothing. */
  lemma ReverseTailIsSplice<T>(s: seq<T>, n: int)
    requires n <= |s|
    ensures n <= 0 ==> ReverseTail(s, n) == s
    ensures 0 < n ==> ReverseTail(s, n) == s[..|s| - n] + Reversed(s[|s| - n..])
  {
    if 0 < n {
      var spliced := s[..|s| - n] + Reversed(s[|s| - n..]);
      forall m | 0 <= m < |s| ensures ReverseTail(s, n)[m] == spliced[m] {
        if |s| - n <= m {
          assert spliced[m] == Reversed(s[|s| - n..])[m - (|s| - n)];
        }
      }
    } else {
      assert forall m :: 0 <= m < |s| ==> ReverseTail(s, n)[m] == s[m];
    }
  }

  /** Reversing a tail of one or no elements changes nothing. */
  lemma ReverseTailShort<T>(s: seq<T>, n: int)
    requires n <= 1 && n <= |s|
    ensures ReverseTail(s, n) == s
  {
    assert forall m :: 0 <= m < |s| ==> ReverseTail(s, n)[m] == s[m];
  }

  /** Reversing all but the first element keeps the first element in front:
      a generator's first point stays its anchor. */
  lemma ReverseTailKeepsFirst<T>(s: seq<T>)
    requires 1 <= |s|
    ensures ReverseTail(s, |s| - 1) == [s[0]] + Reversed(s[1..])
  {
    var r, expected := ReverseTail(s, |s| - 1), [s[0]] + Reversed(s[1..]);
    forall m | 0 <= m < |s| ensures r[m] == expected[m] {
      if 1 <= m {
        assert expected[m] == Reversed(s[1..])[m - 1];
      }
    }
  }

  /** Reversing a tail that lies inside `s` leaves whatever precedes `s` alone. */
  lemma ReverseTailAppend<T>(prefix: seq<T>, s: seq<T>, n: int)
    requires n <= |s|
    ensures ReverseTail(prefix + s, n) == prefix + ReverseTail(s, n)
  {
    var l, r := ReverseTail(prefix + s, n), prefix + ReverseTail(s, n);
    forall m | 0 <= m < |l| ensures l[m] == r[m] {
      if |prefix| <= m {
        assert r[m] == ReverseTail(s, n)[m - |prefix|];
      }
    }
  }

  /** Reversing the same tail twice restores the sequence. */
  lemma ReverseTailTwice<T>(s: seq<T>, n: int)
    requires n <= |s|
    ensures ReverseTail(ReverseTail(s, n), n) == s
  {
    var r := ReverseTail(s, n);
    forall m | 0 <= m < |s| ensures ReverseTail(r, n)[m] == s[m] {
      if 0 < n && |s| - n <= m {
        assert r[2 * |s| - n - 1 - m] == s[m];
      }
    }
  }

  /** Reversing a tail keeps every element with its multiplicity: a shape traced
      the other way round has the same points. */
  lemma ReverseTailSameElements<T>(s: seq<T>, n: int)
    requires n <= |s|
    ensures multiset(ReverseTail(s, n)) == multiset(s)
  {
    ReverseTailIsSplice(s, n);
    if 0 < n {
      ReversedSameElements(s[|s| - n..]);
      assert s == s[..|s| - n] + s[|s| - n..];
    }
  }

  /** The state of an in-place reversal of the last `n` elements of `s` that
      swaps from both ends towards the middle, once every position from
      `|s| - n` up to `i` has been swapped with its mirror image: `r` agrees
      with `s` outside the swapped pairs, and each swapped pair is exchanged. */
  ghost predicate SwappedUpTo<T>(s: seq<T>, r: seq<T>, n: int, i: int)
  {
    var count := |s|;
    var k := 2 * count - n - 1 - i;
    n <= count && |r| == count && count - n <= i && k <= count - 1 && (i <= k + 1 || i == count - n) &&
    (forall m :: 0 <= m < count && (m < count - n || i <= m <= k) ==> r[m] == s[m]) &&
    (forall m :: count - n <= m < i ==> r[m] == s[2 * count - n - 1 - m] && r[2 * count - n - 1 - m] == s[m])
  }

  /** Before the first swap nothing is swapped. */
  lemma SwapStart<T>(s: seq<T>, n: int)
    requires n <= |s|
    ensures SwappedUpTo(s, s, n, |s| - n)
  {
  }

  /** Swapping position `i` with its mirror `k` while `i < k` moves the
      reversal one pair further. */
  lemma SwapStep<T>(s: seq<T>, r: seq<T>, n: int, i: int)
    requires n <= |s|
    requires SwappedUpTo(s, r, n, i)
    requires i < 2 * |s| - n - 1 - i
    ensures var k := 2 * |s| - n - 1 - i;
      0 <= i < k < |r| && SwappedUpTo(s, r[i := r[k]][k := r[i]], n, i + 1)
  {
  }

  /** Once the two ends have met, the last `n` elements are reversed. */
  lemma SwapDone<T>(s: seq<T>, r: seq<T>, n: int, i: int)
    requires n <= |s|
    requires SwappedUpTo(s, r, n, i)
    requires 2 * |s| - n - 1 - i <= i
    ensures r == ReverseTail(s, n)
  {
    var count, k := |s|, 2 * |s| - n - 1 - i;
    forall m | 0 <= m < count ensures r[m] == ReverseTail(s, n)[m] {
      if k < m {
        var mirror := 2 * count - n - 1 - m;
        assert count - n <= mirror < i;
        assert r[2 * count - n - 1 - mirror] == s[mirror];
      }
    }
  }

  /** The winding a generator leaves behind: the tail of `n` reversed when
      counterclockwise order was asked for. */
  function Oriented<T>(s: seq<T>, ccw: bool, n: int): seq<T>
    requires n <= |s|
  {
    if ccw then ReverseTail(s, n) else s
  }

  /** Orienting points appended after a prefix leaves the prefix alone. */
  lemma OrientedAppend<T>(prefix: seq<T>, s: seq<T>, ccw: bool, n: int)
    requires n <= |s|
    ensures Oriented(prefix + s, ccw, n) == prefix + Oriented(s, ccw, n)
  {
    if ccw {
      ReverseTailAppend(prefix, s, n);
    }
  }
}
