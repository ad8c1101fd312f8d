/**
 * reformPolesZeros: the fixed reordering applied to the pole and zero lists
 * of the Bessel and user-defined engines. For every odd i below Np/2 the
 * entries at i and Np-1-i change places; nothing else moves.
 */
module Reform {
  import opened FilterTypes

  /** s with the entries at i and j exchanged (std::swap on two elements of a QVector). */
  function Swap<T>(s: seq<T>, i: int, j: int): (t: seq<T>)
    requires 0 <= i < |s| && 0 <= j < |s|
    ensures |t| == |s| && t[i] == s[j] && t[j] == s[i]
    ensures forall k :: 0 <= k < |s| && k != i && k != j ==> t[k] == s[k]
  {
    s[i := s[j]][j := s[i]]
  }

  /**
   * The list after the first k rounds of the reform loop (i = 0 .. k-1):
   * round i swaps i with |s|-1-i when i is odd and leaves the list alone
   * when it is even.
   */
  function SwapPrefix<T>(s: seq<T>, k: int): (t: seq<T>)
    requires 0 <= k <= |s| / 2
    ensures |t| == |s|
  {
    if k == 0 then s
    else
      var t := SwapPrefix(s, k - 1);
      if Odd(k - 1) then Swap(t, k - 1, |s| - 1 - (k - 1)) else t
  }

  /** The whole reform: all Np/2 rounds of the loop. */
  function Reformed<T>(s: seq<T>): (t: seq<T>)
    ensures |t| == |s|
  {
    SwapPrefix(s, |s| / 2)
  }

  /**
   * Where position j of an n-element list takes its entry from once the first
   * k rounds have run: from the mirror position n-1-j when j, or its mirror,
   * is an odd index below k; otherwise from j itself.
   */
  function SwapSource(n: int, k: int, j: int): int
  {
    if (0 <= j < k && Odd(j)) || (0 <= n - 1 - j < k && Odd(n - 1 - j)) then n - 1 - j else j
  }

  /** The source position of j after the full reform of an n-element list. */
  function ReformIndex(n: int, j: int): int
  {
    SwapSource(n, n / 2, j)
  }

  /** Closed form of the first k rounds: position j holds the entry from SwapSource(|s|, k, j). */
  lemma {:induction false} SwapPrefixAt<T>(s: seq<T>, k: int, j: int)
    requires 0 <= k <= |s| / 2 && 0 <= j < |s|
    ensures |SwapPrefix(s, k)| == |s|
    ensures 0 <= SwapSource(|s|, k, j) < |s|
    ensures SwapPrefix(s, k)[j] == s[SwapSource(|s|, k, j)]
    decreases k
  {
    if k > 0 {
      var n := |s|;
      var t := SwapPrefix(s, k - 1);
      var i := k - 1;
      if Odd(i) && (j == i || j == n - 1 - i) {
        SwapPrefixAt(s, k - 1, n - 1 - j);
      } else {
        SwapPrefixAt(s, k - 1, j);
      }
    }
  }

  /**
   * reformPolesZeros moves exactly the entries at odd i < Np/2 and their
   * mirrors Np-1-i, each to the other's place; every other entry stays put.
   */
  lemma ReformedAt<T>(s: seq<T>, j: int)
    requires 0 <= j < |s|
    ensures |Reformed(s)| == |s|
    ensures 0 <= ReformIndex(|s|, j) < |s|
    ensures Reformed(s)[j] == s[ReformIndex(|s|, j)]
    ensures ReformIndex(|s|, j) != j <==>
              (j < |s| / 2 && Odd(j)) || (|s| - 1 - j < |s| / 2 && Odd(|s| - 1 - j))
    ensures ReformIndex(|s|, j) != j ==> ReformIndex(|s|, j) == |s| - 1 - j
  {
    SwapPrefixAt(s, |s| / 2, j);
  }

  /** The mapping of positions is its own inverse. */
  lemma ReformIndexInvolution(n: int, j: int)
    requires 0 <= j < n
    ensures 0 <= ReformIndex(n, j) < n
    ensures ReformIndex(n, ReformIndex(n, j)) == j
  {
  }

  /** Applying reformPolesZeros twice restores the original order. */
  lemma ReformedInvolution<T>(s: seq<T>)
    ensures Reformed(Reformed(s)) == s
  {
    var r := Reformed(s);
    forall j | 0 <= j < |s|
      ensures Reformed(r)[j] == s[j]
    {
      ReformedAt(r, j);
      ReformedAt(s, ReformIndex(|s|, j));
      ReformIndexInvolution(|s|, j);
    }
  }

  /** Exchanging two entries keeps the same multiset of entries. */
  lemma SwapPermutes<T>(s: seq<T>, i: int, j: int)
    requires 0 <= i < |s| && 0 <= j < |s|
    ensures multiset(Swap(s, i, j)) == multiset(s)
  {
    if i != j {
      calc {
        multiset(Swap(s, i, j));
        multiset(s[i := s[j]][j := s[i]]);
        multiset(s[i := s[j]]) - multiset{s[i := s[j]][j]} + multiset{s[i]};
        multiset(s) - multiset{s[i]} + multiset{s[j]} - multiset{s[j]} + multiset{s[i]};
      }
    }
  }

  /** One round of the loop only exchanges two entries: the multiset is unchanged. */
  lemma SwapRoundPermutes<T>(s: seq<T>, k: int)
    requires 0 < k <= |s| / 2
    ensures multiset(SwapPrefix(s, k)) == multiset(SwapPrefix(s, k - 1))
  {
    if Odd(k - 1) {
      SwapPermutes(SwapPrefix(s, k - 1), k - 1, |s| - 1 - (k - 1));
    }
  }

  /** Every round of the loop only exchanges entries, so the list stays a permutation of its input. */
  lemma {:induction false} SwapPrefixPermutes<T>(s: seq<T>, k: int)
    requires 0 <= k <= |s| / 2
    ensures multiset(SwapPrefix(s, k)) == multiset(s)
    decreases k
  {
    if k > 0 {
      SwapPrefixPermutes(s, k - 1);
      SwapRoundPermutes(s, k);
    }
  }

  /** reformPolesZeros keeps the length and the multiset of entries. */
  lemma ReformedPermutes<T>(s: seq<T>)
    ensures |Reformed(s)| == |s|
    ensures multiset(Reformed(s)) == multiset(s)
  {
    SwapPrefixPermutes(s, |s| / 2);
  }

  /** Lists of up to three entries are left as they are: the loop only reaches index 0. */
  lemma ReformedShort<T>(s: seq<T>)
    requires |s| <= 3
    ensures Reformed(s) == s
  {
    if |s| >= 2 {
      assert SwapPrefix(s, 1) == SwapPrefix(s, 0);
    }
  }

  /**
   * The first and the last entry never move, nor does any even position of
   * the first half or its mirror image in the second half.
   */
  lemma ReformedFixed<T>(s: seq<T>, j: int)
    requires 0 <= j < |s|
    requires j == 0 || j == |s| - 1 || (j < |s| / 2 && !Odd(j)) || (|s| - 1 - j < |s| / 2 && !Odd(|s| - 1 - j))
    ensures Reformed(s)[j] == s[j]
  {
    ReformedAt(s, j);
  }

  /** Four, six and eight entries: the positions the loop exchanges. */
  lemma ReformedExamples<T>(a: T, b: T, c: T, d: T, e: T, f: T, g: T, h: T)
    ensures Reformed([a, b, c, d]) == [a, c, b, d]
    ensures Reformed([a, b, c, d, e, f]) == [a, e, c, d, b, f]
    ensures Reformed([a, b, c, d, e, f, g, h]) == [a, g, c, e, d, f, b, h]
  {
    var s4 := [a, b, c, d];
    assert SwapPrefix(s4, 1) == s4;
    assert Reformed(s4) == Swap(s4, 1, 2);
    var s6 := [a, b, c, d, e, f];
    assert SwapPrefix(s6, 1) == s6;
    var t6 := Swap(s6, 1, 4);
    assert SwapPrefix(s6, 2) == t6;
    assert Reformed(s6) == t6;
    assert t6 == [a, e, c, d, b, f];
    var s8 := [a, b, c, d, e, f, g, h];
    assert SwapPrefix(s8, 1) == s8;
    var t8 := Swap(s8, 1, 6);
    assert SwapPrefix(s8, 3) == SwapPrefix(s8, 2) == t8;
    assert Reformed(s8) == Swap(t8, 3, 4);
    assert Swap(t8, 3, 4) == [a, g, c, e, d, f, b, h];
  }

  /**
   * The reform lambda: loops i over 0 .. Np/2-1, skips even i and swaps
   * data[i] with data[Np-1-i] otherwise.
   */
  method ReformList<T>(data: seq<T>) returns (r: seq<T>)
    ensures r == Reformed(data)
    ensures |r| == |data| && multiset(r) == multiset(data)
  {
    var np := |data|;
    r := data;
    var i := 0;
    while i < np / 2
      invariant 0 <= i <= np / 2
      invariant r == SwapPrefix(data, i)
    {
      if i % 2 == 0 {
        i := i + 1;
        continue;
      }
      r := r[i := r[np - 1 - i]][np - 1 - i := r[i]];
      i := i + 1;
    }
    ReformedPermutes(data);
  }
}
