/** Array helpers shared by the solving phases. */
module ArrayUtil {
  import opened Outcomes

  /** Java's `%` on ints: truncates toward zero, so the remainder takes the
      sign of the dividend. */
  function JavaRem(a: int, b: int): (r: int)
    requires b > 0
    ensures a >= 0 ==> r == a % b
    ensures -b < r < b
  {
    if a >= 0 then a % b else -((-a) % b)
  }

  /** `loopedIndex`: `arr[(arr.length + index) % arr.length]` with Java's `%`.
      An empty array divides by zero; an index below `-arr.length` can leave a
      negative remainder, which indexes out of bounds. Whenever it succeeds it
      returns the element at `index` taken circularly. */
  function LoopedIndex<T>(arr: seq<T>, index: int): (r: Result<T>)
    ensures r.Ok? <==> |arr| > 0 && (index >= -|arr| || index % |arr| == 0)
    ensures r.Ok? ==> r.value == arr[index % |arr|]
  {
    if |arr| == 0 then Err(Arithmetic("/ by zero"))
    else
      var normalized := JavaRem(|arr| + index, |arr|);
      LoopedRemainder(|arr|, index);
      if normalized < 0 then Err(IndexOutOfBounds("negative index"))
      else Ok(arr[normalized])
  }

  /** The remainder `loopedIndex` computes is non-negative exactly when the
      index is at least `-n` or a multiple of `n`, and it is then the
      Euclidean remainder of the index. */
  lemma LoopedRemainder(n: int, index: int)
    requires n > 0
    ensures JavaRem(n + index, n) >= 0 <==> (index >= -n || index % n == 0)
    ensures JavaRem(n + index, n) >= 0 ==> JavaRem(n + index, n) == index % n
  {
    ShiftMod(index, n);
    if n + index < 0 {
      NegMod(n + index, n);
    }
  }

  lemma ShiftMod(i: int, n: int)
    requires n > 0
    ensures (n + i) % n == i % n
  {
    ModUnique(n + i, n, i / n + 1, i % n);
  }

  lemma NegMod(a: int, n: int)
    requires n > 0 && a < 0
    ensures (-a) % n == 0 <==> a % n == 0
  {
    if (-a) % n == 0 {
      ModUnique(a, n, -((-a) / n), 0);
    }
    if a % n == 0 {
      ModUnique(-a, n, -(a / n), 0);
    }
  }

  /** Euclidean division is determined by the quotient-remainder equation. */
  lemma ModUnique(x: int, n: int, q: int, r: int)
    requires n > 0 && 0 <= r < n && x == q * n + r
    ensures x / n == q && x % n == r
  {
    var q', r' := x / n, x % n;
    assert (q - q') * n == r' - r;
    if q - q' >= 1 {
      MulAtLeast(q - q', n);
    } else if q' - q >= 1 {
      MulAtLeast(q' - q, n);
    }
  }

  lemma MulAtLeast(a: int, n: int)
    requires a >= 1 && n > 0
    ensures a * n >= n
  {
  }

  /** `k` is what `indexOfHighest` must return for `s`: -1 when nothing is
      positive, otherwise the lowest index holding the (positive) maximum. */
  ghost predicate IsIndexOfHighest(s: seq<int>, k: int)
  {
    && -1 <= k < |s|
    && (k == -1 <==> forall i :: 0 <= i < |s| ==> s[i] <= 0)
    && (k != -1 ==> s[k] > 0 && (forall i :: 0 <= i < |s| ==> s[i] <= s[k])
                    && (forall i :: 0 <= i < k ==> s[i] < s[k]))
  }

  /** The index a left-to-right scan for a strictly higher, positive value
      settles on. */
  function HighestIndex(s: seq<int>): (k: int)
    ensures IsIndexOfHighest(s, k)
  {
    if |s| == 0 then -1
    else
      var k := HighestIndex(s[..|s| - 1]);
      if s[|s| - 1] > (if k == -1 then 0 else s[k]) then |s| - 1 else k
  }

  /** `indexOfHighest`. */
  method IndexOfHighest(arr: array<int>) returns (highestIndex: int)
    ensures highestIndex == HighestIndex(arr[..])
  {
    var highestValue := 0;
    highestIndex := -1;
    for index := 0 to arr.Length
      invariant highestIndex == HighestIndex(arr[..index])
      invariant highestValue == if highestIndex == -1 then 0 else arr[highestIndex]
    {
      assert arr[..index + 1][..index] == arr[..index];
      var value := arr[index];
      if value > highestValue {
        highestValue := value;
        highestIndex := index;
      }
    }
    assert arr[..arr.Length] == arr[..];
  }
}
