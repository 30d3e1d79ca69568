/** Client-side pagination arithmetic shared by the three list pages:
    page counts (`Math.ceil(n / r)`), the row window `slice(start, end)`,
    the Prev/Next clamps and the serial-number column. `r` is the number of
    rows per page and is always positive. */
module Paging {

  /** `Math.ceil(n / r)` on naturals: the fewest pages of `r` rows that hold
      `n` rows. */
  function CeilDiv(n: nat, r: nat): (q: nat)
    requires r > 0
    ensures q * r >= n
    ensures q > 0 ==> (q - 1) * r < n
    ensures q == 0 <==> n == 0
  {
    if n == 0 then 0
    else
      var k := (n - 1) / r;
      assert (n - 1) == k * r + (n - 1) % r;
      assert (k + 1) * r == k * r + r;
      k + 1
  }

  /** `Math.ceil(n / r) || 1` (customer list) and `Math.max(1, Math.ceil(n / r))`
      (customer subtypes): the page count, but never 0. */
  function PageCountAtLeastOne(n: nat, r: nat): (q: nat)
    requires r > 0
    ensures q >= 1
    ensures n > 0 ==> q == CeilDiv(n, r)
    ensures n == 0 ==> q == 1
  {
    var c := CeilDiv(n, r);
    if c == 0 then 1 else c
  }

  /** `Math.max(1, c)` and `c || 1` agree on every natural. */
  lemma MaxOneIsOrOne(n: nat, r: nat)
    requires r > 0
    ensures PageCountAtLeastOne(n, r) == (if CeilDiv(n, r) >= 1 then CeilDiv(n, r) else 1)
  {
  }

  /** `s.slice(b, e)` for non-negative `b` and `e`: both ends are clipped to
      the length and a reversed range is empty. */
  function Slice<T>(s: seq<T>, b: nat, e: nat): (w: seq<T>)
    ensures |w| == if b < e && b < |s| then (if e < |s| then e else |s|) - b else 0
    ensures forall i :: 0 <= i < |w| ==> w[i] == s[b + i]
  {
    if b < e && b < |s| then s[b..if e < |s| then e else |s|] else []
  }

  /** Index of the first row of page `p` (pages count from 1). */
  function PageStart(p: nat, r: nat): nat
    requires p >= 1
  {
    (p - 1) * r
  }

  /** `customerData.slice(startIndex, startIndex + rowsPerTablePage)` with
      `startIndex = (p - 1) * r`: the rows of page `p`. */
  function PageRows<T>(s: seq<T>, p: nat, r: nat): (w: seq<T>)
    requires p >= 1 && r > 0
    ensures |w| == if PageStart(p, r) < |s| then (if |s| - PageStart(p, r) < r then |s| - PageStart(p, r) else r) else 0
    ensures |w| <= r
    ensures forall i :: 0 <= i < |w| ==> w[i] == s[PageStart(p, r) + i]
  {
    Slice(s, PageStart(p, r), PageStart(p, r) + r)
  }

  /** The master pages' window `slice(p * r - r, p * r)` is the same page. */
  lemma {:induction false} LastRowFormIsPageRows<T>(s: seq<T>, p: nat, r: nat)
    requires p >= 1 && r > 0
    ensures p * r - r >= 0
    ensures Slice(s, p * r - r, p * r) == PageRows(s, p, r)
  {
    assert p * r - r == (p - 1) * r;
  }

  lemma MulMonotone(a: nat, b: nat, r: nat)
    requires a <= b
    ensures a * r <= b * r
  {
  }

  /** Page `p` shows at least one row exactly when it is one of the first
      `ceil(n / r)` pages. */
  lemma PageNonEmptyIff<T>(s: seq<T>, p: nat, r: nat)
    requires p >= 1 && r > 0
    ensures |PageRows(s, p, r)| > 0 <==> p <= CeilDiv(|s|, r)
  {
    var q := CeilDiv(|s|, r);
    if p <= q {
      MulMonotone(p - 1, q - 1, r);
    } else {
      MulMonotone(q, p - 1, r);
    }
  }

  /** Every page before the last one is full. */
  lemma PagesBeforeLastAreFull<T>(s: seq<T>, p: nat, r: nat)
    requires p >= 1 && r > 0 && p < CeilDiv(|s|, r)
    ensures |PageRows(s, p, r)| == r
  {
    var q := CeilDiv(|s|, r);
    MulMonotone(p, q - 1, r);
    assert p * r == (p - 1) * r + r;
  }

  /** Row `k` of the whole list is row `k % r` of page `k / r + 1`, so the
      pages together show every row once. */
  lemma RowOnItsPage<T>(s: seq<T>, k: nat, r: nat)
    requires r > 0 && k < |s|
    ensures k % r < |PageRows(s, k / r + 1, r)|
    ensures PageRows(s, k / r + 1, r)[k % r] == s[k]
    ensures k / r + 1 <= CeilDiv(|s|, r)
  {
    assert PageStart(k / r + 1, r) == (k / r) * r;
    assert k == (k / r) * r + k % r;
    PageNonEmptyIff(s, k / r + 1, r);
  }

  /** The serial-number column: `(p - 1) * r + (i + 1)` for row `i` of page `p`. */
  function SerialNumber(p: nat, r: nat, i: nat): (n: nat)
    requires p >= 1
    ensures n >= 1
  {
    PageStart(p, r) + i + 1
  }

  /** The serial number of a shown row is its 1-based position in the whole
      list, so serial numbers rise by one down a page and continue from one
      page to the next. */
  lemma SerialNumberIsPosition<T>(s: seq<T>, p: nat, r: nat, i: nat)
    requires p >= 1 && r > 0 && i < |PageRows(s, p, r)|
    ensures SerialNumber(p, r, i) <= |s|
    ensures PageRows(s, p, r)[i] == s[SerialNumber(p, r, i) - 1]
  {
  }

  lemma SerialNumbersContinue(p: nat, r: nat)
    requires p >= 1 && r > 0
    ensures SerialNumber(p, r, r - 1) + 1 == SerialNumber(p + 1, r, 0)
  {
    assert PageStart(p + 1, r) == PageStart(p, r) + r;
  }

  /** The Prev handlers: `Math.max(p - 1, 1)`. */
  function PrevPage(p: nat): (q: nat)
    ensures q >= 1
    ensures p > 1 ==> q == p - 1
    ensures p <= 1 ==> q == 1
  {
    if p - 1 >= 1 then p - 1 else 1
  }

  /** The master pages' Next handler: `p < total ? p + 1 : p`. */
  function NextPage(p: nat, total: nat): (q: nat)
    ensures p < total ==> q == p + 1
    ensures p >= total ==> q == p
    ensures q <= if p > total then p else total
  {
    if p < total then p + 1 else p
  }
}
