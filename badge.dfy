/**
 * The Tennis Warehouse badge text: the label kept from it
 * (`re.split(r"[\-\d%]+", badge)[0].strip()`) and the discount read from it
 * (`re.search(r'-(\d+)%', text).group(1)`), in scrapers/tw.py and test.py.
 */
module Badge {
  import opened Wrappers
  import opened Text
  import Price

  /** A character of the class `[\-\d%]` at which `re.split` cuts the badge. */
  predicate IsCut(c: char) {
    c == '-' || IsDigit(c) || c == '%'
  }

  /** The first index at or after `i` holding a cut character, or `|t|`. */
  function SkipToCut(t: string, i: nat): (j: nat)
    requires i <= |t|
    ensures i <= j <= |t|
    ensures forall k :: i <= k < j ==> !IsCut(t[k])
    ensures j < |t| ==> IsCut(t[j])
    decreases |t| - i
  {
    if i == |t| || IsCut(t[i]) then i else SkipToCut(t, i + 1)
  }

  /** `t[..n]` is the first piece `re.split(r"[\-\d%]+", t)` returns: the text before the first cut character. */
  ghost predicate IsSplitHead(t: string, n: int) {
    && 0 <= n <= |t|
    && (forall m :: 0 <= m < n ==> !IsCut(t[m]))
    && (n == |t| || IsCut(t[n]))
  }

  /** `re.split(r"[\-\d%]+", t)[0]`. */
  function SplitHead(t: string): (h: string)
    ensures IsSplitHead(t, |h|) && h == t[..|h|]
  {
    t[..SkipToCut(t, 0)]
  }

  /**
   * The badge label: `re.split(...)[0].strip()` applied to a non-empty badge text, "" left as it is.
   * The label holds no `-`, digit or `%`.
   */
  function CleanBadge(badge: string): (r: string)
    ensures badge == "" ==> r == ""
    ensures forall m :: 0 <= m < |r| ==> !IsCut(r[m])
  {
    if badge == "" then ""
    else
      var h := SplitHead(badge);
      var r := Strip(h);
      assert forall m :: 0 <= m < |r| ==> !IsCut(r[m]) by {
        var a :| IsStripOf(h, r, a);
        forall m | 0 <= m < |r| ensures !IsCut(r[m]) {
          assert r[m] == h[a + m];
        }
      }
      r
  }

  /**
   * The cleaned badge is the stripped text before the first `-`, digit or `%` of the raw badge;
   * it holds none of those characters and no surrounding whitespace, and an empty badge stays empty.
   */
  lemma CleanBadgeIsStrippedHead(badge: string)
    ensures badge == "" ==> CleanBadge(badge) == ""
    ensures exists n :: IsSplitHead(badge, n) && CleanBadge(badge) == Strip(badge[..n])
    ensures forall m :: 0 <= m < |CleanBadge(badge)| ==> !IsCut(CleanBadge(badge)[m])
    ensures CleanBadge(badge) == "" || (!IsSpace(CleanBadge(badge)[0]) && !IsSpace(CleanBadge(badge)[|CleanBadge(badge)| - 1]))
  {
    var h := SplitHead(badge);
    var r := CleanBadge(badge);
    if badge == "" {
      assert IsSplitHead(badge, 0) && badge[..0] == "";
    } else {
      var a :| IsStripOf(h, r, a);
    }
  }

  /** `t[i..j+1]` matches `-(\d+)%`: a minus at `i`, digits strictly between, a percent sign at `j`. */
  ghost predicate IsDiscountAt(t: string, i: int, j: int) {
    && 0 <= i && i + 1 < j < |t|
    && t[i] == '-'
    && (forall m :: i < m < j ==> IsDigit(t[m]))
    && t[j] == '%'
  }

  /** No match of `-(\d+)%` starts at `i` unless the scanner's test there succeeds. */
  lemma NoDiscountAt(t: string, i: nat)
    requires i < |t|
    requires t[i] != '-' || Price.SkipDigits(t, i + 1) == i + 1 || Price.SkipDigits(t, i + 1) == |t| || t[Price.SkipDigits(t, i + 1)] != '%'
    ensures forall j :: !IsDiscountAt(t, i, j)
  {
  }

  /** `re.search(r'-(\d+)%', t)` started at index `i`, scanning left to right: group 1 of the first match. */
  function SearchDiscount(t: string, i: nat): (r: Option<string>)
    requires i <= |t|
    ensures r.None? ==> forall a, b :: IsDiscountAt(t, a, b) ==> a < i
    ensures r.Some? ==> exists a, b :: i <= a && IsDiscountAt(t, a, b) && r.value == t[a + 1..b]
                                       && (forall a', b' :: IsDiscountAt(t, a', b') && i <= a' ==> a <= a')
    decreases |t| - i
  {
    if i == |t| then None
    else
      var k := Price.SkipDigits(t, i + 1);
      if t[i] == '-' && k > i + 1 && k < |t| && t[k] == '%' then
        assert IsDiscountAt(t, i, k);
        Some(t[i + 1..k])
      else
        NoDiscountAt(t, i);
        SearchDiscount(t, i + 1)
  }

  /** The digits of the leftmost `-NN%` in `t`, or "" when there is none; the result is all digits. */
  function Discount(t: string): (r: string)
    ensures r == "" <==> forall a, b :: !IsDiscountAt(t, a, b)
    ensures forall m :: 0 <= m < |r| ==> IsDigit(r[m])
  {
    match SearchDiscount(t, 0)
    case Some(d) =>
      assert |d| > 0 && forall m :: 0 <= m < |d| ==> IsDigit(d[m]) by {
        var a, b :| 0 <= a && IsDiscountAt(t, a, b) && d == t[a + 1..b];
        forall m | 0 <= m < |d| ensures IsDigit(d[m]) {
          assert d[m] == t[a + 1 + m];
        }
      }
      d
    case None => ""
  }

  /**
   * The discount is "" exactly when the text holds no `-`, digits, `%`; otherwise it is the
   * digit run of the leftmost such occurrence (in particular it is all digits).
   */
  lemma DiscountIsLeftmostMatch(t: string)
    ensures Discount(t) == "" <==> forall a, b :: !IsDiscountAt(t, a, b)
    ensures Discount(t) != "" ==>
      exists a, b :: IsDiscountAt(t, a, b) && Discount(t) == t[a + 1..b]
                     && forall a', b' :: IsDiscountAt(t, a', b') ==> a <= a'
    ensures forall m :: 0 <= m < |Discount(t)| ==> IsDigit(Discount(t)[m])
  {
    var r := SearchDiscount(t, 0);
    if r.Some? {
      var a, b :| 0 <= a && IsDiscountAt(t, a, b) && r.value == t[a + 1..b]
                  && (forall a', b' :: IsDiscountAt(t, a', b') && 0 <= a' ==> a <= a');
    }
  }
}
