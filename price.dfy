/**
 * `clean_price`, defined identically in scrapers/tw.py, scrapers/pn.py and test.py:
 * the first match of the pattern `\d+[.,]?\d*` in the text after every `,` has become `.`,
 * or the empty string when there is none.
 */
module Price {
  import opened Wrappers
  import opened Text

  predicate IsSeparator(c: char) {
    c == '.' || c == ','
  }

  /** `price_str.replace(",", ".")`: the same length, no comma left, other characters kept. */
  function CommasToDots(s: string): (r: string)
    ensures |r| == |s|
    ensures forall i :: 0 <= i < |r| ==> r[i] != ',' && (s[i] != ',' ==> r[i] == s[i])
  {
    seq(|s|, i requires 0 <= i < |s| => if s[i] == ',' then '.' else s[i])
  }

  /** `w` is in the language of `\d+[.,]?\d*`: a digit, then digits with at most one separator among them. */
  ghost predicate IsToken(w: string) {
    && |w| > 0 && IsDigit(w[0])
    && (forall m :: 0 <= m < |w| ==> IsDigit(w[m]) || IsSeparator(w[m]))
    && (forall m, n :: 0 <= m < n < |w| && IsSeparator(w[m]) ==> !IsSeparator(w[n]))
  }

  /**
   * `t[i..k]` is the first match of `\d+[.,]?\d*` in `t`: no match starts before `i`
   * (every match starts with a digit) and, the quantifiers being greedy, no longer match starts at `i`.
   */
  ghost predicate IsFirstToken(t: string, i: int, k: int) {
    && 0 <= i < k <= |t|
    && (forall m :: 0 <= m < i ==> !IsDigit(t[m]))
    && IsToken(t[i..k])
    && (forall k' :: k < k' <= |t| ==> !IsToken(t[i..k']))
  }

  /** The first index at or after `i` that holds a digit, or `|t|`. */
  function SkipNonDigits(t: string, i: nat): (j: nat)
    requires i <= |t|
    ensures i <= j <= |t|
    ensures forall k :: i <= k < j ==> !IsDigit(t[k])
    ensures j < |t| ==> IsDigit(t[j])
    decreases |t| - i
  {
    if i == |t| || IsDigit(t[i]) then i else SkipNonDigits(t, i + 1)
  }

  /** The end of the run of digits that starts at `i`. */
  function SkipDigits(t: string, i: nat): (j: nat)
    requires i <= |t|
    ensures i <= j <= |t|
    ensures forall k :: i <= k < j ==> IsDigit(t[k])
    ensures j < |t| ==> !IsDigit(t[j])
    decreases |t| - i
  {
    if i == |t| || !IsDigit(t[i]) then i else SkipDigits(t, i + 1)
  }

  /**
   * A hand-written scanner for the first match of `\d+[.,]?\d*` in `t`, or "" when there is none:
   * the result is "" exactly when `t` has no digit, and otherwise in the language of the pattern.
   */
  function ScanPrice(t: string): (r: string)
    ensures r == "" <==> NoDigit(t)
    ensures r != "" ==> IsToken(r)
  {
    var i := SkipNonDigits(t, 0);
    if i == |t| then ""
    else
      var j := SkipDigits(t, i);
      var k := if j < |t| && IsSeparator(t[j]) then SkipDigits(t, j + 1) else j;
      RunIsToken(t, i, j, k);
      t[i..k]
  }

  /** `clean_price(price_str)`, with Python's `None` as `None`. */
  function CleanPrice(s: Option<string>): (r: string)
    ensures s.None? ==> r == ""
    ensures forall m :: 0 <= m < |r| ==> r[m] != ','
  {
    if s.None? then ""
    else
      var t := CommasToDots(s.value);
      ScanPriceFacts(t);
      ScanPrice(t)
  }

  /** What the scanner returns, in the scanner's own terms. */
  lemma ScanPriceFacts(t: string)
    ensures NoDigit(t) ==> ScanPrice(t) == ""
    ensures !NoDigit(t) ==>
      var i := SkipNonDigits(t, 0);
      var j := SkipDigits(t, i);
      var k := if j < |t| && IsSeparator(t[j]) then SkipDigits(t, j + 1) else j;
      i < j <= k <= |t| && ScanPrice(t) == t[i..k]
  {
    var i := SkipNonDigits(t, 0);
    if i < |t| {
      assert IsDigit(t[i]);
    } else {
      assert NoDigit(t);
    }
  }

  /** Digits on `[i, j)`, possibly a separator at `j`, digits on `(j, k)`: a token. */
  lemma RunIsToken(t: string, i: nat, j: nat, k: nat)
    requires i < j <= k <= |t|
    requires forall m :: i <= m < k && m != j ==> IsDigit(t[m])
    requires j < k ==> IsSeparator(t[j])
    ensures IsToken(t[i..k])
  {
    var w := t[i..k];
    assert forall m :: 0 <= m < |w| ==> w[m] == t[i + m];
  }

  /** A token cannot run past a character that is neither a digit nor a separator, nor past a second separator. */
  lemma NoLongerToken(t: string, i: nat, j: nat, k: nat, k': nat)
    requires i < j <= k < k' <= |t|
    requires !IsDigit(t[k])
    requires k == j ==> !IsSeparator(t[k])
    requires k != j ==> IsSeparator(t[j])
    ensures !IsToken(t[i..k'])
  {
    var w := t[i..k'];
    assert w[k - i] == t[k];
    assert w[j - i] == t[j];
  }

  /** The scanner returns the leftmost, longest match of `\d+[.,]?\d*`, and "" exactly when `t` has no digit. */
  lemma ScanPriceIsFirstMatch(t: string)
    ensures ScanPrice(t) == "" <==> NoDigit(t)
    ensures ScanPrice(t) != "" ==> exists i, k :: IsFirstToken(t, i, k) && ScanPrice(t) == t[i..k]
  {
    ScanPriceFacts(t);
    if !NoDigit(t) {
      var i := SkipNonDigits(t, 0);
      var j := SkipDigits(t, i);
      var k := if j < |t| && IsSeparator(t[j]) then SkipDigits(t, j + 1) else j;
      RunIsToken(t, i, j, k);
      forall k' | k < k' <= |t| ensures !IsToken(t[i..k']) {
        NoLongerToken(t, i, j, k, k');
      }
      assert IsFirstToken(t, i, k);
    }
  }

  /** There is only one first match. */
  lemma FirstTokenUnique(t: string, i: int, k: int, i': int, k': int)
    requires IsFirstToken(t, i, k) && IsFirstToken(t, i', k')
    ensures i == i' && k == k'
  {
    assert t[i..k][0] == t[i] && t[i'..k'][0] == t[i'];
  }

  /**
   * The contract of `clean_price`: "" for `None` and for text without a digit; otherwise the first
   * `\d+[.,]?\d*` match of the text with commas turned to dots, which is a number `digits[.digits]`.
   */
  lemma CleanPriceIsFirstMatch(s: string)
    ensures CleanPrice(Some(s)) == "" <==> NoDigit(s)
    ensures CleanPrice(Some(s)) != "" ==>
      exists i, k :: IsFirstToken(CommasToDots(s), i, k) && CleanPrice(Some(s)) == CommasToDots(s)[i..k]
  {
    var t := CommasToDots(s);
    ScanPriceIsFirstMatch(t);
    assert NoDigit(t) <==> NoDigit(s) by {
      assert forall m :: 0 <= m < |s| ==> (IsDigit(t[m]) <==> IsDigit(s[m]));
    }
  }

  /** Cleaning a cleaned price changes nothing. */
  lemma CleanPriceIdempotent(s: string)
    ensures CleanPrice(Some(CleanPrice(Some(s)))) == CleanPrice(Some(s))
  {
    var r := CleanPrice(Some(s));
    var t := CommasToDots(s);
    assert CommasToDots(r) == r;
    if r != "" {
      CleanPriceIsFirstMatch(s);
      var i, k :| IsFirstToken(t, i, k) && r == t[i..k];
      assert r[0..|r|] == r;
      assert IsFirstToken(r, 0, |r|);
      ScanPriceIsFirstMatch(r);
      assert !NoDigit(r) by { assert IsDigit(r[0]); }
      var i', k' :| IsFirstToken(r, i', k') && ScanPrice(r) == r[i'..k'];
      FirstTokenUnique(r, 0, |r|, i', k');
    }
  }
}
