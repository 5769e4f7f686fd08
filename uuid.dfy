/**
 * `isLikelyUuid`: the test
 * `/^[0-9a-f]{8}-[0-9a-f]{4}-[0-9a-f]{4}-[0-9a-f]{4}-[0-9a-f]{12}$/i`,
 * written as a character predicate over positions.
 */
module Uuid {
  import opened JsStrings

  /** `[0-9a-f]` under the `i` flag. */
  predicate IsHexDigit(c: char) {
    '0' <= c <= '9' || 'a' <= c <= 'f' || 'A' <= c <= 'F'
  }

  predicate AllHex(s: string) {
    forall i :: 0 <= i < |s| ==> IsHexDigit(s[i])
  }

  /** Where the four hyphens of the 8-4-4-4-12 shape stand. */
  predicate IsHyphenPosition(i: int) {
    i == 8 || i == 13 || i == 18 || i == 23
  }

  predicate IsLikelyUuid(s: string) {
    |s| == 36 &&
    forall i :: 0 <= i < 36 ==> if IsHyphenPosition(i) then s[i] == '-' else IsHexDigit(s[i])
  }

  /** The five groups, in the order the pattern lists them. */
  function Groups(a: string, b: string, c: string, d: string, e: string): string {
    a + "-" + b + "-" + c + "-" + d + "-" + e
  }

  /** Five hex groups of lengths 8, 4, 4, 4 and 12 joined by hyphens pass the test, and nothing else does. */
  lemma UuidFromGroups(a: string, b: string, c: string, d: string, e: string)
    ensures IsLikelyUuid(Groups(a, b, c, d, e)) <==>
            |a| == 8 && |b| == 4 && |c| == 4 && |d| == 4 && |e| == 12 &&
            AllHex(a) && AllHex(b) && AllHex(c) && AllHex(d) && AllHex(e)
  {
    var s := Groups(a, b, c, d, e);
    if IsLikelyUuid(s) {
      // Each separator sits on a hyphen position ('-' is not a hex digit), and
      // the four separators are increasing, so they take the four positions in order.
      var p1, p2, p3, p4 := |a|, |a| + 1 + |b|, |a| + |b| + |c| + 2, |a| + |b| + |c| + |d| + 3;
      assert s[p1] == '-' && s[p2] == '-' && s[p3] == '-' && s[p4] == '-';
      assert IsHyphenPosition(p1) && IsHyphenPosition(p2) && IsHyphenPosition(p3) && IsHyphenPosition(p4);
      forall i | 0 <= i < 8 ensures IsHexDigit(a[i]) { assert s[i] == a[i]; }
      forall i | 0 <= i < 4 ensures IsHexDigit(b[i]) { assert s[9 + i] == b[i]; }
      forall i | 0 <= i < 4 ensures IsHexDigit(c[i]) { assert s[14 + i] == c[i]; }
      forall i | 0 <= i < 4 ensures IsHexDigit(d[i]) { assert s[19 + i] == d[i]; }
      forall i | 0 <= i < 12 ensures IsHexDigit(e[i]) { assert s[24 + i] == e[i]; }
    }
  }

  /** Every accepted string splits into its five groups at the fixed hyphen positions. */
  lemma UuidSplits(s: string)
    requires IsLikelyUuid(s)
    ensures s == Groups(s[..8], s[9..13], s[14..18], s[19..23], s[24..])
    ensures AllHex(s[..8]) && AllHex(s[9..13]) && AllHex(s[14..18]) && AllHex(s[19..23]) && AllHex(s[24..])
  {
    var g := Groups(s[..8], s[9..13], s[14..18], s[19..23], s[24..]);
    assert |g| == 36;
    forall i | 0 <= i < 36 ensures g[i] == s[i] {
      if IsHyphenPosition(i) { assert s[i] == '-'; }
    }
    forall i | 0 <= i < 8 ensures IsHexDigit(s[..8][i]) { assert !IsHyphenPosition(i); }
    forall i | 0 <= i < 4 ensures IsHexDigit(s[9..13][i]) { assert !IsHyphenPosition(9 + i); }
    forall i | 0 <= i < 4 ensures IsHexDigit(s[14..18][i]) { assert !IsHyphenPosition(14 + i); }
    forall i | 0 <= i < 4 ensures IsHexDigit(s[19..23][i]) { assert !IsHyphenPosition(19 + i); }
    forall i | 0 <= i < 12 ensures IsHexDigit(s[24..][i]) { assert !IsHyphenPosition(24 + i); }
  }

  /** The `i` flag: upper- and lower-case spellings are accepted alike. */
  lemma UuidIgnoresCase(s: string)
    ensures IsLikelyUuid(ToLower(s)) <==> IsLikelyUuid(s)
  {
    var l := ToLower(s);
    if |s| == 36 {
      forall i | 0 <= i < 36
        ensures (l[i] == '-' <==> s[i] == '-') && (IsHexDigit(l[i]) <==> IsHexDigit(s[i]))
      {
      }
    }
  }

  /** An accepted value is never empty, so it is truthy. */
  lemma UuidIsTruthy(s: string)
    requires IsLikelyUuid(s)
    ensures s != "" && Trim(s) == s
  {
    assert !IsSpace(s[0]) && !IsSpace(s[35]);
  }
}
