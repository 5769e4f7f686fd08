/**
 * The JavaScript string operations the bot relies on, stated as explicit
 * character predicates: `\s`, `\d`, `\w`, `trim`, ASCII `toLowerCase`,
 * `includes`, `join`, `split(/\s+/).filter(Boolean)`, `replace(/\s+/g, " ")`
 * and the decimal rendering of a count inside a template string.
 */
module JsStrings {

  /** The `\s` class of a JavaScript regular expression, which is also what `trim` strips. */
  predicate IsSpace(c: char) {
    var n := c as int;
    (0x09 <= n <= 0x0D) || n == 0x20 || n == 0xA0 || n == 0x1680 || (0x2000 <= n <= 0x200A) ||
    n == 0x2028 || n == 0x2029 || n == 0x202F || n == 0x205F || n == 0x3000 || n == 0xFEFF
  }

  /** The `\d` class. */
  predicate IsDigit(c: char) {
    '0' <= c <= '9'
  }

  /** The `\w` class, which decides where `\b` stands. */
  predicate IsWordChar(c: char) {
    'a' <= c <= 'z' || 'A' <= c <= 'Z' || '0' <= c <= '9' || c == '_'
  }

  predicate AllDigits(s: string) {
    forall i :: 0 <= i < |s| ==> IsDigit(s[i])
  }

  function ToLowerChar(c: char): char {
    if 'A' <= c <= 'Z' then (c as int + 32) as char else c
  }

  /** `toLowerCase`, restricted to the ASCII letters. */
  function ToLower(s: string): (r: string)
    ensures |r| == |s|
    ensures forall i :: 0 <= i < |s| ==> r[i] == ToLowerChar(s[i])
  {
    if s == [] then [] else [ToLowerChar(s[0])] + ToLower(s[1..])
  }

  lemma ToLowerIdempotent(s: string)
    ensures ToLower(ToLower(s)) == ToLower(s)
  {
  }

  /** Lower-casing two words joined by a space lower-cases each word. */
  lemma ToLowerJoin(x: string, y: string)
    ensures ToLower(x + " " + y) == ToLower(x) + " " + ToLower(y)
  {
    ToLowerAppend(x + " ", y);
    ToLowerAppend(x, " ");
  }

  /** Lower-casing works character by character, so it distributes over concatenation. */
  lemma ToLowerAppend(a: string, b: string)
    ensures ToLower(a + b) == ToLower(a) + ToLower(b)
  {
    var l, r := ToLower(a + b), ToLower(a) + ToLower(b);
    forall i | 0 <= i < |l| ensures l[i] == r[i] {
      if i < |a| {
        assert (a + b)[i] == a[i];
      } else {
        assert (a + b)[i] == b[i - |a|];
      }
    }
  }

  /** Drops the leading white space. */
  function TrimStart(s: string): (r: string)
    ensures |r| <= |s| && r == s[|s| - |r|..]
    ensures r == [] || !IsSpace(r[0])
    ensures forall i :: 0 <= i < |s| - |r| ==> IsSpace(s[i])
  {
    if s != [] && IsSpace(s[0]) then TrimStart(s[1..]) else s
  }

  /** Drops the trailing white space. */
  function TrimEnd(s: string): (r: string)
    ensures |r| <= |s| && r == s[..|r|]
    ensures r == [] || !IsSpace(r[|r| - 1])
    ensures forall i :: |r| <= i < |s| ==> IsSpace(s[i])
  {
    if s != [] && IsSpace(s[|s| - 1]) then TrimEnd(s[..|s| - 1]) else s
  }

  /** `String.prototype.trim`. */
  function Trim(s: string): string {
    TrimEnd(TrimStart(s))
  }

  /**
   * `trim` keeps exactly the slice between the leading and the trailing white
   * space: everything cut is white space, and what is kept neither starts nor
   * ends with it.
   */
  lemma TrimIsSlice(s: string)
    ensures exists i, j :: 0 <= i <= j <= |s| && Trim(s) == s[i..j] &&
                           (forall k :: 0 <= k < i ==> IsSpace(s[k])) &&
                           (forall k :: j <= k < |s| ==> IsSpace(s[k]))
    ensures Trim(s) == [] || (!IsSpace(Trim(s)[0]) && !IsSpace(Trim(s)[|Trim(s)| - 1]))
  {
    var t := TrimStart(s);
    var r := TrimEnd(t);
    var i := |s| - |t|;
    var j := i + |r|;
    assert r == s[i..][..|r|] == s[i..j];
    forall k | j <= k < |s|
      ensures IsSpace(s[k])
    {
      assert s[k] == t[k - i];
    }
    if r != [] {
      assert r[0] == t[0];
    }
  }

  /** A string that neither starts nor ends with white space is left as it is by `trim`. */
  lemma TrimUnspaced(s: string)
    requires s == [] || (!IsSpace(s[0]) && !IsSpace(s[|s| - 1]))
    ensures Trim(s) == s
  {
  }

  /** `h[i..]` starts with `n`. */
  predicate OccursAt(h: string, n: string, i: int) {
    0 <= i && i + |n| <= |h| && h[i..i + |n|] == n
  }

  /** `h.includes(n)`. */
  predicate Includes(h: string, n: string)
    decreases |h|
  {
    n == [] || (|n| <= |h| && (h[..|n|] == n || Includes(h[1..], n)))
  }

  /** `includes` holds exactly when the needle occurs at some position. */
  lemma {:induction false} IncludesIff(h: string, n: string)
    ensures Includes(h, n) <==> exists i :: OccursAt(h, n, i)
    decreases |h|
  {
    if n == [] {
      assert OccursAt(h, n, 0);
    } else if |n| <= |h| {
      IncludesIff(h[1..], n);
      if Includes(h, n) {
        if h[..|n|] == n {
          assert OccursAt(h, n, 0);
        } else {
          var i :| OccursAt(h[1..], n, i);
          assert h[1..][i..i + |n|] == h[i + 1..i + 1 + |n|];
          assert OccursAt(h, n, i + 1);
        }
      } else {
        forall i | OccursAt(h, n, i)
          ensures false
        {
          if i > 0 {
            assert h[1..][i - 1..i - 1 + |n|] == h[i..i + |n|];
            assert OccursAt(h[1..], n, i - 1);
          }
        }
      }
    }
  }

  lemma IncludesSelf(s: string)
    ensures Includes(s, s)
  {
  }

  /** A needle found in `h` is still found once text is put around `h`. */
  lemma IncludesInContext(p: string, h: string, q: string, n: string)
    requires Includes(h, n)
    ensures Includes(p + h + q, n)
  {
    IncludesIff(h, n);
    var i :| OccursAt(h, n, i);
    assert (p + h + q)[|p| + i..|p| + i + |n|] == h[i..i + |n|];
    assert OccursAt(p + h + q, n, |p| + i);
    IncludesIff(p + h + q, n);
  }

  /** `parts.join(sep)`. */
  function Join(parts: seq<string>, sep: string): string {
    if |parts| == 0 then ""
    else if |parts| == 1 then parts[0]
    else parts[0] + sep + Join(parts[1..], sep)
  }

  /** Joining keeps the parts in their original order: joining a split list is joining its halves. */
  lemma {:induction false} JoinAppend(a: seq<string>, b: seq<string>, sep: string)
    requires a != [] && b != []
    ensures Join(a + b, sep) == Join(a, sep) + sep + Join(b, sep)
  {
    if |a| == 1 {
      assert (a + b)[1..] == b;
    } else {
      assert (a + b)[1..] == a[1..] + b;
      JoinAppend(a[1..], b, sep);
    }
  }

  /** Every part can be found in the joined text. */
  lemma {:induction false} JoinIncludesEach(parts: seq<string>, sep: string, k: nat)
    requires k < |parts|
    ensures Includes(Join(parts, sep), parts[k])
  {
    if |parts| == 1 {
      IncludesSelf(parts[0]);
    } else if k == 0 {
      IncludesSelf(parts[0]);
      IncludesInContext("", parts[0], sep + Join(parts[1..], sep), parts[0]);
      assert "" + parts[0] + (sep + Join(parts[1..], sep)) == Join(parts, sep);
    } else {
      JoinIncludesEach(parts[1..], sep, k - 1);
      IncludesInContext(parts[0] + sep, Join(parts[1..], sep), "", parts[k]);
      assert parts[0] + sep + Join(parts[1..], sep) + "" == Join(parts, sep);
    }
  }

  function DigitChar(d: nat): char
    requires d < 10
  {
    ('0' as int + d) as char
  }

  /** A count as a template string renders it: decimal digits, no leading zero. */
  function NatToString(n: nat): (s: string)
    ensures |s| >= 1 && AllDigits(s)
    ensures s[0] == '0' ==> n == 0
  {
    if n < 10 then [DigitChar(n)] else NatToString(n / 10) + [DigitChar(n % 10)]
  }

  /** The number a string of decimal digits denotes. */
  function DigitsValue(s: string): nat
    requires AllDigits(s)
  {
    if s == [] then 0 else DigitsValue(s[..|s| - 1]) * 10 + (s[|s| - 1] as int - '0' as int)
  }

  /** Reading back a rendered count gives the count: the rendering loses nothing. */
  lemma {:induction false} NatToStringRoundTrip(n: nat)
    ensures DigitsValue(NatToString(n)) == n
  {
    if n >= 10 {
      var s := NatToString(n);
      assert s[..|s| - 1] == NatToString(n / 10);
      NatToStringRoundTrip(n / 10);
    }
  }

  lemma NatToStringInjective(m: nat, n: nat)
    requires NatToString(m) == NatToString(n)
    ensures m == n
  {
    NatToStringRoundTrip(m);
    NatToStringRoundTrip(n);
  }

  /** Length of the longest prefix of `s` made of decimal digits. */
  function DigitRunLength(s: string): (n: nat)
    ensures n <= |s|
    ensures forall i :: 0 <= i < n ==> IsDigit(s[i])
    ensures n < |s| ==> !IsDigit(s[n])
  {
    if s != [] && IsDigit(s[0]) then 1 + DigitRunLength(s[1..]) else 0
  }

  /** A digit string followed by a non-digit is exactly the leading digit run. */
  lemma DigitRunOfDigits(d: string, rest: string)
    requires AllDigits(d)
    requires rest == [] || !IsDigit(rest[0])
    ensures DigitRunLength(d + rest) == |d|
    ensures (d + rest)[..|d|] == d
  {
    var n := DigitRunLength(d + rest);
    assert forall i :: 0 <= i < |d| ==> (d + rest)[i] == d[i];
    assert rest != [] ==> (d + rest)[|d|] == rest[0];
  }

  /** `s.replace(/\s+/g, " ")`: each maximal run of white space becomes one space. */
  function CollapseSpaces(s: string): (r: string)
    ensures r == [] <==> s == []
    ensures r != [] ==> (IsSpace(r[0]) <==> IsSpace(s[0]))
    ensures forall i :: 0 <= i < |r| && IsSpace(r[i]) ==> r[i] == ' '
    ensures forall i :: 0 <= i < |r| - 1 && IsSpace(r[i]) ==> !IsSpace(r[i + 1])
    decreases |s|
  {
    if s == [] then []
    else if IsSpace(s[0]) then " " + CollapseSpaces(TrimStart(s[1..]))
    else [s[0]] + CollapseSpaces(s[1..])
  }

  /** A run without white space is copied through unchanged. */
  lemma {:induction false} CollapseNoSpace(w: string, rest: string)
    requires NoSpace(w)
    ensures CollapseSpaces(w + rest) == w + CollapseSpaces(rest)
  {
    if w != [] {
      assert (w + rest)[0] == w[0];
      assert (w + rest)[1..] == w[1..] + rest;
      CollapseNoSpace(w[1..], rest);
    } else {
      assert w + rest == rest;
    }
  }

  /** Length of the longest prefix of `s` without white space. */
  function NonSpaceRunLength(s: string): (n: nat)
    ensures n <= |s|
    ensures forall i :: 0 <= i < n ==> !IsSpace(s[i])
    ensures n < |s| ==> IsSpace(s[n])
  {
    if s != [] && !IsSpace(s[0]) then 1 + NonSpaceRunLength(s[1..]) else 0
  }

  predicate NoSpace(s: string) {
    forall i :: 0 <= i < |s| ==> !IsSpace(s[i])
  }

  /** `s.split(/\s+/).filter(Boolean)`: the maximal runs of non-white-space characters. */
  function Tokens(s: string): seq<string>
    decreases |s|
  {
    if s == [] then []
    else if IsSpace(s[0]) then Tokens(s[1..])
    else
      var n := NonSpaceRunLength(s);
      [s[..n]] + Tokens(s[n..])
  }

  /** Every token is a piece of the text it was split from. */
  lemma {:induction false} TokensOccur(s: string, k: nat)
    requires k < |Tokens(s)|
    ensures Includes(s, Tokens(s)[k])
    decreases |s|
  {
    var tok := Tokens(s)[k];
    if IsSpace(s[0]) {
      TokensOccur(s[1..], k);
      IncludesInContext([s[0]], s[1..], "", tok);
      assert [s[0]] + s[1..] + "" == s;
    } else {
      var n := NonSpaceRunLength(s);
      if k == 0 {
        assert OccursAt(s, tok, 0);
        IncludesIff(s, tok);
      } else {
        TokensOccur(s[n..], k - 1);
        IncludesInContext(s[..n], s[n..], "", tok);
        assert s[..n] + s[n..] + "" == s;
      }
    }
  }

  /** Tokens are never empty and hold no white space. */
  lemma {:induction false} TokensAreWords(s: string, k: nat)
    requires k < |Tokens(s)|
    ensures Tokens(s)[k] != [] && NoSpace(Tokens(s)[k])
    decreases |s|
  {
    if IsSpace(s[0]) {
      TokensAreWords(s[1..], k);
    } else if k > 0 {
      TokensAreWords(s[NonSpaceRunLength(s)..], k - 1);
    }
  }

  /**
   * Collapsing white space keeps the words: the tokens of the collapsed text
   * are those of the original, in order. With the shape stated on
   * `CollapseSpaces` this pins down `replace(/\s+/g, " ")`.
   */
  lemma {:induction false} CollapseKeepsTokens(s: string)
    ensures Tokens(CollapseSpaces(s)) == Tokens(s)
    decreases |s|
  {
    if s == [] {
    } else if IsSpace(s[0]) {
      var t := TrimStart(s[1..]);
      var c := CollapseSpaces(t);
      assert (" " + c)[1..] == c;
      assert Tokens(" " + c) == Tokens(c);
      CollapseKeepsTokens(t);
      TokensDropSpaces(s[1..], |s[1..]| - |t|);
      assert Tokens(s) == Tokens(s[1..]);
    } else {
      var n := NonSpaceRunLength(s);
      var w, rest := s[..n], s[n..];
      assert s == w + rest;
      CollapseNoSpace(w, rest);
      TokensOfWord(w, CollapseSpaces(rest));
      CollapseKeepsTokens(rest);
    }
  }

  /** Leading white space contributes no token. */
  lemma {:induction false} TokensDropSpaces(t: string, k: nat)
    requires k <= |t| && forall i :: 0 <= i < k ==> IsSpace(t[i])
    ensures Tokens(t[k..]) == Tokens(t)
    decreases k
  {
    if k == 0 {
      assert t[0..] == t;
    } else {
      TokensDropSpaces(t[1..], k - 1);
      assert t[1..][k - 1..] == t[k..];
    }
  }

  /** A word followed by nothing or by white space is the first token. */
  lemma TokensOfWord(w: string, x: string)
    requires w != [] && NoSpace(w) && (x == [] || IsSpace(x[0]))
    ensures Tokens(w + x) == [w] + Tokens(x)
  {
    NonSpaceRunOfWord(w, x);
    assert (w + x)[..|w|] == w && (w + x)[|w|..] == x;
  }

  lemma {:induction false} NonSpaceRunOfWord(w: string, x: string)
    requires NoSpace(w) && (x == [] || IsSpace(x[0]))
    ensures NonSpaceRunLength(w + x) == |w|
    decreases |w|
  {
    if w == [] {
      assert w + x == x;
    } else {
      assert (w + x)[0] == w[0] && (w + x)[1..] == w[1..] + x;
      NonSpaceRunOfWord(w[1..], x);
    }
  }

  /** Concatenation of strings is associative. */
  lemma ConcatAssoc(x: string, y: string, z: string)
    ensures (x + y) + z == x + (y + z)
  {
  }

  /** Slicing a concatenation within its first part. */
  lemma SliceAppend(a: string, b: string, n: nat)
    requires n <= |a|
    ensures (a + b)[..n] == a[..n] && (a + b)[n..] == a[n..] + b
  {
  }
}
