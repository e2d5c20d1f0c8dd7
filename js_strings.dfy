/** String.prototype.trim of ECMA-262: strips leading and trailing white space,
    where white space is the WhiteSpace and LineTerminator code points of the
    language's lexical grammar. */
module JsStrings {

  /** WhiteSpace (TAB, VT, FF, ZWNBSP and the Space_Separator category) and
      LineTerminator (LF, CR, LS, PS). */
  predicate IsWhiteSpace(c: char) {
    var n := c as int;
    || n == 0x09 || n == 0x0B || n == 0x0C || n == 0xFEFF
    || n == 0x20 || n == 0xA0 || n == 0x1680
    || (0x2000 <= n <= 0x200A) || n == 0x202F || n == 0x205F || n == 0x3000
    || n == 0x0A || n == 0x0D || n == 0x2028 || n == 0x2029
  }

  /** Every character of `s` at index lo (inclusive) to hi (exclusive) is white space. */
  predicate WhiteSpaceBetween(s: string, lo: int, hi: int)
    requires 0 <= lo <= hi <= |s|
  {
    forall k :: lo <= k < hi ==> IsWhiteSpace(s[k])
  }

  predicate AllWhiteSpace(s: string) {
    WhiteSpaceBetween(s, 0, |s|)
  }

  /** `s` neither starts nor ends with white space. */
  predicate Trimmed(s: string) {
    s != [] ==> !IsWhiteSpace(s[0]) && !IsWhiteSpace(s[|s| - 1])
  }

  /** Drops the leading white space: the result is a suffix of `s`, what was
      dropped is all white space, and the result does not start with any. */
  function TrimStart(s: string): (r: string)
    ensures |r| <= |s| && r == s[|s| - |r|..]
    ensures WhiteSpaceBetween(s, 0, |s| - |r|)
    ensures r != [] ==> !IsWhiteSpace(r[0])
  {
    if s != [] && IsWhiteSpace(s[0]) then TrimStart(s[1..]) else s
  }

  /** Drops the trailing white space: the result is a prefix of `s`, what was
      dropped is all white space, and the result does not end with any. */
  function TrimEnd(s: string): (r: string)
    ensures |r| <= |s| && r == s[..|r|]
    ensures WhiteSpaceBetween(s, |r|, |s|)
    ensures r != [] ==> !IsWhiteSpace(r[|r| - 1])
  {
    if s != [] && IsWhiteSpace(s[|s| - 1]) then TrimEnd(s[..|s| - 1]) else s
  }

  /** String.prototype.trim: nothing is left exactly when everything was
      white space, and what is left neither starts nor ends with white space. */
  function Trim(s: string): (r: string)
    ensures Trimmed(r)
    ensures r == [] <==> AllWhiteSpace(s)
  {
    TrimEnds(s);
    TrimEmptyIff(s);
    TrimEnd(TrimStart(s))
  }

  /** What Trim keeps is a contiguous part of `s`, and all it drops on
      either side is white space. */
  lemma TrimIsInfix(s: string)
    ensures var r := Trim(s);
            exists i :: 0 <= i && i + |r| <= |s| && r == s[i..i + |r|]
                        && WhiteSpaceBetween(s, 0, i) && WhiteSpaceBetween(s, i + |r|, |s|)
  {
    var i := TrimParts(s);
  }

  /** The two halves of Trim: TrimStart drops s[..i], TrimEnd drops what
      follows the kept part. */
  lemma TrimParts(s: string) returns (i: nat)
    ensures var r := Trim(s);
            && i + |r| <= |s| && r == s[i..i + |r|]
            && WhiteSpaceBetween(s, 0, i) && WhiteSpaceBetween(s, i + |r|, |s|)
  {
    var t := TrimStart(s);
    var r := TrimEnd(t);
    i := |s| - |t|;
    assert r == s[i..i + |r|];
    forall k | i + |r| <= k < |s|
      ensures IsWhiteSpace(s[k])
    {
      assert s[k] == t[k - i];
    }
  }

  /** Neither end of what trimming keeps is white space. */
  lemma TrimEnds(s: string)
    ensures Trimmed(TrimEnd(TrimStart(s)))
  {
    var t := TrimStart(s);
    var r := TrimEnd(t);
    if r != [] {
      assert r[0] == t[0];
    }
  }

  /** Trimming leaves nothing exactly when everything is white space. */
  lemma TrimEmptyIff(s: string)
    ensures TrimEnd(TrimStart(s)) == [] <==> AllWhiteSpace(s)
  {
    var t := TrimStart(s);
    if TrimEnd(t) == [] {
      NoneLeft(t);
    } else {
      assert t[0] == s[|s| - |t|];
    }
  }

  /** A string that is all white space yet does not start with white space is empty. */
  lemma NoneLeft(t: string)
    requires AllWhiteSpace(t) && (t != [] ==> !IsWhiteSpace(t[0]))
    ensures t == []
  {
  }

  /** Trimming a trimmed string changes nothing. */
  lemma TrimIdempotent(s: string)
    ensures Trim(Trim(s)) == Trim(s)
  {
    TrimOfTrimmed(Trim(s));
  }

  /** A string with no white space at either end is its own trim. */
  lemma TrimOfTrimmed(s: string)
    requires Trimmed(s)
    ensures Trim(s) == s
  {
    if s != [] {
      assert TrimStart(s) == s;
      assert TrimEnd(s) == s;
    }
  }
}
