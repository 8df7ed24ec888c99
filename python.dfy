/** The pieces of Python's built-in behaviour that the service relies on:
    optional values, exceptions, and the str methods it calls
    (strip, lower, find, rfind, replace, split, join, slicing, int()). */
module Python {

  datatype Option<+T> = None | Some(value: T)

  datatype Result<+T, +E> = Ok(value: T) | Err(error: E)

  /** The exceptions the modelled code lets escape. Only their kind and, for
      HTTPException, the status and detail are kept. */
  datatype Exception =
    | TypeError
    | KeyError(key: string)
    | IndexError
    | AttributeError
    | ValueError(message: string)
    | HttpError(status: nat, detail: string)

  newtype byte = x: int | 0 <= x < 256

  /** str.isspace() for one character: the full list of code points Python
      treats as whitespace, which str.strip() removes. */
  predicate IsSpace(c: char) {
    || c == ' '
    || ('\t' <= c <= '\r')
    || ('\U{1c}' <= c <= '\U{1f}')
    || c == '\U{85}' || c == '\U{a0}' || c == '\U{1680}'
    || ('\U{2000}' <= c <= '\U{200a}')
    || c == '\U{2028}' || c == '\U{2029}' || c == '\U{202f}'
    || c == '\U{205f}' || c == '\U{3000}'
  }

  /** Index of the first character of s that is not whitespace (|s| if none). */
  function LeadingSpaces(s: string): (i: nat)
    ensures i <= |s|
    ensures forall k :: 0 <= k < i ==> IsSpace(s[k])
    ensures i < |s| ==> !IsSpace(s[i])
  {
    if s == [] || !IsSpace(s[0]) then 0 else 1 + LeadingSpaces(s[1..])
  }

  /** One past the index of the last character of s that is not whitespace (0 if none). */
  function TrailingStart(s: string): (j: nat)
    ensures j <= |s|
    ensures forall k :: j <= k < |s| ==> IsSpace(s[k])
    ensures 0 < j ==> !IsSpace(s[j - 1])
  {
    if s == [] || !IsSpace(s[|s| - 1]) then |s| else TrailingStart(s[..|s| - 1])
  }

  /** str.strip() with no argument. */
  function Strip(s: string): (r: string)
    ensures |r| <= |s|
    ensures r != [] ==> !IsSpace(r[0]) && !IsSpace(r[|r| - 1])
  {
    var t := s[LeadingSpaces(s)..];
    t[..TrailingStart(t)]
  }

  /** strip() keeps one contiguous block of s and removes only whitespace
      around it. */
  lemma StripIsInfix(s: string)
    ensures exists i, j ::
              && 0 <= i <= j <= |s| && Strip(s) == s[i..j]
              && (forall k :: 0 <= k < i ==> IsSpace(s[k]))
              && (forall k :: j <= k < |s| ==> IsSpace(s[k]))
  {
    var i := LeadingSpaces(s);
    var t := s[i..];
    var j := i + TrailingStart(t);
    assert t[..TrailingStart(t)] == s[i..j];
    assert forall k :: j <= k < |s| ==> s[k] == t[k - i];
  }

  /** strip() leaves nothing exactly when every character is whitespace. */
  lemma StripEmpty(s: string)
    ensures Strip(s) == [] <==> forall k :: 0 <= k < |s| ==> IsSpace(s[k])
  {
    var i := LeadingSpaces(s);
    if i < |s| {
      var t := s[i..];
      assert t[0] == s[i];
      assert TrailingStart(t) > 0;
      assert |Strip(s)| > 0;
    }
  }

  /** strip() leaves alone a string that neither starts nor ends with
      whitespace. */
  lemma StripUnchanged(s: string)
    requires s != [] ==> !IsSpace(s[0]) && !IsSpace(s[|s| - 1])
    ensures Strip(s) == s
  {
  }

  /** str.lower() on one character (ASCII letters; other characters unchanged). */
  function LowerChar(c: char): char {
    if 'A' <= c <= 'Z' then (c as int - 'A' as int + 'a' as int) as char else c
  }

  /** str.lower() on the ASCII letters of s. */
  function Lower(s: string): (r: string)
    ensures |r| == |s|
    ensures forall k :: 0 <= k < |s| ==> r[k] == LowerChar(s[k])
  {
    seq(|s|, k requires 0 <= k < |s| => LowerChar(s[k]))
  }

  /** lower() leaves alone a string without upper-case ASCII letters. */
  lemma LowerUnchanged(s: string)
    requires forall k :: 0 <= k < |s| ==> !('A' <= s[k] <= 'Z')
    ensures Lower(s) == s
  {
  }

  /** lower() applied twice is lower() once. */
  lemma LowerIdempotent(s: string)
    ensures Lower(Lower(s)) == Lower(s)
  {
    LowerUnchanged(Lower(s));
  }

  /** `sub in s` for two strings: sub occurs in s as a contiguous block. */
  predicate ContainsSub(s: string, sub: string) {
    exists i :: 0 <= i <= |s| && sub <= s[i..]
  }

  /** str.find(c) for one character: the first index holding c, or -1. */
  function Find(s: string, c: char): (r: int)
    ensures -1 <= r < |s|
    ensures r == -1 <==> c !in s
    ensures 0 <= r ==> s[r] == c && c !in s[..r]
  {
    if s == [] then -1
    else if s[0] == c then 0
    else
      var r := Find(s[1..], c);
      assert s == [s[0]] + s[1..];
      if r == -1 then -1 else
        assert s[..r + 1] == [s[0]] + s[1..][..r];
        r + 1
  }

  /** str.rfind(c) for one character: the last index holding c, or -1. */
  function RFind(s: string, c: char): (r: int)
    ensures -1 <= r < |s|
    ensures r == -1 <==> c !in s
    ensures 0 <= r ==> s[r] == c && c !in s[r + 1..]
  {
    if s == [] then -1
    else if s[|s| - 1] == c then |s| - 1
    else
      assert s == s[..|s| - 1] + [s[|s| - 1]];
      var r := RFind(s[..|s| - 1], c);
      if r == -1 then -1 else
        assert s[r + 1..] == s[..|s| - 1][r + 1..] + [s[|s| - 1]];
        r
  }

  /** s[i:j] for non-negative i and j: Python clamps both ends to the string
      and yields the empty string when the range is empty. */
  function Slice(s: string, i: nat, j: nat): (r: string)
    ensures i <= j <= |s| ==> r == s[i..j]
    ensures i <= |s| <= j ==> r == s[i..]
    ensures j <= i || |s| <= i ==> r == []
  {
    var lo := if i <= |s| then i else |s|;
    var hi := if j <= |s| then j else |s|;
    if lo <= hi then s[lo..hi] else []
  }

  /** s[:n]: the first n characters of s, or all of s when it is shorter. */
  function Take(s: string, n: nat): (r: string)
    ensures r <= s
    ensures |r| == if |s| <= n then |s| else n
  {
    if |s| <= n then s else s[..n]
  }

  /** s.replace(pat, "") for a non-empty pattern: every non-overlapping
      occurrence, searched left to right, is removed. */
  function RemoveAll(s: string, pat: string): (r: string)
    requires pat != []
    ensures |r| <= |s|
    decreases |s|
  {
    if |s| < |pat| then s
    else if pat <= s then RemoveAll(s[|pat|..], pat)
    else [s[0]] + RemoveAll(s[1..], pat)
  }

  /** s.replace(c, "") for one character. */
  function Without(s: string, c: char): (r: string)
    ensures c !in r
    ensures c !in s ==> r == s
    ensures |r| <= |s|
  {
    if s == [] then []
    else
      assert s == [s[0]] + s[1..];
      (if s[0] == c then [] else [s[0]]) + Without(s[1..], c)
  }

  /** sep.join(parts). */
  function Join(sep: string, parts: seq<string>): string {
    if parts == [] then []
    else if |parts| == 1 then parts[0]
    else parts[0] + sep + Join(sep, parts[1..])
  }

  predicate IsDigit(c: char) {
    '0' <= c <= '9'
  }

  function DigitValue(c: char): nat
    requires IsDigit(c)
  {
    c as int - '0' as int
  }

  function DigitChar(d: nat): (c: char)
    requires d < 10
    ensures IsDigit(c) && DigitValue(c) == d
  {
    ('0' as int + d) as char
  }

  /** The body int() accepts after an optional sign: decimal digits, with
      single underscores allowed between two digits. */
  predicate DigitGroups(s: string) {
    && s != []
    && IsDigit(s[0]) && IsDigit(s[|s| - 1])
    && (forall k :: 0 <= k < |s| ==> IsDigit(s[k]) || s[k] == '_')
    && (forall k :: 0 <= k < |s| - 1 ==> !(s[k] == '_' && s[k + 1] == '_'))
  }

  /** The number written by the digits of s, underscores ignored. */
  function DigitsValue(s: string): nat
    requires forall k :: 0 <= k < |s| ==> IsDigit(s[k]) || s[k] == '_'
  {
    if s == [] then 0
    else if s[|s| - 1] == '_' then DigitsValue(s[..|s| - 1])
    else DigitsValue(s[..|s| - 1]) * 10 + DigitValue(s[|s| - 1])
  }

  /** int(s) on a string that has already been stripped: Some(value), or None
      where Python raises ValueError. */
  function ParseInt(s: string): (r: Option<int>)
    ensures s == [] ==> r == None
    ensures r.Some? ==> exists k :: 0 <= k < |s| && IsDigit(s[k])
  {
    if s != [] && (s[0] == '-' || s[0] == '+') then
      var body := s[1..];
      if DigitGroups(body) then
        assert IsDigit(s[1]);
        var v: int := DigitsValue(body);
        Some(if s[0] == '-' then -v else v)
      else None
    else if DigitGroups(s) then Some(DigitsValue(s))
    else None
  }

  /** The decimal digits of n, most significant first, no leading zeros. */
  function NatToString(n: nat): (r: string)
    ensures r != []
    ensures forall k :: 0 <= k < |r| ==> IsDigit(r[k])
  {
    if n < 10 then [DigitChar(n)] else NatToString(n / 10) + [DigitChar(n % 10)]
  }

  /** str(n) for an int. */
  function IntToString(n: int): (r: string)
    ensures r != []
    ensures forall k :: 0 <= k < |r| ==> IsDigit(r[k]) || r[k] == '-'
  {
    if n < 0 then "-" + NatToString(-n) else NatToString(n)
  }

  lemma {:induction false} NatToStringValue(n: nat)
    ensures DigitsValue(NatToString(n)) == n
  {
    var r := NatToString(n);
    if n >= 10 {
      NatToStringValue(n / 10);
      assert r[..|r| - 1] == NatToString(n / 10);
    }
  }

  /** int() reads back what str() writes for every integer. */
  lemma ParseIntOfIntToString(n: int)
    ensures ParseInt(IntToString(n)) == Some(n)
  {
    if n < 0 {
      var d := NatToString(-n);
      NatToStringValue(-n);
      assert IntToString(n)[1..] == d;
      assert DigitGroups(d);
    } else {
      NatToStringValue(n);
      assert DigitGroups(NatToString(n));
    }
  }

  /** s.replace(pat, "") leaves a string without pat unchanged. */
  lemma {:induction false} RemoveAllAbsent(s: string, pat: string)
    requires pat != [] && !ContainsSub(s, pat)
    ensures RemoveAll(s, pat) == s
    decreases |s|
  {
    if |s| >= |pat| {
      assert s[0..] == s;
      assert !(pat <= s);
      forall i | 0 <= i <= |s[1..]|
        ensures !(pat <= s[1..][i..])
      {
        assert s[1..][i..] == s[i + 1..];
      }
      RemoveAllAbsent(s[1..], pat);
      assert s == [s[0]] + s[1..];
    }
  }

  /** s.replace(pat, "") on a string that starts with pat. */
  lemma RemoveAllPrefix(s: string, pat: string)
    requires pat != []
    ensures RemoveAll(pat + s, pat) == RemoveAll(s, pat)
  {
    assert (pat + s)[|pat|..] == s;
  }

  /** s.split(pat) for a non-empty pattern: the pieces between the
      non-overlapping occurrences of pat, searched left to right. */
  function SplitOn(s: string, pat: string): (r: seq<string>)
    requires pat != []
    ensures |r| >= 1
    decreases |s|
  {
    if |s| < |pat| then [s]
    else if pat <= s then [[]] + SplitOn(s[|pat|..], pat)
    else
      var t := SplitOn(s[1..], pat);
      [[s[0]] + t[0]] + t[1..]
  }

  /** Putting a character in front of the first part of a join puts it in
      front of the joined string. */
  lemma JoinConsHead(sep: string, c: char, parts: seq<string>)
    requires |parts| >= 1
    ensures Join(sep, [[c] + parts[0]] + parts[1..]) == [c] + Join(sep, parts)
  {
    var q := [[c] + parts[0]] + parts[1..];
    assert q[1..] == parts[1..];
  }

  /** s.replace(pat, "") is "".join(s.split(pat)): s is its pieces joined
      back with pat, no piece holds pat, and the result is the pieces
      concatenated. So every occurrence is removed and everything else is
      kept, in order. */
  lemma {:induction false} RemoveAllSplits(s: string, pat: string)
    requires pat != []
    ensures Join(pat, SplitOn(s, pat)) == s
    ensures Join([], SplitOn(s, pat)) == RemoveAll(s, pat)
    ensures SplitOn(s, pat)[0] <= s
    ensures forall k :: 0 <= k < |SplitOn(s, pat)| ==> !ContainsSub(SplitOn(s, pat)[k], pat)
    decreases |s|
  {
    var r := SplitOn(s, pat);
    if |s| < |pat| {
      forall i | 0 <= i <= |s| ensures !(pat <= s[i..]) { }
    } else if pat <= s {
      var rest := s[|pat|..];
      RemoveAllSplits(rest, pat);
      var t := SplitOn(rest, pat);
      assert r == [[]] + t;
      assert r[1..] == t;
      assert s == pat + rest;
      assert forall k :: 1 <= k < |r| ==> r[k] == t[k - 1];
      forall i | 0 <= i <= 0 ensures !(pat <= r[0][i..]) { }
    } else {
      RemoveAllSplits(s[1..], pat);
      var t := SplitOn(s[1..], pat);
      JoinConsHead(pat, s[0], t);
      JoinConsHead([], s[0], t);
      assert s == [s[0]] + s[1..];
      var head := [s[0]] + t[0];
      assert head <= s;
      forall i | 0 <= i <= |head| ensures !(pat <= head[i..])
      {
        if 0 < i {
          assert head[i..] == t[0][i - 1..];
        }
      }
      assert forall k :: 1 <= k < |r| ==> r[k] == t[k];
    }
  }

  /** str(e) for the exceptions the model raises. A TypeError and an
      AttributeError carry a message the model does not track, and are
      rendered by their class name. */
  function ExceptionText(e: Exception): string {
    match e
    case TypeError => "TypeError"
    case KeyError(key) => "'" + key + "'"
    case IndexError => "list index out of range"
    case AttributeError => "AttributeError"
    case ValueError(message) => message
    case HttpError(status, detail) => NatToString(status) + ": " + detail
  }
}
