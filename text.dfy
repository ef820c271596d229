/**
 * Text helpers for the connection URLs: the decimal form Python's `str()`
 * gives an `int`, a reader that inverts it, searches for delimiter
 * characters, and percent-escaping of the characters that delimit the
 * authority part of a URL.
 */
module Text {
  import opened Wrappers

  predicate IsDigit(c: char) {
    '0' <= c <= '9'
  }

  predicate AllDigits(s: string) {
    forall i :: 0 <= i < |s| ==> IsDigit(s[i])
  }

  function DigitChar(d: nat): (c: char)
    requires d < 10
    ensures IsDigit(c) && c as int - '0' as int == d
  {
    ('0' as int + d) as char
  }

  /** Decimal digits of `n`, most significant first, without leading zeros. */
  function NatToString(n: nat): (s: string)
    ensures |s| > 0 && AllDigits(s)
    ensures |s| > 1 ==> s[0] != '0'
    ensures n < 10 <==> |s| == 1
  {
    if n < 10 then [DigitChar(n)] else NatToString(n / 10) + [DigitChar(n % 10)]
  }

  /** Python's `str(i)` for an `int`: a minus sign before the digits of a negative number. */
  function IntToString(i: int): (s: string)
    ensures |s| > 0
    ensures i >= 0 <==> AllDigits(s)
    ensures i < 0 <==> s[0] == '-'
  {
    if i < 0 then
      var s := "-" + NatToString(-i);
      assert !IsDigit(s[0]);
      s
    else NatToString(i)
  }

  /** The number a non-empty digit string denotes. */
  function DigitsValue(s: string): nat
    requires AllDigits(s)
  {
    if s == [] then 0 else DigitsValue(s[..|s| - 1]) * 10 + (s[|s| - 1] as int - '0' as int)
  }

  /** Reads an optional minus sign followed by at least one digit. */
  function ParseInt(s: string): (r: Option<int>)
    ensures r.Some? ==> |s| > 0
  {
    if |s| > 1 && s[0] == '-' && AllDigits(s[1..]) then Some(0 - DigitsValue(s[1..]))
    else if |s| > 0 && AllDigits(s) then Some(DigitsValue(s))
    else None
  }

  lemma {:induction false} DigitsValueOfNatToString(n: nat)
    ensures DigitsValue(NatToString(n)) == n
  {
    if n >= 10 {
      var s := NatToString(n);
      assert s[..|s| - 1] == NatToString(n / 10);
      DigitsValueOfNatToString(n / 10);
    }
  }

  /** `ParseInt` inverts `IntToString` on every integer. */
  lemma ParseIntRoundTrip(i: int)
    ensures ParseInt(IntToString(i)) == Some(i)
  {
    var s := IntToString(i);
    if i < 0 {
      var digits := NatToString(-i);
      assert s == "-" + digits;
      assert s[1..] == digits;
      DigitsValueOfNatToString(-i);
      assert ParseInt(s) == Some(0 - DigitsValue(digits));
    } else {
      assert s == NatToString(i);
      DigitsValueOfNatToString(i);
      assert !(s[0] == '-');
      assert ParseInt(s) == Some(DigitsValue(s));
    }
  }

  /** Two integers print the same exactly when they are equal. */
  lemma IntToStringInjective(i: int, j: int)
    ensures IntToString(i) == IntToString(j) <==> i == j
  {
    ParseIntRoundTrip(i);
    ParseIntRoundTrip(j);
  }

  /** The first index of `s` holding a character of `cs`. */
  function FirstIndexIn(s: string, cs: set<char>): (r: Option<nat>)
    ensures r.None? ==> forall i :: 0 <= i < |s| ==> s[i] !in cs
    ensures r.Some? ==> r.value < |s| && s[r.value] in cs
    ensures r.Some? ==> forall i :: 0 <= i < r.value ==> s[i] !in cs
  {
    if s == [] then None
    else if s[0] in cs then Some(0)
    else match FirstIndexIn(s[1..], cs)
      case None => None
      case Some(k) => Some(k + 1)
  }

  /** The last index of `s` holding a character of `cs`. */
  function LastIndexIn(s: string, cs: set<char>): (r: Option<nat>)
    ensures r.None? ==> forall i :: 0 <= i < |s| ==> s[i] !in cs
    ensures r.Some? ==> r.value < |s| && s[r.value] in cs
    ensures r.Some? ==> forall i :: r.value < i < |s| ==> s[i] !in cs
  {
    if s == [] then None
    else if s[|s| - 1] in cs then Some(|s| - 1)
    else LastIndexIn(s[..|s| - 1], cs)
  }

  predicate NoneIn(s: string, cs: set<char>) {
    forall i :: 0 <= i < |s| ==> s[i] !in cs
  }

  /** The first delimiter of `a + [c] + b` is `c` when `a` holds none. */
  lemma FirstIndexInJoin(a: string, c: char, b: string, cs: set<char>)
    requires NoneIn(a, cs) && c in cs
    ensures FirstIndexIn(a + [c] + b, cs) == Some(|a|)
  {
    var s := a + [c] + b;
    assert s[|a|] == c;
    forall i | 0 <= i < |a|
      ensures s[i] !in cs
    {
      assert s[i] == a[i];
    }
  }

  /** The last delimiter of `a + [c] + b` is `c` when `b` holds none. */
  lemma LastIndexInJoin(a: string, c: char, b: string, cs: set<char>)
    requires NoneIn(b, cs) && c in cs
    ensures LastIndexIn(a + [c] + b, cs) == Some(|a|)
  {
    var s := a + [c] + b;
    assert s[|a|] == c;
    assert s[|a| + 1..] == b;
    LastIndexAt(s, cs, |a|);
  }

  /** The last index holding a character of `cs` is `k` when none follows it. */
  lemma LastIndexAt(s: string, cs: set<char>, k: nat)
    requires k < |s| && s[k] in cs
    requires NoneIn(s[k + 1..], cs)
    ensures LastIndexIn(s, cs) == Some(k)
  {
    var r := LastIndexIn(s, cs);
    assert r.Some?;
    forall i | k < i < |s|
      ensures s[i] !in cs
    {
      assert s[i] == s[k + 1..][i - k - 1];
    }
    assert r.value >= k;
  }

  /** The characters `urlsplit` deletes from a URL before it splits it. */
  const Controls: set<char> := {'\t', '\r', '\n'}

  /** The brackets that enclose an IPv6 host; a URL reader checks that they pair up. */
  const Brackets: set<char> := {'[', ']'}

  /**
   * Characters that end or split the authority of a URL, the escape
   * character, the brackets, and the characters a URL reader deletes.
   */
  const Reserved: set<char> := {'%', '/', '?', '#', '@', ':', '[', ']', '\t', '\r', '\n'}

  predicate IsAscii(s: string) {
    forall i :: 0 <= i < |s| ==> s[i] as int < 128
  }

  function HexDigit(d: nat): (c: char)
    requires d < 16
  {
    if d < 10 then DigitChar(d) else ('A' as int + d - 10) as char
  }

  predicate IsHex(c: char) {
    '0' <= c <= '9' || 'A' <= c <= 'F' || 'a' <= c <= 'f'
  }

  function HexValue(c: char): (v: nat)
    requires IsHex(c)
    ensures v < 16
  {
    if '0' <= c <= '9' then c as int - '0' as int
    else if 'A' <= c <= 'F' then c as int - 'A' as int + 10
    else c as int - 'a' as int + 10
  }

  /** `%XX` with upper-case hex digits, for a character below U+0080. */
  function EscapeChar(c: char): (t: string)
    requires c as int < 128
    ensures |t| == 3 && t[0] == '%' && IsHex(t[1]) && IsHex(t[2])
    ensures HexValue(t[1]) * 16 + HexValue(t[2]) == c as int
  {
    ['%', HexDigit(c as int / 16), HexDigit(c as int % 16)]
  }

  /**
   * Replaces each reserved character by its `%XX` escape (upper-case hex)
   * and leaves every other character alone. Unlike `urllib.parse.quote`,
   * it escapes no other character.
   */
  function Escape(s: string): (t: string)
    ensures NoneIn(t, Reserved - {'%'})
  {
    if s == [] then []
    else (if s[0] in Reserved then EscapeChar(s[0]) else [s[0]]) + Escape(s[1..])
  }

  /**
   * Percent-decoding: a `%` followed by two hex digits denoting a code below
   * 0x80 stands for that character; everything else is copied. Python's
   * `unquote` also decodes escapes from %80 up, as UTF-8.
   */
  function Unescape(t: string): string
  {
    if t == [] then []
    else if |t| >= 3 && t[0] == '%' && IsHex(t[1]) && IsHex(t[2]) && HexValue(t[1]) * 16 + HexValue(t[2]) < 128 then
      [(HexValue(t[1]) * 16 + HexValue(t[2])) as char] + Unescape(t[3..])
    else [t[0]] + Unescape(t[1..])
  }

  /** Escaping loses nothing: decoding gives back the original text. */
  lemma {:induction false} UnescapeEscape(s: string)
    ensures Unescape(Escape(s)) == s
  {
    if s != [] {
      UnescapeEscape(s[1..]);
      var rest := Escape(s[1..]);
      if s[0] in Reserved {
        var e := EscapeChar(s[0]);
        assert (e + rest)[3..] == rest;
      } else {
        assert ([s[0]] + rest)[1..] == rest;
      }
    }
  }

  /** Text without a `%` is its own decoding. */
  lemma {:induction false} UnescapePlain(s: string)
    requires '%' !in s
    ensures Unescape(s) == s
  {
    if s != [] {
      UnescapePlain(s[1..]);
    }
  }

  /** Decoding never lengthens a text. */
  lemma {:induction false} UnescapeShrinks(t: string)
    ensures |Unescape(t)| <= |t|
  {
    if t != [] {
      if |t| >= 3 && t[0] == '%' && IsHex(t[1]) && IsHex(t[2]) && HexValue(t[1]) * 16 + HexValue(t[2]) < 128 {
        UnescapeShrinks(t[3..]);
      } else {
        UnescapeShrinks(t[1..]);
      }
    }
  }

  // ---------------------------------------------------------------------
  // Deleting characters, and ASCII lower-casing
  // ---------------------------------------------------------------------

  /** `s` without the characters of `cs`, the others in their order. */
  function Drop(s: string, cs: set<char>): (t: string)
    ensures NoneIn(t, cs) && |t| <= |s|
  {
    if s == [] then []
    else (if s[0] in cs then [] else [s[0]]) + Drop(s[1..], cs)
  }

  /** Text holding none of the characters is its own result. */
  lemma {:induction false} DropFree(s: string, cs: set<char>)
    requires NoneIn(s, cs)
    ensures Drop(s, cs) == s
  {
    if s != [] {
      DropFree(s[1..], cs);
      assert s == [s[0]] + s[1..];
    }
  }

  /** Deleting distributes over concatenation. */
  lemma {:induction false} DropConcat(a: string, b: string, cs: set<char>)
    ensures Drop(a + b, cs) == Drop(a, cs) + Drop(b, cs)
  {
    if a == [] {
      assert a + b == b;
    } else {
      var pre := if a[0] in cs then [] else [a[0]];
      assert (a + b)[0] == a[0];
      assert (a + b)[1..] == a[1..] + b;
      assert Drop(a + b, cs) == pre + Drop(a[1..] + b, cs);
      DropConcat(a[1..], b, cs);
      assert Drop(a, cs) == pre + Drop(a[1..], cs);
    }
  }

  /** Deleting characters adds none: text free of `ds` stays free of it. */
  lemma {:induction false} DropAvoids(s: string, cs: set<char>, ds: set<char>)
    requires NoneIn(s, ds)
    ensures NoneIn(Drop(s, cs), ds)
  {
    if s != [] {
      DropAvoids(s[1..], cs, ds);
      var pre := if s[0] in cs then [] else [s[0]];
      NoneInConcat(pre, Drop(s[1..], cs), ds);
    }
  }

  lemma NoneInConcat(a: string, b: string, cs: set<char>)
    ensures NoneIn(a + b, cs) <==> NoneIn(a, cs) && NoneIn(b, cs)
  {
    if NoneIn(a, cs) && NoneIn(b, cs) {
      forall i | 0 <= i < |a + b|
        ensures (a + b)[i] !in cs
      {
        if i < |a| { assert (a + b)[i] == a[i]; } else { assert (a + b)[i] == b[i - |a|]; }
      }
    }
    if NoneIn(a + b, cs) {
      forall i | 0 <= i < |a| ensures a[i] !in cs { assert (a + b)[i] == a[i]; }
      forall i | 0 <= i < |b| ensures b[i] !in cs { assert (a + b)[|a| + i] == b[i]; }
    }
  }

  /** A character of `ds` outside `cs` survives the deletion. */
  lemma {:induction false} DropKeeps(s: string, cs: set<char>, ds: set<char>)
    requires cs !! ds && !NoneIn(s, ds)
    ensures !NoneIn(Drop(s, cs), ds)
  {
    if s[0] in ds {
      assert Drop(s, cs)[0] == s[0];
    } else {
      assert !NoneIn(s[1..], ds) by {
        var i :| 0 <= i < |s| && s[i] in ds;
        assert s[1..][i - 1] == s[i];
      }
      DropKeeps(s[1..], cs, ds);
      var t := Drop(s[1..], cs);
      var i :| 0 <= i < |t| && t[i] in ds;
      var pre := if s[0] in cs then [] else [s[0]];
      assert Drop(s, cs)[|pre| + i] == t[i];
    }
  }

  predicate IsUpper(c: char) {
    'A' <= c <= 'Z'
  }

  predicate NoUpper(s: string) {
    forall i :: 0 <= i < |s| ==> !IsUpper(s[i])
  }

  /** Python's `str.lower()` on ASCII letters; every other character is kept. */
  function Lower(s: string): (t: string)
    ensures |t| == |s| && NoUpper(t)
  {
    if s == [] then []
    else [if IsUpper(s[0]) then (s[0] as int + 32) as char else s[0]] + Lower(s[1..])
  }

  /** Text without upper-case ASCII letters is its own lower-case form. */
  lemma {:induction false} LowerPlain(s: string)
    requires NoUpper(s)
    ensures Lower(s) == s
  {
    if s != [] {
      LowerPlain(s[1..]);
      assert s == [s[0]] + s[1..];
    }
  }
}
