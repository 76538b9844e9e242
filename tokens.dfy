/**
 * The value codec behind every setter: Java's `String.split(":")`, and the
 * boolean and integer token parsers that the attachment inherits
 * (`getBool`, `getInt`). Java `int` is 32 bits wide; its range is made
 * explicit here because `Integer.MAX_VALUE` is itself written into a token
 * by `setIsAAmovement`.
 */
module Tokens {
  import opened Wrappers

  /** `Integer.MAX_VALUE` and `Integer.MIN_VALUE`. */
  const MaxInt: int := 0x7fff_ffff
  const MinInt: int := -0x8000_0000

  predicate IsInt32(n: int) { MinInt <= n <= MaxInt }

  function Last<T>(s: seq<T>): T
    requires |s| > 0
  {
    s[|s| - 1]
  }

  function DropLast<T>(s: seq<T>): seq<T>
    requires |s| > 0
  {
    s[..|s| - 1]
  }

  predicate ColonFree(s: string) { ':' !in s }

  /** `s.startsWith(p)`. */
  predicate StartsWith(s: string, p: string) { |p| <= |s| && s[..|p|] == p }

  // ---------------------------------------------------------------------------
  // String.split(":")
  // ---------------------------------------------------------------------------

  /** The text between consecutive colons, empty pieces kept: "a::b:" gives ["a", "", "b", ""]. */
  function Pieces(s: string): (r: seq<string>)
    ensures |r| >= 1
    ensures forall i :: 0 <= i < |r| ==> ColonFree(r[i])
  {
    if s == [] then [""]
    else
      var init := Pieces(DropLast(s));
      if Last(s) == ':' then init + [""]
      else DropLast(init) + [Last(init) + [Last(s)]]
  }

  /** Removes every empty piece at the end (Java's split with limit 0). */
  function DropTrailingEmpty(parts: seq<string>): (r: seq<string>)
    ensures r <= parts
    ensures r == [] || Last(r) != ""
    ensures forall i :: |r| <= i < |parts| ==> parts[i] == ""
  {
    if parts == [] then []
    else if Last(parts) == "" then DropTrailingEmpty(DropLast(parts))
    else parts
  }

  /**
   * `s.split(":")`. A string without a colon comes back whole, so "" gives
   * [""]; otherwise trailing empty pieces are dropped, so ":" gives [] and
   * "a:b::" gives ["a", "b"]. Leading empty pieces stay: ":a" gives ["", "a"].
   */
  function Split(s: string): (r: seq<string>)
    ensures forall i :: 0 <= i < |r| ==> ColonFree(r[i])
    ensures ColonFree(s) ==> r == [s]
    ensures !ColonFree(s) ==> r == [] || Last(r) != ""
  {
    if ColonFree(s) then [s] else DropTrailingEmpty(Pieces(s))
  }

  /** Joins pieces with ":" between them. */
  function Join(parts: seq<string>): string
  {
    if parts == [] then ""
    else if |parts| == 1 then parts[0]
    else Join(DropLast(parts)) + ":" + Last(parts)
  }

  /** `s` without the colons at its end. */
  function TrimTrailingColons(s: string): (r: string)
    ensures r <= s
  {
    if s != [] && Last(s) == ':' then TrimTrailingColons(DropLast(s)) else s
  }

  lemma {:induction false} JoinPieces(s: string)
    ensures Join(Pieces(s)) == s
  {
    if s != [] {
      var init := Pieces(DropLast(s));
      JoinPieces(DropLast(s));
      if Last(s) == ':' {
        assert DropLast(init + [""]) == init;
      } else {
        var r := DropLast(init) + [Last(init) + [Last(s)]];
        if |init| == 1 {
          assert r == [init[0] + [Last(s)]];
        } else {
          assert DropLast(r) == DropLast(init);
          assert Join(init) == Join(DropLast(init)) + ":" + Last(init);
        }
      }
      assert DropLast(s) + [Last(s)] == s;
    }
  }

  lemma {:induction false} PiecesAppend(x: string, w: string)
    requires ColonFree(w)
    ensures Pieces(x + ":" + w) == Pieces(x) + [w]
    decreases |w|
  {
    if w == [] {
      assert x + ":" + w == x + ":";
      assert DropLast(x + ":") == x && Last(x + ":") == ':';
    } else {
      var s := x + ":" + w;
      assert DropLast(s) == x + ":" + DropLast(w);
      assert Last(s) == Last(w) && Last(w) != ':' by { assert Last(w) in w; }
      PiecesAppend(x, DropLast(w));
      assert DropLast(w) + [Last(w)] == w;
    }
  }

  /**
   * Splitting joined pieces gives the pieces back when none holds a colon and
   * the last one is not empty (a single piece may be empty).
   */
  lemma {:induction false} SplitJoin(parts: seq<string>)
    requires |parts| >= 1
    requires forall i :: 0 <= i < |parts| ==> ColonFree(parts[i])
    requires |parts| == 1 || Last(parts) != ""
    ensures Split(Join(parts)) == parts
  {
    if |parts| > 1 {
      PiecesOfJoin(parts);
      assert ':' in Join(parts) by { JoinHasColon(parts); }
    }
  }

  lemma {:induction false} JoinHasColon(parts: seq<string>)
    requires |parts| > 1
    ensures ':' in Join(parts)
  {
    var j := Join(parts);
    assert j == Join(DropLast(parts)) + ":" + Last(parts);
    assert j[|Join(DropLast(parts))|] == ':';
  }

  lemma {:induction false} PiecesOfJoin(parts: seq<string>)
    requires |parts| >= 1
    requires forall i :: 0 <= i < |parts| ==> ColonFree(parts[i])
    ensures Pieces(Join(parts)) == parts
  {
    if |parts| == 1 {
      ColonFreePieces(parts[0]);
    } else {
      var init := DropLast(parts);
      PiecesOfJoin(init);
      PiecesAppend(Join(init), Last(parts));
      assert init + [Last(parts)] == parts;
    }
  }

  lemma {:induction false} ColonFreePieces(s: string)
    requires ColonFree(s)
    ensures Pieces(s) == [s]
  {
    if s != [] {
      assert ColonFree(DropLast(s)) by {
        forall i | 0 <= i < |DropLast(s)| ensures DropLast(s)[i] != ':' { assert DropLast(s)[i] == s[i]; }
      }
      ColonFreePieces(DropLast(s));
      assert Last(s) in s;
      assert DropLast(s) + [Last(s)] == s;
    }
  }

  /** Joining what `Split` returns restores the input up to its trailing colons. */
  lemma {:induction false} JoinSplit(s: string)
    ensures Join(Split(s)) == TrimTrailingColons(s)
  {
    if ColonFree(s) {
      if s != [] { assert Last(s) in s; }
    } else {
      JoinDropped(s);
    }
  }

  lemma {:induction false} JoinDropped(s: string)
    ensures Join(DropTrailingEmpty(Pieces(s))) == TrimTrailingColons(s)
  {
    if s != [] {
      var init := Pieces(DropLast(s));
      if Last(s) == ':' {
        JoinDropped(DropLast(s));
        assert DropLast(init + [""]) == init;
      } else {
        var r := DropLast(init) + [Last(init) + [Last(s)]];
        assert Last(r) != "";
        JoinPieces(s);
      }
    }
  }

  // ---------------------------------------------------------------------------
  // getBool
  // ---------------------------------------------------------------------------

  /** ASCII upper case to lower case, as `equalsIgnoreCase` and `toLowerCase` treat it. */
  function LowerChar(c: char): char
  {
    if 'A' <= c <= 'Z' then (c as int + 32) as char else c
  }

  function Lower(s: string): (r: string)
    ensures |r| == |s|
    ensures forall i :: 0 <= i < |s| ==> r[i] == LowerChar(s[i])
  {
    seq(|s|, i requires 0 <= i < |s| => LowerChar(s[i]))
  }

  predicate EqualsIgnoreCase(a: string, b: string) { Lower(a) == Lower(b) }

  /** `getBool`: "true" or "false" in any letter case; anything else raises. */
  function ParseBool(s: string): (r: Option<bool>)
    ensures r.Some? <==> (Lower(s) == "true" || Lower(s) == "false")
    ensures r.Some? ==> (r.value <==> Lower(s) == "true")
  {
    assert Lower("true") == "true" && Lower("false") == "false";
    if EqualsIgnoreCase(s, "true") then Some(true)
    else if EqualsIgnoreCase(s, "false") then Some(false)
    else None
  }

  // ---------------------------------------------------------------------------
  // getInt
  // ---------------------------------------------------------------------------

  predicate IsDigit(c: char) { '0' <= c <= '9' }

  predicate IsDigits(s: string) { |s| > 0 && forall i :: 0 <= i < |s| ==> IsDigit(s[i]) }

  function DigitValue(c: char): int { c as int - '0' as int }

  /** The decimal value of a digit string, most significant digit first. */
  function DigitsValue(s: string): int
  {
    if s == [] then 0 else DigitsValue(DropLast(s)) * 10 + DigitValue(Last(s))
  }

  /**
   * `getInt` (`Integer.parseInt`): an optional '+' or '-', then one or more
   * decimal digits, and the value must fit in 32 bits; anything else raises.
   */
  function ParseInt(s: string): (r: Option<int>)
    ensures r.Some? ==> IsInt32(r.value)
  {
    var negative := |s| > 0 && s[0] == '-';
    var digits := if |s| > 0 && (s[0] == '-' || s[0] == '+') then s[1..] else s;
    if !IsDigits(digits) then None
    else
      var v := if negative then -DigitsValue(digits) else DigitsValue(digits);
      if IsInt32(v) then Some(v) else None
  }

  function DigitChar(d: int): char
    requires 0 <= d < 10
  {
    ('0' as int + d) as char
  }

  /** Decimal digits of a natural number, as `Integer.toString` writes them. */
  function NatToDigits(n: nat): (r: string)
    ensures IsDigits(r)
  {
    if n < 10 then [DigitChar(n)] else NatToDigits(n / 10) + [DigitChar(n % 10)]
  }

  /** `Integer.toString(n)` (string concatenation with an int). */
  function IntToString(n: int): string
  {
    if n < 0 then "-" + NatToDigits(-n) else NatToDigits(n)
  }

  lemma {:induction false} DigitsRoundTrip(n: nat)
    ensures DigitsValue(NatToDigits(n)) == n
  {
    if n >= 10 {
      DigitsRoundTrip(n / 10);
      var d := NatToDigits(n / 10) + [DigitChar(n % 10)];
      assert DropLast(d) == NatToDigits(n / 10);
    }
  }

  /** Every 32-bit integer written out by `Integer.toString` parses back to itself. */
  lemma {:induction false} ParseIntRoundTrip(n: int)
    requires IsInt32(n)
    ensures ParseInt(IntToString(n)) == Some(n)
  {
    var s := IntToString(n);
    if n < 0 {
      DigitsRoundTrip(-n);
      assert s[1..] == NatToDigits(-n);
    } else {
      DigitsRoundTrip(n);
      assert IsDigit(s[0]);
    }
  }

  lemma {:induction false} IntToStringColonFree(n: int)
    ensures ColonFree(IntToString(n))
  {
    var s := IntToString(n);
    var d := NatToDigits(if n < 0 then -n else n);
    forall i | 0 <= i < |s| ensures s[i] != ':' {
      if n < 0 && i > 0 { assert s[i] == d[i - 1]; }
    }
  }
}
