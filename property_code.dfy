/**
 * Model of src/lib/generatePropertyCode.ts.
 *
 * The source trims the purpose string, takes its first character, upper-cases
 * it and joins it to `Date.now()` with a dash. Here the clock reading is an
 * explicit parameter, and trimming and upper-casing are restricted to ASCII.
 */
module PropertyCode {
  import opened Wrappers

  // ---------------------------------------------------------------------------
  // Characters
  // ---------------------------------------------------------------------------

  /** The ASCII characters that `String.prototype.trim` removes. */
  predicate IsWhitespace(c: char) {
    c == ' ' || c == '\t' || c == '\n' || c == '\U{B}' || c == '\U{C}' || c == '\r'
  }

  predicate AllWhitespace(s: string) {
    forall k :: 0 <= k < |s| ==> IsWhitespace(s[k])
  }

  predicate IsLowerAscii(c: char) {
    'a' <= c <= 'z'
  }

  /** `toUpperCase` on one ASCII character; every other character is kept. */
  function ToUpperAscii(c: char): (r: char)
    ensures IsLowerAscii(c) ==> 'A' <= r <= 'Z' && r as int == c as int - 32
    ensures !IsLowerAscii(c) ==> r == c
  {
    if IsLowerAscii(c) then (c as int - 32) as char else c
  }

  /** `\d` of a JavaScript regular expression without the `u` flag. */
  predicate IsDigit(c: char) {
    '0' <= c <= '9'
  }

  /** `/^\d*$/.test(s)`: the empty string passes. */
  predicate AllDigits(s: string) {
    forall k :: 0 <= k < |s| ==> IsDigit(s[k])
  }

  // ---------------------------------------------------------------------------
  // trim
  // ---------------------------------------------------------------------------

  /** Drops leading whitespace: what is left is a suffix that is empty or starts with a non-blank. */
  function TrimStart(s: string): (r: string)
    ensures |r| <= |s|
    ensures r == [] || !IsWhitespace(r[0])
  {
    if s != [] && IsWhitespace(s[0]) then TrimStart(s[1..]) else s
  }

  /** Drops trailing whitespace: what is left is a prefix that is empty or ends with a non-blank. */
  function TrimEnd(s: string): (r: string)
    ensures |r| <= |s|
    ensures r == [] || !IsWhitespace(r[|r| - 1])
  {
    if s != [] && IsWhitespace(s[|s| - 1]) then TrimEnd(s[..|s| - 1]) else s
  }

  /** `String.prototype.trim`: the result is no longer than `s` and has no blank at either end. */
  function Trim(s: string): (r: string)
    ensures |r| <= |s|
    ensures r == [] || (!IsWhitespace(r[0]) && !IsWhitespace(r[|r| - 1]))
  {
    TrimEndShape(TrimStart(s));
    TrimEnd(TrimStart(s))
  }

  /** `TrimStart(s)` is the suffix of `s` that starts at its first non-blank. */
  lemma {:induction false} TrimStartShape(s: string)
    ensures var r := TrimStart(s);
      |r| <= |s| && r == s[|s| - |r|..] &&
      AllWhitespace(s[..|s| - |r|]) && (r == [] || !IsWhitespace(r[0]))
  {
    if s != [] && IsWhitespace(s[0]) {
      TrimStartShape(s[1..]);
      var r := TrimStart(s);
      assert s[..|s| - |r|] == [s[0]] + s[1..][..|s| - 1 - |r|];
    }
  }

  /** `TrimEnd(s)` is the prefix of `s` that ends at its last non-blank. */
  lemma {:induction false} TrimEndShape(s: string)
    ensures var r := TrimEnd(s);
      |r| <= |s| && r == s[..|r|] &&
      AllWhitespace(s[|r|..]) && (r == [] || !IsWhitespace(r[|r| - 1]))
  {
    if s != [] && IsWhitespace(s[|s| - 1]) {
      var init := s[..|s| - 1];
      TrimEndShape(init);
      var r := TrimEnd(s);
      assert s[|r|..] == init[|r|..] + [s[|s| - 1]];
      assert r == init[..|r|] == s[..|r|];
    }
  }

  // ---------------------------------------------------------------------------
  // Decimal rendering of the timestamp (the template string's `${Date.now()}`)
  // ---------------------------------------------------------------------------

  function DigitChar(d: nat): (c: char)
    requires d < 10
    ensures IsDigit(c)
  {
    ('0' as int + d) as char
  }

  function DigitValue(c: char): (d: nat)
    requires IsDigit(c)
    ensures d < 10
  {
    c as int - '0' as int
  }

  /** Shortest decimal numeral of `n`, most significant digit first. */
  function Decimal(n: nat): (r: string)
    ensures |r| >= 1 && AllDigits(r)
    ensures r[0] == '0' ==> n == 0 && r == "0"
    decreases n
  {
    if n < 10 then [DigitChar(n)] else Decimal(n / 10) + [DigitChar(n % 10)]
  }

  /** Value of a numeral made of decimal digits. */
  function DecimalValue(s: string): nat
    requires AllDigits(s)
  {
    if s == [] then 0 else DecimalValue(s[..|s| - 1]) * 10 + DigitValue(s[|s| - 1])
  }

  lemma {:induction false} DecimalRoundTrip(n: nat)
    ensures DecimalValue(Decimal(n)) == n
    decreases n
  {
    if n >= 10 {
      DecimalRoundTrip(n / 10);
      var d := Decimal(n);
      assert d[..|d| - 1] == Decimal(n / 10);
    }
  }

  // ---------------------------------------------------------------------------
  // generatePropertyCode
  // ---------------------------------------------------------------------------

  /** `purpose.trim().charAt(0).toUpperCase()`: `charAt(0)` of an empty string is "". */
  function Prefix(purpose: string): (r: string)
    ensures |r| <= 1
  {
    var t := Trim(purpose);
    if t == [] then "" else [ToUpperAscii(t[0])]
  }

  /** The resolved value of `generatePropertyCode(purpose)` when `Date.now()` reads `now`. */
  function GenerateCode(purpose: string, now: nat): (code: string)
    ensures var p := Prefix(purpose);
      |code| == |p| + 1 + |Decimal(now)| && code[..|p|] == p && code[|p|] == '-' &&
      AllDigits(code[|p| + 1..])
  {
    Prefix(purpose) + "-" + Decimal(now)
  }

  // ---------------------------------------------------------------------------
  // Reading a code back: the inverse used to show which inputs collide
  // ---------------------------------------------------------------------------

  datatype CodeParts = CodeParts(prefix: string, timestamp: nat)

  /** Index of the last occurrence of `c` in `s`, or -1. */
  function LastIndexOf(s: string, c: char): (r: int)
    ensures -1 <= r < |s|
    ensures r >= 0 ==> s[r] == c
    ensures forall k :: r < k < |s| ==> s[k] != c
  {
    if s == [] then -1
    else if s[|s| - 1] == c then |s| - 1
    else LastIndexOf(s[..|s| - 1], c)
  }

  /** Splits a code at its last dash into the prefix and the timestamp digits. */
  function ParseCode(code: string): Option<CodeParts> {
    var i := LastIndexOf(code, '-');
    if i < 0 then None
    else
      var digits := code[i + 1..];
      if digits != [] && AllDigits(digits) then Some(CodeParts(code[..i], DecimalValue(digits)))
      else None
  }

  // ---------------------------------------------------------------------------
  // Properties
  // ---------------------------------------------------------------------------

  /** The first character of `Trim(s)` is the first non-blank character of `s`. */
  lemma TrimFirst(s: string)
    ensures Trim(s) == [] <==> AllWhitespace(s)
    ensures forall i :: 0 <= i < |s| && AllWhitespace(s[..i]) && !IsWhitespace(s[i]) ==>
      Trim(s) != [] && Trim(s)[0] == s[i]
  {
    TrimStartShape(s);
    var ts := TrimStart(s);
    TrimEndShape(ts);
    var n := |s| - |ts|;
    if ts == [] {
      assert s == s[..n];
    } else {
      assert TrimEnd(ts) != [];
      assert !AllWhitespace(s) by { assert s[n] == ts[0]; }
      forall i | 0 <= i < |s| && AllWhitespace(s[..i]) && !IsWhitespace(s[i])
        ensures Trim(s)[0] == s[i]
      {
        assert i == n;
        assert TrimEnd(ts)[0] == ts[0];
      }
    }
  }

  /** The prefix is empty exactly for blank purposes, and otherwise the upper-cased first non-blank. */
  lemma PrefixIsFirstNonBlank(purpose: string)
    ensures Prefix(purpose) == "" <==> AllWhitespace(purpose)
    ensures forall i :: 0 <= i < |purpose| && AllWhitespace(purpose[..i]) && !IsWhitespace(purpose[i]) ==>
      Prefix(purpose) == [ToUpperAscii(purpose[i])]
    ensures !AllWhitespace(purpose) ==>
      exists i :: 0 <= i < |purpose| && AllWhitespace(purpose[..i]) && !IsWhitespace(purpose[i]) &&
        Prefix(purpose) == [ToUpperAscii(purpose[i])]
  {
    TrimFirst(purpose);
    if !AllWhitespace(purpose) {
      FirstNonBlankExists(purpose);
    }
  }

  /** A non-empty prefix is never a blank and never a lower-case ASCII letter. */
  lemma PrefixShape(purpose: string)
    ensures var p := Prefix(purpose); p != [] ==> !IsLowerAscii(p[0]) && !IsWhitespace(p[0])
  {
    TrimStartShape(purpose);
    TrimEndShape(TrimStart(purpose));
    var t := Trim(purpose);
    if t != [] {
      assert t[0] == TrimStart(purpose)[0];
    }
  }

  /** Reading the code back yields the prefix and the timestamp that made it. */
  lemma ParseGenerated(purpose: string, now: nat)
    ensures ParseCode(GenerateCode(purpose, now)) == Some(CodeParts(Prefix(purpose), now))
  {
    var code, p := GenerateCode(purpose, now), Prefix(purpose);
    var i := LastIndexOf(code, '-');
    assert code[|p|] == '-';
    forall k | |p| < k < |code| ensures code[k] != '-' {
      assert code[k] == Decimal(now)[k - |p| - 1];
    }
    assert i == |p|;
    assert code[i + 1..] == Decimal(now);
    assert code[..i] == p;
    DecimalRoundTrip(now);
  }

  /** Two codes are equal exactly when prefixes and timestamps are: uniqueness rests on the timestamp alone. */
  lemma CodesCollide(p1: string, t1: nat, p2: string, t2: nat)
    ensures GenerateCode(p1, t1) == GenerateCode(p2, t2) <==> Prefix(p1) == Prefix(p2) && t1 == t2
  {
    if GenerateCode(p1, t1) == GenerateCode(p2, t2) {
      ParseGenerated(p1, t1);
      ParseGenerated(p2, t2);
    }
  }

  lemma {:induction false} TrimStartSkipsBlanks(lead: string, s: string)
    requires AllWhitespace(lead)
    ensures TrimStart(lead + s) == TrimStart(s)
  {
    if lead != [] {
      assert (lead + s)[1..] == lead[1..] + s;
      TrimStartSkipsBlanks(lead[1..], s);
    } else {
      assert lead + s == s;
    }
  }

  lemma {:induction false} TrimEndSkipsBlanks(s: string, trail: string)
    requires AllWhitespace(trail)
    ensures TrimEnd(s + trail) == TrimEnd(s)
  {
    if trail != [] {
      var t := s + trail;
      assert t[|t| - 1] == trail[|trail| - 1];
      assert t[..|t| - 1] == s + trail[..|trail| - 1];
      TrimEndSkipsBlanks(s, trail[..|trail| - 1]);
    } else {
      assert s + trail == s;
    }
  }

  lemma {:induction false} TrimStartAppend(s: string, trail: string)
    requires !AllWhitespace(s)
    ensures TrimStart(s + trail) == TrimStart(s) + trail
  {
    assert s != [] && (s + trail)[0] == s[0];
    if IsWhitespace(s[0]) {
      assert !AllWhitespace(s[1..]) by {
        var k :| 0 <= k < |s| && !IsWhitespace(s[k]);
        assert s[1..][k - 1] == s[k];
      }
      assert (s + trail)[1..] == s[1..] + trail;
      TrimStartAppend(s[1..], trail);
    }
  }

  /** Surrounding whitespace does not change the trimmed string. */
  lemma TrimIgnoresBlanks(lead: string, purpose: string, trail: string)
    requires AllWhitespace(lead) && AllWhitespace(trail)
    ensures Trim(lead + purpose + trail) == Trim(purpose)
  {
    assert lead + purpose + trail == lead + (purpose + trail);
    TrimStartSkipsBlanks(lead, purpose + trail);
    if AllWhitespace(purpose) {
      assert AllWhitespace(purpose + trail) by {
        forall k | 0 <= k < |purpose + trail| ensures IsWhitespace((purpose + trail)[k]) {
          if k >= |purpose| { assert (purpose + trail)[k] == trail[k - |purpose|]; }
        }
      }
      AllBlankTrimsToEmpty(purpose + trail);
      AllBlankTrimsToEmpty(purpose);
    } else {
      TrimStartAppend(purpose, trail);
      TrimEndSkipsBlanks(TrimStart(purpose), trail);
    }
  }

  lemma AllBlankTrimsToEmpty(s: string)
    requires AllWhitespace(s)
    ensures TrimStart(s) == []
  {
  }

  /** Surrounding whitespace does not change the prefix. */
  lemma PrefixIgnoresBlanks(lead: string, purpose: string, trail: string)
    requires AllWhitespace(lead) && AllWhitespace(trail)
    ensures Prefix(lead + purpose + trail) == Prefix(purpose)
  {
    TrimIgnoresBlanks(lead, purpose, trail);
  }

  /** Surrounding whitespace does not change the code. */
  lemma SurroundingBlanksIgnored(lead: string, purpose: string, trail: string, now: nat)
    requires AllWhitespace(lead) && AllWhitespace(trail)
    ensures GenerateCode(lead + purpose + trail, now) == GenerateCode(purpose, now)
  {
    PrefixIgnoresBlanks(lead, purpose, trail);
  }

  lemma {:induction false} FirstNonBlankExists(s: string)
    requires !AllWhitespace(s)
    ensures exists i :: 0 <= i < |s| && !IsWhitespace(s[i]) && AllWhitespace(s[..i])
  {
    if IsWhitespace(s[0]) {
      FirstNonBlankExists(s[1..]);
      var i :| 0 <= i < |s[1..]| && !IsWhitespace(s[1..][i]) && AllWhitespace(s[1..][..i]);
      assert s[..i + 1] == [s[0]] + s[1..][..i];
      assert !IsWhitespace(s[i + 1]) && AllWhitespace(s[..i + 1]);
    } else {
      assert AllWhitespace(s[..0]);
    }
  }

  /** A word with no blank at either end keeps its own first character, upper-cased. */
  lemma PrefixOfWord(w: string)
    requires w != [] && !IsWhitespace(w[0]) && !IsWhitespace(w[|w| - 1])
    ensures Prefix(w) == [ToUpperAscii(w[0])]
  {
  }

  lemma PrefixSellUpper()
    ensures Prefix("SELL") == "S"
  {
    PrefixOfWord("SELL");
  }

  lemma PrefixSellLower()
    ensures Prefix("sell") == "S"
  {
    PrefixOfWord("sell");
  }

  lemma PrefixRentUpper()
    ensures Prefix("RENT") == "R"
  {
    PrefixOfWord("RENT");
  }

  lemma PrefixSale()
    ensures Prefix("sale") == "S"
  {
    PrefixOfWord("sale");
  }

  /** The two purposes the form offers give the codes "S-<now>" and "R-<now>"; the case does not matter. */
  lemma KnownPurposes(now: nat)
    ensures GenerateCode("SELL", now) == GenerateCode("sell", now) == "S-" + Decimal(now)
    ensures GenerateCode("RENT", now) == "R-" + Decimal(now)
  {
    PrefixSellUpper();
    PrefixSellLower();
    PrefixRentUpper();
  }

  /** " sell " and "sell" give the same code. */
  lemma SellWithBlanks(now: nat)
    ensures GenerateCode(" sell ", now) == GenerateCode("sell", now)
  {
    SurroundingBlanksIgnored(" ", "sell", " ", now);
    assert " " + "sell" + " " == " sell ";
  }

  /** An empty or blank purpose gives a code that starts with the dash. */
  lemma BlankPurpose(purpose: string, now: nat)
    requires AllWhitespace(purpose)
    ensures GenerateCode(purpose, now) == "-" + Decimal(now)
  {
    PrefixIsFirstNonBlank(purpose);
  }

  /** "SELL" and "sale" share a prefix, so at the same instant they collide. */
  lemma SameLetterCollides(now: nat)
    ensures GenerateCode("SELL", now) == GenerateCode("sale", now)
  {
    PrefixSellUpper();
    PrefixSale();
  }
}
