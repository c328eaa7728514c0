/** Chain identifiers as the mint and burn forms compare them: `normalizeChainId`
    turns a number or a string into a lower-case `0x` string, and two ids are the
    same chain when their normalised strings are equal (string equality, not
    numeric equality). */
module ChainIds {
  import opened Js

  /** What `normalizeChainId` receives: a JavaScript number or a string. */
  datatype RawChainId = Num(value: int) | Text(text: string)

  /** The inputs on which the model is exact: a number is a safe integer, and a
      decimal run that `parseInt` reads from a string is below 2^53, so that
      `toString(16)` prints the value itself. */
  predicate Exact(id: RawChainId) {
    match id
    case Num(v) => -MAX_EXACT < v < MAX_EXACT
    case Text(s) =>
      var cleaned := Trim(Lower(s));
      StartsWith(cleaned, "0x") || ParseIntExact(cleaned)
  }

  /** The `normalizeChainId` of the mint and burn forms: a number becomes `0x` and
      its hexadecimal digits; a string is lower-cased and trimmed, kept as it is when
      it then starts with `0x`, otherwise read by `parseInt(·, 10)` and printed in
      hexadecimal, or, when no digits lead it, simply prefixed with `0x`. */
  function Normalize(id: RawChainId): (r: string)
    requires Exact(id)
    ensures StartsWith(r, "0x") && IsLower(r)
  {
    var normalized := Unlowered(id);
    LowerIsLower(normalized);
    LowerKeepsPrefix(normalized);
    Lower(normalized)
  }

  /** `normalized` before the closing `toLowerCase()`. */
  function Unlowered(id: RawChainId): (r: string)
    requires Exact(id)
    ensures StartsWith(r, "0x")
  {
    match id
    case Num(v) => "0x" + IntToHex(v)
    case Text(s) =>
      var cleaned := Trim(Lower(s));
      if StartsWith(cleaned, "0x") then cleaned
      else match ParseInt(cleaned)
        case Some(num) => "0x" + IntToHex(num)
        case None => "0x" + cleaned
  }

  lemma LowerKeepsPrefix(s: string)
    requires StartsWith(s, "0x")
    ensures StartsWith(Lower(s), "0x")
  {
    assert Lower(s)[0] == LowerChar(s[0]) && s[0] == '0';
    assert Lower(s)[1] == LowerChar(s[1]) && s[1] == 'x';
  }

  lemma LowerKeepsNonSpace(c: char)
    requires !IsSpace(c)
    ensures !IsSpace(LowerChar(c))
  {
  }

  lemma UnloweredEndsWithNonSpace(id: RawChainId)
    requires Exact(id)
    ensures var u := Unlowered(id); !IsSpace(u[|u| - 1])
  {
    match id
    case Num(v) =>
    case Text(s) =>
      var cleaned := Trim(Lower(s));
      if !StartsWith(cleaned, "0x") && ParseInt(cleaned).None? {
        var u := "0x" + cleaned;
        if cleaned != [] {
          assert u[|u| - 1] == cleaned[|cleaned| - 1];
        }
      }
  }

  /** What `Normalize` returns carries no white space at either end. */
  lemma NormalizeTrimmed(id: RawChainId)
    requires Exact(id)
    ensures var r := Normalize(id); !IsSpace(r[0]) && !IsSpace(r[|r| - 1])
  {
    var u := Unlowered(id);
    var r := Normalize(id);
    assert r == Lower(u);
    UnloweredEndsWithNonSpace(id);
    LowerKeepsNonSpace(u[|u| - 1]);
    assert r[|r| - 1] == LowerChar(u[|u| - 1]);
    assert r[0] == '0';
  }

  /** Normalising is idempotent: an output read back as a string comes out unchanged. */
  lemma NormalizeIdempotent(id: RawChainId)
    requires Exact(id)
    ensures Exact(Text(Normalize(id)))
    ensures Normalize(Text(Normalize(id))) == Normalize(id)
  {
    var r := Normalize(id);
    NormalizeTrimmed(id);
    LowerOfLower(r);
    TrimOfTrimmed(r);
    assert Trim(Lower(r)) == r;
  }

  /** A string that is `0x`-prefixed once lower-cased and trimmed is returned
      verbatim: no re-padding, no numeric reading. */
  lemma PrefixedKeptVerbatim(s: string)
    requires StartsWith(Trim(Lower(s)), "0x")
    ensures Exact(Text(s)) && Normalize(Text(s)) == Trim(Lower(s))
  {
    var c := Trim(Lower(s));
    LowerIsLower(s);
    TrimKeepsLower(Lower(s));
    LowerOfLower(c);
  }

  /** A number becomes `0x` followed by its lower-case hexadecimal digits. */
  lemma NumberToHex(n: nat)
    requires n < MAX_EXACT
    ensures Normalize(Num(n)) == "0x" + Hex(n)
  {
    LowerOfLower("0x" + Hex(n));
  }

  /** A string that is already lower-case and has no white space at its ends is
      its own cleaned form. */
  lemma CleanedIsItself(s: string)
    requires IsLower(s)
    requires s == [] || (!IsSpace(s[0]) && !IsSpace(s[|s| - 1]))
    ensures Trim(Lower(s)) == s
  {
    LowerOfLower(s);
    TrimOfTrimmed(s);
  }

  lemma {:induction false} AllDigitsLead(d: string)
    requires forall i :: 0 <= i < |d| ==> IsDigit(d[i])
    ensures LeadingDigits(d) == d
  {
    if |d| > 0 {
      AllDigitsLead(d[1..]);
    }
  }

  /** A string of decimal digits (leading zeros allowed) names the same chain as
      the number it spells. */
  lemma DigitStringAsNumber(d: string)
    requires |d| > 0 && forall i :: 0 <= i < |d| ==> IsDigit(d[i])
    requires DigitsValue(d) < MAX_EXACT
    ensures Exact(Text(d)) && Normalize(Text(d)) == Normalize(Num(DigitsValue(d)))
  {
    DigitStringUnlowered(d);
  }

  lemma DigitStringUnlowered(d: string)
    requires |d| > 0 && forall i :: 0 <= i < |d| ==> IsDigit(d[i])
    requires DigitsValue(d) < MAX_EXACT
    ensures Exact(Text(d)) && Unlowered(Text(d)) == Unlowered(Num(DigitsValue(d)))
  {
    DigitsCleaned(d);
    DigitsParsed(d);
    DigitsUnprefixed(d);
  }

  lemma DigitsCleaned(d: string)
    requires forall i :: 0 <= i < |d| ==> IsDigit(d[i])
    ensures Trim(Lower(d)) == d
  {
    assert IsLower(d);
    CleanedIsItself(d);
  }

  lemma DigitsParsed(d: string)
    requires |d| > 0 && forall i :: 0 <= i < |d| ==> IsDigit(d[i])
    ensures SignedDigits(d) == (1, d) && ParseInt(d) == Some(DigitsValue(d))
  {
    AllDigitsLead(d);
  }

  lemma DigitsUnprefixed(d: string)
    requires forall i :: 0 <= i < |d| ==> IsDigit(d[i])
    ensures !StartsWith(d, "0x")
  {
    if |d| >= 2 { assert d[..2][1] == d[1]; }
  }

  /** The number 42429 is chain "0xa5bd". */
  lemma TargetAsNumber()
    ensures Normalize(Num(42429)) == "0xa5bd"
  {
    NumberToHex(42429);
    TargetHex();
  }

  lemma TargetHex()
    ensures Hex(42429) == "a5bd"
  {
    assert 42429 / 16 == 2651 && 42429 % 16 == 13;
    assert 2651 / 16 == 165 && 2651 % 16 == 11;
    assert 165 / 16 == 10 && 165 % 16 == 5;
    assert HexDigit(10) == 'a' && HexDigit(5) == '5' && HexDigit(11) == 'b' && HexDigit(13) == 'd';
    assert Hex(165) == "a5";
    assert Hex(2651) == "a5b";
  }

  /** A lower-case `0x` string with no white space at its ends is its own
      normalisation. */
  lemma CanonicalKept(s: string)
    requires StartsWith(s, "0x") && IsLower(s) && !IsSpace(s[|s| - 1])
    ensures Exact(Text(s)) && Normalize(Text(s)) == s
  {
    CleanedIsItself(s);
    PrefixedKeptVerbatim(s);
  }

  /** The prefixed string "0xa5bd" is kept as it is. */
  lemma TargetAsPrefixedHex()
    ensures Exact(Text("0xa5bd")) && Normalize(Text("0xa5bd")) == "0xa5bd"
  {
    CanonicalKept("0xa5bd");
  }

  /** A cleaned string that starts with neither a digit, a sign nor `0x` is no
      number to `parseInt`, so it is only prefixed with `0x`. */
  lemma NonNumericPrefixed(s: string)
    requires |s| > 0 && IsLower(s) && !IsSpace(s[0]) && !IsSpace(s[|s| - 1])
    requires !IsDigit(s[0]) && s[0] != '-' && s[0] != '+'
    ensures Exact(Text(s)) && Normalize(Text(s)) == "0x" + s
  {
    CleanedIsItself(s);
    assert ParseInt(s) == None;
    assert !StartsWith(s, "0x") by {
      if 2 <= |s| { assert s[..2][0] == s[0]; }
    }
    assert Unlowered(Text(s)) == "0x" + s;
    LowerOfLower("0x" + s);
  }

  /** The decimal string "42429" is read by `parseInt` and printed as "0xa5bd". */
  lemma TargetAsDecimalString()
    ensures Exact(Text("42429")) && Normalize(Text("42429")) == "0xa5bd"
  {
    TargetDigits();
    DigitStringAsNumber("42429");
    TargetAsNumber();
  }

  /** A step of `TargetAsDecimalString`: the digits of "42429" spell 42429. */
  lemma TargetDigits()
    ensures DigitsValue("42429") == 42429
  {
    assert "42429"[..4] == "4242";
    assert "4242"[..3] == "424";
    assert "424"[..2] == "42";
    assert "42"[..1] == "4";
    assert DigitsValue("4") == 4;
    assert DigitsValue("42") == 42;
    assert DigitsValue("424") == 424;
    assert DigitsValue("4242") == 4242;
  }

  /** A cleaned, unprefixed string that starts with a run of digits followed by
      a letter is read by `parseInt` up to that letter only. */
  lemma DigitsThenLetter(d: string, rest: string)
    requires |d| > 0 && (forall i :: 0 <= i < |d| ==> IsDigit(d[i])) && DigitsValue(d) < MAX_EXACT
    requires |rest| > 0 && !IsDigit(rest[0]) && !IsSpace(rest[|rest| - 1])
    requires IsLower(d + rest) && !StartsWith(d + rest, "0x")
    ensures Exact(Text(d + rest)) && Normalize(Text(d + rest)) == Normalize(Num(DigitsValue(d)))
  {
    var s := d + rest;
    LeadingRunParsed(d, rest);
    assert Exact(Text(s));
    assert Unlowered(Text(s)) == Unlowered(Num(DigitsValue(d)));
  }

  lemma LeadingRunParsed(d: string, rest: string)
    requires |d| > 0 && (forall i :: 0 <= i < |d| ==> IsDigit(d[i]))
    requires |rest| > 0 && !IsDigit(rest[0]) && !IsSpace(rest[|rest| - 1])
    requires IsLower(d + rest)
    ensures Trim(Lower(d + rest)) == d + rest
    ensures SignedDigits(d + rest) == (1, d) && ParseInt(d + rest) == Some(DigitsValue(d))
  {
    var s := d + rest;
    assert s[0] == d[0] && s[|s| - 1] == rest[|rest| - 1];
    CleanedIsItself(s);
    LeadingRun(d, rest);
  }

  lemma {:induction false} LeadingRun(d: string, rest: string)
    requires forall i :: 0 <= i < |d| ==> IsDigit(d[i])
    requires |rest| > 0 && !IsDigit(rest[0])
    ensures LeadingDigits(d + rest) == d
  {
    if |d| > 0 {
      assert (d + rest)[1..] == d[1..] + rest;
      LeadingRun(d[1..], rest);
    } else {
      assert d + rest == rest;
    }
  }

  /** An unprefixed two-character hexadecimal id that starts with a digit is read
      as decimal up to its letter: "1a" names chain 0x1, not chain 0x1a, which is
      what the prefixed "0x1a" names. */
  lemma UnprefixedHexMisread(digit: char, letter: char)
    requires IsDigit(digit) && 'a' <= letter <= 'f'
    ensures Exact(Text([digit, letter])) && Normalize(Text([digit, letter])) == "0x" + Hex(DigitValue(digit))
    ensures Exact(Text("0x" + [digit, letter])) && Normalize(Text("0x" + [digit, letter])) == "0x" + [digit, letter]
    ensures Normalize(Text([digit, letter])) != Normalize(Text("0x" + [digit, letter]))
  {
    var d, id := [digit], [digit, letter];
    var v := DigitValue(digit);
    assert d + [letter] == id;
    assert DigitsValue(d) == v by {
      assert d[..0] == [];
    }
    assert !StartsWith(id, "0x") by { assert id[..2][1] == letter; }
    assert IsLower(id);
    DigitsThenLetter(d, [letter]);
    NumberToHex(v);
    var misread := Normalize(Text(id));
    assert misread == "0x" + Hex(v);
    assert |misread| == 3;
    var prefixed := "0x" + id;
    assert StartsWith(prefixed, "0x") by { assert prefixed[..2] == "0x"; }
    assert IsLower(prefixed);
    CanonicalKept(prefixed);
    assert |Normalize(Text(prefixed))| == 4;
  }

  /** Equality is on strings, not numbers: leading zeros after `0x` are kept. */
  lemma LeadingZerosDistinguish()
    ensures Normalize(Text("0x00a5bd")) != Normalize(Text("0xa5bd"))
  {
    CanonicalKept("0x00a5bd");
    CanonicalKept("0xa5bd");
    assert |"0x00a5bd"| != |"0xa5bd"|;
  }
}
