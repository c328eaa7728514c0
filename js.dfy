/** The few JavaScript built-ins the client code relies on, stated over Dafny strings:
    thrown errors, `toLowerCase`, `trim`, `startsWith`, `includes`, `substring`,
    `parseInt(s, 10)`, `Number.prototype.toString(16)` and `Array.prototype.toString`. */
module Js {

  datatype Option<+T> = None | Some(value: T)

  /** A thrown value as the client code inspects it: an optional numeric `code`
      and an optional `message`. Provider faults carry whatever the wallet put in
      them; `new Error(m)` has no code and the message `m`. */
  datatype Error = Error(code: Option<int>, message: Option<string>)

  function NewError(message: string): Error {
    Error(None, Some(message))
  }

  /** `e.message || fallback`: an absent or empty message is falsy. */
  function MessageOr(e: Error, fallback: string): string {
    if e.message.Some? && e.message.value != "" then e.message.value else fallback
  }

  /** `e.message?.includes(sub)`: false when there is no message. */
  predicate MessageIncludes(e: Error, sub: string) {
    e.message.Some? && Includes(e.message.value, sub)
  }

  // ---------------------------------------------------------------- case

  function LowerChar(c: char): char {
    if 'A' <= c <= 'Z' then (c as int + 32) as char else c
  }

  /** `toLowerCase`, for the ASCII letters. */
  function Lower(s: string): (r: string)
    ensures |r| == |s|
    ensures forall i :: 0 <= i < |s| ==> r[i] == LowerChar(s[i])
  {
    seq(|s|, i requires 0 <= i < |s| => LowerChar(s[i]))
  }

  predicate IsLower(s: string) {
    forall i :: 0 <= i < |s| ==> !('A' <= s[i] <= 'Z')
  }

  lemma LowerIsLower(s: string)
    ensures IsLower(Lower(s))
  {
  }

  lemma LowerOfLower(s: string)
    requires IsLower(s)
    ensures Lower(s) == s
  {
  }

  // ---------------------------------------------------------------- trim

  /** ECMAScript WhiteSpace and LineTerminator code points: what `trim` removes. */
  predicate IsSpace(c: char) {
    c == '\t' || c == '\n' || c == '\U{000B}' || c == '\U{000C}' || c == '\r' || c == ' '
    || c == '\U{00A0}' || c == '\U{1680}' || ('\U{2000}' <= c <= '\U{200A}')
    || c == '\U{2028}' || c == '\U{2029}' || c == '\U{202F}' || c == '\U{205F}'
    || c == '\U{3000}' || c == '\U{FEFF}'
  }

  function TrimStart(s: string): (r: string)
    ensures r == [] || !IsSpace(r[0])
  {
    if |s| > 0 && IsSpace(s[0]) then TrimStart(s[1..]) else s
  }

  function TrimEnd(s: string): (r: string)
    ensures r == [] || !IsSpace(r[|r| - 1])
  {
    if |s| > 0 && IsSpace(s[|s| - 1]) then TrimEnd(s[..|s| - 1]) else s
  }

  /** `trim`. */
  function Trim(s: string): (r: string)
    ensures r == [] || (!IsSpace(r[0]) && !IsSpace(r[|r| - 1]))
  {
    TrimEndIsPrefix(TrimStart(s));
    TrimEnd(TrimStart(s))
  }

  lemma {:induction false} TrimEndIsPrefix(s: string)
    ensures |TrimEnd(s)| <= |s| && TrimEnd(s) == s[..|TrimEnd(s)|]
  {
    if |s| > 0 && IsSpace(s[|s| - 1]) {
      TrimEndIsPrefix(s[..|s| - 1]);
    }
  }

  lemma {:induction false} TrimStartKeepsLower(s: string)
    requires IsLower(s)
    ensures IsLower(TrimStart(s))
  {
    if |s| > 0 && IsSpace(s[0]) {
      TrimStartKeepsLower(s[1..]);
    }
  }

  lemma {:induction false} TrimEndKeepsLower(s: string)
    requires IsLower(s)
    ensures IsLower(TrimEnd(s))
  {
    if |s| > 0 && IsSpace(s[|s| - 1]) {
      TrimEndKeepsLower(s[..|s| - 1]);
    }
  }

  lemma TrimKeepsLower(s: string)
    requires IsLower(s)
    ensures IsLower(Trim(s))
  {
    TrimStartKeepsLower(s);
    TrimEndKeepsLower(TrimStart(s));
  }

  lemma TrimOfTrimmed(s: string)
    requires s == [] || (!IsSpace(s[0]) && !IsSpace(s[|s| - 1]))
    ensures Trim(s) == s
  {
  }

  // ---------------------------------------------------------------- search

  predicate StartsWith(s: string, prefix: string) {
    |prefix| <= |s| && s[..|prefix|] == prefix
  }

  /** `sub` occurs in `s` at position `at`. */
  predicate OccursAt(s: string, sub: string, at: nat) {
    at + |sub| <= |s| && s[at..at + |sub|] == sub
  }

  /** `includes`: `sub` occurs in `s` at some position. */
  predicate Includes(s: string, sub: string) {
    exists at: nat | at <= |s| :: OccursAt(s, sub, at)
  }

  lemma IncludesAt(s: string, sub: string, at: nat)
    requires at + |sub| <= |s| && s[at..at + |sub|] == sub
    ensures Includes(s, sub)
  {
    assert OccursAt(s, sub, at);
  }

  /** `substring(start, end)`: both ends clamped to the string, swapped when reversed. */
  function Substring(s: string, start: int, end: int): (r: string)
    ensures |r| <= |s|
  {
    var a := if start < 0 then 0 else if start > |s| then |s| else start;
    var b := if end < 0 then 0 else if end > |s| then |s| else end;
    if a <= b then s[a..b] else s[b..a]
  }

  // ---------------------------------------------------------------- numbers

  const MAX_EXACT: int := 0x20_0000_0000_0000  // 2^53: integers below it are exact in a double

  predicate IsDigit(c: char) {
    '0' <= c <= '9'
  }

  /** The longest run of decimal digits at the head of `s`. */
  function LeadingDigits(s: string): (d: string)
    ensures |d| <= |s| && d == s[..|d|]
    ensures forall i :: 0 <= i < |d| ==> IsDigit(d[i])
    ensures |d| < |s| ==> !IsDigit(s[|d|])
  {
    if |s| > 0 && IsDigit(s[0]) then [s[0]] + LeadingDigits(s[1..]) else ""
  }

  function DigitValue(c: char): nat
    requires IsDigit(c)
  {
    c as int - '0' as int
  }

  function DigitsValue(d: string): nat
    requires forall i :: 0 <= i < |d| ==> IsDigit(d[i])
  {
    if d == [] then 0 else DigitsValue(d[..|d| - 1]) * 10 + DigitValue(d[|d| - 1])
  }

  /** The sign and digit run `parseInt(s, 10)` reads from a string that has no
      leading white space; `digits` is empty exactly when the result is NaN. */
  function SignedDigits(s: string): (sd: (int, string))
    ensures sd.0 == 1 || sd.0 == -1
    ensures forall i :: 0 <= i < |sd.1| ==> IsDigit(sd.1[i])
  {
    if |s| > 0 && s[0] == '-' then (-1, LeadingDigits(s[1..]))
    else if |s| > 0 && s[0] == '+' then (1, LeadingDigits(s[1..]))
    else (1, LeadingDigits(s))
  }

  /** `parseInt(s, 10)` on a string without leading white space: `None` is NaN. */
  function ParseInt(s: string): Option<int> {
    var (sign, digits) := SignedDigits(s);
    var magnitude: int := DigitsValue(digits);
    if digits == "" then None
    else if sign < 0 then Some(-magnitude)
    else Some(magnitude)
  }

  /** `parseInt(s, 10)` yields an integer a double holds exactly (or NaN). */
  predicate ParseIntExact(s: string) {
    var (sign, digits) := SignedDigits(s);
    digits == "" || DigitsValue(digits) < MAX_EXACT
  }

  function HexDigit(n: nat): char
    requires n < 16
  {
    "0123456789abcdef"[n]
  }

  predicate IsHexDigit(c: char) {
    IsDigit(c) || 'a' <= c <= 'f' || 'A' <= c <= 'F'
  }

  /** Lower-case hexadecimal without leading zeros ("0" for zero). */
  function Hex(n: nat): (r: string)
    ensures |r| > 0 && IsLower(r)
    ensures forall i :: 0 <= i < |r| ==> IsHexDigit(r[i])
  {
    if n < 16 then [HexDigit(n)] else Hex(n / 16) + [HexDigit(n % 16)]
  }

  /** `Number.prototype.toString(16)` for an integer. */
  function IntToHex(v: int): (r: string)
    ensures |r| > 0 && IsLower(r)
    ensures !IsSpace(r[|r| - 1])
  {
    if v < 0 then "-" + Hex(-v) else Hex(v)
  }

  /** `Array.prototype.toString` on an array of strings. */
  function JoinComma(items: seq<string>): string {
    if |items| == 0 then ""
    else if |items| == 1 then items[0]
    else JoinComma(items[..|items| - 1]) + "," + items[|items| - 1]
  }
}
