/** What several components share. */
module Common {
  datatype Option<+T> = None | Some(value: T)

  // ---- Characters ----

  /** [0-9] */
  predicate IsDigit(c: char) { '0' <= c <= '9' }

  /** [a-z0-9] */
  predicate IsWord(c: char) { 'a' <= c <= 'z' || IsDigit(c) }

  /** strings.ToLower on one character: the ASCII letters, and the two others that become one,
      the Kelvin sign and the capital I with a dot. */
  function LowerChar(c: char): char {
    if 'A' <= c <= 'Z' then (c as int + 32) as char
    else if c == '\U{212A}' then 'k'
    else if c == '\U{0130}' then 'i'
    else c
  }

  /** strings.ToUpper on one ASCII letter. */
  function UpperChar(c: char): char { if 'a' <= c <= 'z' then (c as int - 32) as char else c }

  type Lower = char -> char

  function Lowered(s: string, lower: Lower): string { seq(|s|, i requires 0 <= i < |s| => lower(s[i])) }

  function ToLower(s: string): string { Lowered(s, LowerChar) }

  // ---- Decimal numbers ----

  predicate AllDigits(s: string) { forall i :: 0 <= i < |s| ==> IsDigit(s[i]) }

  /** The number a run of digits writes. */
  function Number(s: string): nat
    requires AllDigits(s)
  {
    if s == [] then 0 else
      assert IsDigit(s[|s| - 1]);
      10 * Number(s[..|s| - 1]) + (s[|s| - 1] as int - '0' as int)
  }
}
