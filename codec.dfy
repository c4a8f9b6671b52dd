/**
 * The environment codec: the variable names of the session layer and the primitive
 * reads `get_int`, `get_bool` and the raw read (src/env.rs:34-54, 399-408).
 * The process environment is a finite map from names to values.
 */
module Codec {
  import opened Wrappers

  type Environ = map<string, string>

  /** Rust's `i64` and `i32`. */
  type Int64 = x: int | -0x8000_0000_0000_0000 <= x <= 0x7fff_ffff_ffff_ffff
  type Int32 = x: int | -0x8000_0000 <= x <= 0x7fff_ffff

  const BASE := "REDO_BASE"
  const COLOR := "REDO_COLOR"
  const DEBUG := "REDO_DEBUG"
  const DEBUG_LOCKS := "REDO_DEBUG_LOCKS"
  const DEBUG_PIDS := "REDO_DEBUG_PIDS"
  const DEPTH := "REDO_DEPTH"
  const KEEP_GOING := "REDO_KEEP_GOING"
  const LOCKS_BROKEN := "REDO_LOCKS_BROKEN"
  const LOG := "REDO_LOG"
  const LOG_INODE := "REDO_LOG_INODE"
  const NO_OOB := "REDO_NO_OOB"
  const PRETTY := "REDO_PRETTY"
  const PWD := "REDO_PWD"
  const REDO := "REDO"
  const RUNID := "REDO_RUNID"
  const SHUFFLE := "REDO_SHUFFLE"
  const STARTDIR := "REDO_STARTDIR"
  const TARGET := "REDO_TARGET"
  const UNLOCKED := "REDO_UNLOCKED"
  const VERBOSE := "REDO_VERBOSE"
  const XTRACE := "REDO_XTRACE"
  const PATH := "PATH"

  /** The raw value of a variable, or the empty string when it is unset (`var_os(..).unwrap_or_default()`). */
  function GetRaw(vars: Environ, key: string): (r: string)
    ensures key in vars ==> r == vars[key]
    ensures key !in vars ==> r == ""
  {
    if key in vars then vars[key] else ""
  }

  /** `get_bool`: set and non-empty; what the value says does not matter. */
  function GetBool(vars: Environ, key: string): (r: bool)
    ensures r <==> key in vars && vars[key] != ""
  {
    GetRaw(vars, key) != ""
  }

  predicate IsDigit(c: char) {
    '0' <= c <= '9'
  }

  predicate AllDigits(s: string) {
    forall i :: 0 <= i < |s| ==> IsDigit(s[i])
  }

  function DigitValue(c: char): nat
    requires IsDigit(c)
  {
    (c as int) - ('0' as int)
  }

  function DigitChar(d: nat): (c: char)
    requires d < 10
    ensures IsDigit(c) && DigitValue(c) == d
  {
    ('0' as int + d) as char
  }

  /** The value of a string of decimal digits, most significant first. */
  function DigitsValue(s: string): nat
    requires AllDigits(s)
  {
    if |s| == 0 then 0 else 10 * DigitsValue(s[..|s| - 1]) + DigitValue(s[|s| - 1])
  }

  /**
   * `i64::from_str`: an optional `+` or `-`, then one or more decimal digits, the value in
   * the range of `i64`; anything else (the empty string, a sign alone, spaces, overflow) fails.
   */
  function ParseI64(s: string): (r: Option<Int64>)
    ensures r.Some? ==> 0 < |s| && (IsDigit(s[0]) || s[0] == '+' || s[0] == '-')
    ensures r.Some? && r.value < 0 ==> s[0] == '-'
    ensures 0 < |s| && AllDigits(s) && DigitsValue(s) <= 0x7fff_ffff_ffff_ffff ==> r == Some(DigitsValue(s))
  {
    if |s| == 0 then None
    else
      var digits := if s[0] == '+' || s[0] == '-' then s[1..] else s;
      if |digits| == 0 || !AllDigits(digits) then None
      else
        var v: int := if s[0] == '-' then -(DigitsValue(digits) as int) else DigitsValue(digits);
        if -0x8000_0000_0000_0000 <= v <= 0x7fff_ffff_ffff_ffff then Some(v) else None
  }

  /** The decimal form of a natural number, without leading zeros. */
  function NatString(n: nat): string
  {
    if n < 10 then [DigitChar(n)] else NatString(n / 10) + [DigitChar(n % 10)]
  }

  /** `i64::to_string`: a `-` for negative values, then the decimal digits. */
  function IntString(n: int): string
  {
    if n < 0 then "-" + NatString(-n) else NatString(n)
  }

  /**
   * `get_int`: the variable parsed as an `i64`, or `default` when it is unset or does not
   * parse. An unset variable reads as the empty string, which does not parse either.
   */
  function GetInt(vars: Environ, key: string, default: Int64): (r: Int64)
    ensures key !in vars || ParseI64(vars[key]).None? ==> r == default
    ensures key in vars && ParseI64(vars[key]).Some? ==> r == ParseI64(vars[key]).value
  {
    match ParseI64(GetRaw(vars, key))
    case Some(v) => v
    case None => default
  }

  /** Rust's `as i32` on an `i64`: keep the low 32 bits, read as two's complement. */
  function WrapI32(x: int): (r: Int32)
    ensures (x - r) % 0x1_0000_0000 == 0
    ensures -0x8000_0000 <= x <= 0x7fff_ffff ==> r == x
  {
    (x + 0x8000_0000) % 0x1_0000_0000 - 0x8000_0000
  }

  lemma {:induction false} NatStringDigits(n: nat)
    ensures 0 < |NatString(n)| && AllDigits(NatString(n))
    ensures DigitsValue(NatString(n)) == n
  {
    if n >= 10 {
      NatStringDigits(n / 10);
      var s := NatString(n);
      assert s == NatString(n / 10) + [DigitChar(n % 10)];
      assert s[..|s| - 1] == NatString(n / 10);
    }
  }

  /** Parsing the decimal form of an `i64` gives the same number back. */
  lemma ParseIntString(n: Int64)
    ensures ParseI64(IntString(n)) == Some(n)
  {
    var s := IntString(n);
    if n < 0 {
      var m: nat := -(n as int);
      NatStringDigits(m);
      assert s == "-" + NatString(m);
      var digits := s[1..];
      assert digits == NatString(m);
      assert s[0] == '-' && 0 < |digits| && AllDigits(digits);
      assert -(DigitsValue(digits) as int) == n;
    } else {
      NatStringDigits(n);
      assert s == NatString(n);
      assert IsDigit(s[0]);
      assert s[0] != '+' && s[0] != '-';
    }
  }

  /** A variable written with the decimal form of an `i64` reads back as that number. */
  lemma GetIntAfterWrite(vars: Environ, key: string, n: Int64, default: Int64)
    ensures GetInt(vars[key := IntString(n)], key, default) == n
  {
    ParseIntString(n);
  }

  /** Writing one variable leaves every other variable's reading as it was. */
  lemma ReadsOfOtherKeys(vars: Environ, key: string, value: string, other: string, default: Int64)
    requires other != key
    ensures GetRaw(vars[key := value], other) == GetRaw(vars, other)
    ensures GetBool(vars[key := value], other) == GetBool(vars, other)
    ensures GetInt(vars[key := value], other, default) == GetInt(vars, other, default)
  {
  }
}
