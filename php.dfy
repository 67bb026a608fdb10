/** The PHP string and truthiness rules the services rely on. A string is a
    sequence of characters, one character per byte. */
module Php {
  import opened Wrappers

  /** `empty($v)`, and equally `! $v`, for a nullable string: null, "" and "0" are falsy. */
  predicate Falsy(v: Option<string>) {
    v.None? || v.value == "" || v.value == "0"
  }

  /** `$m[$k] ?? null` on an associative array of strings. */
  function Lookup(m: map<string, string>, k: string): (r: Option<string>)
    ensures r.Some? <==> k in m
    ensures r.Some? ==> r.value == m[k]
  {
    if k in m then Some(m[k]) else None
  }

  /** `str_starts_with($s, $prefix)` */
  predicate StartsWith(s: string, prefix: string) {
    prefix <= s
  }

  /** `\d` in a PCRE pattern without the `u` flag. */
  predicate IsDigit(c: char) {
    '0' <= c <= '9'
  }

  /** `preg_match('/^\d+$/', $s)` for a string that holds no newline. */
  predicate AllDigits(s: string) {
    |s| > 0 && forall i :: 0 <= i < |s| ==> IsDigit(s[i])
  }

  predicate IsLower(c: char) {
    'a' <= c <= 'z'
  }

  /** The characters `trim()` strips by default: " \t\n\r\0\x0B". */
  predicate IsTrimChar(c: char) {
    c == ' ' || c == '\t' || c == '\n' || c == '\r' || c == '\0' || c == '\U{000B}'
  }

  function TrimLeft(s: string): (r: string)
    ensures |r| <= |s| && r == s[|s| - |r|..]
    ensures r == [] || !IsTrimChar(r[0])
    ensures forall i :: 0 <= i < |s| - |r| ==> IsTrimChar(s[i])
    ensures s == [] || !IsTrimChar(s[0]) ==> r == s
    decreases |s|
  {
    if |s| > 0 && IsTrimChar(s[0]) then TrimLeft(s[1..]) else s
  }

  function TrimRight(s: string): (r: string)
    ensures |r| <= |s| && r == s[..|r|]
    ensures r == [] || !IsTrimChar(r[|r| - 1])
    ensures forall i :: |r| <= i < |s| ==> IsTrimChar(s[i])
    ensures s == [] || !IsTrimChar(s[|s| - 1]) ==> r == s
    decreases |s|
  {
    if |s| > 0 && IsTrimChar(s[|s| - 1]) then TrimRight(s[..|s| - 1]) else s
  }

  /** `trim($s)`: the longest infix of `s` that neither starts nor ends with a trim character. */
  function Trim(s: string): (r: string)
    ensures r == [] || (!IsTrimChar(r[0]) && !IsTrimChar(r[|r| - 1]))
    ensures s == [] || (!IsTrimChar(s[0]) && !IsTrimChar(s[|s| - 1])) ==> r == s
  {
    TrimRight(TrimLeft(s))
  }

  /** Trim characters in front are all `ltrim` removes there. */
  lemma {:induction false} TrimLeftSkipsBlanks(pad: string, s: string)
    requires forall i :: 0 <= i < |pad| ==> IsTrimChar(pad[i])
    ensures TrimLeft(pad + s) == TrimLeft(s)
    decreases |pad|
  {
    if pad == [] {
      assert pad + s == s;
    } else {
      assert (pad + s)[1..] == pad[1..] + s;
      TrimLeftSkipsBlanks(pad[1..], s);
    }
  }

  /** Trim characters behind are all `rtrim` removes there. */
  lemma {:induction false} TrimRightSkipsBlanks(s: string, pad: string)
    requires forall i :: 0 <= i < |pad| ==> IsTrimChar(pad[i])
    ensures TrimRight(s + pad) == TrimRight(s)
    decreases |pad|
  {
    if pad == [] {
      assert s + pad == s;
    } else {
      var init := pad[..|pad| - 1];
      assert (s + pad)[..|s + pad| - 1] == s + init;
      TrimRightSkipsBlanks(s, init);
    }
  }

  /** `ltrim` of a concatenation: once the first part holds a kept
      character, the second part is untouched. */
  lemma {:induction false} TrimLeftAppend(s: string, t: string)
    ensures TrimLeft(s + t) == if TrimLeft(s) == [] then TrimLeft(t) else TrimLeft(s) + t
    decreases |s|
  {
    if s == [] {
      assert s + t == t;
    } else if IsTrimChar(s[0]) {
      assert (s + t)[1..] == s[1..] + t;
      TrimLeftAppend(s[1..], t);
    }
  }

  /** `trim` ignores trim characters around its argument. */
  lemma {:induction false} TrimIgnoresPadding(front: string, s: string, back: string)
    requires forall i :: 0 <= i < |front| ==> IsTrimChar(front[i])
    requires forall i :: 0 <= i < |back| ==> IsTrimChar(back[i])
    ensures Trim(front + s + back) == Trim(s)
  {
    assert front + s + back == front + (s + back);
    TrimLeftSkipsBlanks(front, s + back);
    TrimLeftAppend(s, back);
    if TrimLeft(s) == [] {
      assert TrimLeft(back) == [] by { TrimLeftSkipsBlanks(back, []); assert back + [] == back; }
    } else {
      TrimRightSkipsBlanks(TrimLeft(s), back);
    }
  }

  function UpperChar(c: char): (u: char)
    ensures !IsLower(u)
    ensures !IsLower(c) ==> u == c
    ensures IsTrimChar(u) <==> IsTrimChar(c)
  {
    if IsLower(c) then (c as int - 32) as char else c
  }

  /** `strtoupper($s)`: ASCII letters only, as PHP 8 does. */
  function ToUpper(s: string): (r: string)
    ensures |r| == |s|
    ensures forall i :: 0 <= i < |s| ==> r[i] == UpperChar(s[i])
    ensures forall i :: 0 <= i < |r| ==> !IsLower(r[i])
    ensures (forall i :: 0 <= i < |s| ==> !IsLower(s[i])) ==> r == s
  {
    seq(|s|, i requires 0 <= i < |s| => UpperChar(s[i]))
  }

  /** Upper-casing and `ltrim` commute: no letter is a trim character. */
  lemma {:induction false} UpperCommutesWithTrimLeft(s: string)
    ensures TrimLeft(ToUpper(s)) == ToUpper(TrimLeft(s))
    decreases |s|
  {
    if |s| > 0 && IsTrimChar(s[0]) {
      assert ToUpper(s)[1..] == ToUpper(s[1..]);
      UpperCommutesWithTrimLeft(s[1..]);
    }
  }

  /** Upper-casing and `rtrim` commute. */
  lemma {:induction false} UpperCommutesWithTrimRight(s: string)
    ensures TrimRight(ToUpper(s)) == ToUpper(TrimRight(s))
    decreases |s|
  {
    if |s| > 0 && IsTrimChar(s[|s| - 1]) {
      assert ToUpper(s)[..|s| - 1] == ToUpper(s[..|s| - 1]);
      UpperCommutesWithTrimRight(s[..|s| - 1]);
    }
  }

  function DigitChar(d: nat): (c: char)
    requires d < 10
    ensures IsDigit(c)
  {
    ('0' as int + d) as char
  }

  function NatToString(n: nat): (s: string)
    ensures AllDigits(s)
    decreases n
  {
    if n < 10 then [DigitChar(n)] else NatToString(n / 10) + [DigitChar(n % 10)]
  }

  /** String interpolation of an integer: "{$id}". */
  function IntToString(i: int): string {
    if i < 0 then "-" + NatToString(-i) else NatToString(i)
  }
}
