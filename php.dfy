/** The PHP 8 string built-ins the middleware relies on, on `string` as a sequence of characters. */
module Php {
  import opened Wrappers

  /** `substr($s, $start, $length)` for a non-negative start; `None` is the omitted length.
      A start past the end gives "", and a negative length stops that many characters
      before the end, clamped to "" when that point lies before the start. */
  function Substr(s: string, start: nat, length: Option<int>): (r: string)
    ensures start > |s| ==> r == ""
    ensures start <= |s| ==> r <= s[start..]
    ensures start <= |s| && length.None? ==> r == s[start..]
    ensures start <= |s| && length.Some? && length.value < 0 ==>
      |r| == (if |s| - start + length.value < 0 then 0 else |s| - start + length.value)
    ensures start <= |s| && length.Some? && length.value >= 0 ==>
      |r| == (if length.value < |s| - start then length.value else |s| - start)
  {
    if start > |s| then ""
    else match length
      case None => s[start..]
      case Some(l) =>
        if l < 0 then (if -l > |s| - start then "" else s[start..|s| + l])
        else (if l > |s| - start then s[start..] else s[start..start + l])
  }

  /** The characters `trim` strips by default: space, tab, line feed, carriage return, NUL, vertical tab. */
  predicate IsTrimChar(c: char) {
    c == ' ' || c == '\t' || c == '\n' || c == '\r' || c == '\0' || c == '\U{000B}'
  }

  function TrimLeft(s: string): (r: string)
    ensures |r| <= |s| && r == s[|s| - |r|..]
    ensures forall i :: 0 <= i < |s| - |r| ==> IsTrimChar(s[i])
    ensures |r| > 0 ==> !IsTrimChar(r[0])
  {
    if |s| > 0 && IsTrimChar(s[0]) then
      var r := TrimLeft(s[1..]);
      assert s[1..][|s| - 1 - |r|..] == s[|s| - |r|..];
      r
    else
      s
  }

  function TrimRight(s: string): (r: string)
    ensures r <= s
    ensures forall i :: |r| <= i < |s| ==> IsTrimChar(s[i])
    ensures |r| > 0 ==> !IsTrimChar(r[|r| - 1])
  {
    if |s| > 0 && IsTrimChar(s[|s| - 1]) then TrimRight(s[..|s| - 1]) else s
  }

  /** `r` is `s` with its first `k` characters and everything after `r` removed, and every
      removed character is a trim character. */
  predicate StrippedAt(s: string, k: nat, r: string) {
    && k + |r| <= |s| && r == s[k..k + |r|]
    && (forall i :: 0 <= i < k ==> IsTrimChar(s[i]))
    && (forall i :: k + |r| <= i < |s| ==> IsTrimChar(s[i]))
  }

  /** `trim($s)`: `s` without its leading and trailing trim characters. */
  function Trim(s: string): (r: string)
    ensures |r| > 0 ==> !IsTrimChar(r[0]) && !IsTrimChar(r[|r| - 1])
    ensures exists k: nat :: StrippedAt(s, k, r)
  {
    TrimStripped(s);
    TrimRight(TrimLeft(s))
  }

  lemma TrimStripped(s: string)
    ensures exists k: nat :: StrippedAt(s, k, TrimRight(TrimLeft(s)))
  {
    var l := TrimLeft(s);
    var k := |s| - |l|;
    var r := TrimRight(l);
    assert r == s[k..k + |r|];
    forall i | k + |r| <= i < |s|
      ensures IsTrimChar(s[i])
    {
      assert s[i] == l[i - k];
    }
    assert StrippedAt(s, k, r);
  }

  lemma TrimLeftNoop(s: string)
    requires |s| == 0 || !IsTrimChar(s[0])
    ensures TrimLeft(s) == s
  {
  }

  lemma {:induction false} TrimRightNoop(s: string)
    requires |s| == 0 || !IsTrimChar(s[|s| - 1])
    ensures TrimRight(s) == s
  {
  }

  /** Trimming twice is trimming once, which is what makes key normalisation idempotent. */
  lemma TrimIdempotent(s: string)
    ensures Trim(Trim(s)) == Trim(s)
  {
    var t := Trim(s);
    TrimLeftNoop(t);
    TrimRightNoop(t);
  }

  /** `strtoupper` on one character: only the ASCII letters a-z change. */
  function UpperChar(c: char): (u: char)
    ensures 'a' <= c <= 'z' ==> u as int == c as int - 32
    ensures !('a' <= c <= 'z') ==> u == c
    ensures !('a' <= u <= 'z')
  {
    if 'a' <= c <= 'z' then (c as int - 32) as char else c
  }

  function ToUpper(s: string): (r: string)
    ensures |r| == |s|
    ensures forall i :: 0 <= i < |s| ==> r[i] == UpperChar(s[i])
  {
    seq(|s|, i requires 0 <= i < |s| => UpperChar(s[i]))
  }

  /** `str_replace($from, $to, $s)` for one-character `from` and `to`. */
  function ReplaceChar(s: string, from: char, to: char): (r: string)
    ensures |r| == |s|
    ensures forall i :: 0 <= i < |s| ==> r[i] == (if s[i] == from then to else s[i])
  {
    seq(|s|, i requires 0 <= i < |s| => if s[i] == from then to else s[i])
  }

  /** `empty($s)` on a string: true for "" and, as PHP has it, for "0". */
  predicate Empty(s: string) {
    s == "" || s == "0"
  }

  /** `str_starts_with($s, $prefix)`. */
  predicate StartsWith(s: string, prefix: string) {
    prefix <= s
  }
}
