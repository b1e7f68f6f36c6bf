/**
 * The handful of Rust `str` operations the client relies on, written out
 * over `seq<char>`: `strip_prefix`, `find`, `contains`, `lines`, `trim`,
 * `split(..).nth(1)` and the integer `parse` of `u64` and `i64`.
 */
module Text {
  import opened Wrappers

  const U64_MAX: nat := 0xFFFF_FFFF_FFFF_FFFF
  const I64_MIN: int := -0x8000_0000_0000_0000
  const I64_MAX: int := 0x7FFF_FFFF_FFFF_FFFF

  predicate StartsWith(s: string, prefix: string) {
    |prefix| <= |s| && s[..|prefix|] == prefix
  }

  /** `str::strip_prefix`. */
  function StripPrefix(s: string, prefix: string): (r: Option<string>)
    ensures r.Some? <==> StartsWith(s, prefix)
    ensures r.Some? ==> s == prefix + r.value
  {
    if StartsWith(s, prefix) then
      assert s == s[..|prefix|] + s[|prefix|..];
      Some(s[|prefix|..])
    else None
  }

  /** `str::strip_suffix` for a one-character pattern. */
  function StripSuffix(s: string, c: char): (r: Option<string>)
    ensures r.Some? <==> (|s| > 0 && s[|s| - 1] == c)
    ensures r.Some? ==> s == r.value + [c]
  {
    if |s| > 0 && s[|s| - 1] == c then Some(s[..|s| - 1]) else None
  }

  /** `str::find` for a one-character pattern: the first index holding `c`. */
  function Find(s: string, c: char): (r: Option<nat>)
    ensures r.None? <==> c !in s
    ensures r.Some? ==> r.value < |s| && s[r.value] == c && c !in s[..r.value]
  {
    if s == [] then None
    else if s[0] == c then Some(0)
    else match Find(s[1..], c)
      case None => None
      case Some(i) =>
        assert s[..i + 1] == [s[0]] + s[1..][..i];
        Some(i + 1)
  }

  predicate OccursAt(s: string, sub: string, i: nat) {
    i + |sub| <= |s| && s[i..i + |sub|] == sub
  }

  /** The first index at or after `from` where `sub` occurs in `s`. */
  function FindSubFrom(s: string, sub: string, from: nat): (r: Option<nat>)
    decreases |s| - from
    ensures r.Some? ==> from <= r.value && OccursAt(s, sub, r.value)
    ensures r.Some? ==> forall j :: from <= j < r.value ==> !OccursAt(s, sub, j)
    ensures r.None? ==> forall j :: from <= j ==> !OccursAt(s, sub, j)
  {
    if from + |sub| > |s| then None
    else if s[from..from + |sub|] == sub then Some(from)
    else FindSubFrom(s, sub, from + 1)
  }

  /** `str::find` for a string pattern. */
  function FindSub(s: string, sub: string): (r: Option<nat>)
    ensures r.Some? ==> OccursAt(s, sub, r.value) && forall j :: 0 <= j < r.value ==> !OccursAt(s, sub, j)
    ensures r.None? <==> forall j :: 0 <= j ==> !OccursAt(s, sub, j)
  {
    FindSubFrom(s, sub, 0)
  }

  /** `str::contains` for a string pattern. */
  predicate Contains(s: string, sub: string) {
    FindSub(s, sub).Some?
  }

  /** Drops the `\r` of a `\r\n` line ending. */
  function DropCarriageReturn(line: string): string {
    if |line| > 0 && line[|line| - 1] == '\r' then line[..|line| - 1] else line
  }

  /**
   * `str::lines`: the pieces between `\n` characters, each without a `\r`
   * that stood just before its `\n`; a final line ending adds no empty line.
   */
  function Lines(s: string): (r: seq<string>)
    decreases |s|
    ensures s == [] <==> r == []
  {
    if s == [] then []
    else match Find(s, '\n')
      case None => [s]
      case Some(i) => [DropCarriageReturn(s[..i])] + Lines(s[i + 1..])
  }

  lemma LinesOfLineAndRest(line: string, rest: string)
    requires '\n' !in line
    ensures Lines(line + "\n" + rest) == [DropCarriageReturn(line)] + Lines(rest)
  {
    var s := line + "\n" + rest;
    assert s[|line|] == '\n';
    assert s[..|line|] == line;
    assert s[|line| + 1..] == rest;
    assert '\n' !in s[..|line|];
  }

  lemma LinesOfOneLine(line: string)
    requires line != [] && '\n' !in line
    ensures Lines(line) == [line]
  {
  }

  predicate IsDigit(c: char) {
    '0' <= c <= '9'
  }

  predicate AllDigits(s: string) {
    forall i :: 0 <= i < |s| ==> IsDigit(s[i])
  }

  /** The value of a string of decimal digits, most significant digit first. */
  function DigitsValue(s: string): nat
    requires AllDigits(s)
  {
    if s == [] then 0 else DigitsValue(s[..|s| - 1]) * 10 + (s[|s| - 1] as int - '0' as int)
  }

  /** The digits `u64::from_str` reads: an optional leading `+` is skipped. */
  function UnsignedDigits(s: string): string {
    if |s| > 0 && s[0] == '+' then s[1..] else s
  }

  /**
   * `<u64 as FromStr>::from_str(s).ok()`: an optional `+`, then at least one
   * decimal digit and nothing else, with a value that fits in 64 bits.
   */
  function ParseU64(s: string): (r: Option<nat>)
    ensures r.Some? <==>
      var d := UnsignedDigits(s); d != [] && AllDigits(d) && DigitsValue(d) <= U64_MAX
    ensures r.Some? ==> r.value == DigitsValue(UnsignedDigits(s)) && r.value <= U64_MAX
    ensures s == [] ==> r.None?
  {
    var digits := UnsignedDigits(s);
    if digits == [] || !AllDigits(digits) then None
    else if DigitsValue(digits) > U64_MAX then None
    else Some(DigitsValue(digits))
  }

  /**
   * `<i64 as FromStr>::from_str(s).ok()`: an optional `+` or `-`, then at
   * least one decimal digit and nothing else, within the 64-bit signed range.
   */
  function ParseI64(s: string): (r: Option<int>)
    ensures r.Some? ==> I64_MIN <= r.value <= I64_MAX
    ensures s == [] ==> r.None?
  {
    var negative := |s| > 0 && s[0] == '-';
    var digits := if |s| > 0 && (s[0] == '+' || s[0] == '-') then s[1..] else s;
    if digits == [] || !AllDigits(digits) then None
    else
      var magnitude: int := DigitsValue(digits);
      var v := if negative then 0 - magnitude else magnitude;
      if v < I64_MIN || v > I64_MAX then None else Some(v)
  }

  /** `char::is_whitespace`: the characters with Unicode's White_Space property. */
  predicate IsWhitespace(c: char) {
    ('\U{9}' <= c <= '\U{D}') || c == ' ' || c == '\U{85}' || c == '\U{A0}' || c == '\U{1680}'
    || ('\U{2000}' <= c <= '\U{200A}') || c == '\U{2028}' || c == '\U{2029}' || c == '\U{202F}'
    || c == '\U{205F}' || c == '\U{3000}'
  }

  function TrimStart(s: string): (r: string)
    ensures |r| <= |s| && r == s[|s| - |r|..]
    ensures r != [] ==> !IsWhitespace(r[0])
  {
    if s != [] && IsWhitespace(s[0]) then TrimStart(s[1..]) else s
  }

  function TrimEnd(s: string): (r: string)
    ensures |r| <= |s| && r == s[..|r|]
    ensures r != [] ==> !IsWhitespace(r[|r| - 1])
  {
    if s != [] && IsWhitespace(s[|s| - 1]) then TrimEnd(s[..|s| - 1]) else s
  }

  /** `str::trim`. */
  function Trim(s: string): (r: string)
    ensures |r| <= |s|
    ensures r != [] ==> !IsWhitespace(r[0]) && !IsWhitespace(r[|r| - 1])
  {
    TrimEnd(TrimStart(s))
  }

  /**
   * `s.split(needle).nth(1)` for a non-empty needle: the text between the
   * first occurrence of `needle` and the next one (or the end of `s`);
   * `None` when `needle` does not occur.
   */
  function SplitSecond(s: string, needle: string): (r: Option<string>)
    requires needle != []
    ensures r.None? <==> FindSub(s, needle).None?
  {
    match FindSub(s, needle)
    case None => None
    case Some(i) =>
      var rest := s[i + |needle|..];
      match FindSub(rest, needle)
      case None => Some(rest)
      case Some(j) => Some(rest[..j])
  }
}
