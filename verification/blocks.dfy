/**
 * `get_earliest_block_info`: the node is asked for block 1, and when it
 * has pruned that block the height it still has is read from the text of
 * the error it returns.
 */
module Blocks {
  import opened Wrappers
  import opened Chain
  import opened Text

  /** The block details the client reports; the timestamp is not modelled. */
  datatype BlockInfo = BlockInfo(height: int, blockHash: string, txhashes: seq<string>)

  /** A text searched for in an error message. */
  type Needle = s: string | s != [] witness "?"

  /** The two phrasings nodes use for the lowest height they keep, tried in this order. */
  const HeightNeedles: seq<Needle> := ["lowest height is", "base height: "]

  /**
   * The height after one needle: the text after the needle's first
   * occurrence (up to any second one), trimmed, without one closing
   * parenthesis, parsed as an `i64`.
   */
  function NeedleHeight(message: string, needle: Needle): (h: Option<int>)
    ensures FindSub(message, needle).None? ==> h.None?
    ensures h.Some? ==> I64_MIN <= h.value <= I64_MAX
  {
    match SplitSecond(message, needle)
    case None => None
    case Some(part) =>
      ParseI64(WithoutCloseParen(Trim(part)))
  }

  /** No needle before the `k`-th yields a height from `message`. */
  predicate NoHeightBefore(message: string, k: nat)
    requires k <= |HeightNeedles|
  {
    forall j :: 0 <= j < k ==> NeedleHeight(message, HeightNeedles[j]).None?
  }

  /** `strip_suffix(')').unwrap_or(..)`: one closing parenthesis at the end goes. */
  function WithoutCloseParen(t: string): string {
    match StripSuffix(t, ')')
    case None => t
    case Some(u) => u
  }

  /**
   * The hint in a status message: the height given by the first needle
   * that yields one.
   */
  method HeightHint(message: string) returns (h: Option<int>)
    ensures h.None? <==> NoHeightBefore(message, |HeightNeedles|)
    ensures h.Some? ==>
      exists k :: 0 <= k < |HeightNeedles| && NeedleHeight(message, HeightNeedles[k]) == h && NoHeightBefore(message, k)
  {
    for k := 0 to |HeightNeedles|
      invariant NoHeightBefore(message, k)
    {
      var x := NeedleHeight(message, HeightNeedles[k]);
      if x.Some? {
        return x;
      }
    }
    return None;
  }

  /** The status an error carries, as `downcast_ref::<tonic::Status>` finds it. */
  function StatusOf(e: Error): Option<Status> {
    if e.Rpc? then Some(e.status) else None
  }

  /**
   * `get_earliest_block_info`: block 1 when the node has it; otherwise the
   * block at the height the error's status names after the first needle that
   * yields one, or that first error when it names none. Returns the outcome
   * and the heights asked for.
   */
  method EarliestBlockInfo(getBlock: int -> Result<BlockInfo, Error>)
    returns (r: Result<BlockInfo, Error>, asked: seq<int>)
    ensures 1 <= |asked| <= 2 && asked[0] == 1
    ensures r == getBlock(asked[|asked| - 1])
    ensures getBlock(1).Ok? ==> asked == [1]
    ensures |asked| == 2 ==> getBlock(1).Err? && StatusOf(getBlock(1).error).Some?
    ensures |asked| == 2 ==>
      exists k :: 0 <= k < |HeightNeedles| && NeedleHeight(StatusOf(getBlock(1).error).value.message, HeightNeedles[k]) == Some(asked[1])
        && NoHeightBefore(StatusOf(getBlock(1).error).value.message, k)
    ensures (getBlock(1).Err? && StatusOf(getBlock(1).error).Some?
             && !NoHeightBefore(StatusOf(getBlock(1).error).value.message, |HeightNeedles|))
      ==> |asked| == 2
  {
    var first := getBlock(1);
    if first.Ok? {
      return first, [1];
    }
    match StatusOf(first.error) {
      case None =>
        return first, [1];
      case Some(status) =>
        var hint := HeightHint(status.message);
        match hint {
          case None =>
            return first, [1];
          case Some(height) =>
            return getBlock(height), [1, height];
        }
    }
  }

  /** The first occurrence of `needle` stays first when text is appended after it. */
  lemma {:induction false} FirstOccurrenceKept(prefix: string, needle: Needle, rest: string)
    requires FindSub(prefix + needle, needle) == Some(|prefix|)
    ensures FindSub(prefix + needle + rest, needle) == Some(|prefix|)
  {
    var m := prefix + needle + rest;
    var short := prefix + needle;
    assert m[|prefix|..|prefix| + |needle|] == needle;
    forall j | 0 <= j < |prefix|
      ensures !OccursAt(m, needle, j)
    {
      assert !OccursAt(short, needle, j);
      assert m[j..j + |needle|] == short[j..j + |needle|];
    }
    assert OccursAt(m, needle, |prefix|);
  }

  /** After the first occurrence of `needle`, a `rest` without it is the second piece of the split. */
  lemma {:induction false} SplitAfterNeedle(prefix: string, needle: Needle, rest: string)
    requires FindSub(prefix + needle, needle) == Some(|prefix|)
    requires FindSub(rest, needle).None?
    ensures SplitSecond(prefix + needle + rest, needle) == Some(rest)
  {
    var m := prefix + needle + rest;
    FirstOccurrenceKept(prefix, needle, rest);
    assert m[|prefix| + |needle|..] == rest;
  }

  /** A needle whose first character a text lacks does not occur in it. */
  lemma {:induction false} NeedleAbsent(rest: string, needle: Needle)
    requires forall i :: 0 <= i < |rest| ==> rest[i] != needle[0]
    ensures FindSub(rest, needle).None?
  {
    forall j | 0 <= j
      ensures !OccursAt(rest, needle, j)
    {
      if j + |needle| <= |rest| {
        assert rest[j..j + |needle|][0] == rest[j];
      }
    }
  }

  /** Neither a digit nor a closing parenthesis is white space. */
  lemma NotWhitespace(c: char)
    requires IsDigit(c) || c == ')'
    ensures !IsWhitespace(c)
  {
  }

  /** One leading space before a text that starts with no white space is all `trim_start` drops. */
  lemma {:induction false} TrimStartOneSpace(body: string)
    requires body != [] && !IsWhitespace(body[0])
    ensures TrimStart(" " + body) == body
  {
    assert (" " + body)[1..] == body;
    assert TrimStart(body) == body;
  }

  /** A text that ends with no white space is its own `trim_end`. */
  lemma {:induction false} TrimEndNothing(body: string)
    requires body != [] && !IsWhitespace(body[|body| - 1])
    ensures TrimEnd(body) == body
  {
  }

  /**
   * A number after an optional space, with an optional closing parenthesis,
   * trimmed, leaves the number and parenthesis.
   */
  lemma {:induction false} TrimmedNumber(sep: string, digits: string, tail: string)
    requires sep == "" || sep == " "
    requires digits != [] && AllDigits(digits)
    requires tail == "" || tail == ")"
    ensures Trim(sep + digits + tail) == digits + tail
  {
    var body := digits + tail;
    assert sep + digits + tail == sep + body;
    assert body[0] == digits[0];
    NotWhitespace(body[0]);
    if sep == " " {
      TrimStartOneSpace(body);
    } else {
      assert sep + body == body;
      assert TrimStart(body) == body;
    }
    var last := body[|body| - 1];
    if tail == "" {
      assert body == digits;
      assert IsDigit(last);
    } else {
      assert last == ')';
    }
    NotWhitespace(last);
    TrimEndNothing(body);
  }

  /** The closing parenthesis after a number goes, and a number without one is kept. */
  lemma {:induction false} NumberWithoutParen(digits: string, tail: string)
    requires digits != [] && AllDigits(digits)
    requires tail == "" || tail == ")"
    ensures WithoutCloseParen(digits + tail) == digits
  {
    if tail == ")" {
      assert (digits + tail)[..|digits|] == digits;
    } else {
      assert digits + tail == digits;
      assert IsDigit(digits[|digits| - 1]);
    }
  }

  /**
   * A message in which the needle is followed, after an optional space, by a
   * number, optionally closed by a parenthesis, yields that number, whatever
   * text comes before the needle's first occurrence.
   */
  lemma {:induction false} NeedleHeightOfNumber(prefix: string, needle: Needle, sep: string, digits: string, tail: string)
    requires FindSub(prefix + needle, needle) == Some(|prefix|)
    requires !IsDigit(needle[0]) && needle[0] != ' ' && needle[0] != ')'
    requires sep == "" || sep == " "
    requires digits != [] && AllDigits(digits) && DigitsValue(digits) <= I64_MAX
    requires tail == "" || tail == ")"
    ensures NeedleHeight(prefix + needle + sep + digits + tail, needle) == Some(DigitsValue(digits))
  {
    var rest := sep + digits + tail;
    var m := prefix + needle + sep + digits + tail;
    assert m == prefix + needle + rest;
    assert forall i :: 0 <= i < |rest| ==> rest[i] == ' ' || IsDigit(rest[i]) || rest[i] == ')';
    NeedleAbsent(rest, needle);
    SplitAfterNeedle(prefix, needle, rest);
    assert SplitSecond(m, needle) == Some(rest);
    TrimmedNumber(sep, digits, tail);
    NumberWithoutParen(digits, tail);
    ParseI64OfDigits(digits);
  }

  /** Plain decimal digits within range parse as their value. */
  lemma {:induction false} ParseI64OfDigits(digits: string)
    requires digits != [] && AllDigits(digits) && DigitsValue(digits) <= I64_MAX
    ensures ParseI64(digits) == Some(DigitsValue(digits))
  {
    assert IsDigit(digits[0]);
    assert digits[0] != '+' && digits[0] != '-';
    var magnitude: int := DigitsValue(digits);
    assert I64_MIN <= magnitude <= I64_MAX;
  }

  /** A needle found at the very start of a text is its first occurrence. */
  lemma NeedleAtStart(needle: Needle)
    ensures FindSub("" + needle, needle) == Some(0)
  {
    assert "" + needle == needle;
    assert needle[0..|needle|] == needle;
  }

  /** "lowest height is 42" yields 42. */
  lemma LowestHeightExample()
    ensures NeedleHeight("" + HeightNeedles[0] + " " + "42" + "", HeightNeedles[0]) == Some(42)
  {
    var needle := HeightNeedles[0];
    assert needle == "lowest height is";
    NeedleAtStart(needle);
    assert AllDigits("42");
    assert DigitsValue("42") == 42 by {
      assert "42"[..1] == "4";
      assert "4"[..0] == "";
    }
    NeedleHeightOfNumber("", needle, " ", "42", "");
  }

  /** "base height: 7)" yields 7: the needle itself ends in the space. */
  lemma BaseHeightExample()
    ensures NeedleHeight("" + HeightNeedles[1] + "" + "7" + ")", HeightNeedles[1]) == Some(7)
  {
    var needle := HeightNeedles[1];
    assert needle == "base height: ";
    NeedleAtStart(needle);
    assert AllDigits("7");
    assert DigitsValue("7") == 7 by {
      assert "7"[..0] == "";
    }
    NeedleHeightOfNumber("", needle, "", "7", ")");
  }
}
