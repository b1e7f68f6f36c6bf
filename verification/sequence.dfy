/**
 * The account-sequence-mismatch detector. The node reports a sequence race
 * only as text ("account sequence mismatch, expected N, got M"), so the
 * client scans the error text line by line for the number it expects.
 */
module SequenceHint {
  import opened Wrappers
  import opened Text

  const MismatchPrefix: string := "account sequence mismatch, expected "

  /**
   * The hint carried by one line: the line must begin with the mismatch
   * prefix, and the text from there up to the first comma must parse as a
   * `u64`.
   */
  function ExpectedSequenceSingle(line: string): (r: Option<nat>)
    ensures !StartsWith(line, MismatchPrefix) ==> r.None?
    ensures StartsWith(line, MismatchPrefix) && ',' !in line[|MismatchPrefix|..] ==> r.None?
    ensures r.Some? ==> r.value <= U64_MAX
  {
    match StripPrefix(line, MismatchPrefix)
    case None => None
    case Some(s) =>
      assert s == line[|MismatchPrefix|..];
      match Find(s, ',')
      case None => None
      case Some(comma) => ParseU64(s[..comma])
  }

  /** A mismatch line yields exactly the parse of the text before its first comma. */
  lemma {:induction false} MismatchLine(n: string, rest: string)
    requires ',' !in n
    ensures ExpectedSequenceSingle(MismatchPrefix + n + "," + rest) == ParseU64(n)
  {
    var line := MismatchPrefix + n + "," + rest;
    var s := n + "," + rest;
    assert line == MismatchPrefix + s;
    assert line[..|MismatchPrefix|] == MismatchPrefix;
    assert line[|MismatchPrefix|..] == s;
    assert s[|n|] == ',';
    assert s[..|n|] == n;
    assert ',' !in s[..|n|];
  }

  /** The hint of the first line that carries one, scanning in order. */
  function FirstHint(lines: seq<string>): (r: Option<nat>)
    ensures r.Some? ==> r.value <= U64_MAX
  {
    if lines == [] then None
    else
      var first := ExpectedSequenceSingle(lines[0]);
      if first.Some? then first else FirstHint(lines[1..])
  }

  /**
   * `FirstHint` finds a hint exactly when some line carries one, and then
   * it is the hint of a line with no hint-carrying line before it.
   */
  lemma {:induction false} FirstHintIsFirst(lines: seq<string>)
    ensures FirstHint(lines).Some? <==> exists i :: 0 <= i < |lines| && ExpectedSequenceSingle(lines[i]).Some?
    ensures FirstHint(lines).Some? ==>
      exists i :: 0 <= i < |lines| && ExpectedSequenceSingle(lines[i]) == FirstHint(lines)
        && forall j :: 0 <= j < i ==> ExpectedSequenceSingle(lines[j]).None?
    decreases |lines|
  {
    if lines != [] && ExpectedSequenceSingle(lines[0]).None? {
      var tail := lines[1..];
      FirstHintIsFirst(tail);
      assert forall i :: 1 <= i < |lines| ==> lines[i] == tail[i - 1];
      if FirstHint(tail).Some? {
        var k :| 0 <= k < |tail| && ExpectedSequenceSingle(tail[k]) == FirstHint(tail)
          && forall j :: 0 <= j < k ==> ExpectedSequenceSingle(tail[j]).None?;
        assert ExpectedSequenceSingle(lines[k + 1]) == FirstHint(lines);
      } else {
        forall i | 0 <= i < |lines|
          ensures ExpectedSequenceSingle(lines[i]).None?
        {
          if i > 0 {
            assert lines[i] == tail[i - 1];
          }
        }
      }
    } else if lines != [] {
      assert ExpectedSequenceSingle(lines[0]) == FirstHint(lines);
    }
  }

  /** `get_expected_sequence`: the first hint found on any line of the message. */
  function ExpectedSequence(message: string): (r: Option<nat>)
    ensures r.Some? ==> r.value <= U64_MAX
  {
    FirstHint(Lines(message))
  }

  /** Lines that carry no hint may precede the mismatch line without changing the answer. */
  lemma {:induction false} PreludeIgnored(prelude: string, rest: string)
    requires '\n' !in prelude
    requires ExpectedSequenceSingle(DropCarriageReturn(prelude)).None?
    ensures ExpectedSequence(prelude + "\n" + rest) == ExpectedSequence(rest)
  {
    LinesOfLineAndRest(prelude, rest);
    var lines := Lines(prelude + "\n" + rest);
    assert lines[1..] == Lines(rest);
  }

  /** A message made of one mismatch line. */
  lemma {:induction false} SingleMismatchMessage(n: string, rest: string)
    requires ',' !in n && '\n' !in n && '\n' !in rest
    ensures ExpectedSequence(MismatchPrefix + n + "," + rest) == ParseU64(n)
  {
    var line := MismatchPrefix + n + "," + rest;
    assert '\n' !in line by {
      forall i | 0 <= i < |line| ensures line[i] != '\n' {
        if i < |MismatchPrefix| {
        } else if i < |MismatchPrefix| + |n| {
          assert line[i] == n[i - |MismatchPrefix|];
        } else if i > |MismatchPrefix| + |n| {
          assert line[i] == rest[i - |MismatchPrefix| - |n| - 1];
        }
      }
    }
    LinesOfOneLine(line);
    assert FirstHint([line]) == ExpectedSequenceSingle(line) by {
      assert [line][1..] == [];
    }
    MismatchLine(n, rest);
  }

  /** The numbers in the source's unit tests, and the text that is not one. */
  lemma ParseTestNumbers()
    ensures ParseU64("5") == Some(5)
    ensures ParseU64("2") == Some(2)
    ensures ParseU64("20000001") == Some(20000001)
    ensures ParseU64("XXXXX") == None
  {
    assert "20000001"[..7] == "2000000";
    assert "2000000"[..6] == "200000";
    assert "200000"[..5] == "20000";
    assert "20000"[..4] == "2000";
    assert "2000"[..3] == "200";
    assert "200"[..2] == "20";
    assert "20"[..1] == "2";
    assert "2"[..0] == "";
    assert AllDigits("20000001");
    assert UnsignedDigits("20000001") == "20000001";
    assert !IsDigit("XXXXX"[0]);
  }

  /** The prelude lines of the source's unit tests carry no hint. */
  lemma NoHintLines()
    ensures ExpectedSequenceSingle(DropCarriageReturn("blah blah blah")).None?
    ensures ExpectedSequenceSingle(DropCarriageReturn("foajodifjaolkdfjas aiodjfaof")).None?
    ensures ExpectedSequenceSingle(DropCarriageReturn("iiiiiiiiiiiiii")).None?
    ensures ExpectedSequenceSingle(DropCarriageReturn("")).None?
  {
    assert !StartsWith("blah blah blah", MismatchPrefix);
    assert !StartsWith("foajodifjaolkdfjas aiodjfaof", MismatchPrefix);
    assert !StartsWith("iiiiiiiiiiiiii", MismatchPrefix);
  }

  /** Two lines without a hint, then a mismatch line. */
  lemma {:induction false} HintAfterTwoLines(first: string, second: string, n: string, rest: string)
    requires '\n' !in first && '\n' !in second
    requires ExpectedSequenceSingle(DropCarriageReturn(first)).None?
    requires ExpectedSequenceSingle(DropCarriageReturn(second)).None?
    requires ',' !in n && '\n' !in n && '\n' !in rest
    ensures ExpectedSequence(first + "\n" + (second + "\n" + (MismatchPrefix + n + "," + rest))) == ParseU64(n)
  {
    var target := MismatchPrefix + n + "," + rest;
    PreludeIgnored(first, second + "\n" + target);
    PreludeIgnored(second, target);
    SingleMismatchMessage(n, rest);
  }

  /** Three lines without a hint, then a mismatch line. */
  lemma {:induction false} HintAfterThreeLines(first: string, second: string, third: string, n: string, rest: string)
    requires '\n' !in first && '\n' !in second && '\n' !in third
    requires ExpectedSequenceSingle(DropCarriageReturn(first)).None?
    requires ExpectedSequenceSingle(DropCarriageReturn(second)).None?
    requires ExpectedSequenceSingle(DropCarriageReturn(third)).None?
    requires ',' !in n && '\n' !in n && '\n' !in rest
    ensures ExpectedSequence(first + "\n" + (second + "\n" + (third + "\n" + (MismatchPrefix + n + "," + rest))))
      == ParseU64(n)
  {
    PreludeIgnored(first, second + "\n" + (third + "\n" + (MismatchPrefix + n + "," + rest)));
    HintAfterTwoLines(second, third, n, rest);
  }

  /*
   * The source's unit tests. Each message is written as its lines joined by
   * newlines, the mismatch line as the mismatch prefix followed by the rest
   * of its text.
   */

  lemma ExpectedSequenceGood5()
    ensures ExpectedSequence(MismatchPrefix + "5" + "," + " got 0") == Some(5)
  {
    ParseTestNumbers();
    SingleMismatchMessage("5", " got 0");
  }

  lemma ExpectedSequenceGood2()
    ensures ExpectedSequence(MismatchPrefix + "2" + "," + " got 7") == Some(2)
  {
    ParseTestNumbers();
    SingleMismatchMessage("2", " got 7");
  }

  lemma ExpectedSequenceGoodLarge()
    ensures ExpectedSequence(MismatchPrefix + "20000001" + "," + " got 7") == Some(20000001)
  {
    ParseTestNumbers();
    SingleMismatchMessage("20000001", " got 7");
  }

  lemma ExpectedSequenceExtraPrelude()
    ensures ExpectedSequence("blah blah blah" + "\n" + ("" + "\n" + (MismatchPrefix + "5" + "," + " got 0"))) == Some(5)
  {
    NoHintLines();
    ParseTestNumbers();
    HintAfterTwoLines("blah blah blah", "", "5", " got 0");
  }

  lemma ExpectedSequenceExtraPreludeLong()
    ensures ExpectedSequence("foajodifjaolkdfjas aiodjfaof" + "\n" + ("" + "\n" + ("" + "\n"
      + (MismatchPrefix + "2" + "," + " got 7")))) == Some(2)
  {
    NoHintLines();
    ParseTestNumbers();
    HintAfterThreeLines("foajodifjaolkdfjas aiodjfaof", "", "", "2", " got 7");
  }

  lemma ExpectedSequenceExtraPreludeLarge()
    ensures ExpectedSequence("iiiiiiiiiiiiii" + "\n" + ("" + "\n" + (MismatchPrefix + "20000001" + "," + " got 7")))
      == Some(20000001)
  {
    NoHintLines();
    ParseTestNumbers();
    HintAfterTwoLines("iiiiiiiiiiiiii", "", "20000001", " got 7");
  }

  lemma ExpectedSequenceUnrelated()
    ensures ExpectedSequence("Totally different error message") == None
  {
    var message := "Totally different error message";
    LinesOfOneLine(message);
    assert !StartsWith(message, MismatchPrefix);
    assert FirstHint([message]) == ExpectedSequenceSingle(message) by {
      assert [message][1..] == [];
    }
  }

  lemma ExpectedSequenceNotANumber()
    ensures ExpectedSequence(MismatchPrefix + "XXXXX" + "," + " got 7") == None
  {
    ParseTestNumbers();
    SingleMismatchMessage("XXXXX", " got 7");
  }
}
