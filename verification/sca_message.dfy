/** The text of the exception Sca::checkError throws for a command word with
    error flags: the error code and the names of the raised flags.

    As written, the code has two slips: every flag name is followed by
    ", " (the guard meant to skip the last separator always holds), and the
    code is printed in decimal after a "0x" prefix. Both texts are modelled:
    the one the code builds (MessageAsWritten, built step by step by
    StreamMessage) and the evidently intended one (Message). */
module AlfMessages {
  import Decimal
  import opened Alf

  // ---------------------------------------------------------------------------
  // Hexadecimal spelling

  predicate IsHexDigit(c: char)
  {
    '0' <= c <= '9' || 'a' <= c <= 'f'
  }

  predicate AllHex(s: string)
  {
    forall i :: 0 <= i < |s| ==> IsHexDigit(s[i])
  }

  function HexDigitValue(c: char): nat
    requires IsHexDigit(c)
  {
    if '0' <= c <= '9' then c as int - '0' as int else c as int - 'a' as int + 10
  }

  function HexDigit(d: nat): (c: char)
    requires d < 16
    ensures IsHexDigit(c) && HexDigitValue(c) == d
  {
    if d < 10 then ('0' as int + d) as char else ('a' as int + d - 10) as char
  }

  /** The value of a run of hexadecimal digits, most significant first. */
  function HexValue(s: string): nat
    requires AllHex(s)
  {
    if s == [] then 0 else HexValue(s[..|s| - 1]) * 16 + HexDigitValue(s[|s| - 1])
  }

  /** The lower-case hexadecimal spelling of `n` without leading zeros, as a
      stream in hexadecimal mode prints it. */
  function HexString(n: nat): (s: string)
    ensures s != [] && AllHex(s)
    ensures HexValue(s) == n
  {
    if n < 16 then [HexDigit(n)]
    else
      var prefix := HexString(n / 16);
      var s := prefix + [HexDigit(n % 16)];
      assert s[..|s| - 1] == prefix;
      s
  }

  // ---------------------------------------------------------------------------
  // The flag list

  /** The flag names, each followed by ", ": what the loop of checkError
      appends, since its guard `i < flags.size()` holds for every i. */
  function TerminatedNames(flags: seq<nat>): string
  {
    if flags == [] then ""
    else TerminatedNames(flags[..|flags| - 1]) + FlagName(flags[|flags| - 1]) + ", "
  }

  /** The flag names with ", " between neighbours only. */
  function SeparatedNames(flags: seq<nat>): string
  {
    if flags == [] then ""
    else if |flags| == 1 then FlagName(flags[0])
    else SeparatedNames(flags[..|flags| - 1]) + ", " + FlagName(flags[|flags| - 1])
  }

  /** The list as written is the intended list plus one stray separator. */
  lemma {:induction false} TrailingSeparator(flags: seq<nat>)
    requires flags != []
    ensures TerminatedNames(flags) == SeparatedNames(flags) + ", "
    decreases |flags|
  {
    var init, last := flags[..|flags| - 1], FlagName(flags[|flags| - 1]);
    if |flags| == 1 {
      assert init == [];
    } else {
      TrailingSeparator(init);
      assert TerminatedNames(flags) == SeparatedNames(init) + ", " + last + ", ";
    }
  }

  lemma TerminatedNamesStep(flags: seq<nat>, i: nat)
    requires i < |flags|
    ensures TerminatedNames(flags[..i + 1]) == TerminatedNames(flags[..i]) + FlagName(flags[i]) + ", "
  {
    assert flags[..i + 1][..i] == flags[..i];
  }

  lemma AppendGrouping<T>(a: seq<T>, b: seq<T>, c: seq<T>, d: seq<T>)
    ensures a + b + c + d == a + (b + c + d)
  {
  }

  // ---------------------------------------------------------------------------
  // The whole message

  /** The message checkError builds, as written. */
  function MessageAsWritten(code: Word, flags: seq<nat>): string
  {
    "error code 0x" + Decimal.NatToString(code as nat) + ": " + TerminatedNames(flags)
  }

  /** The message checkError evidently means to build. */
  function Message(code: Word, flags: seq<nat>): string
  {
    "error code 0x" + HexString(code as nat) + ": " + SeparatedNames(flags)
  }

  /** The message each SCA failure carries, as the code builds it: the
      busy-wait timeout of waitOnBusyClear, or the checkError text. */
  function ErrorText(e: ScaError): (text: string)
    ensures e.ScaException? ==> |text| >= 13 && text[..13] == "error code 0x"
    ensures e.ScaException? && e.flags != [] ==> |text| >= 2 && text[|text| - 2..] == ", "
  {
    match e
    case BusyTimeout => "Exceeded timeout on busy wait"
    case ScaException(code, flags) =>
      if flags == [] then MessageAsWritten(code, flags)
      else MessageAsWrittenEndsWithSeparator(code, flags); MessageAsWritten(code, flags)
  }

  /** The intended message ends with the name of the last raised flag, and
      the digits after "0x" are the code in hexadecimal. */
  lemma MessageEndsWithLastFlag(code: Word, flags: seq<nat>)
    requires flags != []
    ensures var text := Message(code, flags);
      var name := FlagName(flags[|flags| - 1]);
      |text| >= |name| && text[|text| - |name|..] == name
    ensures var digits := HexString(code as nat);
      Message(code, flags)[..13 + |digits|] == "error code 0x" + digits && HexValue(digits) == code as nat
  {
    var name := FlagName(flags[|flags| - 1]);
    var digits := HexString(code as nat);
    var text := Message(code, flags);
    if |flags| == 1 {
      assert text == "error code 0x" + digits + ": " + name;
    } else {
      var front := "error code 0x" + digits + ": " + SeparatedNames(flags[..|flags| - 1]) + ", ";
      assert text == front + name;
    }
    assert text == ("error code 0x" + digits) + (": " + SeparatedNames(flags));
  }

  /** As written, the message for an error of any flag ends with ", ". */
  lemma MessageAsWrittenEndsWithSeparator(code: Word, flags: seq<nat>)
    requires flags != []
    ensures var text := MessageAsWritten(code, flags);
      |text| >= 2 && text[|text| - 2..] == ", "
  {
    TrailingSeparator(flags);
    var text := MessageAsWritten(code, flags);
    var front := "error code 0x" + Decimal.NatToString(code as nat) + ": " + SeparatedNames(flags);
    assert text == front + ", ";
  }

  /** An invalid-channel-and-length error (code 0x12) as written: "0x18"
      and a stray separator. */
  lemma MessageAsWrittenExample()
    ensures MessageAsWritten(0x12, [1, 4])
         == "error code 0x" + "18" + ": " + "invalid channel request" + ", " + "invalid length" + ", "
    ensures HexValue("18") == 0x18 != 0x12
  {
    DecimalEighteen();
    TerminatedExample();
  }

  lemma DecimalEighteen()
    ensures Decimal.NatToString(0x12) == "18"
  {
    assert Decimal.NatToString(1) == "1";
  }

  lemma TerminatedExample()
    ensures TerminatedNames([1, 4]) == "invalid channel request" + ", " + "invalid length" + ", "
  {
    var flags: seq<nat> := [1, 4];
    assert flags[..1] == [1] && flags[..1][..0] == [];
    assert TerminatedNames([1]) == "invalid channel request" + ", ";
  }

  /** The same error as intended. */
  lemma MessageExample()
    ensures Message(0x12, [1, 4]) == "error code 0x" + "12" + ": " + "invalid channel request" + ", " + "invalid length"
  {
    HexTwelve();
    SeparatedExample();
  }

  lemma HexTwelve()
    ensures HexString(0x12) == "12"
  {
    assert HexString(1) == "1";
  }

  lemma SeparatedExample()
    ensures SeparatedNames([1, 4]) == "invalid channel request" + ", " + "invalid length"
  {
    var flags: seq<nat> := [1, 4];
    assert flags[..1] == [1];
  }

  /** The message text as the stream of checkError accumulates it. */
  method StreamMessage(errorCode: Word, flags: seq<nat>) returns (text: string)
    ensures text == MessageAsWritten(errorCode, flags)
  {
    var prefix := "error code 0x" + Decimal.NatToString(errorCode as nat) + ": ";
    text := prefix;
    for i := 0 to |flags|
      invariant text == prefix + TerminatedNames(flags[..i])
    {
      var name := FlagName(flags[i]);
      text := text + name;
      if i < |flags| {
        text := text + ", ";
      }
      TerminatedNamesStep(flags, i);
      AppendGrouping(prefix, TerminatedNames(flags[..i]), name, ", ");
    }
    assert flags[..|flags|] == flags;
  }
}
