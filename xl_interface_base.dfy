/**
 * The spreadsheet add-in's base: a stack of error messages, newest first, that
 * a worksheet function reads back as a padded column, and the classifier of
 * option-type strings.
 */
module XLInterface {
  import opened Wrappers
  import opened Errors
  import SsviCalibration

  /** The single cell returned when a non-positive count is asked for. */
  const PositiveNumberMessage: string := "GetLatestErrors: You must enter a positive number."

  /** Row i of the display of messages: the i-th newest message, or empty past the last one. */
  function LatestErrorRow(messages: seq<string>, i: nat): string {
    if i < |messages| then messages[i] else ""
  }

  /**
   * The column GetLatestErrors displays: the fixed message alone for a
   * non-positive count, otherwise exactly number rows, the newest messages
   * first, padded with empty strings.
   */
  function LatestErrors(messages: seq<string>, number: int): (rows: seq<string>)
    ensures number <= 0 ==> rows == [PositiveNumberMessage]
    ensures number > 0 ==> |rows| == number
    ensures number > 0 ==> forall i :: 0 <= i < number && i < |messages| ==> rows[i] == messages[i]
    ensures number > 0 ==> forall i :: |messages| <= i < number ==> rows[i] == ""
  {
    if number <= 0 then [PositiveNumberMessage]
    else seq(number, (i: int) requires 0 <= i => LatestErrorRow(messages, i))
  }

  /** A message just added is the first row of every display of at least one row. */
  lemma NewestMessageFirst(messages: seq<string>, m: string, number: int)
    requires number > 0
    ensures LatestErrors([m] + messages, number)[0] == m
  {
  }

  /** Adding a message shifts the earlier ones down by one row. */
  lemma {:induction false} AddingShiftsRows(messages: seq<string>, m: string, number: int)
    requires number > 0
    ensures LatestErrors([m] + messages, number + 1)[1..] == LatestErrors(messages, number)
  {
    var rows := LatestErrors([m] + messages, number + 1)[1..];
    forall i | 0 <= i < number
      ensures rows[i] == LatestErrors(messages, number)[i]
    {
      assert rows[i] == LatestErrorRow([m] + messages, i + 1);
      if i < |messages| {
        assert ([m] + messages)[i + 1] == messages[i];
      }
    }
  }

  /** Without messages every row is empty. */
  lemma EmptyBufferDisplaysBlanks(number: int)
    requires number > 0
    ensures LatestErrors([], number) == seq(number, (i: int) => "")
  {
  }

  /** The ASCII lower case of a character; other characters are unchanged. */
  function LowerAscii(c: char): (l: char)
    ensures 'A' <= c <= 'Z' ==> l as int == c as int + 32
    ensures !('A' <= c <= 'Z') ==> l == c
  {
    if 'A' <= c <= 'Z' then (c as int - 'A' as int + 'a' as int) as char else c
  }

  /** A string with every ASCII capital letter lowered. */
  function Lowered(s: string): (l: string)
    ensures |l| == |s| && forall i :: 0 <= i < |s| ==> l[i] == LowerAscii(s[i])
  {
    seq(|s|, (i: int) requires 0 <= i < |s| => LowerAscii(s[i]))
  }

  /** Case-insensitive comparison, standing for a comparison that ignores case. */
  predicate EqualsIgnoringCase(s: string, t: string) {
    Lowered(s) == Lowered(t)
  }

  /**
   * Whether an option-type string names a call: any case variant of "call",
   * or C or c, is a call; any case variant of "put", or P or p, is a put;
   * anything else is not recognised.
   */
  function ItIsCall(s: string): (r: Result<bool, Error>)
    ensures r == Ok(true) <==> Lowered(s) == "call" || Lowered(s) == "c"
    ensures r == Ok(false) <==> Lowered(s) == "put" || Lowered(s) == "p"
    ensures r.Err? ==> r.error == UnrecognizedOptionType
  {
    SingleLetter(s, 'c');
    SingleLetter(s, 'p');
    assert Lowered("call") == "call" && Lowered("put") == "put";
    if EqualsIgnoringCase(s, "call") || s == "C" || s == "c" then Ok(true)
    else if EqualsIgnoringCase(s, "put") || s == "P" || s == "p" then Ok(false)
    else Err(UnrecognizedOptionType)
  }

  /** A one-letter string lowers to a lower-case letter exactly when it is that letter in either case. */
  lemma SingleLetter(s: string, c: char)
    requires 'a' <= c <= 'z'
    ensures Lowered(s) == [c] <==> s == [c] || s == [(c as int - 32) as char]
  {
    if Lowered(s) == [c] {
      assert |s| == 1 && LowerAscii(s[0]) == c;
      assert s == [s[0]];
    }
    if s == [(c as int - 32) as char] {
      assert Lowered(s)[0] == c;
    }
  }

  /** The classifier does not depend on the case of its argument. */
  lemma CaseDoesNotMatter(s: string, t: string)
    requires EqualsIgnoringCase(s, t)
    ensures ItIsCall(s) == ItIsCall(t)
  {
  }

  /** Upper-case CALL and PUT are recognised, as every case variant is. */
  lemma UpperCaseRecognised()
    ensures ItIsCall("CALL") == Ok(true) && ItIsCall("PUT") == Ok(false)
  {
    assert Lowered("CALL") == "call";
    assert Lowered("PUT") == "put";
  }

  /**
   * Every spelling the calibrator's quotes accept is classified the same way
   * here, while the classifier also accepts case variants the calibrator
   * rejects.
   */
  lemma CalibratorSpellingsAgree(t: string)
    ensures SsviCalibration.IsCallType(t) ==> ItIsCall(t) == Ok(true)
    ensures SsviCalibration.IsPutType(t) ==> ItIsCall(t) == Ok(false)
    ensures ItIsCall("CALL") == Ok(true) && !SsviCalibration.IsCallType("CALL")
  {
    assert Lowered("Call") == "call" && Lowered("Put") == "put";
    UpperCaseRecognised();
  }

  /** The static error-message stack shared by every worksheet function. */
  class XLInterfaceBase {
    /** The messages, newest first. */
    var errorMessages: seq<string>

    /** The static initialiser: an empty stack. */
    constructor ()
      ensures errorMessages == []
    {
      errorMessages := [];
    }

    /** Pushes a message in front of the others. */
    method AddErrorMessage(m: string)
      modifies this
      ensures errorMessages == [m] + old(errorMessages)
    {
      errorMessages := [m] + errorMessages;
    }

    /** Removes every message. */
    method ClearErrorMessages()
      modifies this
      ensures errorMessages == []
    {
      errorMessages := [];
    }

    /**
     * A fresh one-column table of the latest messages; the stack itself is
     * left as it is.
     */
    method GetLatestErrors(number: int) returns (toDisplay: array2<string>)
      ensures fresh(toDisplay) && toDisplay.Length1 == 1
      ensures Column(toDisplay) == LatestErrors(errorMessages, number)
    {
      if number <= 0 {
        toDisplay := new string[1, 1];
        toDisplay[0, 0] := PositiveNumberMessage;
        return;
      }
      toDisplay := new string[number, 1];
      var messages := errorMessages;
      var msgIdx := 0;
      while msgIdx < |messages|
        invariant 0 <= msgIdx <= |messages| && msgIdx < number
        invariant forall i :: 0 <= i < msgIdx ==> toDisplay[i, 0] == LatestErrorRow(messages, i)
      {
        toDisplay[msgIdx, 0] := messages[msgIdx];
        msgIdx := msgIdx + 1;
        if msgIdx >= number {
          break;
        }
      }
      while msgIdx < number
        invariant 0 <= msgIdx <= number
        invariant |messages| <= msgIdx || msgIdx == number
        invariant forall i :: 0 <= i < msgIdx ==> toDisplay[i, 0] == LatestErrorRow(messages, i)
      {
        toDisplay[msgIdx, 0] := "";
        msgIdx := msgIdx + 1;
      }
    }
  }

  /** The first column of a table, top to bottom. */
  function Column(a: array2<string>): (c: seq<string>)
    reads a
    requires a.Length1 == 1
    ensures |c| == a.Length0 && forall i :: 0 <= i < a.Length0 ==> c[i] == a[i, 0]
  {
    seq(a.Length0, (i: int) requires 0 <= i < a.Length0 reads a => a[i, 0])
  }
}
