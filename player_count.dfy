/**
 * `get_player_count`: the handler runs the game server's `list` console command on the
 * instance and reads the player count off the command's captured output. The remote
 * command and the wait before fetching its result are replaced by the fetched result
 * itself, an `Invocation`; the count is `UNKNOWN` (-1) whenever it cannot be read.
 */
module PlayerQuery {
  import opened Strings

  /** What fetching the command's result gave: an exception, or the invocation record. */
  datatype Invocation =
    | Raised(error: string)
    | Returned(status: string, stdout: string)

  const UNKNOWN: int := -1
  const SUCCESS := "Success"
  const CONNECTION_REFUSED := "Connection refused"

  /** The reply grammar: `There`, `are`, then a digit string, as space-separated pieces. */
  predicate CountReply(parts: seq<string>) {
    |parts| > 2 && parts[0] == "There" && parts[1] == "are" && IsDigits(parts[2])
  }

  /**
   * The player count sample. It is never below -1, and a count is only ever read off a
   * successful invocation whose output does not report a refused console connection.
   */
  function PlayerCount(inv: Invocation): (count: int)
    ensures count == UNKNOWN || count >= 0
    ensures count >= 0 ==> inv.Returned? && inv.status == SUCCESS && !Contains(inv.stdout, CONNECTION_REFUSED)
  {
    match inv
    case Raised(_) => UNKNOWN
    case Returned(status, stdout) =>
      if status != SUCCESS then UNKNOWN
      else if Contains(stdout, CONNECTION_REFUSED) then UNKNOWN
      else
        var parts := Split(stdout, ' ');
        if CountReply(parts) then DigitsValue(parts[2]) else UNKNOWN
  }

  /** `stdout` is `There are `, the digits of `count`, then nothing or a space and more. */
  predicate ReplyShows(stdout: string, count: int, digits: string, tail: string) {
    IsDigits(digits) && DigitsValue(digits) == count &&
    stdout == "There are " + digits + tail && (tail == "" || tail[0] == ' ')
  }

  /**
   * Soundness of the parser: a known count was read from output that begins with
   * `There are `, then the count's digits, then the end of the output or a space.
   */
  lemma KnownCountSound(inv: Invocation)
    requires PlayerCount(inv) >= 0
    ensures exists digits, tail :: ReplyShows(inv.stdout, PlayerCount(inv), digits, tail)
  {
    var parts := Split(inv.stdout, ' ');
    assert inv.Returned? && inv.status == SUCCESS && !Contains(inv.stdout, CONNECTION_REFUSED);
    assert CountReply(parts);
    var tail := JoinCountReply(parts);
    assert PlayerCount(inv) == DigitsValue(parts[2]);
    assert ReplyShows(inv.stdout, PlayerCount(inv), parts[2], tail);
  }

  /** Joining pieces of the reply grammar gives `There are `, the digits, then the rest. */
  lemma JoinCountReply(parts: seq<string>) returns (tail: string)
    requires CountReply(parts)
    ensures Join(parts, ' ') == "There are " + parts[2] + tail
    ensures tail == "" || tail[0] == ' '
  {
    tail := if |parts| == 3 then "" else " " + Join(parts[3..], ' ');
    assert Join(parts[2..], ' ') == parts[2] + tail by {
      if |parts| > 3 {
        assert parts[2..][1..] == parts[3..];
      }
    }
    assert parts[1..][1..] == parts[2..];
    assert Join(parts, ' ') == "There" + " " + ("are" + " " + Join(parts[2..], ' '));
  }

  /** A digit string holds no space. */
  lemma DigitsHaveNoSpace(digits: string)
    requires IsDigits(digits)
    ensures ' ' !in digits
  {
    assert forall k :: 0 <= k < |digits| ==> IsDigitChar(digits[k]);
  }

  /** The digits plus a tail that is empty or opens with a space, as it appears after `are `. */
  function CountTail(digits: string, tail: string): string
    requires tail == "" || tail[0] == ' '
  {
    if tail == "" then digits else digits + [' '] + tail[1..]
  }

  /** The digits and their tail split into the digits, then the pieces after that space. */
  lemma SplitCountTail(digits: string, tail: string)
    requires IsDigits(digits)
    requires tail == "" || tail[0] == ' '
    ensures Split(CountTail(digits, tail), ' ') ==
      [digits] + (if tail == "" then [] else Split(tail[1..], ' '))
  {
    DigitsHaveNoSpace(digits);
    if tail != "" {
      SplitAfterPiece(digits, ' ', tail[1..]);
    }
  }

  /** `There are ` followed by anything splits into `There`, `are`, then the pieces of the rest. */
  lemma SplitTwoWords(first: string, second: string, rest: string)
    requires first == "There" && second == "are"
    ensures Split("There are " + rest, ' ') == [first, second] + Split(rest, ' ')
  {
    assert "There are " + rest == first + [' '] + (second + [' '] + rest);
    SplitAfterPiece(first, ' ', second + [' '] + rest);
    SplitAfterPiece(second, ' ', rest);
  }

  /** `There are <digits>` plus a tail that is empty or opens with a space splits into
   *  `There`, `are`, the digits, then the pieces of what follows that space. */
  lemma SplitCountReply(digits: string, tail: string)
    requires IsDigits(digits)
    requires tail == "" || tail[0] == ' '
    ensures Split("There are " + digits + tail, ' ') ==
      ["There", "are", digits] + (if tail == "" then [] else Split(tail[1..], ' '))
  {
    var rest := CountTail(digits, tail);
    assert digits + tail == rest by {
      if tail != "" {
        assert tail == [' '] + tail[1..];
      }
    }
    assert "There are " + digits + tail == "There are " + rest;
    SplitTwoWords("There", "are", rest);
    SplitCountTail(digits, tail);
  }

  /** `There are <digits>` cannot hold the refusal text, so it holds it exactly when the tail does. */
  lemma RefusalOnlyInTail(digits: string, tail: string)
    requires IsDigits(digits)
    ensures Contains("There are " + digits + tail, CONNECTION_REFUSED) <==> Contains(tail, CONNECTION_REFUSED)
  {
    var head := "There are " + digits;
    assert 'C' !in head by {
      assert forall k :: 0 <= k < |digits| ==> IsDigitChar(digits[k]);
    }
    NotContainsMissingChar(head, CONNECTION_REFUSED, 0);
    ContainsAfterBarrier(head, tail, CONNECTION_REFUSED);
  }

  /**
   * Completeness of the parser: output of the form `There are <digits>`, optionally followed
   * by a space and more text that does not report a refused connection, reads as the
   * digits' value -- leading zeros included, as `int` reads them.
   */
  lemma CountReplyRead(digits: string, tail: string)
    requires IsDigits(digits)
    requires tail == "" || tail[0] == ' '
    requires !Contains(tail, CONNECTION_REFUSED)
    ensures PlayerCount(Returned(SUCCESS, "There are " + digits + tail)) == DigitsValue(digits)
  {
    var stdout := "There are " + digits + tail;
    RefusalOnlyInTail(digits, tail);
    SplitCountReply(digits, tail);
    var parts := Split(stdout, ' ');
    assert parts[..3] == ["There", "are", digits];
    assert CountReply(parts);
  }

  /** Every count `n` written out by `str(n)` in the reply reads back as `n`. */
  lemma CountRoundTrip(n: nat, tail: string)
    requires tail == "" || tail[0] == ' '
    requires !Contains(tail, CONNECTION_REFUSED)
    ensures PlayerCount(Returned(SUCCESS, "There are " + NatToDigits(n) + tail)) == n
  {
    CountReplyRead(NatToDigits(n), tail);
    DigitsRoundTrip(n);
  }

  /**
   * The console's reply on an empty server reads as zero players. The reply's tail is a
   * parameter fixed by `requires` so that the verifier reasons about it symbolically
   * instead of unfolding the parser on one long literal.
   */
  lemma EmptyServerReply(tail: string)
    requires tail == " of a max of 20 players online: "
    ensures PlayerCount(Returned(SUCCESS, "There are 0" + tail)) == 0
  {
    NotContainsMissingChar(tail, CONNECTION_REFUSED, 0);
    CountRoundTrip(0, tail);
    assert "There are " + NatToDigits(0) + tail == "There are 0" + tail;
  }

  /** A count padded with leading zeros reads as its value, as `int("007")` does. */
  lemma PaddedCountReply()
    ensures PlayerCount(Returned(SUCCESS, "There are 007")) == 7
  {
    var padded := "007";
    assert padded[..2] == "00" && "00"[..1] == "0" && "0"[..0] == "";
    assert DigitsValue("0") == 0 && DigitsValue("00") == 0;
    assert IsDigits(padded) && DigitsValue(padded) == 7;
    CountReplyRead("007", "");
    assert "There are " + "007" + "" == "There are 007";
  }

  /** A refused console connection reads as unknown, whatever the status says. */
  lemma RefusedReplyUnknown(status: string, stdout: string)
    requires Contains(stdout, CONNECTION_REFUSED)
    ensures PlayerCount(Returned(status, stdout)) == UNKNOWN
  {
  }

  /** Output that does not follow the reply grammar reads as unknown. */
  lemma GarbageReplyUnknown()
    ensures PlayerCount(Returned(SUCCESS, "garbage")) == UNKNOWN
  {
  }

  /** The literal refusal output reads as unknown. */
  lemma RefusalOutputUnknown()
    ensures PlayerCount(Returned(SUCCESS, "Connection refused")) == UNKNOWN
  {
  }

  /** A failed or timed-out command, or an exception while fetching it, reads as unknown. */
  lemma FailedInvocationUnknown(inv: Invocation)
    requires inv.Raised? || inv.status != SUCCESS
    ensures PlayerCount(inv) == UNKNOWN
  {
  }
}
