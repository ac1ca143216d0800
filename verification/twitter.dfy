/**
 * Direct-message chunking of backend/src/shared/twitter.ts: `sendMyselfTweet`
 * sends a header followed by optional lines as direct messages of at most 280
 * characters, starting a new message (again with the header) whenever the
 * next line would not fit. The Twitter client is replaced by an outbox of
 * sent messages; whether the client and the user are available are inputs.
 */
module Twitter {
  import opened Wrappers
  import opened JsText

  const TweetMaxLength: nat := 280

  /** The text each line contributes: `"\n" + line`, or a single empty piece when there are no lines. */
  function Suffixes(additionalLines: Option<seq<string>>): (r: seq<string>)
    ensures additionalLines.None? ==> r == [""]
    ensures additionalLines.Some? ==> |r| == |additionalLines.value|
  {
    match additionalLines
    case None => [""]
    case Some(lines) => seq(|lines|, k requires 0 <= k < |lines| => "\n" + lines[k])
  }

  /** Every piece fits in one message together with the header. */
  predicate FitsOneMessage(header: string, suffixes: seq<string>) {
    forall k | 0 <= k < |suffixes| :: |header + suffixes[k]| <= TweetMaxLength
  }

  /**
   * Greedy packing: the messages completed so far and the one being filled,
   * after the first `|suffixes|` pieces.
   */
  function PackFrom(header: string, suffixes: seq<string>): (r: (seq<string>, string))
    decreases |suffixes|
  {
    if suffixes == [] then ([], header)
    else
      var (done, current) := PackFrom(header, suffixes[..|suffixes| - 1]);
      PackStep(header, done, current, suffixes[|suffixes| - 1])
  }

  /** One piece added: it joins the current message if it fits, otherwise it starts a new one. */
  function PackStep(header: string, done: seq<string>, current: string, piece: string): (seq<string>, string) {
    if |current + piece| > TweetMaxLength then (done + [current], header + piece)
    else (done, current + piece)
  }

  lemma PackFromSnoc(header: string, suffixes: seq<string>, i: nat)
    requires i < |suffixes|
    ensures PackFrom(header, suffixes[..i + 1]) ==
      PackStep(header, PackFrom(header, suffixes[..i]).0, PackFrom(header, suffixes[..i]).1, suffixes[i])
  {
    assert suffixes[..i + 1][..i] == suffixes[..i];
  }

  /** All messages of the greedy packing, the one being filled included. */
  function Packed(header: string, suffixes: seq<string>): seq<string> {
    PackFrom(header, suffixes).0 + [PackFrom(header, suffixes).1]
  }

  function Concat(pieces: seq<string>): string
    decreases |pieces|
  {
    if pieces == [] then [] else Concat(pieces[..|pieces| - 1]) + pieces[|pieces| - 1]
  }

  /** The text after the header of each message (they all start with it). */
  function Bodies(header: string, messages: seq<string>): seq<string>
    requires forall k | 0 <= k < |messages| :: |header| <= |messages[k]|
  {
    seq(|messages|, k requires 0 <= k < |messages| => messages[k][|header|..])
  }

  /** The messages `sendMyselfTweet` is meant to send: none for an empty list of lines, otherwise the whole packing. */
  function Messages(header: string, additionalLines: Option<seq<string>>): seq<string> {
    var suffixes := Suffixes(additionalLines);
    if suffixes == [] then [] else Packed(header, suffixes)
  }

  /** The messages the code as written sends: the packing of every piece but the last. */
  function MessagesAsWritten(header: string, additionalLines: Option<seq<string>>): seq<string> {
    var suffixes := Suffixes(additionalLines);
    if |suffixes| <= 1 then [] else Packed(header, suffixes[..|suffixes| - 1])
  }

  // ---------------------------------------------------------------------
  // Properties of the packing.

  lemma {:induction false} PackFromShape(header: string, suffixes: seq<string>)
    requires FitsOneMessage(header, suffixes)
    ensures StartsWith(PackFrom(header, suffixes).1, header)
    ensures |PackFrom(header, suffixes).1| <= TweetMaxLength || suffixes == []
    ensures forall k | 0 <= k < |PackFrom(header, suffixes).0| ::
      StartsWith(PackFrom(header, suffixes).0[k], header) && |PackFrom(header, suffixes).0[k]| <= TweetMaxLength
    decreases |suffixes|
  {
    if suffixes != [] {
      var n := |suffixes| - 1;
      PackFromShape(header, suffixes[..n]);
      var (done, current) := PackFrom(header, suffixes[..n]);
      var piece := suffixes[n];
      assert StartsWith(current + piece, header) by {
        assert (current + piece)[..|header|] == current[..|header|];
      }
      assert StartsWith(header + piece, header) by {
        assert (header + piece)[..|header|] == header;
      }
    }
  }

  /** Every message starts with the header and fits in 280 characters. */
  lemma MessagesShape(header: string, suffixes: seq<string>)
    requires FitsOneMessage(header, suffixes) && |header| <= TweetMaxLength
    ensures forall k | 0 <= k < |Packed(header, suffixes)| ::
      StartsWith(Packed(header, suffixes)[k], header) && |Packed(header, suffixes)[k]| <= TweetMaxLength
  {
    PackFromShape(header, suffixes);
    if suffixes == [] {
      assert header[..|header|] == header;
    }
  }

  lemma ConcatSnoc(pieces: seq<string>, last: string)
    ensures Concat(pieces + [last]) == Concat(pieces) + last
  {
    assert (pieces + [last])[..|pieces|] == pieces;
  }

  /**
   * Nothing is lost, duplicated or reordered: the messages with their headers
   * removed, read one after the other, are exactly the pieces in order.
   */
  lemma {:induction false} PackedKeepsEveryPieceInOrder(header: string, suffixes: seq<string>)
    requires FitsOneMessage(header, suffixes)
    ensures forall k | 0 <= k < |Packed(header, suffixes)| :: |header| <= |Packed(header, suffixes)[k]|
    ensures Concat(Bodies(header, Packed(header, suffixes))) == Concat(suffixes)
    decreases |suffixes|
  {
    if suffixes == [] {
      assert Packed(header, suffixes) == [header];
      assert Bodies(header, [header]) == [""];
      assert Concat([""]) == Concat([]) + "";
    } else {
      var n := |suffixes| - 1;
      var prefix := suffixes[..n];
      assert FitsOneMessage(header, prefix);
      PackedKeepsEveryPieceInOrder(header, prefix);
      var (done, current) := PackFrom(header, prefix);
      assert Packed(header, prefix) == done + [current];
      assert suffixes == prefix + [suffixes[n]];
      ConcatSnoc(prefix, suffixes[n]);
      BodiesAfterStep(header, done, current, suffixes[n]);
    }
  }

  /** One packing step appends the piece to the text after the headers. */
  lemma BodiesAfterStep(header: string, done: seq<string>, current: string, piece: string)
    requires forall k | 0 <= k < |done + [current]| :: |header| <= |(done + [current])[k]|
    ensures var (d, c) := PackStep(header, done, current, piece);
      (forall k | 0 <= k < |d + [c]| :: |header| <= |(d + [c])[k]|) &&
      Concat(Bodies(header, d + [c])) == Concat(Bodies(header, done + [current])) + piece
  {
    var before := Bodies(header, done + [current]);
    assert |header| <= |current| by {
      assert (done + [current])[|done|] == current;
    }
    assert current[|header|..] + piece == (current + piece)[|header|..];
    var (d, c) := PackStep(header, done, current, piece);
    if |current + piece| > TweetMaxLength {
      assert d + [c] == done + [current] + [header + piece];
      assert Bodies(header, d + [c]) == before + [piece];
      ConcatSnoc(before, piece);
    } else {
      forall k | 0 <= k < |done| ensures |header| <= |done[k]| {
        assert (done + [current])[k] == done[k];
      }
      assert before == Bodies(header, done) + [current[|header|..]];
      assert Bodies(header, d + [c]) == Bodies(header, done) + [current[|header|..] + piece];
      ConcatSnoc(Bodies(header, done), current[|header|..]);
      ConcatSnoc(Bodies(header, done), current[|header|..] + piece);
    }
  }

  /** Message `k + 1` of the packing opens with a piece that did not fit after message `k`. */
  predicate OpensWithRefusedPiece(header: string, suffixes: seq<string>, k: nat)
    requires k + 1 < |Packed(header, suffixes)|
  {
    var messages := Packed(header, suffixes);
    exists j | 0 <= j < |suffixes| ::
      |messages[k] + suffixes[j]| > TweetMaxLength && StartsWith(messages[k + 1], header + suffixes[j])
  }

  lemma StartsWithExtended(s: string, prefix: string, more: string)
    requires StartsWith(s, prefix)
    ensures StartsWith(s + more, prefix)
  {
    assert (s + more)[..|prefix|] == s[..|prefix|];
  }

  /**
   * Greedy: a message is closed only when the next one opens with the header
   * and a piece that did not fit after it.
   */
  lemma {:induction false} PackedIsGreedy(header: string, suffixes: seq<string>)
    ensures forall k | 0 <= k < |Packed(header, suffixes)| - 1 :: OpensWithRefusedPiece(header, suffixes, k)
    decreases |suffixes|
  {
    if suffixes != [] {
      var n := |suffixes| - 1;
      var prefix := suffixes[..n];
      PackedIsGreedy(header, prefix);
      var before := Packed(header, prefix);
      var after := Packed(header, suffixes);
      var (done, current) := PackFrom(header, prefix);
      assert before == done + [current];
      var overflow := |current + suffixes[n]| > TweetMaxLength;
      assert overflow ==> after == done + [current] + [header + suffixes[n]];
      assert !overflow ==> after == done + [current + suffixes[n]];
      forall k | 0 <= k < |after| - 1
        ensures OpensWithRefusedPiece(header, suffixes, k)
      {
        if k < |before| - 1 {
          assert OpensWithRefusedPiece(header, prefix, k);
          var j :| 0 <= j < |prefix| &&
            |before[k] + prefix[j]| > TweetMaxLength && StartsWith(before[k + 1], header + prefix[j]);
          assert after[k] == before[k] && suffixes[j] == prefix[j];
          if !overflow && k + 1 == |done| {
            assert after[k + 1] == before[k + 1] + suffixes[n];
            StartsWithExtended(before[k + 1], header + prefix[j], suffixes[n]);
          } else {
            assert after[k + 1] == before[k + 1];
          }
        } else {
          assert overflow && after[k] == current && after[k + 1] == header + suffixes[n];
          assert StartsWith(after[k + 1], header + suffixes[n]);
        }
      }
    }
  }

  // ---------------------------------------------------------------------
  // The sending loop.

  datatype DirectMessage = DirectMessage(recipientId: string, text: string)

  function ToMessages(recipientId: string, texts: seq<string>): seq<DirectMessage> {
    seq(|texts|, k requires 0 <= k < |texts| => DirectMessage(recipientId, texts[k]))
  }

  lemma ToMessagesSnoc(recipientId: string, texts: seq<string>, t: string)
    ensures ToMessages(recipientId, texts + [t]) == ToMessages(recipientId, texts) + [DirectMessage(recipientId, t)]
  {
  }

  /**
   * Where the sending loop stands before piece `i`: with `pending`, the
   * message under way was just sent (or nothing was started yet) and `texts`
   * are the messages of the packing of the first `i` pieces; otherwise
   * `texts` are its completed messages and `message` the one being filled.
   */
  ghost predicate LoopAt(header: string, suffixes: seq<string>, i: nat, pending: bool, texts: seq<string>, message: string)
    requires i <= |suffixes|
  {
    if pending then
      message == "" &&
      (i == 0 ==> texts == []) &&
      (i > 0 ==> texts == Packed(header, suffixes[..i])) &&
      (0 < i < |suffixes| ==> |PackFrom(header, suffixes[..i]).1 + suffixes[i]| > TweetMaxLength)
    else
      0 < i && texts == PackFrom(header, suffixes[..i]).0 && message == PackFrom(header, suffixes[..i]).1
  }

  /** Piece `i` fits the message under way (the header alone when none is): the packing grows by it. */
  lemma FitStep(header: string, suffixes: seq<string>, i: nat, pending: bool, texts: seq<string>, message: string)
    requires i < |suffixes| && LoopAt(header, suffixes, i, pending, texts, message) && FitsOneMessage(header, suffixes)
    requires |(if message == "" then header else message) + suffixes[i]| <= TweetMaxLength
    ensures PackFrom(header, suffixes[..i + 1]) == (texts, (if message == "" then header else message) + suffixes[i])
  {
    PackFromSnoc(header, suffixes, i);
    if i == 0 {
      assert suffixes[..0] == [];
    } else if !pending {
      assert FitsOneMessage(header, suffixes[..i]);
      PackFromShape(header, suffixes[..i]);
    }
  }

  /** Piece `i` does not fit: the message under way is complete, and it was not empty. */
  lemma OverflowStep(header: string, suffixes: seq<string>, i: nat, pending: bool, texts: seq<string>, message: string)
    requires i < |suffixes| && LoopAt(header, suffixes, i, pending, texts, message) && FitsOneMessage(header, suffixes)
    requires |(if message == "" then header else message) + suffixes[i]| > TweetMaxLength
    ensures message != "" && LoopAt(header, suffixes, i, true, texts + [message], "")
  {
    assert |header + suffixes[i]| <= TweetMaxLength;
    assert FitsOneMessage(header, suffixes[..i]);
    PackFromShape(header, suffixes[..i]);
  }

  /** Piece `i` either joins the message under way or completes it. */
  lemma PieceStep(header: string, suffixes: seq<string>, i: nat, pending: bool, texts: seq<string>, message: string)
    requires i < |suffixes| && LoopAt(header, suffixes, i, pending, texts, message) && FitsOneMessage(header, suffixes)
    ensures var current := if message == "" then header else message;
      if |current + suffixes[i]| > TweetMaxLength then
        message != "" && LoopAt(header, suffixes, i, true, texts + [message], "")
      else
        PackFrom(header, suffixes[..i + 1]) == (texts, current + suffixes[i])
  {
    if |(if message == "" then header else message) + suffixes[i]| > TweetMaxLength {
      OverflowStep(header, suffixes, i, pending, texts, message);
    } else {
      FitStep(header, suffixes, i, pending, texts, message);
    }
  }

  /** The direct messages sent so far; `sendDm` appends to it. */
  class Outbox {
    var sent: seq<DirectMessage>

    constructor ()
      ensures sent == []
    {
      sent := [];
    }

    /**
     * `sendMyselfTweet` with the send triggered once the last piece has been
     * added (`i == otherLines.length`). The loop only ends when every piece fits
     * with the header, so callers must keep to that.
     */
    method SendMyselfTweet(header: string, additionalLines: Option<seq<string>>, apiAvailable: bool, user: Option<string>)
      requires FitsOneMessage(header, Suffixes(additionalLines))
      modifies this
      ensures apiAvailable && user.Some? ==> sent == old(sent) + ToMessages(user.value, Messages(header, additionalLines))
      ensures !(apiAvailable && user.Some?) ==> sent == old(sent)
    {
      if apiAvailable && user.Some? {
        var recipientId := user.value;
        var otherLines := if additionalLines.Some? then additionalLines.value else [""];
        ghost var suffixes := Suffixes(additionalLines);
        ghost var start := sent;
        ghost var texts: seq<string> := [];
        ghost var pending := true;
        var message := "";
        var i := 0;
        while i < |otherLines|
          invariant 0 <= i <= |otherLines| == |suffixes|
          invariant sent == start + ToMessages(recipientId, texts)
          invariant LoopAt(header, suffixes, i, pending, texts, message)
          invariant !pending ==> i < |suffixes|
          decreases 2 * (|otherLines| - i) + (if pending then 0 else 1)
        {
          var shouldSend := false;
          var nextLine := if additionalLines.Some? then "\n" + additionalLines.value[i] else "";
          assert nextLine == suffixes[i];
          PieceStep(header, suffixes, i, pending, texts, message);
          if message == "" {
            message := header;
          }
          var newMessage := message + nextLine;
          if |newMessage| > TweetMaxLength {
            shouldSend := true;
          } else {
            message := newMessage;
            i := i + 1;
            if i == |otherLines| {
              shouldSend := true;
            }
          }
          if shouldSend {
            ToMessagesSnoc(recipientId, texts, message);
            sent := sent + [DirectMessage(recipientId, message)];
            texts := texts + [message];
            message := "";
            pending := true;
          } else {
            pending := false;
          }
        }
        assert suffixes[..|suffixes|] == suffixes;
      }
    }

    /**
     * `sendMyselfTweet` as written: the send is triggered when `i` becomes
     * `otherLines.length - 1`, so what is added after that is never sent.
     */
    method SendMyselfTweetAsWritten(header: string, additionalLines: Option<seq<string>>, apiAvailable: bool, user: Option<string>)
      requires FitsOneMessage(header, Suffixes(additionalLines))
      modifies this
      ensures apiAvailable && user.Some? ==> sent == old(sent) + ToMessages(user.value, MessagesAsWritten(header, additionalLines))
      ensures !(apiAvailable && user.Some?) ==> sent == old(sent)
    {
      if apiAvailable && user.Some? {
        var recipientId := user.value;
        var otherLines := if additionalLines.Some? then additionalLines.value else [""];
        ghost var suffixes := Suffixes(additionalLines);
        ghost var front := if suffixes == [] then [] else suffixes[..|suffixes| - 1];
        ghost var start := sent;
        ghost var texts: seq<string> := [];
        ghost var pending := true;
        var message := "";
        var i := 0;
        while i < |otherLines|
          invariant 0 <= i <= |otherLines| == |suffixes|
          invariant |front| == |suffixes| - 1 || suffixes == front == []
          invariant forall k | 0 <= k < |front| :: front[k] == suffixes[k]
          invariant sent == start + ToMessages(recipientId, texts)
          invariant i <= |front| ==> LoopAt(header, front, i, pending, texts, message)
          invariant i == |front| ==> pending
          invariant !pending ==> i < |front| || i == |suffixes|
          invariant i == |suffixes| ==> texts == MessagesAsWritten(header, additionalLines)
          decreases 2 * (|otherLines| - i) + (if pending then 0 else 1)
        {
          var shouldSend := false;
          var nextLine := if additionalLines.Some? then "\n" + additionalLines.value[i] else "";
          assert nextLine == suffixes[i];
          if i < |front| {
            assert FitsOneMessage(header, front);
            PieceStep(header, front, i, pending, texts, message);
          } else {
            assert |header + suffixes[i]| <= TweetMaxLength;
            if |front| > 0 {
              assert front[..|front|] == front;
              assert suffixes[..|suffixes| - 1] == front;
            }
          }
          if message == "" {
            message := header;
          }
          var newMessage := message + nextLine;
          if |newMessage| > TweetMaxLength {
            shouldSend := true;
          } else {
            message := newMessage;
            i := i + 1;
            if i == |otherLines| - 1 {
              shouldSend := true;
            }
          }
          if shouldSend {
            ToMessagesSnoc(recipientId, texts, message);
            sent := sent + [DirectMessage(recipientId, message)];
            texts := texts + [message];
            message := "";
            pending := true;
          } else {
            pending := false;
          }
        }
      }
    }
  }

  // ---------------------------------------------------------------------
  // What the two versions send.

  /** As written, a call without lines sends nothing, although its header is the whole notification. */
  lemma HeaderOnlySendsNothingAsWritten(header: string)
    requires |header| <= TweetMaxLength
    ensures MessagesAsWritten(header, None) == []
    ensures Messages(header, None) == [header]
  {
    assert [""][..0] == [];
    assert header + "" == header;
  }

  /**
   * As written, the last line never reaches any message: whatever the lines,
   * the bodies of the messages sent are all the lines but the last, in order.
   */
  lemma LastLineNeverSentAsWritten(header: string, lines: seq<string>)
    requires lines != [] && FitsOneMessage(header, Suffixes(Some(lines)))
    ensures forall k | 0 <= k < |MessagesAsWritten(header, Some(lines))| :: |header| <= |MessagesAsWritten(header, Some(lines))[k]|
    ensures Concat(Bodies(header, MessagesAsWritten(header, Some(lines)))) == Concat(Suffixes(Some(lines))[..|lines| - 1])
  {
    var suffixes := Suffixes(Some(lines));
    if |lines| > 1 {
      var front := suffixes[..|lines| - 1];
      assert FitsOneMessage(header, front) by {
        forall k | 0 <= k < |front| ensures |header + front[k]| <= TweetMaxLength {
          assert front[k] == suffixes[k];
        }
      }
      PackedKeepsEveryPieceInOrder(header, front);
    } else {
      assert MessagesAsWritten(header, Some(lines)) == [];
      assert Bodies(header, []) == [];
      assert suffixes[..0] == [];
    }
  }

  /** The smallest cases: one line is not sent at all, and of two lines only the first is. */
  lemma LastLineNeverSentExamples()
    ensures MessagesAsWritten("H", Some(["a"])) == []
    ensures Messages("H", Some(["a"])) == ["H\na"]
    ensures MessagesAsWritten("H", Some(["a", "b"])) == ["H\na"]
    ensures Messages("H", Some(["a", "b"])) == ["H\na\nb"]
  {
    var two := Suffixes(Some(["a", "b"]));
    assert |two| == 2 && two[0] == "\na" && two[1] == "\nb";
    assert two == ["\na", "\nb"];
    var one := Suffixes(Some(["a"]));
    assert |one| == 1 && one[0] == "\na";
    assert one == ["\na"];
    assert two[..1] == one;
    assert one[..0] == [];
    assert PackFrom("H", []) == ([], "H");
    assert |"H" + "\na"| == 3 && "H" + "\na" == "H\na";
    assert PackFrom("H", one) == ([], "H\na");
    assert |"H\na" + "\nb"| == 5 && "H\na" + "\nb" == "H\na\nb";
    assert PackFrom("H", two) == ([], "H\na\nb");
  }

  /** With the send moved to the end every line is delivered: the bodies of the messages are the lines, in order. */
  lemma EveryLineSent(header: string, lines: seq<string>)
    requires lines != [] && FitsOneMessage(header, Suffixes(Some(lines)))
    ensures forall k | 0 <= k < |Messages(header, Some(lines))| :: |header| <= |Messages(header, Some(lines))[k]|
    ensures Concat(Bodies(header, Messages(header, Some(lines)))) == Concat(Suffixes(Some(lines)))
  {
    PackedKeepsEveryPieceInOrder(header, Suffixes(Some(lines)));
  }
}
