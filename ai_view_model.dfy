/**
 * The AI chat screen's view-model: sending the user's prompt, turning the reply into one
 * message per non-empty line, and cleaning a selected reply of its "Adım N: " step markers
 * before it becomes a to-do title.
 */
module AIChat {
  import opened Wrappers
  import opened Text

  /** One chat bubble; `timestamp` is whole seconds since the epoch. */
  datatype ChatMessage = ChatMessage(content: string, isUser: bool, timestamp: int)

  // ---------------------------------------------------------------------------------------
  // Reply shaping
  // ---------------------------------------------------------------------------------------

  /** The message for one line: the line trimmed, or nothing when that leaves it empty. */
  function LineMessage(paragraph: string, now: int): (r: seq<ChatMessage>)
    ensures |r| <= 1
    ensures r != [] <==> !AllSatisfy(paragraph, IsWhitespaceOrNewline)
  {
    var cleaned := TrimWhitespaceAndNewlines(paragraph);
    if cleaned != [] then [ChatMessage(cleaned, false, now)] else []
  }

  /** The reply messages for the given lines, in order: those of all but the last line, then the last's. */
  function ReplyMessages(paragraphs: seq<string>, now: int): (r: seq<ChatMessage>)
    ensures |r| <= |paragraphs|
  {
    if paragraphs == [] then []
    else ReplyMessages(paragraphs[..|paragraphs| - 1], now) + LineMessage(paragraphs[|paragraphs| - 1], now)
  }

  /** How many of the lines are not blank once trimmed. */
  function NonBlankLines(paragraphs: seq<string>): nat
  {
    if paragraphs == [] then 0
    else (if TrimWhitespaceAndNewlines(paragraphs[0]) != [] then 1 else 0) + NonBlankLines(paragraphs[1..])
  }

  /** The reply of lines `[p] + rest` starts with the message of `p`: the lines keep their order. */
  lemma {:induction false} ReplyMessagesCons(p: string, rest: seq<string>, now: int)
    ensures ReplyMessages([p] + rest, now) == LineMessage(p, now) + ReplyMessages(rest, now)
    decreases |rest|
  {
    var all := [p] + rest;
    if rest != [] {
      var n := |rest|;
      assert all[..|all| - 1] == [p] + rest[..n - 1];
      assert all[|all| - 1] == rest[n - 1];
      ReplyMessagesCons(p, rest[..n - 1], now);
    } else {
      assert all[..0] == [];
    }
  }

  /** There is exactly one message per line that is not blank. */
  lemma {:induction false} ReplyMessagesCount(paragraphs: seq<string>, now: int)
    ensures |ReplyMessages(paragraphs, now)| == NonBlankLines(paragraphs)
    decreases |paragraphs|
  {
    if paragraphs != [] {
      ReplyMessagesCons(paragraphs[0], paragraphs[1..], now);
      assert [paragraphs[0]] + paragraphs[1..] == paragraphs;
      ReplyMessagesCount(paragraphs[1..], now);
    }
  }

  /** A reply bubble as the screen shows it: the AI's, stamped `now`, non-empty and trimmed. */
  predicate WellShaped(m: ChatMessage, now: int)
  {
    !m.isUser && m.timestamp == now && m.content != [] && '\n' !in m.content &&
    !IsWhitespaceOrNewline(m.content[0]) && !IsWhitespaceOrNewline(m.content[|m.content| - 1])
  }

  /** The message of a line without '\n', if any, is well shaped. */
  lemma LineMessageShape(paragraph: string, now: int)
    requires '\n' !in paragraph
    ensures forall m | m in LineMessage(paragraph, now) :: WellShaped(m, now)
  {
    TrimKeepsAbsent(paragraph, IsWhitespaceOrNewline, c => c == '\n');
  }

  /**
   * Every reply message is the AI's, non-empty, and has no whitespace or line break at
   * either end; when the lines hold no '\n', neither does any message.
   */
  lemma {:induction false} ReplyMessagesShape(paragraphs: seq<string>, now: int)
    requires forall i :: 0 <= i < |paragraphs| ==> '\n' !in paragraphs[i]
    ensures forall i :: 0 <= i < |ReplyMessages(paragraphs, now)| ==>
      WellShaped(ReplyMessages(paragraphs, now)[i], now)
    decreases |paragraphs|
  {
    if paragraphs != [] {
      var n := |paragraphs|;
      var front := ReplyMessages(paragraphs[..n - 1], now);
      var last := LineMessage(paragraphs[n - 1], now);
      ReplyMessagesShape(paragraphs[..n - 1], now);
      LineMessageShape(paragraphs[n - 1], now);
      forall i | 0 <= i < |front + last|
        ensures WellShaped((front + last)[i], now)
      {
        if i >= |front| {
          assert (front + last)[i] in last;
        }
      }
    }
  }

  /** Each message is the trimmed form of one of the lines. */
  lemma {:induction false} ReplyMessagesFromLines(paragraphs: seq<string>, now: int, i: int)
    requires 0 <= i < |ReplyMessages(paragraphs, now)|
    ensures exists j :: 0 <= j < |paragraphs| &&
                        ReplyMessages(paragraphs, now)[i].content == TrimWhitespaceAndNewlines(paragraphs[j])
    decreases |paragraphs|
  {
    var n := |paragraphs|;
    var front := paragraphs[..n - 1];
    var earlier := ReplyMessages(front, now);
    var last := LineMessage(paragraphs[n - 1], now);
    assert ReplyMessages(paragraphs, now) == earlier + last;
    if i < |earlier| {
      assert ReplyMessages(paragraphs, now)[i] == earlier[i];
      ReplyMessagesFromLines(front, now, i);
      var j :| 0 <= j < |front| && earlier[i].content == TrimWhitespaceAndNewlines(front[j]);
      assert front[j] == paragraphs[j];
    } else {
      assert ReplyMessages(paragraphs, now)[i] == last[0];
    }
  }

  // ---------------------------------------------------------------------------------------
  // Step markers
  // ---------------------------------------------------------------------------------------

  /** "Adım k: ", the marker the reply puts before step `k`. */
  function Marker(k: nat): (m: string)
    requires 1 <= k <= 5
    ensures |m| == 8 && m[5] == DigitChar(k)
  {
    "Adım " + [DigitChar(k)] + ": "
  }

  /** `s` holds none of the five markers. */
  predicate NoMarkers(s: string)
  {
    forall k :: 1 <= k <= 5 ==> !Contains(s, Marker(k))
  }

  /** Removes markers `j`, `j + 1`, ..., 5 in that order, each everywhere it occurs. */
  function StripMarkers(s: string, j: nat): string
    requires 1 <= j <= 6
    decreases 6 - j
  {
    if j == 6 then s else StripMarkers(RemoveAll(s, Marker(j)), j + 1)
  }

  /** A string without markers loses nothing. */
  lemma {:induction false} StripMarkersNone(s: string, j: nat)
    requires 1 <= j <= 6 && NoMarkers(s)
    ensures StripMarkers(s, j) == s
    decreases 6 - j
  {
    if j < 6 {
      StripMarkersNone(s, j + 1);
    }
  }

  /** A marker-free text after marker `k` holds no other marker either. */
  lemma OtherMarkerAbsent(k: nat, j: nat, t: string)
    requires 1 <= k <= 5 && 1 <= j <= 5 && j != k
    requires !Contains(t, Marker(j))
    ensures !Contains(Marker(k) + t, Marker(j))
  {
    var s := Marker(k) + t;
    assert s[5] == DigitChar(k) != DigitChar(j) == Marker(j)[5];
    assert !StartsWith(s, Marker(j));
    var tail := Marker(k)[1..];
    assert 'A' !in tail by {
      assert tail == "dım " + [DigitChar(k)] + ": ";
    }
    assert s[1..] == tail + t;
    ContainsAfterForeignPrefix(tail, t, Marker(j));
  }

  /** Marker `k` in front of a marker-free text is removed, and only it. */
  lemma {:induction false} StripMarkersLeading(k: nat, t: string, j: nat)
    requires 1 <= k <= 5 && 1 <= j <= k && NoMarkers(t)
    ensures StripMarkers(Marker(k) + t, j) == t
    decreases 6 - j
  {
    if j < k {
      OtherMarkerAbsent(k, j, t);
      StripMarkersLeading(k, t, j + 1);
    } else {
      RemoveAllLeading(Marker(k), t);
      StripMarkersNone(t, k + 1);
    }
  }

  /** `getCleanedSelectedMessage()` as a function of the selected text. */
  function CleanedMessage(s: string): (r: string)
    ensures r == [] || (!IsWhitespaceOrNewline(r[0]) && !IsWhitespaceOrNewline(r[|r| - 1]))
  {
    TrimWhitespaceAndNewlines(StripMarkers(s, 1))
  }

  /** A text without markers is only trimmed. */
  lemma CleanedWithoutMarkers(s: string)
    requires NoMarkers(s)
    ensures CleanedMessage(s) == TrimWhitespaceAndNewlines(s)
  {
    StripMarkersNone(s, 1);
  }

  /** "Adım k: " + t, for a marker-free `t`, cleans to `t` trimmed. */
  lemma CleanedStep(k: nat, t: string)
    requires 1 <= k <= 5 && NoMarkers(t)
    ensures CleanedMessage(Marker(k) + t) == TrimWhitespaceAndNewlines(t)
  {
    StripMarkersLeading(k, t, 1);
  }

  // ---------------------------------------------------------------------------------------
  // The view-model
  // ---------------------------------------------------------------------------------------

  class AIViewModel {
    var inputText: string
    var messages: seq<ChatMessage>
    var isLoading: bool
    var selectedMessage: string
    var showNewItem: bool

    constructor ()
      ensures inputText == "" && messages == [] && !isLoading
      ensures selectedMessage == "" && !showNewItem
    {
      inputText := "";
      messages := [];
      isLoading := false;
      selectedMessage := "";
      showNewItem := false;
    }

    /**
     * `sendMessage()`: input that is blank after trimming whitespace and line breaks
     * changes nothing; otherwise the untrimmed input is appended as the user's message,
     * the input is cleared, and it is returned as the prompt to send.
     */
    method SendMessage(now: int) returns (prompt: Option<string>)
      modifies this`messages, this`inputText
      ensures TrimWhitespaceAndNewlines(old(inputText)) == [] ==>
        prompt.None? && messages == old(messages) && inputText == old(inputText)
      ensures TrimWhitespaceAndNewlines(old(inputText)) != [] ==>
        prompt == Some(old(inputText)) && inputText == "" &&
        messages == old(messages) + [ChatMessage(old(inputText), true, now)]
    {
      if TrimWhitespaceAndNewlines(inputText) == [] {
        return None;
      }
      var userMessage := ChatMessage(inputText, true, now);
      messages := messages + [userMessage];
      var userInput := inputText;
      inputText := "";
      return Some(userInput);
    }

    /** `sendToAI(prompt:)` before the reply: loading starts. */
    method StartSendToAI()
      modifies this`isLoading
      ensures isLoading
    {
      isLoading := true;
    }

    /**
     * `sendToAI(prompt:)` once the reply `response` is in: each non-empty line, trimmed, is
     * appended as an AI message in order, and loading stops.
     */
    method ReceiveResponse(response: string, now: int)
      modifies this`messages, this`isLoading
      ensures messages == old(messages) + ReplyMessages(Split(response, '\n'), now)
      ensures !isLoading
    {
      var paragraphs := Split(response, '\n');
      AppendParagraphs(paragraphs, now);
      isLoading := false;
    }

    /** The loop of `sendToAI(prompt:)` over the reply's lines. */
    method AppendParagraphs(paragraphs: seq<string>, now: int)
      modifies this`messages
      ensures messages == old(messages) + ReplyMessages(paragraphs, now)
    {
      var i := 0;
      while i < |paragraphs|
        invariant 0 <= i <= |paragraphs|
        invariant messages == old(messages) + ReplyMessages(paragraphs[..i], now)
      {
        assert paragraphs[..i + 1][..i] == paragraphs[..i];
        AppendParagraph(paragraphs[i], now);
        i := i + 1;
      }
      assert paragraphs[..i] == paragraphs;
    }

    /** One turn of that loop: the line, trimmed, is appended unless that leaves it empty. */
    method AppendParagraph(paragraph: string, now: int)
      modifies this`messages
      ensures messages == old(messages) + LineMessage(paragraph, now)
    {
      var cleanedParagraph := TrimWhitespaceAndNewlines(paragraph);
      if cleanedParagraph != [] {
        var aiMessage := ChatMessage(cleanedParagraph, false, now);
        messages := messages + [aiMessage];
      }
    }

    /** `getCleanedSelectedMessage()`. */
    function GetCleanedSelectedMessage(): string
      reads this
    {
      CleanedMessage(selectedMessage)
    }
  }

  /**
   * The messages a reply adds are well formed: not the user's, non-empty, trimmed, free of
   * '\n', and no more than the reply's non-empty lines.
   */
  lemma ReplyWellFormed(response: string, now: int)
    ensures |ReplyMessages(Split(response, '\n'), now)| <= |Split(response, '\n')|
    ensures forall i :: 0 <= i < |ReplyMessages(Split(response, '\n'), now)| ==>
      var m := ReplyMessages(Split(response, '\n'), now)[i];
      !m.isUser && m.content != [] && '\n' !in m.content &&
      !IsWhitespaceOrNewline(m.content[0]) && !IsWhitespaceOrNewline(m.content[|m.content| - 1])
  {
    ReplyMessagesShape(Split(response, '\n'), now);
  }
}
