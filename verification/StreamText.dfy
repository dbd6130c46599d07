/** Streamed assistant text of one agent run: the chunk list kept next to the running
    text, stream retries that take characters back, and the capture of a partial reply. */
module StreamText {
  import opened Common

  datatype Role = User | Assistant | System

  datatype Message = Message(
    uuid: string,
    role: Role,
    text: string,
    parent: Option<string>,
    replyTo: Option<string>,
    apiError: bool,
    hasToolUse: bool)

  function UserMessage(uuid: string, text: string): Message {
    Message(uuid, User, text, None, None, false, false)
  }

  function AssistantMessage(uuid: string, text: string, parent: Option<string>): Message {
    Message(uuid, Assistant, text, parent, None, false, false)
  }

  ghost predicate HasUuid(messages: seq<Message>, id: string) {
    exists i | 0 <= i < |messages| :: messages[i].uuid == id
  }

  predicate DistinctUuids(messages: seq<Message>) {
    forall i, j | 0 <= i < j < |messages| :: messages[i].uuid != messages[j].uuid
  }

  predicate Contains(messages: seq<Message>, id: string)
    ensures Contains(messages, id) <==> HasUuid(messages, id)
  {
    exists m | m in messages :: m.uuid == id
  }

  /** Whether a final assistant reply to message `id` exists: directly linked by its reply
      field, or reached through parents after the message was seen. */
  predicate Answered(messages: seq<Message>, id: string, related: set<string>, seen: bool) {
    if messages == [] then false
    else
      var m, rest := messages[0], messages[1..];
      if m.uuid == id then Answered(rest, id, related, true)
      else if !(m.role == Assistant && m.replyTo == Some(id))
              && !(seen && m.parent.Some? && m.parent.value in related) then
        Answered(rest, id, related, seen)
      else (m.role == Assistant && !m.apiError && !m.hasToolUse)
           || Answered(rest, id, related + {m.uuid}, seen)
  }

  /** Message k answers message `id`: it is a reply to it, or a descendant of it, or of another message
      that answers it, behind its place in the history. */
  ghost predicate Answers(messages: seq<Message>, id: string, k: nat) {
    k < |messages|
    && messages[k].uuid != id
    && ((messages[k].role == Assistant && messages[k].replyTo == Some(id))
        || (StandsBefore(messages, id, k) && messages[k].parent.Some?
            && (messages[k].parent.value == id
                || exists j | 0 <= j < k :: Answers(messages, id, j) && messages[j].uuid == messages[k].parent.value)))
  }

  ghost predicate StandsBefore(messages: seq<Message>, id: string, k: nat)
    requires k <= |messages|
  {
    exists j | 0 <= j < k :: messages[j].uuid == id
  }

  /** An answer that is an assistant's last word. */
  predicate Final(m: Message) {
    m.role == Assistant && !m.apiError && !m.hasToolUse
  }

  /** What the scan has collected when it comes to message n. */
  ghost predicate Collected(messages: seq<Message>, id: string, n: nat, related: set<string>, seen: bool)
    requires n <= |messages|
  {
    && (seen <==> StandsBefore(messages, id, n))
    && (forall u :: u in related <==>
                    u == id || exists j | 0 <= j < n :: Answers(messages, id, j) && messages[j].uuid == u)
  }

  lemma {:induction false} AnswersNow(messages: seq<Message>, id: string, n: nat, related: set<string>, seen: bool)
    requires n < |messages| && Collected(messages, id, n, related, seen)
    ensures var m := messages[n];
            Answers(messages, id, n) <==>
            m.uuid != id && ((m.role == Assistant && m.replyTo == Some(id))
                             || (seen && m.parent.Some? && m.parent.value in related))
  {
  }

  lemma {:induction false} CollectedOn(messages: seq<Message>, id: string, n: nat, related: set<string>, seen: bool)
    requires n < |messages| && Collected(messages, id, n, related, seen)
    ensures Collected(messages, id, n + 1, if Answers(messages, id, n) then related + {messages[n].uuid} else related,
                      seen || messages[n].uuid == id)
  {
    hide Answers;
  }

  lemma {:induction false} ScanIff(messages: seq<Message>, id: string, n: nat, related: set<string>, seen: bool)
    requires n <= |messages| && Collected(messages, id, n, related, seen)
    ensures Answered(messages[n..], id, related, seen)
            <==> exists k | n <= k < |messages| :: Answers(messages, id, k) && Final(messages[k])
    decreases |messages| - n
  {
    if n < |messages| {
      assert messages[n..][1..] == messages[n + 1..];
      AnswersNow(messages, id, n, related, seen);
      CollectedOn(messages, id, n, related, seen);
      hide Answers, Collected;
      if !(Answers(messages, id, n) && Final(messages[n])) {
        ScanIff(messages, id, n + 1, if Answers(messages, id, n) then related + {messages[n].uuid} else related,
                seen || messages[n].uuid == id);
      }
    }
  }

  /** A message counts as answered exactly if some answer to it is an assistant's last word. */
  lemma {:induction false} AnsweredIff(messages: seq<Message>, id: string)
    ensures Answered(messages, id, {id}, false)
            <==> exists k | 0 <= k < |messages| :: Answers(messages, id, k) && Final(messages[k])
  {
    assert messages[0..] == messages;
    ScanIff(messages, id, 0, {id}, false);
  }

  // ----- stream retries -----

  function Keep(text: string, discarded: nat): string {
    text[..|text| - (if discarded < |text| then discarded else |text|)]
  }

  /** The chunk list after `remaining` trailing characters were taken back. */
  function DropChunks(chunks: seq<string>, remaining: nat): seq<string> {
    if remaining == 0 || chunks == [] then chunks
    else
      var init, last := chunks[..|chunks| - 1], chunks[|chunks| - 1];
      if |last| <= remaining then DropChunks(init, remaining - |last|)
      else init + [last[..|last| - remaining]]
  }

  /** Taking characters back from the chunk list takes exactly the same characters back
      from the text the chunks spell. */
  lemma {:induction false} DropChunksKeepsText(chunks: seq<string>, remaining: nat)
    ensures Flatten(DropChunks(chunks, remaining)) == Keep(Flatten(chunks), remaining)
  {
    if remaining != 0 && chunks != [] {
      var init, last := chunks[..|chunks| - 1], chunks[|chunks| - 1];
      if |last| <= remaining {
        DropChunksKeepsText(init, remaining - |last|);
      } else {
        FlattenAppend(init, last[..|last| - remaining]);
      }
    }
  }

  /** The retry branch of the event handler: pop and trim chunks from the back. */
  method RetryStream(finalText: string, chunks: seq<string>, discarded: nat)
    returns (text: string, rest: seq<string>)
    ensures text == Keep(finalText, discarded)
    ensures rest == DropChunks(chunks, if discarded < |finalText| then discarded else |finalText|)
    ensures finalText == Flatten(chunks) ==> text == Flatten(rest)
  {
    text, rest := finalText, chunks;
    var remaining := if discarded < |finalText| then discarded else |finalText|;
    ghost var total := remaining;
    if remaining != 0 {
      text := finalText[..|finalText| - remaining];
      while remaining != 0 && rest != []
        invariant 0 <= remaining
        invariant DropChunks(rest, remaining) == DropChunks(chunks, total)
        decreases |rest|, remaining
      {
        var chunk := rest[|rest| - 1];
        rest := rest[..|rest| - 1];
        if |chunk| <= remaining {
          remaining := remaining - |chunk|;
        } else {
          rest := rest + [chunk[..|chunk| - remaining]];
          remaining := 0;
        }
      }
    }
    DropChunksKeepsText(chunks, total);
  }

  // ----- partial capture -----

  /** Assistant text committed to the history outside the baseline, in order. */
  function Committed(messages: seq<Message>, baseline: set<string>): string {
    if messages == [] then ""
    else
      var m := messages[|messages| - 1];
      Committed(messages[..|messages| - 1], baseline)
      + (if m.role == Assistant && m.uuid !in baseline then m.text else "")
  }

  function Uncommitted(messages: seq<Message>, baseline: set<string>, finalText: string): string {
    var committed := Committed(messages, baseline);
    if committed != "" && committed <= finalText then finalText[|committed|..] else finalText
  }

  /** Append the part of the streamed text no committed message holds yet. */
  function CapturePartial(messages: seq<Message>, baseline: set<string>, finalText: string, newId: string)
    : (r: seq<Message>)
    ensures messages <= r && |r| <= |messages| + 1
  {
    if Blank(finalText) then messages
    else
      var partial := Uncommitted(messages, baseline, finalText);
      if Blank(partial) then messages
      else
        var parent := if messages == [] then None else Some(messages[|messages| - 1].uuid);
        messages + [AssistantMessage(newId, partial, parent)]
  }

  lemma {:induction false} CommittedAppend(messages: seq<Message>, m: Message, baseline: set<string>)
    ensures Committed(messages + [m], baseline)
            == Committed(messages, baseline) + (if m.role == Assistant && m.uuid !in baseline then m.text else "")
  {
    assert (messages + [m])[..|messages|] == messages;
  }

  /** When the history is a prefix of the stream, capturing commits the whole stream, up
      to a rest of white space, and never repeats text. */
  lemma {:induction false} CaptureCompletes(messages: seq<Message>, baseline: set<string>, finalText: string,
      newId: string)
    requires Committed(messages, baseline) <= finalText
    requires newId !in baseline
    ensures var after := Committed(CapturePartial(messages, baseline, finalText, newId), baseline);
            after <= finalText && Blank(finalText[|after|..])
            && (after == finalText || after == Committed(messages, baseline))
  {
    var committed := Committed(messages, baseline);
    var partial := Uncommitted(messages, baseline, finalText);
    assert partial == finalText[|committed|..];
    var parent := if messages == [] then None else Some(messages[|messages| - 1].uuid);
    CommittedAppend(messages, AssistantMessage(newId, partial, parent), baseline);
    assert committed + partial == finalText;
  }

  /** Capturing twice is capturing once exactly when nothing was streamed or the committed
      text is a prefix of the stream; otherwise the second capture repeats the text. */
  lemma {:induction false} CaptureIdempotent(messages: seq<Message>, baseline: set<string>, finalText: string,
                          newId: string, newId': string)
    requires newId !in baseline
    ensures var once := CapturePartial(messages, baseline, finalText, newId);
            CapturePartial(once, baseline, finalText, newId') == once
            <==> Blank(finalText) || Committed(messages, baseline) <= finalText
  {
    var committed := Committed(messages, baseline);
    var once := CapturePartial(messages, baseline, finalText, newId);
    if !Blank(finalText) {
      if committed <= finalText {
        CaptureCompletes(messages, baseline, finalText, newId);
      } else {
        var parent := if messages == [] then None else Some(messages[|messages| - 1].uuid);
        CommittedAppend(messages, AssistantMessage(newId, finalText, parent), baseline);
      }
    }
  }

  /** The text committed by the messages up to n. */
  function CommittedUpTo(messages: seq<Message>, baseline: set<string>, n: nat): string
    requires n <= |messages|
  {
    if n == 0 then ""
    else if messages[n - 1].role.Assistant? && messages[n - 1].uuid !in baseline
    then CommittedUpTo(messages, baseline, n - 1) + messages[n - 1].text
    else CommittedUpTo(messages, baseline, n - 1)
  }

  lemma {:induction false} CommittedIs(messages: seq<Message>, baseline: set<string>, n: nat)
    requires n <= |messages|
    ensures Committed(messages[..n], baseline) == CommittedUpTo(messages, baseline, n)
  {
    if n > 0 {
      CommittedIs(messages, baseline, n - 1);
      assert messages[..n][..n - 1] == messages[..n - 1];
    }
  }

  /** Capture adds one assistant message, a child of the last one, under the new id: what was streamed behind
      the committed text, or all of it if that is no prefix of it. It adds none if that is blank. */
  lemma {:induction false} CaptureAppends(messages: seq<Message>, baseline: set<string>, finalText: string,
                                          newId: string)
    ensures var committed := CommittedUpTo(messages, baseline, |messages|);
            var rest := if committed <= finalText then finalText[|committed|..] else finalText;
            CapturePartial(messages, baseline, finalText, newId)
            == if exists k :: 0 <= k < |rest| && !IsSpace(rest[k])
               then messages + [Message(newId, Assistant, rest,
                                        if messages == [] then None else Some(messages[|messages| - 1].uuid), None,
                                        false, false)]
               else messages
  {
    CommittedIs(messages, baseline, |messages|);
    assert messages[..|messages|] == messages;
    var committed := Committed(messages, baseline);
    var rest := if committed <= finalText then finalText[|committed|..] else finalText;
    hide Committed, CommittedUpTo, IsSpace;
    assert Uncommitted(messages, baseline, finalText) == rest;
    RestBlank(finalText, committed, rest);
    NotBlank(rest);
    hide Blank, Uncommitted;
    if Blank(finalText) {
    } else if Blank(rest) {
    } else {
    }
  }

  lemma {:induction false} NotBlank(text: string)
    ensures Blank(text) <==> !exists k :: 0 <= k < |text| && !IsSpace(text[k])
  {
    hide IsSpace;
  }

  lemma {:induction false} RestBlank(text: string, head: string, rest: string)
    requires rest == if head <= text then text[|head|..] else text
    ensures Blank(text) ==> Blank(rest)
  {
    hide IsSpace;
    if head <= text {
      assert text == head + rest;
      assert forall k | 0 <= k < |rest| :: rest[k] == text[k + |head|];
    }
  }
}
