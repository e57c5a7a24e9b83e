/**
 * The two chat windows of Windows/chat_window.py.
 *
 * `ChatWindow` keeps the conversation as a list of role/text messages and
 * prints it after its meta text. `AsyChatPromptWindow` keeps a history, a
 * streaming message the model is in the middle of sending, and a buffer
 * for user input that arrives while the model streams; ending the stream
 * files the streamed message and then the buffered input. The clock
 * readings messages are stamped with are parameters; the background event
 * loop that delivers user input is modelled as a direct call.
 */
module ChatWindow {
  import opened Values
  import opened BaseWindow

  // ---------------------------------------------------------------------
  // ChatWindow

  datatype ChatMessage = ChatMessage(role: string, text: Value)

  function ChatHandlers(): set<string>
  {
    {"user_response", "llm_response"}
  }

  /** A handler with the single parameter `text=""` raises TypeError when
      called with any other keyword. */
  predicate OnlyText(kwargs: seq<Field>)
  {
    forall i :: 0 <= i < |kwargs| ==> kwargs[i].key == "text"
  }

  /** `user_response` (role "user") and `llm_response` (role
      "assistant"): append the text; the handler returns `None`. */
  function Say(messages: seq<ChatMessage>, role: string, kwargs: seq<Field>): Handled<seq<ChatMessage>>
  {
    if !OnlyText(kwargs) then Handled(messages, Raised("TypeError"))
    else Handled(messages + [ChatMessage(role, GetOr(kwargs, "text", Str("")))], Returned(Null))
  }

  function MessageLine(m: ChatMessage): string
  {
    UpperString(m.role) + ": " + PyStr(m.text)
  }

  function ChatState(messages: seq<ChatMessage>): string
  {
    if messages == [] then "\nNO USER instruction"
    else "\n" + Join(Lines(messages), "\n")
  }

  /** One rendered line per message, in order. */
  function Lines(messages: seq<ChatMessage>): (r: seq<string>)
    ensures |r| == |messages|
    ensures forall i :: 0 <= i < |r| ==> r[i] == MessageLine(messages[i])
  {
    seq(|messages|, i requires 0 <= i < |messages| => MessageLine(messages[i]))
  }

  /** `forward()`: the meta text (the instruction file's content after a
      newline), then the state. */
  function ChatForward(metaText: string, messages: seq<ChatMessage>): string
  {
    "\n" + metaText + ChatState(messages)
  }

  class ChatWindowObject {
    const name: string
    const metaText: string
    var messages: seq<ChatMessage>

    constructor (windowName: string, metaText: string)
      ensures name == WindowName(Some(windowName)) && this.metaText == metaText && messages == []
    {
      name := WindowName(Some(windowName));
      this.metaText := metaText;
      messages := [];
    }

    method UserResponse(kwargs: seq<Field>) returns (reply: Reply)
      modifies this
      ensures Handled(messages, reply) == Say(old(messages), "user", kwargs)
    {
      if !OnlyText(kwargs) {
        return Raised("TypeError");
      }
      messages := messages + [ChatMessage("user", GetOr(kwargs, "text", Str("")))];
      reply := Returned(Null);
    }

    method LlmResponse(kwargs: seq<Field>) returns (reply: Reply)
      modifies this
      ensures Handled(messages, reply) == Say(old(messages), "assistant", kwargs)
    {
      if !OnlyText(kwargs) {
        return Raised("TypeError");
      }
      messages := messages + [ChatMessage("assistant", GetOr(kwargs, "text", Str("")))];
      reply := Returned(Null);
    }

    function Forward(): string
      reads this
    {
      ChatForward(metaText, messages)
    }
  }

  /** A reply to a user's text shows up as the conversation's last line,
      after the user's. */
  lemma ConversationInOrder(user: string, answer: string)
    ensures var once := Say([], "user", [Field("text", Str(user))]).state;
            var twice := Say(once, "assistant", [Field("text", Str(answer))]).state;
            ChatState(twice) == "\nUSER: " + user + "\nASSISTANT: " + answer
  {
    var m0 := ChatMessage("user", Str(user));
    var m1 := ChatMessage("assistant", Str(answer));
    assert Say([], "user", [Field("text", Str(user))]).state == [m0];
    assert Say([m0], "assistant", [Field("text", Str(answer))]).state == [m0, m1];
    TwoMessages(m0, m1);
    RoleNames();
    assert MessageLine(m0) == "USER: " + user;
    assert MessageLine(m1) == "ASSISTANT: " + answer;
    Regroup("\n", "USER: ", user, "ASSISTANT: ", answer);
    assert "\n" + "USER: " == "\nUSER: ";
    assert "\n" + "ASSISTANT: " == "\nASSISTANT: ";
  }

  /** Each message said adds one line to the state, after those already
      there, whatever the role and the text. */
  lemma SayAppendsLine(ms: seq<ChatMessage>, role: string, kwargs: seq<Field>)
    requires OnlyText(kwargs)
    ensures var m := ChatMessage(role, GetOr(kwargs, "text", Str("")));
            ChatState(Say(ms, role, kwargs).state) ==
              (if ms == [] then "\n" else ChatState(ms) + "\n") + MessageLine(m)
  {
    var m := ChatMessage(role, GetOr(kwargs, "text", Str("")));
    assert Say(ms, role, kwargs).state == ms + [m];
    ChatStateSnoc(ms, m);
  }

  /** Rendering one more message: a newline and its line after the
      existing lines, or in place of the "NO USER instruction" text. */
  lemma ChatStateSnoc(ms: seq<ChatMessage>, m: ChatMessage)
    ensures ChatState(ms + [m]) == (if ms == [] then "\n" else ChatState(ms) + "\n") + MessageLine(m)
  {
    assert Lines(ms + [m]) == Lines(ms) + [MessageLine(m)];
    if ms == [] {
      assert Lines(ms + [m]) == [MessageLine(m)];
    } else {
      JoinSnoc(Lines(ms), MessageLine(m), "\n");
    }
  }

  lemma Regroup(nl: string, u: string, user: string, a: string, answer: string)
    ensures nl + ((u + user) + nl + (a + answer)) == (nl + u) + user + (nl + a) + answer
  {
  }

  lemma TwoMessages(m0: ChatMessage, m1: ChatMessage)
    ensures ChatState([m0, m1]) == "\n" + (MessageLine(m0) + "\n" + MessageLine(m1))
  {
    var ms := [m0, m1];
    var lines := Lines(ms);
    assert lines == [MessageLine(m0), MessageLine(m1)];
    assert lines[1..] == [MessageLine(m1)];
    assert Join(lines[1..], "\n") == MessageLine(m1);
    assert Join(lines, "\n") == MessageLine(m0) + "\n" + MessageLine(m1);
  }

  /** A call with an unknown keyword raises and records nothing; a call
      with only `text` records it last. */
  lemma SayArguments(messages: seq<ChatMessage>, role: string, kwargs: seq<Field>)
    ensures !OnlyText(kwargs) <==> Say(messages, role, kwargs).reply == Raised("TypeError")
    ensures OnlyText(kwargs) ==>
              var r := Say(messages, role, kwargs).state;
              |r| == |messages| + 1 && r[..|messages|] == messages &&
              r[|messages|] == ChatMessage(role, GetOr(kwargs, "text", Str("")))
    ensures !OnlyText(kwargs) ==> Say(messages, role, kwargs).state == messages
  {
  }

  /** Role names print in capitals. */
  lemma RoleNames()
    ensures UpperString("user") == "USER" && UpperString("assistant") == "ASSISTANT"
  {
    assert UpperString("user") == [UpperAscii('u'), UpperAscii('s'), UpperAscii('e'), UpperAscii('r')];
    assert UpperString("assistant") ==
           [UpperAscii('a'), UpperAscii('s'), UpperAscii('s'), UpperAscii('i'), UpperAscii('s'),
            UpperAscii('t'), UpperAscii('a'), UpperAscii('n'), UpperAscii('t')];
  }

  // ---------------------------------------------------------------------
  // AsyChatPromptWindow

  datatype AsyMessage = AsyMessage(role: string, content: Value, timestamp: string)

  /** The window's state: `chat_history`, `input_buffer` and
      `streaming_message`. */
  datatype AsyChat = AsyChat(history: seq<AsyMessage>, buffer: seq<AsyMessage>, active: bool, streamed: string)

  function AsyHandlers(): set<string>
  {
    {"chat_reply", "chat_start_streaming", "chat_end_streaming", "chat_check_buffer"}
  }

  function Idle(): AsyChat
  {
    AsyChat([], [], false, "")
  }

  /** User input waits in the buffer only while the model streams. */
  predicate BufferedOnlyWhileStreaming(c: AsyChat)
  {
    !c.active ==> c.buffer == []
  }

  /** `_handle_user_input`: buffered while the model streams, filed
      otherwise. */
  function UserInput(c: AsyChat, message: Value, now: string): AsyChat
  {
    var m := AsyMessage("user", message, now);
    if c.active then c.(buffer := c.buffer + [m]) else c.(history := c.history + [m])
  }

  /** `_chat_reply`: while streaming the text is appended to the streamed
      message (`+=` on a string raises for a non-string); otherwise it is
      filed at once. */
  function ChatReply(c: AsyChat, kwargs: seq<Field>, now: string): Handled<AsyChat>
  {
    var message := GetOr(kwargs, "message", Str(""));
    if c.active then
      if message.Str? then Handled(c.(streamed := c.streamed + message.s), StatusReply("ok", [Field("message", message)]))
      else Handled(c, Raised("TypeError"))
    else Handled(c.(history := c.history + [AsyMessage("assistant", message, now)]),
                 StatusReply("ok", [Field("message", message)]))
  }

  /** `_chat_start_streaming`: a new, empty streaming message (one already
      under way is dropped). */
  function StartStreaming(c: AsyChat): Handled<AsyChat>
  {
    Handled(c.(active := true, streamed := ""), StatusReply("streaming_started", []))
  }

  function EndedReply(count: int): Reply
  {
    StatusReply("streaming_ended", [Field("buffered_processed", Num(count))])
  }

  /** What ending the stream does to the state: file the streamed message,
      then the buffered input, in arrival order. */
  function Ended(c: AsyChat, now: string): AsyChat
  {
    if c.active then AsyChat(c.history + [AsyMessage("assistant", Str(c.streamed), now)] + c.buffer, [], false, "")
    else c
  }

  /** `_chat_end_streaming` as written: the count is the buffer's length
      read after the buffer has been drained. */
  function EndStreamingAsWritten(c: AsyChat, now: string): Handled<AsyChat>
  {
    var r := Ended(c, now);
    Handled(r, EndedReply(|r.buffer|))
  }

  /** `_chat_end_streaming` reporting how many buffered inputs it filed. */
  function EndStreaming(c: AsyChat, now: string): Handled<AsyChat>
  {
    Handled(Ended(c, now), EndedReply(if c.active then |c.buffer| else 0))
  }

  function Contents(ms: seq<AsyMessage>): (r: seq<Value>)
    ensures |r| == |ms| && forall i :: 0 <= i < |ms| ==> r[i] == ms[i].content
  {
    seq(|ms|, i requires 0 <= i < |ms| => ms[i].content)
  }

  /** `_chat_check_buffer`. */
  function CheckBuffer(c: AsyChat): Reply
  {
    StatusReply("ok", [Field("buffer_count", Num(|c.buffer|)), Field("messages", Arr(Contents(c.buffer)))])
  }

  function HistoryText(ms: seq<AsyMessage>): string
    decreases |ms|
  {
    if ms == [] then ""
    else HistoryText(ms[..|ms| - 1]) + "[" + UpperString(ms[|ms| - 1].role) + " " + ms[|ms| - 1].timestamp + "]:\n" +
         PyStr(ms[|ms| - 1].content) + "\n\n"
  }

  function BufferText(ms: seq<AsyMessage>): string
    decreases |ms|
  {
    if ms == [] then ""
    else BufferText(ms[..|ms| - 1]) + "[" + ms[|ms| - 1].timestamp + "] " + PyStr(ms[|ms| - 1].content) + "\n"
  }

  /** The state section: the last five messages, the message being
      streamed, and the buffered input. */
  function AsyState(c: AsyChat): string
  {
    "### CHAT WINDOW STATE ###\n" + HistoryText(PyFrom(c.history, -5)) +
    (if c.active then "[ASSISTANT streaming]:\n" + c.streamed + "▌\n\n" else "") +
    (if c.buffer != [] then "--- USER INPUT BUFFER ---\n" + BufferText(c.buffer) else "")
  }

  class AsyChatWindow {
    const name: string
    var history: seq<AsyMessage>
    var buffer: seq<AsyMessage>
    var active: bool
    var streamed: string

    function State(): AsyChat
      reads this
    {
      AsyChat(history, buffer, active, streamed)
    }

    constructor (windowName: string)
      ensures name == WindowName(Some(windowName)) && State() == Idle()
    {
      name := WindowName(Some(windowName));
      history, buffer, active, streamed := [], [], false, "";
    }

    method HandleUserInput(message: Value, now: string)
      modifies this
      ensures State() == UserInput(old(State()), message, now)
    {
      if active {
        buffer := buffer + [AsyMessage("user", message, now)];
      } else {
        history := history + [AsyMessage("user", message, now)];
      }
    }

    method Reply(kwargs: seq<Field>, now: string) returns (reply: Reply)
      modifies this
      ensures Handled(State(), reply) == ChatReply(old(State()), kwargs, now)
    {
      var message := GetOr(kwargs, "message", Str(""));
      if active {
        if !message.Str? {
          return Raised("TypeError");
        }
        streamed := streamed + message.s;
      } else {
        history := history + [AsyMessage("assistant", message, now)];
      }
      reply := StatusReply("ok", [Field("message", message)]);
    }

    method Start() returns (reply: Reply)
      modifies this
      ensures Handled(State(), reply) == StartStreaming(old(State()))
    {
      active, streamed := true, "";
      reply := StatusReply("streaming_started", []);
    }

    /** Drains the buffer one message at a time, counting them. */
    method End(now: string) returns (reply: Reply)
      modifies this
      ensures Handled(State(), reply) == EndStreaming(old(State()), now)
    {
      var drained := 0;
      if active {
        history := history + [AsyMessage("assistant", Str(streamed), now)];
        active, streamed := false, "";
        ghost var filed := history;
        ghost var pending := buffer;
        while buffer != []
          invariant drained + |buffer| == |pending|
          invariant buffer == pending[drained..]
          invariant history == filed + pending[..drained]
          invariant !active && streamed == ""
          decreases |buffer|
        {
          history := history + [buffer[0]];
          buffer := buffer[1..];
          drained := drained + 1;
          assert pending[..drained] == pending[..drained - 1] + [pending[drained - 1]];
        }
        assert pending[..drained] == pending;
      }
      reply := EndedReply(drained);
    }

    method Check() returns (reply: Reply)
      ensures reply == CheckBuffer(State())
    {
      var contents := [];
      for i := 0 to |buffer|
        invariant contents == Contents(buffer[..i])
      {
        contents := contents + [buffer[i].content];
      }
      assert buffer[..|buffer|] == buffer;
      reply := StatusReply("ok", [Field("buffer_count", Num(|buffer|)), Field("messages", Arr(contents))]);
    }
  }

  // Properties of the streaming chat

  /** Every handler keeps user input out of the buffer while nothing is
      streaming. */
  lemma AsyHandlersKeepBuffering(c: AsyChat, message: Value, kwargs: seq<Field>, now: string)
    requires BufferedOnlyWhileStreaming(c)
    ensures BufferedOnlyWhileStreaming(UserInput(c, message, now))
    ensures BufferedOnlyWhileStreaming(ChatReply(c, kwargs, now).state)
    ensures BufferedOnlyWhileStreaming(StartStreaming(c).state)
    ensures BufferedOnlyWhileStreaming(EndStreaming(c, now).state)
    ensures EndStreaming(c, now).state.buffer == []
  {
  }

  /** The count as written: always 0, whatever was filed. With two inputs
      buffered during a stream, ending it files both and reports 0. */
  lemma BufferedProcessedAlwaysZero(c: AsyChat, now: string)
    requires BufferedOnlyWhileStreaming(c)
    ensures EndStreamingAsWritten(c, now).reply == EndedReply(0)
    ensures EndStreamingAsWritten(c, now).state == EndStreaming(c, now).state
  {
  }

  lemma BufferedProcessedCounterexample(now: string, a: Value, b: Value)
    ensures var c := UserInput(UserInput(StartStreaming(Idle()).state, a, now), b, now);
            |c.buffer| == 2 && |Ended(c, now).history| == 3 &&
            EndStreamingAsWritten(c, now).reply == EndedReply(0) &&
            EndStreaming(c, now).reply == EndedReply(2)
  {
  }

  /** Ending a stream files the streamed message and then the buffered
      input in arrival order, and reports how many inputs were buffered. */
  lemma EndDelivers(c: AsyChat, now: string)
    requires c.active
    ensures var r := EndStreaming(c, now);
            r.state.history[..|c.history|] == c.history &&
            r.state.history[|c.history|] == AsyMessage("assistant", Str(c.streamed), now) &&
            r.state.history[|c.history| + 1..] == c.buffer &&
            r.state.buffer == [] && !r.state.active && r.state.streamed == "" &&
            r.reply == EndedReply(|c.buffer|)
  {
    var h := c.history + [AsyMessage("assistant", Str(c.streamed), now)] + c.buffer;
    assert h[..|c.history|] == c.history;
    assert h[|c.history| + 1..] == c.buffer;
  }

  /** Replies sent during one stream become a single message holding their
      concatenation; user input sent meanwhile follows it. */
  lemma StreamedRepliesJoin(c: AsyChat, a: string, b: string, user: Value, now: string, later: string)
    requires !c.active && BufferedOnlyWhileStreaming(c)
    ensures var s1 := StartStreaming(c).state;
            var s2 := ChatReply(s1, [Field("message", Str(a))], now).state;
            var s3 := UserInput(s2, user, now);
            var s4 := ChatReply(s3, [Field("message", Str(b))], now).state;
            var s5 := Ended(s4, later);
            s5.history == c.history + [AsyMessage("assistant", Str(a + b), later), AsyMessage("user", user, now)] &&
            s5.buffer == [] && !s5.active
  {
    assert "" + a == a;
  }

  /** A reply that is not text raises while streaming and leaves the
      stream as it was. */
  lemma NonTextReplyWhileStreaming(c: AsyChat, kwargs: seq<Field>, now: string)
    requires c.active && !GetOr(kwargs, "message", Str("")).Str?
    ensures ChatReply(c, kwargs, now) == Handled(c, Raised("TypeError"))
  {
  }

  /** Starting again while streaming drops what was streamed so far. */
  lemma RestartDropsStream(c: AsyChat)
    requires c.active
    ensures StartStreaming(c).state == c.(streamed := "")
  {
  }

  /** Buffered input is visible to the model only through the state's
      buffer section and `chat_check_buffer`, which lists it in order. */
  lemma CheckBufferLists(c: AsyChat)
    ensures CheckBuffer(c) == StatusReply("ok", [ Field("buffer_count", Num(|c.buffer|)),
                                                  Field("messages", Arr(Contents(c.buffer))) ])
    ensures Contents(c.buffer) == [] <==> c.buffer == []
    ensures c.buffer == [] ==> AsyState(c) == "### CHAT WINDOW STATE ###\n" + HistoryText(PyFrom(c.history, -5)) +
                                 (if c.active then "[ASSISTANT streaming]:\n" + c.streamed + "▌\n\n" else "")
  {
  }
}
