/** The first shared-memory scripts: the log holds `{"role", "content"}`
    records, is rendered as text on demand, and the handoff filter keeps the
    input history while dropping the other items. */
module RecordMemory {
  import opened Strings

  /** One `{"role": role, "content": content}` record. */
  datatype Message = Message(role: string, content: string)

  /** `f"{msg['role']}: {msg['content']}"`. */
  function Render(msg: Message): string
  {
    Entry(msg.role, msg.content)
  }

  /** Every record rendered, in order. */
  function RenderAll(msgs: seq<Message>): (r: seq<string>)
    ensures |r| == |msgs|
    ensures forall k :: 0 <= k < |msgs| ==> r[k] == Render(msgs[k])
  {
    if msgs == [] then [] else RenderAll(msgs[..|msgs| - 1]) + [Render(msgs[|msgs| - 1])]
  }

  /** Neither part of any record holds a newline. */
  predicate SingleLineMessages(msgs: seq<Message>)
  {
    forall k :: 0 <= k < |msgs| ==> '\n' !in msgs[k].role && '\n' !in msgs[k].content
  }

  /** Single-line records render to single-line entries. */
  lemma RenderAllNoNewlines(msgs: seq<Message>)
    requires SingleLineMessages(msgs)
    ensures NoNewlines(RenderAll(msgs))
  {
    forall k | 0 <= k < |msgs|
      ensures '\n' !in RenderAll(msgs)[k]
    {
      EntryNewlines(msgs[k].role, msgs[k].content);
    }
  }

  class ChatMemoryContext {
    var conversationHistory: seq<Message>

    constructor ()
      ensures conversationHistory == []
    {
      conversationHistory := [];
    }

    /** `add_message`: appends exactly one record and keeps the earlier ones. */
    method AddMessage(role: string, content: string)
      modifies this
      ensures conversationHistory == old(conversationHistory) + [Message(role, content)]
    {
      conversationHistory := conversationHistory + [Message(role, content)];
    }

    /** `get_history_as_string`: renders the records in order, one line
        each, joined by newlines; it changes nothing. An empty log renders
        as the empty string, and single-line records can be read back line
        by line. */
    method GetHistoryAsString() returns (r: string)
      ensures r == Join(RenderAll(conversationHistory), "\n")
      ensures conversationHistory == [] ==> r == ""
      ensures conversationHistory != [] && SingleLineMessages(conversationHistory) ==>
                SplitLines(r) == RenderAll(conversationHistory)
    {
      var history: seq<string> := [];
      var i := 0;
      while i < |conversationHistory|
        invariant 0 <= i <= |conversationHistory|
        invariant history == RenderAll(conversationHistory[..i])
      {
        assert conversationHistory[..i + 1][..i] == conversationHistory[..i];
        history := history + [Render(conversationHistory[i])];
        i := i + 1;
      }
      assert conversationHistory[..i] == conversationHistory;
      JoinLinesMeaning(history);
      if SingleLineMessages(conversationHistory) {
        RenderAllNoNewlines(conversationHistory);
      }
      r := Join(history, "\n");
    }
  }

  /** The records a chat loop writes for a run of turns: a "user" record,
      then an "assistant" record, per turn. */
  function Exchanges(inputs: seq<string>, replies: seq<string>): (r: seq<Message>)
    requires |inputs| == |replies|
    ensures |r| == 2 * |inputs|
    ensures forall k :: 0 <= k < |inputs| ==> r[2 * k] == Message("user", inputs[k])
    ensures forall k :: 0 <= k < |replies| ==> r[2 * k + 1] == Message("assistant", replies[k])
  {
    if inputs == [] then []
    else
      var n := |inputs| - 1;
      Exchanges(inputs[..n], replies[..n]) + [Message("user", inputs[n]), Message("assistant", replies[n])]
  }

  /** The exit check: the lower-cased line is "exit". */
  predicate IsQuit(userInput: string)
  {
    Lower(userInput) == "exit"
  }

  /** "exit" is recognised in any mix of upper and lower case, and only that
      word: character by character, the line matches it up to case. */
  lemma QuitMatchesIgnoringCase(userInput: string)
    ensures IsQuit(userInput) <==> MatchesIgnoringCase(userInput, "exit")
  {
    LowerEqualsIff(userInput, "exit");
  }

  /** The chat loop: until the user types "exit" (in any case) or the input
      runs out, record the user's line, run the triage agent (its final
      output is `replies[k]`), and record the reply. */
  method Chat(inputs: seq<string>, replies: seq<string>) returns (turns: nat, log: seq<Message>)
    requires |replies| == |inputs|
    ensures turns <= |inputs|
    ensures forall k :: 0 <= k < turns ==> !IsQuit(inputs[k])
    ensures turns < |inputs| ==> IsQuit(inputs[turns])
    ensures log == Exchanges(inputs[..turns], replies[..turns])
  {
    var context := new ChatMemoryContext();
    turns := 0;
    while turns < |inputs|
      invariant turns <= |inputs|
      invariant fresh(context)
      invariant forall k :: 0 <= k < turns ==> !IsQuit(inputs[k])
      invariant context.conversationHistory == Exchanges(inputs[..turns], replies[..turns])
    {
      var userInput := inputs[turns];
      if IsQuit(userInput) {
        break;
      }
      assert forall k :: 0 <= k < turns + 1 ==> !IsQuit(inputs[k]);
      context.AddMessage("user", userInput);
      var result := replies[turns];
      context.AddMessage("assistant", result);
      assert inputs[..turns + 1][..turns] == inputs[..turns];
      assert replies[..turns + 1][..turns] == replies[..turns];
      turns := turns + 1;
    }
    log := context.conversationHistory;
  }
}
