/** The handoff two-and-two chat: a triage agent picks the language, while
    the context itself decides how each logged reply is counted, two as
    Spanish and the rest as English, and the loop stops once four replies
    are counted. */
module SequentialHandoff {
  import opened Strings
  import opened StringLog

  /** `user_input.lower() in ["salir", "exit", "quit"]`. */
  predicate IsQuit(userInput: string)
  {
    Lower(userInput) in ["salir", "exit", "quit"]
  }

  /** The exit words are recognised in any mix of upper and lower case, and
      only exactly those words: character by character, the line matches
      "salir", "exit" or "quit" up to case. */
  lemma QuitMatchesIgnoringCase(userInput: string)
    ensures IsQuit(userInput) <==> || MatchesIgnoringCase(userInput, "salir")
                                   || MatchesIgnoringCase(userInput, "exit")
                                   || MatchesIgnoringCase(userInput, "quit")
  {
    LowerEqualsIff(userInput, "salir");
    LowerEqualsIff(userInput, "exit");
    LowerEqualsIff(userInput, "quit");
  }

  function Min(a: nat, b: nat): nat
  {
    if a < b then a else b
  }

  class ChatMemoryContext {
    var history: seq<string>
    var spanishResponses: nat
    var englishResponses: nat

    /** The counters fill the Spanish quota first: at most two Spanish
        replies, and English replies only after both of them. */
    ghost predicate Valid()
      reads this
    {
      spanishResponses <= 2 && (englishResponses > 0 ==> spanishResponses == 2)
    }

    constructor ()
      ensures Valid()
      ensures history == [] && spanishResponses == 0 && englishResponses == 0
    {
      history := [];
      spanishResponses := 0;
      englishResponses := 0;
    }

    /** `add_message`: appends exactly one entry; an "assistant" message
        counts as Spanish while fewer than two are, otherwise as English,
        and any other role leaves both counters alone. */
    method AddMessage(role: string, content: string)
      requires Valid()
      modifies this
      ensures Valid()
      ensures history == old(history) + [Entry(role, content)]
      ensures role != "assistant" ==>
                spanishResponses == old(spanishResponses) && englishResponses == old(englishResponses)
      ensures role == "assistant" && old(spanishResponses) < 2 ==>
                spanishResponses == old(spanishResponses) + 1 && englishResponses == old(englishResponses)
      ensures role == "assistant" && old(spanishResponses) >= 2 ==>
                spanishResponses == old(spanishResponses) && englishResponses == old(englishResponses) + 1
    {
      history := history + [Entry(role, content)];
      if role == "assistant" {
        if spanishResponses < 2 {
          spanishResponses := spanishResponses + 1;
        } else {
          englishResponses := englishResponses + 1;
        }
      }
    }

    /** `get_history`: the entries joined by newlines. */
    function GetHistory(): (r: string)
      reads this
      ensures history == [] ==> r == ""
      ensures forall k :: 0 <= k < |history| ==> Contains(r, history[k])
      ensures history != [] && NoNewlines(history) ==> SplitLines(r) == history
    {
      JoinLinesMeaning(history);
      Join(history, "\n")
    }

    /** `can_respond`: fewer than four replies counted; with the counters
        filled Spanish first, that is exactly "the English quota is not used
        up". */
    function CanRespond(): (r: bool)
      reads this
      ensures Valid() ==> (r <==> englishResponses < 2)
    {
      spanishResponses + englishResponses < 4
    }
  }

  /** One pass of the chat loop after the exit check: log the user's line,
      and unless the quota is used up, log the triage run's final output
      (`reply`) as an "assistant" message. */
  method Turn(context: ChatMemoryContext, userInput: string, reply: string) returns (responded: bool)
    requires context.Valid()
    modifies context
    ensures context.Valid()
    ensures responded <==> old(context.englishResponses) < 2
    ensures !responded ==>
              && context.history == old(context.history) + [Entry("user", userInput)]
              && context.spanishResponses == old(context.spanishResponses)
              && context.englishResponses == old(context.englishResponses)
    ensures responded ==>
              && context.history == old(context.history) + [Entry("user", userInput), Entry("assistant", reply)]
              && context.spanishResponses + context.englishResponses
                 == old(context.spanishResponses + context.englishResponses) + 1
  {
    context.AddMessage("user", userInput);
    responded := context.CanRespond();
    if !responded {
      return;
    }
    context.AddMessage("assistant", reply);
  }

  /** The chat loop from a fresh context: exit on "salir", "exit" or "quit"
      (in any case) or when the input runs out; otherwise log the user's
      line, stop if no reply may be given, and else log the triage run's
      final output (`replies[k]`) as an "assistant" message. At most four
      replies are logged, the counters after `answered` replies are
      min(answered, 2) Spanish and the rest English, and a quota stop comes
      after exactly four replies, two of each. */
  method Chat(inputs: seq<string>, replies: seq<string>)
    returns (answered: nat, limitReached: bool, spanish: nat, english: nat, history: seq<string>)
    requires |replies| == |inputs|
    ensures answered <= 4 && answered <= |inputs|
    ensures spanish == Min(answered, 2) && english == answered - spanish
    ensures forall k :: 0 <= k < answered ==> !IsQuit(inputs[k])
    ensures limitReached ==> answered == 4 && spanish == 2 && english == 2
    ensures limitReached ==> answered < |inputs| && !IsQuit(inputs[answered])
    ensures !limitReached && answered < |inputs| ==> IsQuit(inputs[answered])
    ensures history == Transcript("user", inputs[..answered], "assistant", replies[..answered])
                       + (if limitReached then [Entry("user", inputs[answered])] else [])
  {
    var context := new ChatMemoryContext();
    answered := 0;
    limitReached := false;
    while answered < |inputs|
      invariant answered <= |inputs| && answered <= 4
      invariant fresh(context) && context.Valid()
      invariant context.spanishResponses == Min(answered, 2)
      invariant context.englishResponses == answered - Min(answered, 2)
      invariant forall k :: 0 <= k < answered ==> !IsQuit(inputs[k])
      invariant context.history == Transcript("user", inputs[..answered], "assistant", replies[..answered])
    {
      var userInput := inputs[answered];
      if IsQuit(userInput) {
        break;
      }
      var responded := Turn(context, userInput, replies[answered]);
      if !responded {
        limitReached := true;
        break;
      }
      assert forall k :: 0 <= k < answered + 1 ==> !IsQuit(inputs[k]);
      TranscriptStep("user", inputs, "assistant", replies, answered);
      answered := answered + 1;
    }
    spanish := context.spanishResponses;
    english := context.englishResponses;
    history := context.history;
  }
}
