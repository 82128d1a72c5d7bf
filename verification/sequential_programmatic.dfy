/** The programmatic two-and-two chat: the loop itself picks the Spanish
    agent for the first two replies and the English agent for the next two,
    then stops. The context counts replies overall and per language. */
module SequentialProgrammatic {
  import opened Strings
  import opened StringLog

  /** What `get_response_phase` answers. */
  datatype Phase = Spanish | English | LimitReached
  {
    /** The string the script uses for the phase. */
    function Name(): string
    {
      match this
      case Spanish => "spanish"
      case English => "english"
      case LimitReached => "limit_reached"
    }
  }

  /** The schedule the chat's welcome message announces (two replies in
      Spanish, then two in English, then the end): the phase for the reply
      that follows `replies` completed replies. */
  function ScheduledPhase(replies: nat): Phase
  {
    if replies < 2 then Spanish else if replies < 4 then English else LimitReached
  }

  /** `user_input.lower() in ["salir", "exit", "quit"]`. */
  predicate IsQuit(userInput: string)
  {
    Lower(userInput) in ["salir", "exit", "quit"]
  }

  /** The exit words are recognised in any mix of upper and lower case, and
      only exactly those words: character by character, the line matches
      "salir", "exit" or "quit" up to case. */
  lemma QuitMatchesIgnoringCase(userInput: string)
    ensures IsQuit(userInput) <==> || MatchesIgnoringCase(userInput, "salir")
                                   || MatchesIgnoringCase(userInput, "exit")
                                   || MatchesIgnoringCase(userInput, "quit")
  {
    LowerEqualsIff(userInput, "salir");
    LowerEqualsIff(userInput, "exit");
    LowerEqualsIff(userInput, "quit");
  }

  class ChatMemoryContext {
    var history: seq<string>
    var responseCount: nat
    var spanishResponses: nat
    var englishResponses: nat

    /** What holds between turns: every reply is counted once overall and
        once in its language, at most two per language, and English replies
        only once the Spanish quota is used up. */
    ghost predicate Valid()
      reads this
    {
      && responseCount == spanishResponses + englishResponses
      && spanishResponses <= 2 && englishResponses <= 2
      && (englishResponses > 0 ==> spanishResponses == 2)
    }

    constructor ()
      ensures Valid()
      ensures history == [] && responseCount == 0
      ensures spanishResponses == 0 && englishResponses == 0
    {
      history := [];
      responseCount := 0;
      spanishResponses := 0;
      englishResponses := 0;
    }

    /** `add_message`: appends one entry; an "assistant" message, and only
        that, counts as a reply. */
    method AddMessage(role: string, content: string)
      modifies this
      ensures history == old(history) + [Entry(role, content)]
      ensures responseCount == old(responseCount) + (if role == "assistant" then 1 else 0)
      ensures spanishResponses == old(spanishResponses) && englishResponses == old(englishResponses)
    {
      history := history + [Entry(role, content)];
      if role == "assistant" {
        responseCount := responseCount + 1;
      }
    }

    /** `get_history`: the entries joined by newlines. */
    function GetHistory(): (r: string)
      reads this
      ensures history == [] ==> r == ""
      ensures forall k :: 0 <= k < |history| ==> Contains(r, history[k])
      ensures history != [] && NoNewlines(history) ==> SplitLines(r) == history
    {
      JoinLinesMeaning(history);
      Join(history, "\n")
    }

    /** `can_respond`: between turns it agrees with the phase, so it holds
        exactly while the limit is not reached. */
    function CanRespond(): (r: bool)
      reads this
      ensures Valid() ==> (r <==> GetResponsePhase() != LimitReached)
    {
      responseCount < 4
    }

    /** `get_response_phase`: between turns the phase depends only on how
        many replies have been given, as the schedule says. */
    function GetResponsePhase(): (p: Phase)
      reads this
      ensures Valid() ==> p == ScheduledPhase(responseCount)
    {
      if spanishResponses < 2 then Spanish
      else if englishResponses < 2 then English
      else LimitReached
    }

    /** `increment_language_count`: "spanish" counts a Spanish reply, any
        other string an English one; nothing else changes. */
    method IncrementLanguageCount(language: string)
      modifies this
      ensures language == "spanish" ==>
                spanishResponses == old(spanishResponses) + 1 && englishResponses == old(englishResponses)
      ensures language != "spanish" ==>
                spanishResponses == old(spanishResponses) && englishResponses == old(englishResponses) + 1
      ensures history == old(history) && responseCount == old(responseCount)
    {
      if language == "spanish" {
        spanishResponses := spanishResponses + 1;
      } else {
        englishResponses := englishResponses + 1;
      }
    }
  }

  /** One pass of the chat loop after the exit check: log the user's line,
      ask for the phase, and either stop at the limit or log the selected
      agent's reply (`reply`, the runtime's final output) and count it in
      the phase's language. */
  method Turn(context: ChatMemoryContext, userInput: string, reply: string) returns (phase: Phase)
    requires context.Valid()
    modifies context
    ensures context.Valid()
    ensures phase == ScheduledPhase(old(context.responseCount))
    ensures phase == LimitReached ==>
              && context.history == old(context.history) + [Entry("user", userInput)]
              && context.responseCount == old(context.responseCount)
    ensures phase != LimitReached ==>
              && context.history == old(context.history) + [Entry("user", userInput), Entry("assistant", reply)]
              && context.responseCount == old(context.responseCount) + 1
  {
    context.AddMessage("user", userInput);
    phase := context.GetResponsePhase();
    if phase == LimitReached {
      return;
    }
    context.AddMessage("assistant", reply);
    context.IncrementLanguageCount(phase.Name());
  }

  /** The chat loop from a fresh context: exit on "salir", "exit" or "quit"
      (in any case) or when the input runs out; otherwise take a turn, and
      stop when the turn reports the limit. The phases of the replies given
      are Spanish, Spanish, English, English, and a limit stop comes after
      exactly four replies. */
  method Chat(inputs: seq<string>, replies: seq<string>)
    returns (phases: seq<Phase>, limitReached: bool, history: seq<string>)
    requires |replies| == |inputs|
    ensures |phases| <= 4 && |phases| <= |inputs|
    ensures forall k :: 0 <= k < |phases| ==> phases[k] == ScheduledPhase(k)
    ensures forall k :: 0 <= k < |phases| ==> !IsQuit(inputs[k])
    ensures limitReached ==> |phases| == 4 && |phases| < |inputs|
    ensures limitReached ==> !IsQuit(inputs[|phases|])
    ensures !limitReached && |phases| < |inputs| ==> IsQuit(inputs[|phases|])
    ensures var n := |phases|;
            history == Transcript("user", inputs[..n], "assistant", replies[..n])
                       + (if limitReached then [Entry("user", inputs[n])] else [])
  {
    var context := new ChatMemoryContext();
    phases := [];
    limitReached := false;
    while |phases| < |inputs|
      invariant |phases| <= |inputs|
      invariant fresh(context) && context.Valid()
      invariant context.responseCount == |phases|
      invariant forall k :: 0 <= k < |phases| ==> phases[k] == ScheduledPhase(k)
      invariant forall k :: 0 <= k < |phases| ==> !IsQuit(inputs[k])
      invariant context.history == Transcript("user", inputs[..|phases|], "assistant", replies[..|phases|])
    {
      var n := |phases|;
      var userInput := inputs[n];
      if IsQuit(userInput) {
        break;
      }
      var phase := Turn(context, userInput, replies[n]);
      if phase == LimitReached {
        limitReached := true;
        break;
      }
      assert forall k :: 0 <= k < n + 1 ==> !IsQuit(inputs[k]);
      TranscriptStep("user", inputs, "assistant", replies, n);
      phases := phases + [phase];
    }
    history := context.history;
  }
}
