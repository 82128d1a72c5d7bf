/** The unified-memory chat scripts: one shared string log, a triage agent
    whose reply is an input here, and a handoff filter that passes
    everything through. */
module UnifiedMemory {
  import opened Strings
  import opened StringLog

  /** The exit check: the lower-cased line is "salir". */
  predicate IsQuit(userInput: string)
  {
    Lower(userInput) == "salir"
  }

  /** "salir" is recognised in any mix of upper and lower case, and only that
      word: character by character, the line matches it up to case. */
  lemma QuitMatchesIgnoringCase(userInput: string)
    ensures IsQuit(userInput) <==> MatchesIgnoringCase(userInput, "salir")
  {
    LowerEqualsIff(userInput, "salir");
  }

  /** The chat loop: until the user types "salir" (in any case) or the input
      runs out, log the user's line as "Usuario" and the triage run's final
      output as "Asistente". `replies[k]` is what the agent runtime returns
      for `inputs[k]`. */
  method Chat(inputs: seq<string>, replies: seq<string>) returns (turns: nat, history: seq<string>)
    requires |replies| == |inputs|
    ensures turns <= |inputs|
    ensures forall k :: 0 <= k < turns ==> !IsQuit(inputs[k])
    ensures turns < |inputs| ==> IsQuit(inputs[turns])
    ensures history == Transcript("Usuario", inputs[..turns], "Asistente", replies[..turns])
  {
    var context := new ChatMemoryContext();
    turns := 0;
    while turns < |inputs|
      invariant turns <= |inputs|
      invariant forall k :: 0 <= k < turns ==> !IsQuit(inputs[k])
      invariant context.history == Transcript("Usuario", inputs[..turns], "Asistente", replies[..turns])
      invariant fresh(context)
    {
      var userInput := inputs[turns];
      if IsQuit(userInput) {
        break;
      }
      assert forall k :: 0 <= k < turns + 1 ==> !IsQuit(inputs[k]);
      context.AddMessage("Usuario", userInput);
      var result := replies[turns];
      context.AddMessage("Asistente", result);
      TranscriptStep("Usuario", inputs, "Asistente", replies, turns);
      turns := turns + 1;
    }
    history := context.history;
  }
}
