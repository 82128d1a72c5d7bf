/** The programmatic language-routing chat: a pattern heuristic guesses the
    language of each user line, a language-detector agent is consulted when
    the guess changes on a long enough line, and the loop runs the Spanish
    or the English agent accordingly. */
module LanguageRouting {
  import opened Strings
  import opened StringLog

  datatype Option<T> = None | Some(value: T)

  datatype Language = Spanish | English
  {
    /** The string the script uses for the language. */
    function Name(): string
    {
      match this
      case Spanish => "spanish"
      case English => "english"
    }
  }

  /** Spanish letters, punctuation and words the heuristic looks for. */
  const SpanishPatterns: seq<string> :=
    ["ñ", "á", "é", "í", "ó", "ú", "ü", "¿", "¡",
     "como", "qué", "cómo", "hola", "buenos", "gracias",
     "por favor", "adios", "día"]

  /** English words the heuristic looks for. */
  const EnglishPatterns: seq<string> :=
    ["hello", "the", "hi", "thanks", "what", "where",
     "when", "who", "why", "how", "please", "good"]

  /** `sum(1 for pattern in patterns if pattern in text)`. */
  function CountMatches(patterns: seq<string>, text: string): (n: nat)
    ensures n <= |patterns|
  {
    if patterns == [] then 0
    else
      var last := |patterns| - 1;
      CountMatches(patterns[..last], text) + (if Contains(text, patterns[last]) then 1 else 0)
  }

  /** The positions of the patterns that occur in the text. */
  ghost function MatchedPatterns(patterns: seq<string>, text: string): set<int>
  {
    set i | 0 <= i < |patterns| && Contains(text, patterns[i])
  }

  /** The count is the number of distinct patterns found: each one adds one
      however often it occurs. */
  lemma {:induction false} CountMatchesIsMatchedPatterns(patterns: seq<string>, text: string)
    ensures CountMatches(patterns, text) == |MatchedPatterns(patterns, text)|
  {
    if patterns == [] {
      assert MatchedPatterns(patterns, text) == {};
    } else {
      var last := |patterns| - 1;
      var init := patterns[..last];
      CountMatchesIsMatchedPatterns(init, text);
      var before := MatchedPatterns(init, text);
      var after := MatchedPatterns(patterns, text);
      if Contains(text, patterns[last]) {
        assert after == before + {last};
      } else {
        assert after == before;
      }
    }
  }

  /** `detect_language`: lower-case the text and answer Spanish exactly
      when more distinct Spanish than English patterns occur in it, so ties,
      no match at all included, go to English. */
  function DetectLanguage(text: string): (r: Language)
    ensures r == Spanish <==>
              |MatchedPatterns(SpanishPatterns, Lower(text))| > |MatchedPatterns(EnglishPatterns, Lower(text))|
  {
    var lowered := Lower(text);
    CountMatchesIsMatchedPatterns(SpanishPatterns, lowered);
    CountMatchesIsMatchedPatterns(EnglishPatterns, lowered);
    if CountMatches(SpanishPatterns, lowered) > CountMatches(EnglishPatterns, lowered) then Spanish else English
  }

  /** At most 18 Spanish and 12 English patterns can be found, and a line
      in which some Spanish pattern but no English pattern occurs is
      Spanish. */
  lemma DetectLanguageBounds(text: string)
    ensures var spanish := MatchedPatterns(SpanishPatterns, Lower(text));
            var english := MatchedPatterns(EnglishPatterns, Lower(text));
            && |spanish| <= 18 && |english| <= 12
            && (spanish != {} && english == {} ==> DetectLanguage(text) == Spanish)
  {
    CountMatchesIsMatchedPatterns(SpanishPatterns, Lower(text));
    CountMatchesIsMatchedPatterns(EnglishPatterns, Lower(text));
  }

  /** A text and its lower-case form are classified alike. */
  lemma DetectLanguageIgnoresCase(text: string)
    ensures DetectLanguage(Lower(text)) == DetectLanguage(text)
  {
    LowerIdempotent(text);
  }

  /** The detector agent's final output, `strip().lower()`-ed, and accepted
      only when it is exactly "spanish" or "english". */
  function ParseDetectorOutput(output: string): (r: Option<Language>)
    ensures r.Some? <==> Lower(Strip(output)) in ["spanish", "english"]
    ensures r.Some? ==> r.value.Name() == Lower(Strip(output))
  {
    var detected := Lower(Strip(output));
    if detected == "spanish" then Some(Spanish)
    else if detected == "english" then Some(English)
    else None
  }

  /** Whether the turn consults the detector agent: on the first turn or when
      the heuristic disagrees with the last turn's language, and only for
      lines of more than three whitespace-separated words. */
  predicate ShouldConsultDetector(userInput: string, lastLanguage: Option<Language>, heuristic: Language): (r: bool)
    ensures r <==> lastLanguage != Some(heuristic) && |set i | 0 <= i < |userInput| && WordEnd(userInput, i)| > 3
  {
    WordCountIsWordEnds(userInput);
    (lastLanguage.None? || lastLanguage.value != heuristic) && WordCount(userInput) > 3
  }

  /** A turn's language choice, and whether the detector agent was run. */
  datatype Selection = Selection(language: Language, consulted: bool)

  /** The selection rule of one turn. `detectorOutput` is the detector run's
      final output, or None when that run raises; it is only looked at when
      the detector is consulted. The heuristic's answer stands unless the
      detector was consulted and named a language. */
  function SelectLanguage(userInput: string, lastLanguage: Option<Language>, detectorOutput: Option<string>)
    : (s: Selection)
    ensures s.consulted <==> ShouldConsultDetector(userInput, lastLanguage, DetectLanguage(userInput))
    ensures !s.consulted ==> s.language == DetectLanguage(userInput)
    ensures s.consulted && detectorOutput.Some? && ParseDetectorOutput(detectorOutput.value).Some? ==>
              s.language == ParseDetectorOutput(detectorOutput.value).value
    ensures s.language != DetectLanguage(userInput) ==>
              s.consulted && detectorOutput.Some? && ParseDetectorOutput(detectorOutput.value) == Some(s.language)
  {
    var language := DetectLanguage(userInput);
    if ShouldConsultDetector(userInput, lastLanguage, language) then
      var override :=
        if detectorOutput.Some? then ParseDetectorOutput(detectorOutput.value) else None;
      Selection(if override.Some? then override.value else language, true)
    else
      Selection(language, false)
  }

  /** A line in the language of the previous turn never reaches the
      detector agent and keeps that language. */
  lemma SameLanguageSkipsDetector(userInput: string, last: Language, detectorOutput: Option<string>)
    requires DetectLanguage(userInput) == last
    ensures SelectLanguage(userInput, Some(last), detectorOutput) == Selection(last, false)
  {
  }

  /** The two agents the loop chooses between. */
  datatype Assistant = SpanishAssistant | EnglishAssistant

  /** `spanish_agent if language == "spanish" else english_agent`. */
  function SelectedAgent(language: Language): (a: Assistant)
    ensures a == SpanishAssistant <==> language == Spanish
  {
    if language == Spanish then SpanishAssistant else EnglishAssistant
  }

  /** `user_input.lower() == "salir"`. */
  predicate IsQuit(userInput: string)
  {
    Lower(userInput) == "salir"
  }

  /** "salir" is recognised in any mix of upper and lower case, and only that
      word: character by character, the line matches it up to case. */
  lemma QuitMatchesIgnoringCase(userInput: string)
    ensures IsQuit(userInput) <==> MatchesIgnoringCase(userInput, "salir")
  {
    LowerEqualsIff(userInput, "salir");
  }

  /** The language remembered before turn k: none on the first turn, else
      the language turn k - 1 ended with. */
  function Previous(languages: seq<Language>, k: nat): Option<Language>
    requires k <= |languages|
  {
    if k == 0 then None else Some(languages[k - 1])
  }

  /** The language the selection rule gives one turn. */
  function RoutedLanguage(userInput: string, lastLanguage: Option<Language>, detectorOutput: Option<string>): Language
  {
    SelectLanguage(userInput, lastLanguage, detectorOutput).language
  }

  /** The languages a run of turns is routed to by a per-turn rule, each
      turn remembering the language the turn before it was routed to. */
  ghost function Routing(rule: (string, Option<Language>, Option<string>) -> Language,
                         inputs: seq<string>, detectorOutputs: seq<Option<string>>): (languages: seq<Language>)
    requires |detectorOutputs| == |inputs|
    ensures |languages| == |inputs|
  {
    if inputs == [] then []
    else
      var n := |inputs| - 1;
      var earlier := Routing(rule, inputs[..n], detectorOutputs[..n]);
      earlier + [rule(inputs[n], Previous(earlier, n), detectorOutputs[n])]
  }

  /** Routing the first n turns applies the rule to each of them, with the
      language of the turn before remembered. */
  lemma {:induction false} RoutingTurns(rule: (string, Option<Language>, Option<string>) -> Language,
                                        inputs: seq<string>, detectorOutputs: seq<Option<string>>, n: nat)
    requires |detectorOutputs| == |inputs| && n <= |inputs|
    ensures var languages := Routing(rule, inputs[..n], detectorOutputs[..n]);
            forall k :: 0 <= k < n ==> languages[k] == rule(inputs[k], Previous(languages, k), detectorOutputs[k])
  {
    if n > 0 {
      var m := n - 1;
      RoutingTurns(rule, inputs, detectorOutputs, m);
      assert inputs[..n][..m] == inputs[..m];
      assert detectorOutputs[..n][..m] == detectorOutputs[..m];
      var earlier := Routing(rule, inputs[..m], detectorOutputs[..m]);
      var languages := Routing(rule, inputs[..n], detectorOutputs[..n]);
      assert languages == earlier + [rule(inputs[m], Previous(earlier, m), detectorOutputs[m])];
      forall k | 0 <= k < n
        ensures languages[k] == rule(inputs[k], Previous(languages, k), detectorOutputs[k])
      {
        if k < m {
          assert languages[k] == earlier[k];
        }
        assert Previous(languages, k) == Previous(earlier, k);
      }
    }
  }

  /** The chat loop from a fresh context: until "salir" (in any case) or the
      end of the input, log the user's line, choose the turn's language with
      the last turn's language remembered, run the agent for it (its final
      output is `replies[k]`) and log the reply. */
  method Chat(inputs: seq<string>, detectorOutputs: seq<Option<string>>, replies: seq<string>)
    returns (languages: seq<Language>, history: seq<string>)
    requires |detectorOutputs| == |inputs| && |replies| == |inputs|
    ensures |languages| <= |inputs|
    ensures forall k :: 0 <= k < |languages| ==> !IsQuit(inputs[k])
    ensures |languages| < |inputs| ==> IsQuit(inputs[|languages|])
    ensures forall k :: 0 <= k < |languages| ==>
              languages[k] == SelectLanguage(inputs[k], Previous(languages, k), detectorOutputs[k]).language
    ensures history == Transcript("Usuario", inputs[..|languages|], "Asistente", replies[..|languages|])
  {
    var context := new ChatMemoryContext();
    var lastLanguage: Option<Language> := None;
    languages := [];
    var turns := 0;
    while turns < |inputs|
      invariant turns <= |inputs|
      invariant fresh(context)
      invariant languages == Routing(RoutedLanguage, inputs[..turns], detectorOutputs[..turns])
      invariant lastLanguage == Previous(languages, turns)
      invariant forall k :: 0 <= k < turns ==> !IsQuit(inputs[k])
      invariant context.history == Transcript("Usuario", inputs[..turns], "Asistente", replies[..turns])
    {
      var userInput := inputs[turns];
      if IsQuit(userInput) {
        break;
      }
      assert forall k :: 0 <= k < turns + 1 ==> !IsQuit(inputs[k]);
      var language, _ := Turn(context, userInput, lastLanguage, detectorOutputs[turns], replies[turns]);
      lastLanguage := Some(language);
      TranscriptStep("Usuario", inputs, "Asistente", replies, turns);
      assert inputs[..turns + 1][..turns] == inputs[..turns];
      assert detectorOutputs[..turns + 1][..turns] == detectorOutputs[..turns];
      languages := languages + [language];
      turns := turns + 1;
    }
    RoutingTurns(RoutedLanguage, inputs, detectorOutputs, turns);
    history := context.history;
  }

  /** One pass of the chat loop after the exit check: the turn's language
      and the agent run for it, which is the Spanish one exactly when the
      language is Spanish. */
  method Turn(context: ChatMemoryContext, userInput: string, lastLanguage: Option<Language>,
              detectorOutput: Option<string>, reply: string)
    returns (language: Language, agent: Assistant)
    modifies context
    ensures language == SelectLanguage(userInput, lastLanguage, detectorOutput).language
    ensures agent == SpanishAssistant <==> language == Spanish
    ensures context.history == old(context.history) + [Entry("Usuario", userInput), Entry("Asistente", reply)]
  {
    context.AddMessage("Usuario", userInput);
    language := DetectLanguage(userInput);
    if ShouldConsultDetector(userInput, lastLanguage, language) {
      if detectorOutput.Some? {
        var detected := ParseDetectorOutput(detectorOutput.value);
        if detected.Some? {
          language := detected.value;
        }
      }
    }
    agent := SelectedAgent(language);
    context.AddMessage("Asistente", reply);
  }
}
