/** The math tutor: an orchestrator agent hands the user to a diagnostic
    agent, which asks two fixed questions and hands back by replying with a
    sentinel. Everything here is string matching on the shared log and on
    the agents' replies. */
module MathTutor {
  import opened Strings

  /** What the diagnostic agent replies when it hands control back. */
  const Sentinel := "[TRANSFERENCIA_CONTROL]"
  /** The diagnostic agent's two questions. */
  const TopicQuestion := "¿En qué tema ocupas ayuda hoy?"
  const LevelQuestion := "¿Qué sabes sobre el tema?"
  /** What the user sees instead of the sentinel (written in pieces so that
      facts about its characters can be checked piece by piece). */
  const HandBack := "He completado el " + "diagnóstico inicial. " + "Ahora mi colega "
                    + "te ayudará con " + "la explicación."
  /** How a user's entry in the log begins. */
  const UserPrefix := "Usuario:"

  /** The three knowledge levels the tutor distinguishes. */
  const Levels := {"principiante", "intermedio", "avanzado"}

  class ChatMemoryContext {
    var history: seq<string>
    var topic: string
    var knowledgeLevel: string

    constructor ()
      ensures history == [] && topic == "" && knowledgeLevel == ""
    {
      history := [];
      topic := "";
      knowledgeLevel := "";
    }

    /** `add_message`: appends exactly one entry; nothing else changes. */
    method AddMessage(role: string, content: string)
      modifies this
      ensures history == old(history) + [Entry(role, content)]
      ensures topic == old(topic) && knowledgeLevel == old(knowledgeLevel)
    {
      history := history + [Entry(role, content)];
    }

    /** `get_history`: the entries joined by newlines. */
    function GetHistory(): (r: string)
      reads this
      ensures history == [] ==> r == ""
      ensures forall k :: 0 <= k < |history| ==> Contains(r, history[k])
      ensures history != [] && NoNewlines(history) ==> SplitLines(r) == history
    {
      JoinLinesMeaning(history);
      Join(history, "\n")
    }

    /** `set_topic`: overwrites the topic and nothing else. */
    method SetTopic(newTopic: string)
      modifies this
      ensures topic == newTopic
      ensures history == old(history) && knowledgeLevel == old(knowledgeLevel)
    {
      topic := newTopic;
    }

    /** `set_knowledge_level`: overwrites the level and nothing else. */
    method SetKnowledgeLevel(level: string)
      modifies this
      ensures knowledgeLevel == level
      ensures history == old(history) && topic == old(topic)
    {
      knowledgeLevel := level;
    }
  }

  /** The orchestrator's decision: the diagnostic is over once the sentinel
      occurs anywhere in the joined log. */
  predicate DiagnosticComplete(history: string): (r: bool)
    ensures r <==> exists i :: 0 <= i <= |history| && Sentinel <= history[i..]
    ensures r ==> |history| >= |Sentinel|
  {
    ContainsAt(history, Sentinel);
    Contains(history, Sentinel)
  }

  /** A logged reply carrying the sentinel completes the diagnostic, and
      from then on it stays complete however the log grows. */
  lemma DiagnosticCompleteOnceLogged(log: seq<string>, k: nat, more: seq<string>)
    requires k < |log|
    requires Contains(log[k], Sentinel)
    ensures DiagnosticComplete(Join(log, "\n"))
    ensures DiagnosticComplete(Join(log + more, "\n"))
  {
    JoinContainsItem(log, "\n", k);
    ContainsTransitive(Join(log, "\n"), log[k], Sentinel);
    assert (log + more)[k] == log[k];
    JoinContainsItem(log + more, "\n", k);
    ContainsTransitive(Join(log + more, "\n"), log[k], Sentinel);
  }

  /** An occurrence inside an occurrence is an occurrence. */
  lemma ContainsTransitive(s: string, t: string, p: string)
    requires Contains(s, t) && Contains(t, p)
    ensures Contains(s, p)
  {
    ContainsAt(s, t);
    var i :| 0 <= i <= |s| && t <= s[i..];
    assert s[i..][..|t|] == t;
    ContainsPrefix(s[i..], |t|, p);
    ContainsSuffix(s, i, p);
  }

  /** `questions_asked` of the diagnostic agent's instructions: how many of
      the two questions occur in the joined log. */
  function QuestionsAsked(history: string): (n: nat)
    ensures n <= 2
    ensures n == 0 <==> !Contains(history, TopicQuestion) && !Contains(history, LevelQuestion)
  {
    (if Contains(history, TopicQuestion) then 1 else 0) + (if Contains(history, LevelQuestion) then 1 else 0)
  }

  /** `should_transfer`: both questions have been asked. */
  function ShouldTransfer(history: string): (r: bool)
    ensures r <==> Contains(history, TopicQuestion) && Contains(history, LevelQuestion)
  {
    QuestionsAsked(history) >= 2
  }

  /** The two agents, by the names the script uses. */
  datatype AgentName = DiagnosticAgent | Orchestrator
  {
    function Name(): string
    {
      match this
      case DiagnosticAgent => "DiagnosticAgent"
      case Orchestrator => "Orchestrator"
    }
  }

  /** `identify_agent`: a reply is the diagnostic agent's when it carries
      the sentinel or one of the two questions, the orchestrator's
      otherwise. */
  function IdentifyAgent(response: string): (a: AgentName)
    ensures a == DiagnosticAgent <==>
              Contains(response, Sentinel) || Contains(response, TopicQuestion) || Contains(response, LevelQuestion)
  {
    if Contains(response, Sentinel) then DiagnosticAgent
    else if Contains(response, TopicQuestion) || Contains(response, LevelQuestion) then DiagnosticAgent
    else Orchestrator
  }

  /** `process_response_for_display`: a diagnostic reply carrying the
      sentinel is shown as the hand-back sentence; any other reply as it is. */
  function ProcessResponseForDisplay(response: string, agent: AgentName): (r: string)
    ensures r == response || r == HandBack
    ensures r == HandBack && r != response ==> agent == DiagnosticAgent && Contains(response, Sentinel)
    ensures agent == DiagnosticAgent && Contains(response, Sentinel) ==> r == HandBack
  {
    if agent == DiagnosticAgent && Contains(response, Sentinel) then HandBack else response
  }

  /** The hand-back sentence does not carry the sentinel. */
  lemma HandBackHasNoSentinel()
    ensures !Contains(HandBack, Sentinel)
  {
    assert Sentinel[0] == '[';
    assert '[' !in "He completado el ";
    assert '[' !in "diagnóstico inicial. ";
    assert '[' !in "Ahora mi colega ";
    assert '[' !in "te ayudará con ";
    assert '[' !in "la explicación.";
    NotContainsFirstChar(HandBack, Sentinel);
  }

  /** With the agent identified from the reply itself, the display differs
      from the reply exactly when the reply carries the sentinel, and the
      sentinel never reaches the user. */
  lemma DisplayHidesExactlyTheSentinel(response: string)
    ensures var shown := ProcessResponseForDisplay(response, IdentifyAgent(response));
            && (shown != response <==> Contains(response, Sentinel))
            && !Contains(shown, Sentinel)
  {
    HandBackHasNoSentinel();
  }

  /** The level the tutor reads from an answer, by precedence: "nada",
      then "poco", then "mucho" or "bastante", in the lower-cased answer;
      anything else counts as intermediate. */
  function ClassifyKnowledge(answer: string): (level: string)
    ensures level in Levels
    ensures level == "principiante" <==> Contains(Lower(answer), "nada")
    ensures level == "avanzado" <==>
              && !Contains(Lower(answer), "nada") && !Contains(Lower(answer), "poco")
              && (Contains(Lower(answer), "mucho") || Contains(Lower(answer), "bastante"))
  {
    var lowered := Lower(answer);
    if Contains(lowered, "nada") then "principiante"
    else if Contains(lowered, "poco") then "intermedio"
    else if Contains(lowered, "mucho") || Contains(lowered, "bastante") then "avanzado"
    else "intermedio"
  }

  /** `line.startswith("Usuario:")`. */
  predicate IsUserLine(line: string)
  {
    UserPrefix <= line
  }

  /** `line.split("Usuario:")[1].strip()` for a user line: what follows the
      prefix, up to any further "Usuario:", stripped. */
  function UserAnswer(line: string): (r: string)
    requires IsUserLine(line)
    ensures Contains(line, r)
    ensures !Contains(r, UserPrefix)
    ensures r == [] || (!IsSpace(r[0]) && !IsSpace(r[|r| - 1]))
  {
    var piece := BeforeFirst(line[|UserPrefix|..], UserPrefix);
    var r := Strip(piece);
    ContainsSuffix(line, |UserPrefix|, piece);
    ContainsTransitive(line, piece, r);
    assert !Contains(r, UserPrefix) by {
      if Contains(r, UserPrefix) {
        ContainsTransitive(piece, r, UserPrefix);
      }
    }
    r
  }

  /** A user's logged entry is the prefix, a space and the text. */
  lemma UserEntryShape(content: string)
    ensures IsUserLine(Entry("Usuario", content))
    ensures Entry("Usuario", content)[|UserPrefix|..] == [' '] + content
  {
    assert Entry("Usuario", content) == UserPrefix + ([' '] + content);
  }

  /** A user's logged entry gives back the user's own text, stripped, as
      long as that text does not itself contain "Usuario:". */
  lemma UserAnswerOfEntry(content: string)
    requires !Contains(content, UserPrefix)
    ensures IsUserLine(Entry("Usuario", content))
    ensures UserAnswer(Entry("Usuario", content)) == Strip(content)
  {
    UserEntryShape(content);
    assert UserPrefix[0] == 'U';
    ContainsCons(' ', content, UserPrefix);
    BeforeFirstAbsent([' '] + content, UserPrefix);
    StripLeadingSpace(content);
  }

  /** The topic after one pass of the extraction loop over `line`. */
  function TopicStep(topic: string, line: string): string
  {
    if IsUserLine(line) && |UserAnswer(line)| > 3 then UserAnswer(line) else topic
  }

  /** The topic after the extraction loop has passed over `lines`: the last
      user answer longer than three characters wins. */
  function ScanTopic(lines: seq<string>, topic: string): string
  {
    if lines == [] then topic else TopicStep(ScanTopic(lines[..|lines| - 1], topic), lines[|lines| - 1])
  }

  /** The level after one pass of the classification loop over `line`. */
  function LevelStep(level: string, line: string): string
  {
    if IsUserLine(line) then ClassifyKnowledge(UserAnswer(line)) else level
  }

  /** The level after the classification loop has passed over `lines`: the
      last user line decides. */
  function ScanLevel(lines: seq<string>, level: string): string
  {
    if lines == [] then level else LevelStep(ScanLevel(lines[..|lines| - 1], level), lines[|lines| - 1])
  }

  /** The topic `analyze_conversation` leaves, given the one it found, the
      log and the orchestrator run's final output `result`. */
  function TopicAfter(topic: string, history: seq<string>, result: string): (t: string)
    ensures t != topic ==>
              && topic == "" && Contains(Lower(result), "ayuda") && Contains(result, "?")
              && Contains(Lower(Join(history, "\n")), "tema") && Contains(Join(history, "\n"), "?")
  {
    var joined := Join(history, "\n");
    if topic == "" && Contains(Lower(result), "ayuda") && Contains(result, "?")
       && Contains(Lower(joined), "tema") && Contains(joined, "?")
    then ScanTopic(history, topic)
    else topic
  }

  /** The knowledge level `analyze_conversation` leaves. */
  function LevelAfter(level: string, history: seq<string>, result: string): (l: string)
    ensures l != level ==>
              && level == "" && Contains(Lower(result), "sabes") && Contains(result, "?")
              && Contains(Lower(Join(history, "\n")), "sabes") && Contains(Join(history, "\n"), "?")
  {
    var joined := Join(history, "\n");
    if level == "" && Contains(Lower(result), "sabes") && Contains(result, "?")
       && Contains(Lower(joined), "sabes") && Contains(joined, "?")
    then ScanLevel(history, level)
    else level
  }

  /** Whatever the scan leaves is the topic it started from or the
      stripped answer, longer than three characters, of one of the user
      lines it passed. */
  lemma {:induction false} ScanTopicFromUserLine(lines: seq<string>, topic: string)
    ensures var t := ScanTopic(lines, topic);
            t == topic || exists k :: 0 <= k < |lines| && IsUserLine(lines[k]) && t == UserAnswer(lines[k]) && |t| > 3
  {
    if lines != [] {
      var init := lines[..|lines| - 1];
      ScanTopicFromUserLine(init, topic);
      var t := ScanTopic(init, topic);
      if t != topic {
        var k :| 0 <= k < |init| && IsUserLine(init[k]) && t == UserAnswer(init[k]) && |t| > 3;
        assert lines[k] == init[k];
      }
    }
  }

  /** `analyze_conversation` never replaces a topic already found, and a
      topic it sets is the stripped answer, longer than three characters,
      of some user line of the log. */
  lemma TopicWriteOnce(topic: string, history: seq<string>, result: string)
    ensures topic != "" ==> TopicAfter(topic, history, result) == topic
    ensures var t := TopicAfter(topic, history, result);
            t == topic || exists k :: 0 <= k < |history| && IsUserLine(history[k]) && t == UserAnswer(history[k]) && |t| > 3
  {
    ScanTopicFromUserLine(history, topic);
  }

  /** The classification loop leaves the level it started from, or one of
      the three levels; with at least one user line, always a level. */
  lemma {:induction false} ScanLevelIsLevel(lines: seq<string>, level: string)
    ensures ScanLevel(lines, level) == level || ScanLevel(lines, level) in Levels
    ensures (exists k :: 0 <= k < |lines| && IsUserLine(lines[k])) ==> ScanLevel(lines, level) in Levels
  {
    if lines != [] {
      var init := lines[..|lines| - 1];
      ScanLevelIsLevel(init, level);
      if exists k :: 0 <= k < |lines| && IsUserLine(lines[k]) {
        var k :| 0 <= k < |lines| && IsUserLine(lines[k]);
        if k < |init| {
          assert init[k] == lines[k];
        }
      }
    }
  }

  /** `analyze_conversation` never replaces a level already found, and a
      level it sets is one of the three. */
  lemma LevelWriteOnce(level: string, history: seq<string>, result: string)
    ensures level != "" ==> LevelAfter(level, history, result) == level
    ensures LevelAfter(level, history, result) == level || LevelAfter(level, history, result) in Levels
  {
    ScanLevelIsLevel(history, level);
  }

  /** One pass of the topic loop: a user line whose stripped answer is
      longer than three characters becomes the topic. */
  method TopicFromLine(context: ChatMemoryContext, joined: string, line: string)
    requires Contains(Lower(joined), "tema")
    modifies context
    ensures context.history == old(context.history)
    ensures context.knowledgeLevel == old(context.knowledgeLevel)
    ensures context.topic == TopicStep(old(context.topic), line)
  {
    if IsUserLine(line) && Contains(Lower(joined), "tema") {
      var potentialTopic := UserAnswer(line);
      if |potentialTopic| > 3 {
        context.SetTopic(potentialTopic);
      }
    }
  }

  /** The topic loop of `analyze_conversation` over the log, `joined`
      being the log as one string: every user line whose stripped answer is
      longer than three characters becomes the topic in turn. */
  method ScanTopicLines(context: ChatMemoryContext, joined: string)
    requires Contains(Lower(joined), "tema")
    modifies context
    ensures context.history == old(context.history)
    ensures context.knowledgeLevel == old(context.knowledgeLevel)
    ensures context.topic == ScanTopic(old(context.history), old(context.topic))
  {
    var i := 0;
    while i < |context.history|
      invariant 0 <= i <= |context.history|
      invariant context.history == old(context.history)
      invariant context.knowledgeLevel == old(context.knowledgeLevel)
      invariant context.topic == ScanTopic(context.history[..i], old(context.topic))
    {
      var line := context.history[i];
      assert context.history[..i + 1][..i] == context.history[..i];
      TopicFromLine(context, joined, line);
      i := i + 1;
    }
    assert context.history[..i] == context.history;
  }

  /** The topic pass of `analyze_conversation`: with no topic yet, a reply
      that mentions "ayuda" and asks a question, and a log that mentions
      "tema" and holds a question, the topic loop runs. */
  method ExtractTopic(context: ChatMemoryContext, result: string)
    modifies context
    ensures context.history == old(context.history)
    ensures context.knowledgeLevel == old(context.knowledgeLevel)
    ensures context.topic == TopicAfter(old(context.topic), old(context.history), result)
  {
    if context.topic == "" && Contains(Lower(result), "ayuda") && Contains(result, "?") {
      var history := context.GetHistory();
      if Contains(Lower(history), "tema") && Contains(history, "?") {
        ScanTopicLines(context, history);
      }
    }
  }

  /** One pass of the level loop: a user line sets the level from its
      answer. */
  method LevelFromLine(context: ChatMemoryContext, joined: string, line: string)
    requires Contains(Lower(joined), "sabes")
    modifies context
    ensures context.history == old(context.history)
    ensures context.topic == old(context.topic)
    ensures context.knowledgeLevel == LevelStep(old(context.knowledgeLevel), line)
  {
    if IsUserLine(line) && Contains(Lower(joined), "sabes") {
      var potentialLevel := UserAnswer(line);
      var level := ClassifyKnowledge(potentialLevel);
      context.SetKnowledgeLevel(level);
    }
  }

  /** The level loop of `analyze_conversation` over the log, `joined` being
      the log as one string: every user line sets the level from its
      answer. */
  method ScanLevelLines(context: ChatMemoryContext, joined: string)
    requires Contains(Lower(joined), "sabes")
    modifies context
    ensures context.history == old(context.history)
    ensures context.topic == old(context.topic)
    ensures context.knowledgeLevel == ScanLevel(old(context.history), old(context.knowledgeLevel))
  {
    var i := 0;
    while i < |context.history|
      invariant 0 <= i <= |context.history|
      invariant context.history == old(context.history)
      invariant context.topic == old(context.topic)
      invariant context.knowledgeLevel == ScanLevel(context.history[..i], old(context.knowledgeLevel))
    {
      var line := context.history[i];
      assert context.history[..i + 1][..i] == context.history[..i];
      LevelFromLine(context, joined, line);
      i := i + 1;
    }
    assert context.history[..i] == context.history;
  }

  /** The level pass of `analyze_conversation`: with no level yet, a reply
      and a log that mention "sabes" and hold a question, the level loop
      runs. */
  method ClassifyLevel(context: ChatMemoryContext, result: string)
    modifies context
    ensures context.history == old(context.history)
    ensures context.topic == old(context.topic)
    ensures context.knowledgeLevel == LevelAfter(old(context.knowledgeLevel), old(context.history), result)
  {
    if context.knowledgeLevel == "" && Contains(Lower(result), "sabes") && Contains(result, "?") {
      var history := context.GetHistory();
      if Contains(Lower(history), "sabes") && Contains(history, "?") {
        ScanLevelLines(context, history);
      }
    }
  }

  /** `analyze_conversation`: the topic pass, then the level pass; the log
      itself is not touched. */
  method AnalyzeConversation(context: ChatMemoryContext, result: string)
    modifies context
    ensures context.history == old(context.history)
    ensures context.topic == TopicAfter(old(context.topic), old(context.history), result)
    ensures context.knowledgeLevel == LevelAfter(old(context.knowledgeLevel), old(context.history), result)
  {
    ExtractTopic(context, result);
    ClassifyLevel(context, result);
  }

  /** One turn of the tutor's chat loop after the exit check: log the
      user's line, identify who produced the orchestrator run's final output
      (`reply`), compute what to show, analyse the conversation, log the
      reply unchanged, and when the reply handed control back, log the
      extra orchestrator run's output (`extraReply`) as well. */
  method Turn(context: ChatMemoryContext, userInput: string, reply: string, extraReply: string)
    returns (agent: AgentName, display: string, transferred: bool)
    modifies context
    ensures agent == IdentifyAgent(reply)
    ensures display == ProcessResponseForDisplay(reply, agent)
    ensures transferred <==> Contains(reply, Sentinel)
    ensures context.history == old(context.history) + [Entry("Usuario", userInput), Entry("Asistente", reply)]
                               + (if transferred then [Entry("Asistente", extraReply)] else [])
    ensures var logged := old(context.history) + [Entry("Usuario", userInput)];
            && context.topic == TopicAfter(old(context.topic), logged, reply)
            && context.knowledgeLevel == LevelAfter(old(context.knowledgeLevel), logged, reply)
  {
    context.AddMessage("Usuario", userInput);
    agent := IdentifyAgent(reply);
    transferred := agent == DiagnosticAgent && Contains(reply, Sentinel);
    display := ProcessResponseForDisplay(reply, agent);
    AnalyzeConversation(context, reply);
    context.AddMessage("Asistente", reply);
    if transferred {
      context.AddMessage("Asistente", extraReply);
    }
  }
}
