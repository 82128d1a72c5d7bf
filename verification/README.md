# Chat-agent scripts: quota machines, language routing, math-tutor routing and conversation logs

This project models the parts of the `andres_scripts` chat programs that are
written in the repository itself rather than delegated to the agent runtime:

- **Response quotas.** Two chats answer twice in Spanish, then twice in
  English, then stop.
  - The programmatic variant (`07_chat_agent_sequential_programmatic.py`)
    keeps an overall reply counter and asks the context for the current
    phase (`SequentialProgrammatic`).
  - The handoff variant (`05_`/`08_chat_agent_sequential_handoff.py`, the
    same code) counts each logged reply as Spanish while fewer than two are,
    otherwise as English (`SequentialHandoff`).
- **Language routing** (`04_`/`06_chat_agent_programmatic.py`,
  `LanguageRouting`).
  - A pattern heuristic (`detect_language`) guesses each line's language.
  - A detector agent is consulted when the guess changes on a line of more
    than three words; its answer is accepted only if it normalises to
    "spanish" or "english".
  - The loop runs the Spanish or the English agent accordingly.
- **Math-tutor routing** (`09_chat_agent_math_tutor.py`, `MathTutor`).
  - Sentinel and question detection: `identify_agent`, the orchestrator's
    "diagnostic complete" and the diagnostic agent's "should transfer"
    decisions.
  - The display rewrite of the hand-back sentinel.
  - Knowledge-level classification.
  - The topic and level extraction of `analyze_conversation`.
  - One turn of the chat loop.
- **Conversation logs and handoff filters.**
  - The string-list log `"role: content"` (`StringLog`), used by the
    programmatic and the unified-memory chats (`UnifiedMemory`).
  - The dict-record log of the with-memory chats (`RecordMemory`).
  - The filters `handoff_filter` and `memory_handoff_filter` (`Handoff`).

Python's string operations that these rely on are modelled in `Strings`:
- substring test (`Contains`)
- `lower()` (`Lower`)
- `strip()` (`Strip`)
- `len(split())` (`WordCount`)
- `"\n".join` (`Join`)
- `split("\n")` (`SplitLines`)
- the entry format (`Entry`)
- the first piece of `split(sep)` after the prefix (`BeforeFirst`)

Every call to the agent runtime becomes an input:
- `Runner.run(...).final_output` is a string parameter (`replies`, `reply`,
  `extraReply`);
- the language-detector run is an `Option<string>`, where `None` stands for
  the run raising;
- the console's `input()` lines are a sequence `inputs`, and running out of
  inputs ends the session.

The context objects, whose methods update their fields in place, are
classes.
- The quota machines carry an invariant `Valid()` that holds between
  turns, and each machine's `Turn` preserves it. In the handoff variant
  every `AddMessage` preserves it as well. In the programmatic variant a
  turn passes through states outside it: `AddMessage` counts a reply
  before `IncrementLanguageCount` assigns it a language.
- Each chat loop is a method over the inputs that starts from a fresh
  context, with loop invariants.
- Its postcondition ties the log it leaves to a reference definition of the
  transcript:
  - `StringLog.Transcript` for the string logs;
  - `RecordMemory.Exchanges` for the record log;
  - for the quota chats, the Spanish–Spanish–English–English schedule
    `SequentialProgrammatic.ScheduledPhase`, or the counters
    min(replies, 2) and the rest.

`analyze_conversation` is specified by the functions below:
- `ScanTopic` and `ScanLevel` are the loops over the log;
- `TopicAfter` and `LevelAfter` add the entry guards.

The write-once promise is proved about those functions: a topic or level
that is already set is never replaced. Inside one pass, every qualifying
user line overwrites the previous choice, so the last one wins. The source
code behaves this way, and the model follows it.

## Model

| member | source | states |
|---|---|---|
| SequentialProgrammatic.ChatMemoryContext.constructor | andres_scripts/07_chat_agent_sequential_programmatic.py:7-12 | a fresh context has an empty log and all three counters at zero, and satisfies the quota invariant |
| SequentialProgrammatic.ChatMemoryContext.AddMessage | andres_scripts/07_chat_agent_sequential_programmatic.py:14-17 | appends exactly the entry `role: content`, keeping earlier entries; the reply counter grows by one for "assistant" and for no other role; the language counters do not change |
| SequentialProgrammatic.ChatMemoryContext.GetHistory | andres_scripts/07_chat_agent_sequential_programmatic.py:19-20 | an empty log gives ""; every entry occurs in the result, whatever it holds; a non-empty log of single-line entries splits back into exactly its entries |
| SequentialProgrammatic.ChatMemoryContext.CanRespond | andres_scripts/07_chat_agent_sequential_programmatic.py:22-23 | between turns, "fewer than four replies" holds exactly when the phase is not `limit_reached` |
| SequentialProgrammatic.ChatMemoryContext.GetResponsePhase | andres_scripts/07_chat_agent_sequential_programmatic.py:25-30 | between turns the phase is the schedule's phase for the number of replies given: spanish for 0–1, english for 2–3, limit_reached from 4 |
| SequentialProgrammatic.ChatMemoryContext.IncrementLanguageCount | andres_scripts/07_chat_agent_sequential_programmatic.py:32-36 | "spanish" adds one Spanish reply, any other string one English reply; the log and the reply counter are unchanged |
| SequentialProgrammatic.Turn | andres_scripts/07_chat_agent_sequential_programmatic.py:106-131 | preserves the invariant (replies = Spanish + English, each at most 2, English only after two Spanish); the phase is the scheduled one; at the limit only the user entry is logged, otherwise the user and assistant entries and one more reply counted |
| SequentialProgrammatic.QuitMatchesIgnoringCase | andres_scripts/07_chat_agent_sequential_programmatic.py:103 | a line ends the chat exactly when it matches "salir", "exit" or "quit" character by character up to case |
| SequentialProgrammatic.Chat | andres_scripts/07_chat_agent_sequential_programmatic.py:101-131 | the k-th reply's phase is spanish, spanish, english, english in that order; at most four replies; a limit stop comes after exactly four replies on a non-exit line; a stop without the limit is an exit word or the end of input; the log is the user/assistant transcript plus, at the limit, the last user entry |
| SequentialHandoff.ChatMemoryContext.constructor | andres_scripts/05_chat_agent_sequential_handoff.py:7-11 | a fresh context has an empty log and both counters at zero, and satisfies the quota invariant |
| SequentialHandoff.ChatMemoryContext.AddMessage | andres_scripts/05_chat_agent_sequential_handoff.py:13-19 | appends exactly one entry; a non-assistant role leaves both counters alone; an assistant reply adds one Spanish reply while fewer than two exist, otherwise one English reply; at most two Spanish, English only after two Spanish; the same code is at andres_scripts/08_chat_agent_sequential_handoff.py:13-19 |
| SequentialHandoff.ChatMemoryContext.GetHistory | andres_scripts/05_chat_agent_sequential_handoff.py:21-22 | an empty log gives ""; every entry occurs in the result, whatever it holds; single-line entries split back into the log |
| SequentialHandoff.ChatMemoryContext.CanRespond | andres_scripts/05_chat_agent_sequential_handoff.py:24-25 | the counter sum is below four, which, with the counters filled Spanish first, is exactly "fewer than two English replies"; the same code is at andres_scripts/08_chat_agent_sequential_handoff.py:24-25 |
| SequentialHandoff.Turn | andres_scripts/05_chat_agent_sequential_handoff.py:125-142 | preserves the quota invariant; a reply is given exactly when fewer than two English replies exist; without one only the user entry is logged and the counters stay; with one both entries are logged and the counter sum grows by one |
| SequentialHandoff.QuitMatchesIgnoringCase | andres_scripts/05_chat_agent_sequential_handoff.py:122 | a line ends the chat exactly when it matches "salir", "exit" or "quit" character by character up to case; the same code is at andres_scripts/08_chat_agent_sequential_handoff.py:122 |
| SequentialHandoff.Chat | andres_scripts/05_chat_agent_sequential_handoff.py:120-143 | at most four replies are logged; after n replies the counters are min(n, 2) Spanish and the rest English; a quota stop comes after exactly four replies, two of each, on a non-exit line; the log is the transcript plus, at the stop, the last user entry; the same code is at andres_scripts/08_chat_agent_sequential_handoff.py:120-143 |
| StringLog.ChatMemoryContext.constructor | andres_scripts/05_chat_agent_with_unified_memory.py:7-9 | a fresh log is empty |
| StringLog.ChatMemoryContext.AddMessage | andres_scripts/05_chat_agent_with_unified_memory.py:11-12 | appends exactly the entry `role: content` and keeps the earlier entries; the same code is at andres_scripts/08_chat_agent_with_unified_memory.py:11-12, andres_scripts/06_chat_agent_programmatic.py:59-61, andres_scripts/04_chat_agent_programmatic.py:12-13 |
| StringLog.ChatMemoryContext.GetHistory | andres_scripts/05_chat_agent_with_unified_memory.py:14-15 | an empty log gives ""; every entry occurs in the result; a non-empty log of single-line entries splits back into exactly its entries; reading it changes nothing; the same code is at andres_scripts/08_chat_agent_with_unified_memory.py:14-15, andres_scripts/06_chat_agent_programmatic.py:63-65, andres_scripts/04_chat_agent_programmatic.py:15-16 |
| StringLog.Transcript | andres_scripts/05_chat_agent_with_unified_memory.py:137-148 | the entries of a run of turns: twice as many entries as turns, the user's at even positions and the assistant's at odd ones |
| StringLog.TranscriptStep | andres_scripts/08_chat_agent_with_unified_memory.py:137-148 | one more turn appends exactly its user entry and its assistant entry |
| UnifiedMemory.QuitMatchesIgnoringCase | andres_scripts/05_chat_agent_with_unified_memory.py:133 | a line ends the chat exactly when it matches "salir" character by character up to case; the same code is at andres_scripts/08_chat_agent_with_unified_memory.py:133 |
| UnifiedMemory.Chat | andres_scripts/05_chat_agent_with_unified_memory.py:131-148 | the loop stops at the first line that lower-cases to "salir" or at the end of input; the log is the "Usuario"/"Asistente" transcript of the turns before it, so entries alternate and the length is even; the same code is at andres_scripts/08_chat_agent_with_unified_memory.py:131-148 |
| Handoff.MemoryHandoffFilter | andres_scripts/05_chat_agent_with_unified_memory.py:106-112 | returns its input unchanged, field for field; the same code is at andres_scripts/08_chat_agent_with_unified_memory.py:106-112, andres_scripts/09_chat_agent_math_tutor.py:135-142 |
| Handoff.HandoffFilter | andres_scripts/04_chat_agent_with_memory.py:275-280 | keeps the input history and empties both item lists; the same code is at andres_scripts/07_chat_agent_with_memory.py:167-172 |
| Handoff.HandoffFilterIdempotent | andres_scripts/04_chat_agent_with_memory.py:275-280 | filtering twice is filtering once |
| Handoff.HandoffFilterFixedPoints | andres_scripts/07_chat_agent_with_memory.py:167-172 | the filter leaves a record alone exactly when both item lists are empty |
| RecordMemory.RenderAll | andres_scripts/04_chat_agent_with_memory.py:93-95 | renders every record, in order, position by position as `role: content` |
| RecordMemory.RenderAllNoNewlines | andres_scripts/07_chat_agent_with_memory.py:19-21 | records whose role and content hold no newline render to entries without a newline |
| RecordMemory.ChatMemoryContext.constructor | andres_scripts/04_chat_agent_with_memory.py:76 | a fresh log is empty |
| RecordMemory.ChatMemoryContext.AddMessage | andres_scripts/04_chat_agent_with_memory.py:78-86 | appends exactly the record `{role, content}` and keeps the earlier records; the same code is at andres_scripts/07_chat_agent_with_memory.py:12-16 |
| RecordMemory.ChatMemoryContext.GetHistoryAsString | andres_scripts/04_chat_agent_with_memory.py:88-96 | the records rendered in order and joined by newlines; "" for an empty log; single-line records split back into their renderings; the log is not changed; the same code is at andres_scripts/07_chat_agent_with_memory.py:18-22 |
| RecordMemory.Exchanges | andres_scripts/04_chat_agent_with_memory.py:298-310 | the records of a run of turns: a "user" record at each even position and an "assistant" record at each odd one, two per turn |
| RecordMemory.QuitMatchesIgnoringCase | andres_scripts/04_chat_agent_with_memory.py:293 | a line ends the chat exactly when it matches "exit" character by character up to case; the same code is at andres_scripts/07_chat_agent_with_memory.py:185 |
| RecordMemory.Chat | andres_scripts/04_chat_agent_with_memory.py:290-310 | the loop stops at the first line that lower-cases to "exit" or at the end of input; the log is the alternating user/assistant records of the turns before it, starting with "user"; the same code is at andres_scripts/07_chat_agent_with_memory.py:182-202 |
| LanguageRouting.CountMatches | andres_scripts/06_chat_agent_programmatic.py:189-190 | a count never exceeds the number of patterns |
| LanguageRouting.CountMatchesIsMatchedPatterns | andres_scripts/06_chat_agent_programmatic.py:178-190 | the count is the number of distinct patterns occurring in the text, each counted once however often it occurs |
| LanguageRouting.DetectLanguage | andres_scripts/06_chat_agent_programmatic.py:162-196 | `detect_language`: Spanish exactly when more distinct Spanish than English patterns occur in the lower-cased text, so ties, no match included, give English; the same code is at andres_scripts/04_chat_agent_programmatic.py:113-134 |
| LanguageRouting.DetectLanguageBounds | andres_scripts/06_chat_agent_programmatic.py:178-196 | at most 18 Spanish and 12 English patterns can be found, and a line with some Spanish pattern and no English one is Spanish |
| LanguageRouting.ShouldConsultDetector | andres_scripts/06_chat_agent_programmatic.py:250-252 | the detector is consulted exactly when there is no last language or it differs from the heuristic's, and the line has more than three word ends (maximal non-whitespace runs); the same code is at andres_scripts/04_chat_agent_programmatic.py:166-168 |
| LanguageRouting.DetectLanguageIgnoresCase | andres_scripts/06_chat_agent_programmatic.py:186 | a text and its lower-cased form are classified alike |
| LanguageRouting.ParseDetectorOutput | andres_scripts/06_chat_agent_programmatic.py:261-265 | the detector's answer is accepted exactly when its stripped, lower-cased form is "spanish" or "english", and then names that language; the same code is at andres_scripts/04_chat_agent_programmatic.py:177-181 |
| LanguageRouting.SelectLanguage | andres_scripts/06_chat_agent_programmatic.py:247-270 | the detector is consulted exactly on the first turn or when the heuristic differs from the last language, and only for more than three words; without it the heuristic stands; an accepted answer overrides; a language other than the heuristic's comes only from a consulted, accepted answer; the same code is at andres_scripts/04_chat_agent_programmatic.py:163-186 |
| LanguageRouting.SameLanguageSkipsDetector | andres_scripts/06_chat_agent_programmatic.py:249-250 | a line whose heuristic language equals the last turn's never reaches the detector and keeps that language |
| LanguageRouting.SelectedAgent | andres_scripts/06_chat_agent_programmatic.py:273 | the Spanish agent exactly for Spanish |
| LanguageRouting.Turn | andres_scripts/06_chat_agent_programmatic.py:243-286 | the turn's language is the selection rule's; its agent is the Spanish one exactly for Spanish; the user entry then the assistant entry are logged |
| LanguageRouting.QuitMatchesIgnoringCase | andres_scripts/06_chat_agent_programmatic.py:240 | a line ends the chat exactly when it matches "salir" character by character up to case; the same code is at andres_scripts/04_chat_agent_programmatic.py:156 |
| LanguageRouting.RoutingTurns | andres_scripts/06_chat_agent_programmatic.py:236-287 | routing a run of turns applies the per-turn rule to each turn, with the language of the turn before remembered |
| LanguageRouting.Chat | andres_scripts/06_chat_agent_programmatic.py:236-287 | stops at the first "salir" (any case) or the end of input; each turn's language is the selection rule applied with the previous turn's language remembered (none on the first turn); the log is the "Usuario"/"Asistente" transcript; the same code is at andres_scripts/04_chat_agent_programmatic.py:152-203 |
| Strings.ContainsAt | andres_scripts/06_chat_agent_programmatic.py:189 | `p in s` holds exactly when p is a prefix of s from some position on; the same test is at andres_scripts/09_chat_agent_math_tutor.py:63 |
| Strings.Strip | andres_scripts/06_chat_agent_programmatic.py:261 | `strip()`: the result occurs in the input, neither starts nor ends with whitespace, and a string without edge whitespace is returned unchanged |
| Strings.StripCutsOnlyEdges | andres_scripts/06_chat_agent_programmatic.py:261 | `strip()` removes whitespace at the two ends and nothing else: the result sits in the input at some offset with only whitespace before and after it |
| Strings.StripIdempotent | andres_scripts/09_chat_agent_math_tutor.py:153 | stripping twice is stripping once |
| Strings.WordCount | andres_scripts/06_chat_agent_programmatic.py:252 | `len(split())`: at most the length of the string, and zero exactly when the string is all whitespace |
| Strings.WordCountIsWordEnds | andres_scripts/06_chat_agent_programmatic.py:252 | `len(split())` is the number of positions holding a non-whitespace character followed by whitespace or by the end of the string |
| Strings.LowerIdempotent | andres_scripts/06_chat_agent_programmatic.py:186 | lower-casing twice is lower-casing once |
| Strings.EntryParts | andres_scripts/05_chat_agent_with_unified_memory.py:12 | `f"{role}: {content}"`: starts with the role, then ": ", then exactly the content |
| Strings.LowerEqualsIff | andres_scripts/06_chat_agent_programmatic.py:240 | `s.lower() == w` holds exactly when s and w have the same length and each character of s lower-cases to the character of w at the same position |
| Strings.JoinAppend | andres_scripts/05_chat_agent_with_unified_memory.py:11-15 | after `add_message`, the joined log is the old joined log, then "\n", then the new entry (just the entry when the log was empty) |
| Strings.SplitJoinLines | andres_scripts/05_chat_agent_with_unified_memory.py:15 | joining a non-empty list of newline-free entries with "\n" and splitting on "\n" gives the list back |
| Strings.JoinLinesMeaning | andres_scripts/08_chat_agent_with_unified_memory.py:15 | the joined log is "" when empty, holds every entry, and splits back into the entries when they are single-line |
| Strings.BeforeFirst | andres_scripts/09_chat_agent_math_tutor.py:153 | the piece of `split(sep)` before the first separator: a prefix of the text with no occurrence of the separator, followed by the separator unless it is the whole text |
| Strings.BeforeFirstIsFirst | andres_scripts/09_chat_agent_math_tutor.py:153 | the cut is at the first occurrence: no occurrence of the separator starts inside the kept piece, overlapping separators included |
| Strings.BeforeFirstAbsent | andres_scripts/09_chat_agent_math_tutor.py:164 | without an occurrence of the separator, nothing is cut off |
| MathTutor.ChatMemoryContext.constructor | andres_scripts/09_chat_agent_math_tutor.py:34-39 | a fresh context has an empty log, no topic and no level |
| MathTutor.ChatMemoryContext.AddMessage | andres_scripts/09_chat_agent_math_tutor.py:41-43 | appends exactly one entry; topic and level unchanged |
| MathTutor.ChatMemoryContext.GetHistory | andres_scripts/09_chat_agent_math_tutor.py:45-47 | an empty log gives ""; every entry occurs in the result; single-line entries split back into the log |
| MathTutor.ChatMemoryContext.SetTopic | andres_scripts/09_chat_agent_math_tutor.py:49-51 | overwrites the topic and nothing else |
| MathTutor.ChatMemoryContext.SetKnowledgeLevel | andres_scripts/09_chat_agent_math_tutor.py:53-55 | overwrites the level and nothing else |
| MathTutor.DiagnosticComplete | andres_scripts/09_chat_agent_math_tutor.py:62-64 | the diagnostic is complete exactly when the sentinel occurs at some position of the joined log, which is then at least as long as the sentinel |
| MathTutor.DiagnosticCompleteOnceLogged | andres_scripts/09_chat_agent_math_tutor.py:59-64 | once an entry carrying the sentinel is logged, the orchestrator sees the diagnostic as complete, and it stays complete however the log grows |
| MathTutor.QuestionsAsked | andres_scripts/09_chat_agent_math_tutor.py:92-96 | between 0 and 2, and 0 exactly when neither question occurs in the log |
| MathTutor.ShouldTransfer | andres_scripts/09_chat_agent_math_tutor.py:99 | holds exactly when both diagnostic questions occur in the log |
| MathTutor.IdentifyAgent | andres_scripts/09_chat_agent_math_tutor.py:175-185 | the diagnostic agent exactly when the reply carries the sentinel or one of the two questions, the orchestrator otherwise |
| MathTutor.ProcessResponseForDisplay | andres_scripts/09_chat_agent_math_tutor.py:188-194 | the reply itself or the hand-back sentence; a diagnostic reply carrying the sentinel is always shown as the hand-back sentence, and the hand-back sentence replaces a reply only in that case |
| MathTutor.HandBackHasNoSentinel | andres_scripts/09_chat_agent_math_tutor.py:192 | the hand-back sentence does not carry the sentinel |
| MathTutor.DisplayHidesExactlyTheSentinel | andres_scripts/09_chat_agent_math_tutor.py:179-194 | with the agent identified from the reply, the display differs from the reply exactly when the reply carries the sentinel, and the display never carries it |
| MathTutor.ClassifyKnowledge | andres_scripts/09_chat_agent_math_tutor.py:165-172 | always one of the three levels; principiante exactly when the lower-cased answer contains "nada"; avanzado exactly when it contains neither "nada" nor "poco" but "mucho" or "bastante" |
| MathTutor.UserEntryShape | andres_scripts/09_chat_agent_math_tutor.py:152 | a logged user entry starts with "Usuario:" followed by a space and the user's text |
| MathTutor.UserAnswer | andres_scripts/09_chat_agent_math_tutor.py:153 | the answer read from a user line occurs in that line, holds no further "Usuario:", and neither starts nor ends with whitespace |
| MathTutor.UserAnswerOfEntry | andres_scripts/09_chat_agent_math_tutor.py:152-153 | the answer read back from a logged user entry is the user's text stripped, unless the text itself contains "Usuario:" |
| MathTutor.ScanTopicFromUserLine | andres_scripts/09_chat_agent_math_tutor.py:151-155 | the topic loop leaves its starting topic or the stripped answer, longer than three characters, of one of the user lines |
| MathTutor.TopicAfter | andres_scripts/09_chat_agent_math_tutor.py:148-150 | the topic changes only when none was set, the orchestrator's output holds "ayuda" (any case) and "?", and the joined log holds "tema" (any case) and "?" |
| MathTutor.TopicWriteOnce | andres_scripts/09_chat_agent_math_tutor.py:148-155 | a topic already set is never replaced, and a topic that is set is the stripped answer, longer than three characters, of a user line of the log |
| MathTutor.ScanLevelIsLevel | andres_scripts/09_chat_agent_math_tutor.py:162-172 | the level loop leaves its starting level or one of the three levels, and always a level once one user line was seen |
| MathTutor.LevelAfter | andres_scripts/09_chat_agent_math_tutor.py:159-161 | the level changes only when none was set, the orchestrator's output holds "sabes" (any case) and "?", and the joined log holds "sabes" (any case) and "?" |
| MathTutor.LevelWriteOnce | andres_scripts/09_chat_agent_math_tutor.py:159-172 | a level already set is never replaced, and a level that is set is one of the three |
| MathTutor.TopicFromLine | andres_scripts/09_chat_agent_math_tutor.py:152-155 | one pass of the topic loop: a user line whose answer is longer than three characters becomes the topic; log and level unchanged |
| MathTutor.ScanTopicLines | andres_scripts/09_chat_agent_math_tutor.py:151-155 | the topic loop over the whole log ends with the scan's topic; log and level unchanged |
| MathTutor.ExtractTopic | andres_scripts/09_chat_agent_math_tutor.py:148-155 | the topic pass under its guards leaves the topic `TopicAfter` gives |
| MathTutor.LevelFromLine | andres_scripts/09_chat_agent_math_tutor.py:163-172 | one pass of the level loop: a user line sets the level its answer classifies to; log and topic unchanged |
| MathTutor.ScanLevelLines | andres_scripts/09_chat_agent_math_tutor.py:162-172 | the level loop over the whole log ends with the scan's level; log and topic unchanged |
| MathTutor.ClassifyLevel | andres_scripts/09_chat_agent_math_tutor.py:159-172 | the level pass under its guards leaves the level `LevelAfter` gives |
| MathTutor.AnalyzeConversation | andres_scripts/09_chat_agent_math_tutor.py:145-172 | the log is untouched; topic and level become what `TopicAfter` and `LevelAfter` give, so by the write-once lemmas a set topic or level stays |
| MathTutor.Turn | andres_scripts/09_chat_agent_math_tutor.py:239-298 | logs the user entry, then the reply, then the extra orchestrator reply exactly when the reply carries the sentinel; the agent and the display are those of the identification and display rules; topic and level are updated from the log holding the user entry |

## Left out

- The agent runtime: every `Runner.run`, agent construction, `RunConfig`, the handoff wiring and the tools (`get_weather`, `calculate` with `eval`). The runs' final outputs are parameters.
- Console and async plumbing (`input`, `print`, `asyncio.run`), the debug output (`debug_print`, the `[DEBUG]` prints, the chat hooks), tracing spans, and the uuid-based session and user identifiers.
- The prompt text of the instruction builders; only the decisions they branch on are modelled (`DiagnosticComplete`, `QuestionsAsked`, `ShouldTransfer`).
- `andres_scripts/09_chat_agent_math_tutor_viz.py`, `01_test_agent.py`, `02_test_tools.py`, `03_chat_agent_basic.py` and the debug copy of the unified-memory chat are not part of this model.
- The lambda `input_filter`s of the sequential-handoff triage agent are runtime configuration.
- Strings.Lower: lower-cases ASCII, the Latin-1 capitals U+00C0–U+00DE except U+00D7, and the Kelvin sign; the rest of Unicode's case mapping (including multi-character results) is not modelled. The pattern lists only contain characters this covers.
- The math tutor's outer loop (exit on "exit", the `transfer_occurred` flag) is modelled one turn at a time by `MathTutor.Turn`; a whole-session method is not given.
- The with-memory and unified-memory chats' hooks and the contents of the runtime's `input_history` (which may be a string or a list of items) are opaque: the handoff filters are modelled over generic item sequences.
- The language detector run raising an exception is modelled as a missing answer (`None`); which exceptions occur is not modelled.
- The console messages printed after each quota turn ("Quedan …", "Remaining …") are output only.
