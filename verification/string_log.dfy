/** The string-list conversation log (`ChatMemoryContext` with a
    `history: List[str]`) shared by the programmatic language-routing
    scripts and the unified-memory scripts: every message becomes one
    `"role: content"` entry, and the agents read the entries joined by
    newlines. */
module StringLog {
  import opened Strings

  class ChatMemoryContext {
    var history: seq<string>

    constructor ()
      ensures history == []
    {
      history := [];
    }

    /** `add_message`: appends exactly one entry and keeps the earlier ones. */
    method AddMessage(role: string, content: string)
      modifies this
      ensures history == old(history) + [Entry(role, content)]
    {
      history := history + [Entry(role, content)];
    }

    /** `get_history`: the entries joined by newlines. */
    function GetHistory(): (r: string)
      reads this
      ensures history == [] ==> r == ""
      ensures forall k :: 0 <= k < |history| ==> Contains(r, history[k])
      ensures history != [] && NoNewlines(history) ==> SplitLines(r) == history
    {
      JoinLinesMeaning(history);
      Join(history, "\n")
    }
  }

  /** The entries a chat loop writes for a run of turns: for each turn the
      user's entry, then the assistant's. */
  function Transcript(userRole: string, inputs: seq<string>, assistantRole: string, replies: seq<string>): (r: seq<string>)
    requires |inputs| == |replies|
    ensures |r| == 2 * |inputs|
    ensures forall k :: 0 <= k < |r| ==>
              r[k] == if k % 2 == 0 then Entry(userRole, inputs[k / 2]) else Entry(assistantRole, replies[k / 2])
  {
    if inputs == [] then []
    else
      var n := |inputs| - 1;
      Transcript(userRole, inputs[..n], assistantRole, replies[..n])
        + [Entry(userRole, inputs[n]), Entry(assistantRole, replies[n])]
  }

  /** One more turn adds its two entries at the end. */
  lemma TranscriptStep(userRole: string, inputs: seq<string>, assistantRole: string, replies: seq<string>, n: nat)
    requires |inputs| == |replies| && n < |inputs|
    ensures Transcript(userRole, inputs[..n + 1], assistantRole, replies[..n + 1])
         == Transcript(userRole, inputs[..n], assistantRole, replies[..n])
            + [Entry(userRole, inputs[n]), Entry(assistantRole, replies[n])]
  {
    assert inputs[..n + 1][..n] == inputs[..n];
    assert replies[..n + 1][..n] == replies[..n];
  }
}
