/** The two handoff input filters the scripts hand to the agent runtime.
    The runtime calls a filter with the items it is about to pass from one
    agent to the next; items are opaque here. */
module Handoff {

  /** The runtime's record of what a handoff carries: the conversation input
      so far, the items produced before the handoff, and the new items. */
  datatype HandoffInputData<Item> = HandoffInputData(
    inputHistory: seq<Item>,
    preHandoffItems: seq<Item>,
    newItems: seq<Item>)

  /** `handoff_filter` of the with-memory scripts: keeps the input history
      and drops both item lists. */
  function HandoffFilter<Item>(data: HandoffInputData<Item>): (r: HandoffInputData<Item>)
    ensures r.inputHistory == data.inputHistory
    ensures r.preHandoffItems == [] && r.newItems == []
  {
    HandoffInputData(data.inputHistory, [], [])
  }

  /** Filtering twice is filtering once. */
  lemma HandoffFilterIdempotent<Item>(data: HandoffInputData<Item>)
    ensures HandoffFilter(HandoffFilter(data)) == HandoffFilter(data)
  {
  }

  /** The filter leaves a record alone exactly when it carries no items
      besides its input history. */
  lemma HandoffFilterFixedPoints<Item>(data: HandoffInputData<Item>)
    ensures HandoffFilter(data) == data <==> data.preHandoffItems == [] && data.newItems == []
  {
  }

  /** `memory_handoff_filter` of the unified-memory scripts and of the math
      tutor: rebuilds the record from its own three fields. */
  function MemoryHandoffFilter<Item>(data: HandoffInputData<Item>): (r: HandoffInputData<Item>)
    ensures r == data
  {
    HandoffInputData(data.inputHistory, data.preHandoffItems, data.newItems)
  }
}
