/** The server-sent events the streaming generation endpoint writes, as
    values rather than `data: {...}` JSON lines, and the per-request state
    its `onChunk` callback updates. */
module StreamEvents {
  import opened Text
  import opened Store

  datatype Event =
    | ChunkEvent(content: string)
    | DoneEvent(testPlanId: string, metadata: PlanMetadata)
    | ErrorEvent(error: string)

  /** One chunk event per delta, in order. */
  function ChunkEvents(deltas: seq<string>): (es: seq<Event>)
    ensures |es| == |deltas|
    ensures forall i :: 0 <= i < |deltas| ==> es[i] == ChunkEvent(deltas[i])
  {
    seq(|deltas|, i requires 0 <= i < |deltas| => ChunkEvent(deltas[i]))
  }

  /** What a client reassembles from the events it received: the contents
      of the chunk events, one after another. */
  function StreamedText(es: seq<Event>): string {
    if |es| == 0 then ""
    else
      var e := es[|es| - 1];
      StreamedText(es[..|es| - 1]) + (if e.ChunkEvent? then e.content else "")
  }

  /** A client reading the chunk events gets back exactly the text sent. */
  lemma {:induction false} StreamedChunks(deltas: seq<string>)
    ensures StreamedText(ChunkEvents(deltas)) == Concat(deltas)
  {
    if |deltas| > 0 {
      var n := |deltas| - 1;
      StreamedChunks(deltas[..n]);
      assert ChunkEvents(deltas)[..n] == ChunkEvents(deltas[..n]);
    }
  }

  lemma StreamedTextAppend(es: seq<Event>, e: Event)
    ensures StreamedText(es + [e]) == StreamedText(es) + (if e.ChunkEvent? then e.content else "")
  {
    assert (es + [e])[..|es|] == es;
  }

  lemma ChunkEventsPush(deltas: seq<string>, d: string)
    ensures ChunkEvents(deltas + [d]) == ChunkEvents(deltas) + [ChunkEvent(d)]
  {
  }

  /** The state of one streaming request: the text accumulated from the
      chunks so far, and the events written to the response. */
  class EventStream {
    var fullContent: string
    var events: seq<Event>

    constructor ()
      ensures fullContent == "" && events == []
    {
      fullContent := "";
      events := [];
    }

    /** The `onChunk` callback: append the chunk and forward it. */
    method OnChunk(chunk: string)
      modifies this
      ensures fullContent == old(fullContent) + chunk
      ensures events == old(events) + [ChunkEvent(chunk)]
    {
      fullContent := fullContent + chunk;
      events := events + [ChunkEvent(chunk)];
    }

    /** `res.write(...)` of a non-chunk event. */
    method Send(e: Event)
      modifies this
      ensures events == old(events) + [e]
      ensures fullContent == old(fullContent)
    {
      events := events + [e];
    }
  }
}
