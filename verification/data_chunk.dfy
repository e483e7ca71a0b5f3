/** Queues of partly used pieces of data, as streams and downloaders keep them. */
module DataChunks {

  /** An element of a queue of received data; `offset` bytes of it are used up. */
  datatype DataChunk = DataChunk(data: string, offset: nat) {
    predicate Valid() {
      offset <= |data|
    }

    function Rest(): string {
      if offset <= |data| then data[offset..] else ""
    }
  }

  predicate ValidChunks(buffer: seq<DataChunk>) {
    forall k | 0 <= k < |buffer| :: buffer[k].Valid()
  }

  /** The bytes a queue still holds. */
  function Content(buffer: seq<DataChunk>): string {
    if buffer == [] then "" else buffer[0].Rest() + Content(buffer[1..])
  }

  lemma {:induction false} ContentPush(buffer: seq<DataChunk>, chunk: DataChunk)
    ensures Content(buffer + [chunk]) == Content(buffer) + chunk.Rest()
  {
    if buffer == [] {
      assert (buffer + [chunk])[1..] == [];
    } else {
      assert (buffer + [chunk])[1..] == buffer[1..] + [chunk];
      ContentPush(buffer[1..], chunk);
      assert Content(buffer + [chunk]) == buffer[0].Rest() + (Content(buffer[1..]) + chunk.Rest());
    }
  }

  lemma Assoc(a: string, b: string, c: string)
    ensures (a + b) + c == a + (b + c)
  {
  }
}
