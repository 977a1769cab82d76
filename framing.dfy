// The marker-framed chunk transfer used to move a serialized model over MQTT
// in include/ModelUtil.cpp and examples/fonte.cpp: a start marker, the text
// cut into bounded chunks, an end marker. Both senders and both receivers are
// modelled in their own modules; this one holds what they share.
module Framing {
  import opened Text

  const START_MARKER: string := "INICIO_TRANSMISSAO"
  const END_MARKER: string := "FIM_TRANSMISSAO"

  /** Arduino `String::startsWith`. */
  predicate StartsWith(s: string, prefix: string)
  {
    |prefix| <= |s| && s[..|prefix|] == prefix
  }

  /** Reference cut of `data` into consecutive chunks of `size` characters,
      the last one possibly shorter. */
  function Chunks(data: string, size: nat): (cs: seq<string>)
    requires size >= 1
    decreases |data|
  {
    if |data| == 0 then []
    else if |data| <= size then [data]
    else [data[..size]] + Chunks(data[size..], size)
  }

  /** A data chunk that a receiver would mistake for a marker. */
  predicate LooksLikeMarker(c: string)
  {
    StartsWith(c, START_MARKER) || StartsWith(c, END_MARKER)
  }

  /** The chunks reassemble to the data. */
  lemma {:induction false} ChunksConcat(data: string, size: nat)
    requires size >= 1
    ensures Concat(Chunks(data, size)) == data
    decreases |data|
  {
    if |data| > size {
      ChunksConcat(data[size..], size);
      assert data == data[..size] + data[size..];
    }
  }

  /** Every chunk is non-empty and at most `size` characters long. */
  lemma {:induction false} ChunksBounded(data: string, size: nat)
    requires size >= 1
    ensures forall k :: 0 <= k < |Chunks(data, size)| ==> 1 <= |Chunks(data, size)[k]| <= size
    decreases |data|
  {
    if |data| > size {
      ChunksBounded(data[size..], size);
    }
  }

  /** There are as few chunks as the size bound allows: all but the last
      are full, so n chunks cover more than (n - 1) * size characters. */
  lemma {:induction false} ChunksCount(data: string, size: nat)
    requires size >= 1
    ensures |Chunks(data, size)| * size >= |data|
    ensures |data| > 0 ==> (|Chunks(data, size)| - 1) * size < |data|
    ensures |data| == 0 <==> |Chunks(data, size)| == 0
    decreases |data|
  {
    if |data| > size {
      var n := |Chunks(data[size..], size)|;
      ChunksCount(data[size..], size);
      assert |Chunks(data, size)| == n + 1;
      assert (n + 1) * size == n * size + size;
    }
  }

  /** Cutting off one chunk from the front of what remains: the step of a
      sender loop, related to the reference cut. */
  lemma ChunksStep(data: string, pos: nat, size: nat)
    requires size >= 1 && pos < |data|
    ensures var n := if size < |data| - pos then size else |data| - pos;
      Chunks(data[pos..], size) == [data[pos..pos + n]] + Chunks(data[pos + n..], size)
  {
    var n := if size < |data| - pos then size else |data| - pos;
    if |data| - pos <= size {
      assert data[pos..] == data[pos..pos + n];
      assert data[pos + n..] == [];
    } else {
      assert data[pos..][..size] == data[pos..pos + n];
      assert data[pos..][size..] == data[pos + n..];
    }
  }

  /** What a sender puts on the wire: the start marker, the chunks, the end
      marker. */
  function Framed(data: string, size: nat): (msgs: seq<string>)
    requires size >= 1
    ensures |msgs| == |Chunks(data, size)| + 2
    ensures msgs[0] == START_MARKER && msgs[|msgs| - 1] == END_MARKER
  {
    [START_MARKER] + Chunks(data, size) + [END_MARKER]
  }

  /** A receiver's reassembly buffer after one payload: the start marker
      empties it, the end marker leaves it for decoding, any other payload
      is appended. The start marker is tested first. */
  function Absorb(buffer: string, payload: string): string
  {
    if StartsWith(payload, START_MARKER) then []
    else if StartsWith(payload, END_MARKER) then buffer
    else buffer + payload
  }

  /** The buffer after a run of payloads, oldest first. */
  function AbsorbAll(buffer: string, payloads: seq<string>): string
    decreases |payloads|
  {
    if payloads == [] then buffer
    else Absorb(AbsorbAll(buffer, payloads[..|payloads| - 1]), payloads[|payloads| - 1])
  }

  lemma {:induction false} AbsorbAllAppend(buffer: string, ps: seq<string>, qs: seq<string>)
    ensures AbsorbAll(buffer, ps + qs) == AbsorbAll(AbsorbAll(buffer, ps), qs)
    decreases |qs|
  {
    if qs == [] {
      assert ps + qs == ps;
    } else {
      var last := |qs| - 1;
      assert (ps + qs)[..|ps + qs| - 1] == ps + qs[..last];
      AbsorbAllAppend(buffer, ps, qs[..last]);
    }
  }

  /** Data payloads that do not look like markers are appended in order. */
  lemma {:induction false} AbsorbData(buffer: string, cs: seq<string>)
    requires forall k :: 0 <= k < |cs| ==> !LooksLikeMarker(cs[k])
    ensures AbsorbAll(buffer, cs) == buffer + Concat(cs)
    decreases |cs|
  {
    if cs != [] {
      var last := |cs| - 1;
      AbsorbData(buffer, cs[..last]);
      ConcatAppend(cs[..last], cs[last]);
      assert cs[..last] + [cs[last]] == cs;
    }
  }

  /** No chunk of the cut begins like a marker. */
  predicate NoMarkerChunks(data: string, size: nat)
    requires size >= 1
  {
    forall k :: 0 <= k < |Chunks(data, size)| ==> !LooksLikeMarker(Chunks(data, size)[k])
  }

  /** Whatever the receiver held before, after a whole framed transfer it
      holds exactly the data sent, as long as no chunk begins like a
      marker. */
  lemma TransferRoundTrip(buffer: string, data: string, size: nat)
    requires size >= 1
    requires NoMarkerChunks(data, size)
    ensures AbsorbAll(buffer, [START_MARKER] + Chunks(data, size)) == data
    ensures AbsorbAll(buffer, Framed(data, size)) == data
  {
    assert START_MARKER[0] != END_MARKER[0];
    assert AbsorbAll(buffer, [START_MARKER]) == [] by {
      assert [START_MARKER][..0] == [];
    }
    AbsorbAllAppend(buffer, [START_MARKER], Chunks(data, size));
    AbsorbData([], Chunks(data, size));
    ChunksConcat(data, size);
    AbsorbAllAppend(buffer, [START_MARKER] + Chunks(data, size), [END_MARKER]);
    assert [END_MARKER][..0] == [];
  }
}
