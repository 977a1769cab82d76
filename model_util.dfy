// The legacy single-file transfer of include/ModelUtil.cpp: a receiver that
// reassembles a marker-framed model document from MQTT payloads and decodes
// it on the end marker, and a sender that cuts the serialized document into
// chunks of at most MQTT_MESSAGE_SIZE - 1 characters. The message size and
// the subscribed topic are build-time macros the headers leave undefined,
// so both are parameters here.
module ModelUtil {
  import opened Wrappers
  import opened Types
  import opened Text
  import opened Framing
  import MM = ModelManager

  /** The bias and weight arrays of a decoded transfer. */
  datatype Transfer = Transfer(biases: seq<real>, weights: seq<real>)

  /** `transformDataToModel`: no arrays for a document that does not parse
      or whose precision tag is not the compiled width's; otherwise the
      document's biases and weights, in order. */
  function TransformDataToModel(doc: MM.ModelDocument, width: FloatWidth): (t: Option<Transfer>)
    requires doc.ModelDocument? ==> doc.precision.Some?
    ensures t.Some? <==> doc.ModelDocument? && doc.precision.value == PrecisionTag(width)
    ensures t.Some? ==> t.value.biases == doc.biases && t.value.weights == doc.weights
  {
    if doc.UnparsableDocument? then None
    else if doc.precision.value != PrecisionTag(width) then None
    else Some(Transfer(doc.biases, doc.weights))
  }

  /** A document tagged for the other width is always rejected. */
  lemma PrecisionMismatchRejected(doc: MM.ModelDocument)
    requires doc.ModelDocument? && doc.precision.Some?
    ensures TransformDataToModel(doc, Single).None? || TransformDataToModel(doc, Double).None?
  {
    assert PrecisionTag(Single) != PrecisionTag(Double) by {
      assert PrecisionTag(Single)[0] != PrecisionTag(Double)[0];
    }
  }

  /** The receiver's buffer after one payload. Start markers and data follow
      the framing rule. The end marker hands the buffer, a stream, to the
      JSON parser, which consumes the first `consumed` characters it reads. */
  function AfterPayload(buffer: string, payload: string, consumed: nat): (b: string)
    requires consumed <= |buffer|
    ensures StartsWith(payload, START_MARKER) ==> b == []
    ensures !StartsWith(payload, START_MARKER) && StartsWith(payload, END_MARKER) ==> buffer == buffer[..consumed] + b
    ensures !LooksLikeMarker(payload) ==> b == buffer + payload
  {
    if !StartsWith(payload, START_MARKER) && StartsWith(payload, END_MARKER) then buffer[consumed..]
    else Absorb(buffer, payload)
  }

  /** The MQTT receiver with its reassembly buffer and the model slot that
      the end of a transfer fills. */
  class ModelReceiver {
    const topic: string
    var incomingPayload: string
    var newModel: Option<Transfer>
    var trainNewModel: bool

    constructor (topic: string)
      ensures this.topic == topic
      ensures incomingPayload == [] && newModel == None && !trainNewModel
    {
      this.topic := topic;
      incomingPayload := [];
      newModel := None;
      trainNewModel := false;
    }

    /** `mqttCallback`: payloads on other topics are ignored; otherwise the
        buffer follows `AfterPayload`, and on the end marker a document
        that decodes replaces the new model and requests training. How far
        the parser reads into the buffer, `consumed`, is the JSON library's
        outcome. */
    method MqttCallback(topic: string, payload: string, width: FloatWidth, decode: string -> MM.ModelDocument,
                        consumed: nat)
      requires (topic == this.topic && !StartsWith(payload, START_MARKER) && StartsWith(payload, END_MARKER)
                && decode(incomingPayload).ModelDocument?) ==> decode(incomingPayload).precision.Some?
      requires consumed <= |incomingPayload|
      modifies this
      ensures topic != this.topic ==>
        incomingPayload == old(incomingPayload) && newModel == old(newModel) && trainNewModel == old(trainNewModel)
      ensures topic == this.topic ==> incomingPayload == AfterPayload(old(incomingPayload), payload, consumed)
      ensures var ending := topic == this.topic && !StartsWith(payload, START_MARKER) && StartsWith(payload, END_MARKER);
        var decoded := if ending then TransformDataToModel(decode(old(incomingPayload)), width) else None;
        && (decoded.Some? ==> newModel == decoded && trainNewModel)
        && (decoded.None? ==> newModel == old(newModel) && trainNewModel == old(trainNewModel))
    {
      if topic != this.topic {
        return;
      }
      if StartsWith(payload, START_MARKER) {
        incomingPayload := [];
      } else if StartsWith(payload, END_MARKER) {
        var m := TransformDataToModel(decode(incomingPayload), width);
        incomingPayload := incomingPayload[consumed..];
        if m.Some? {
          newModel := m;
          trainNewModel := true;
        }
      } else {
        incomingPayload := incomingPayload + payload;
      }
    }
  }

  /** `sendModelToNetwork`: the start marker, then the serialized document
      in chunks of at most `messageSize - 1` characters (one byte of the
      buffer holds the terminator), then the end marker. */
  method SendModelToNetwork(document: string, messageSize: nat) returns (published: seq<string>)
    requires messageSize >= 2
    ensures published == Framed(document, messageSize - 1)
    ensures forall k :: 1 <= k < |published| - 1 ==> 1 <= |published[k]| <= messageSize - 1
    ensures Concat(published[1..|published| - 1]) == document
  {
    var size := messageSize - 1;
    published := [START_MARKER];
    var bytesRemaining := |document|;
    var currentPosition := 0;
    while bytesRemaining > 0
      invariant 0 <= currentPosition && 0 <= bytesRemaining
      invariant currentPosition + bytesRemaining == |document|
      invariant published + Chunks(document[currentPosition..], size) == [START_MARKER] + Chunks(document, size)
      decreases bytesRemaining
    {
      var bytesToRead := if size < bytesRemaining then size else bytesRemaining;
      var chunk := document[currentPosition..currentPosition + bytesToRead];
      ChunksStep(document, currentPosition, size);
      published := published + [chunk];
      bytesRemaining := bytesRemaining - bytesToRead;
      currentPosition := currentPosition + bytesToRead;
    }
    assert document[currentPosition..] == [];
    assert published == [START_MARKER] + Chunks(document, size);
    published := published + [END_MARKER];
    assert published[1..|published| - 1] == Chunks(document, size);
    ChunksBounded(document, size);
    ChunksConcat(document, size);
  }

  /** A receiver subscribed to the sender's topic reaches the end marker
      holding exactly the sender's document, so that is what it decodes;
      once the parser has read the whole document the buffer is empty, and
      a repeated end marker finds nothing left to decode. */
  lemma SendReceiveRoundTrip(buffer: string, document: string, messageSize: nat)
    requires messageSize >= 2
    requires NoMarkerChunks(document, messageSize - 1)
    ensures var sent := Framed(document, messageSize - 1);
      && AbsorbAll(buffer, sent[..|sent| - 1]) == document
      && AfterPayload(document, sent[|sent| - 1], |document|) == []
  {
    var sent := Framed(document, messageSize - 1);
    assert sent[..|sent| - 1] == [START_MARKER] + Chunks(document, messageSize - 1);
    TransferRoundTrip(buffer, document, messageSize - 1);
    assert StartsWith(END_MARKER, END_MARKER) && !StartsWith(END_MARKER, START_MARKER) by {
      assert END_MARKER[..|END_MARKER|] == END_MARKER;
      assert END_MARKER[0] != START_MARKER[0];
    }
  }
}
