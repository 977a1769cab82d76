// The transfer and string helpers of examples/fonte.cpp: `split`, the
// partitioned sender of the weights file, and the MQTT callback that
// reassembles the aggregated weights. The file system and JSON parsing are
// outside the model; their outcomes are parameters.
module Fonte {
  import opened Wrappers
  import opened Text
  import opened Framing

  /** The sender's partition size. */
  const CHUNK_SIZE: nat := 128

  /** `split`: write the pieces of `str` between delimiters into `result`,
      at most `maxParts` of them, the last piece written being the rest of
      the string when its delimiters run out. An empty string writes
      nothing. `written` counts the entries written; the rest of `result`
      is untouched. */
  method Split(str: string, delimiter: char, result: array<string>, maxParts: int) returns (ghost written: nat)
    requires maxParts <= result.Length
    modifies result
    ensures written <= |Segments(str, delimiter)| && written <= result.Length
    ensures written == if maxParts <= 0 || |str| == 0 then 0
                       else if |Segments(str, delimiter)| < maxParts then |Segments(str, delimiter)|
                       else maxParts
    ensures result[..written] == Segments(str, delimiter)[..written]
    ensures result[written..] == old(result[written..])
    ensures |str| > 0 && Count(str, delimiter) < maxParts ==> Join(result[..written], delimiter) == str
  {
    ghost var original := result[..];
    ghost var pieces := Segments(str, delimiter);
    var currentPart := 0;
    var start := 0;
    var end := 0;
    written := 0;
    while end < |str| && currentPart < maxParts
      invariant 0 <= start <= |str|
      invariant 0 <= currentPart <= result.Length && (currentPart == 0 || currentPart <= maxParts)
      invariant written == currentPart
      invariant end < |str| || (currentPart == 0 && |str| == 0)
      invariant currentPart <= |pieces|
      invariant pieces[currentPart..] == SegmentsFrom(str, delimiter, start)
      invariant result[..] == pieces[..currentPart] + original[currentPart..]
      decreases |str| + 1 - start
    {
      ghost var before := result[..];
      end := IndexOf(str, delimiter, start);
      if end == -1 {
        // the last piece
        Store(pieces, original, before, currentPart, str[start..]);
        result[currentPart] := str[start..];
        assert result[..] == before[currentPart := str[start..]];
        written := currentPart + 1;
        break;
      }
      Store(pieces, original, before, currentPart, str[start..end]);
      result[currentPart] := str[start..end];
      assert result[..] == before[currentPart := str[start..end]];
      assert pieces[currentPart + 1..] == pieces[currentPart..][1..];
      start := end + 1;
      currentPart := currentPart + 1;
      written := currentPart;
    }
    SplitWritten(str, delimiter, maxParts, result[..], original, written);
  }

  /** Storing the next piece at index `i` of an array whose first `i`
      entries are the pieces so far extends that prefix by one. */
  lemma Store(pieces: seq<string>, original: seq<string>, stored: seq<string>, i: nat, x: string)
    requires i < |pieces| && i < |original| && pieces[i] == x
    requires stored == pieces[..i] + original[i..]
    ensures stored[i := x] == pieces[..i + 1] + original[i + 1..]
  {
  }

  /** An array holding the first `w` pieces of `str` followed by its
      original tail, where `w` is all of the pieces or at least `maxParts`:
      when every piece fit, the written entries join back into `str`. */
  lemma SplitWritten(str: string, delimiter: char, maxParts: int, stored: seq<string>, original: seq<string>, w: nat)
    requires w <= |Segments(str, delimiter)| && w <= |original|
    requires stored == Segments(str, delimiter)[..w] + original[w..]
    requires w == |Segments(str, delimiter)| || w >= maxParts || |str| == 0
    ensures stored[..w] == Segments(str, delimiter)[..w] && stored[w..] == original[w..]
    ensures |str| > 0 && Count(str, delimiter) < maxParts ==> Join(stored[..w], delimiter) == str
  {
    var pieces := Segments(str, delimiter);
    assert stored[..w] == pieces[..w];
    SegmentsCount(str, delimiter);
    if |str| > 0 && Count(str, delimiter) < maxParts {
      assert stored[..w] == pieces;
      JoinSegments(str, delimiter);
    }
  }

  /** `sendWeightsViaMQTTPartitioned`: on the topic of this device, the
      start marker, the weights file in chunks of at most 128 characters,
      the end marker; nothing at all when the file is missing or cannot
      be opened (`weightsFile` is then `None`). A failed publish is only
      logged. */
  method SendWeightsViaMQTTPartitioned(espId: string, weightsFile: Option<string>)
    returns (topic: string, published: seq<string>)
    ensures topic == "esp32/" + espId + "/weights"
    ensures weightsFile.None? ==> published == []
    ensures weightsFile.Some? ==> published == Framed(weightsFile.value, CHUNK_SIZE)
    ensures weightsFile.Some? ==> forall k :: 1 <= k < |published| - 1 ==> 1 <= |published[k]| <= CHUNK_SIZE
  {
    topic := "esp32/" + espId + "/weights";
    if weightsFile.None? {
      return topic, [];
    }
    var file := weightsFile.value;
    published := [START_MARKER];
    var position := 0;
    while position < |file|
      invariant 0 <= position <= |file|
      invariant published + Chunks(file[position..], CHUNK_SIZE) == [START_MARKER] + Chunks(file, CHUNK_SIZE)
      decreases |file| - position
    {
      var bytesRead := if CHUNK_SIZE < |file| - position then CHUNK_SIZE else |file| - position;
      ChunksStep(file, position, CHUNK_SIZE);
      published := published + [file[position..position + bytesRead]];
      position := position + bytesRead;
    }
    assert file[position..] == [];
    assert published == [START_MARKER] + Chunks(file, CHUNK_SIZE);
    published := published + [END_MARKER];
    assert published[1..|published| - 1] == Chunks(file, CHUNK_SIZE);
    ChunksBounded(file, CHUNK_SIZE);
  }

  /** The receiving side with its reassembly buffer. */
  class WeightsReceiver {
    var receivedPayload: string

    constructor ()
      ensures receivedPayload == []
    {
      receivedPayload := [];
    }

    /** `mqttCallback`: the start marker empties the buffer, another
        payload is appended. On the end marker a buffer that does not parse
        (`parses` false) or an aggregated-weights file that cannot be
        opened ends the callback with nothing changed. A successful write
        is followed by loading weights into freed memory, which the
        requires excludes. */
    method MqttCallback(payload: string, parses: bool, fileOpens: bool)
      requires !StartsWith(payload, START_MARKER) && StartsWith(payload, END_MARKER) ==> !(parses && fileOpens)
      modifies this
      ensures receivedPayload == Absorb(old(receivedPayload), payload)
    {
      if StartsWith(payload, START_MARKER) {
        receivedPayload := [];
        return;
      }
      if StartsWith(payload, END_MARKER) {
        if !parses {
          return;
        }
        // the aggregated weights file could not be opened for writing
        return;
      }
      var i := 0;
      var appended := receivedPayload;
      while i < |payload|
        invariant 0 <= i <= |payload|
        invariant appended == old(receivedPayload) + payload[..i]
      {
        appended := appended + [payload[i]];
        i := i + 1;
      }
      assert payload[..i] == payload;
      receivedPayload := appended;
    }
  }

  /** A complete partitioned send, fed to a receiver, leaves it holding the
      weights file. */
  lemma PartitionedRoundTrip(buffer: string, file: string)
    requires NoMarkerChunks(file, CHUNK_SIZE)
    ensures AbsorbAll(buffer, Framed(file, CHUNK_SIZE)) == file
  {
    TransferRoundTrip(buffer, file, CHUNK_SIZE);
  }
}
