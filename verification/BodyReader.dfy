/**
 The bounded body reader of the gateway (apps/gateway/src/request-body.ts, readBoundedJsonBody) and the
 number of bytes a request is admitted for (admissionBodyBytes).
 */
module BodyReader {
  import opened Prelude
  import opened BodyFraming

  type Byte = bv8

  function AdmissionBodyBytes(framing: Framing, maxBytes: nat): Result<nat, BodyError> {
    match framing
    case Undeclared => Ok(maxBytes)
    case Declared(n) => if n > maxBytes then Err(RequestBodyTooLarge) else Ok(n)
  }

  function Flatten(chunks: seq<seq<Byte>>): seq<Byte>
    decreases |chunks|
  {
    if chunks == [] then [] else Flatten(chunks[..|chunks| - 1]) + chunks[|chunks| - 1]
  }

  /** What reading a body of the given bytes must come to. */
  function Outcome(framing: Framing, maxBytes: nat, body: seq<Byte>): Result<seq<Byte>, BodyError> {
    match framing
    case Declared(n) =>
      if n > maxBytes then Err(RequestBodyTooLarge)
      else if |body| < n then Err(IncompleteRequestBody)
      else if |body| > n then Err(InvalidContentLength)
      else Ok(body)
    case Undeclared => if |body| > maxBytes then Err(RequestBodyTooLarge) else Ok(body)
  }

  /** Flattening more chunks only adds bytes. */
  lemma {:induction false} FlattenPrefix(chunks: seq<seq<Byte>>, i: nat)
    requires i <= |chunks|
    ensures Flatten(chunks[..i]) <= Flatten(chunks)
    decreases |chunks|
  {
    if i == |chunks| {
      assert chunks[..i] == chunks;
    } else {
      FlattenPrefix(chunks[..|chunks| - 1], i);
      assert chunks[..|chunks| - 1][..i] == chunks[..i];
    }
  }

  /**
   The read loop. The outcome depends on the concatenated bytes only, however they are cut into chunks: the
   body comes back whole when it has exactly the declared length, or no declared one, within the maximum, and
   each error has its own case. `kept`, the bytes held when the loop ends, never exceeds what the request was
   admitted for; no body at all is an empty list of chunks.
   */
  method ReadBoundedJsonBody(chunks: seq<seq<Byte>>, maxBytes: nat, framing: Framing)
    returns (r: Result<seq<Byte>, BodyError>, kept: seq<Byte>)
    requires 0 < maxBytes <= MAX_SAFE_INTEGER
    ensures r == Outcome(framing, maxBytes, Flatten(chunks))
    ensures var total := |Flatten(chunks)|;
      && (r.Ok? <==> total <= maxBytes && (framing.Declared? ==> total == framing.bytes))
      && (r.Ok? ==> r.value == kept == Flatten(chunks))
      && (r == Err(IncompleteRequestBody) <==> framing.Declared? && total < framing.bytes <= maxBytes)
      && (r == Err(InvalidContentLength) <==>
            framing.Declared? && framing.bytes <= maxBytes && framing.bytes < total)
      && (r == Err(RequestBodyTooLarge) <==> maxBytes < if framing.Declared? then framing.bytes else total)
    ensures kept <= Flatten(chunks)
    ensures AdmissionBodyBytes(framing, maxBytes).Ok? ==> |kept| <= AdmissionBodyBytes(framing, maxBytes).value
    ensures AdmissionBodyBytes(framing, maxBytes).Err? ==> kept == []
  {
    kept := [];
    if framing.Declared? && framing.bytes > maxBytes {
      return Err(RequestBodyTooLarge), [];
    }
    var totalBytes := 0;
    var i := 0;
    while i < |chunks|
      invariant 0 <= i <= |chunks|
      invariant kept == Flatten(chunks[..i]) && totalBytes == |kept|
      invariant |kept| <= AdmissionBodyBytes(framing, maxBytes).value
    {
      var chunk := chunks[i];
      FlattenPrefix(chunks, i);
      FlattenPrefix(chunks, i + 1);
      assert chunks[..i + 1][..i] == chunks[..i];
      if framing.Declared? && |chunk| > framing.bytes - totalBytes {
        return Err(InvalidContentLength), kept;
      }
      if |chunk| > maxBytes - totalBytes {
        return Err(RequestBodyTooLarge), kept;
      }
      kept := kept + chunk;
      totalBytes := totalBytes + |chunk|;
      i := i + 1;
    }
    assert chunks[..i] == chunks;
    if framing.Declared? && totalBytes < framing.bytes {
      return Err(IncompleteRequestBody), kept;
    }
    r := Ok(kept);
  }
}
