/** Streaming a retained source to disk in bounded chunks. */
module SnapshotChunks {
  import opened EventJournal
  import opened Utf8

  /** At least two units, so that giving one up never stalls. */
  const SOURCE_CHUNK_UNITS := 16384

  datatype Failure = Unavailable | BudgetExceeded | NoProgress
  datatype Streamed = Streamed(bytes: nat, digested: Bytes) | Failed(failure: Failure)

  /** Where the chunk that starts at `offset` ends: never inside a surrogate pair. */
  function ChunkEnd(text: Text, offset: nat): (end: nat)
    requires offset < |text|
    ensures offset < end <= |text|
    ensures !Straddles(text[offset..end], text[end..])
  {
    var end := if offset + SOURCE_CHUNK_UNITS < |text| then offset + SOURCE_CHUNK_UNITS else |text|;
    if end < |text| && IsHighSurrogate(text[end - 1]) && IsLowSurrogate(text[end]) then end - 1 else end
  }

  class SourceFile {
    var content: Bytes

    constructor ()
      ensures content == []
    {
      content := [];
    }

    /** A write may take fewer bytes than offered, or none. */
    method Write(chunk: Bytes, from: nat) returns (written: nat)
      requires from < |chunk|
      modifies this
      ensures written <= |chunk| - from
      ensures content == old(content) + chunk[from..from + written]
    {
      written :| 0 <= written <= |chunk| - from;
      content := content + chunk[from..from + written];
    }
  }

  /** Writes the whole chunk, however few bytes each write takes; without progress it gives up. */
  method WriteAll(file: SourceFile, chunk: Bytes) returns (failure: Option<Failure>)
    modifies file
    ensures failure.None? ==> file.content == old(file.content) + chunk
    ensures failure.Some? ==> failure.value != BudgetExceeded
    ensures file.content <= old(file.content) + chunk
  {
    var written := 0;
    while written < |chunk|
      invariant written <= |chunk|
      invariant file.content == old(file.content) + chunk[..written]
      decreases |chunk| - written
    {
      var available: bool := *;
      if !available {
        return Some(Unavailable);
      }
      var n := file.Write(chunk, written);
      assert chunk[..written] + chunk[written..written + n] == chunk[..written + n];
      if n == 0 {
        return Some(NoProgress);
      }
      written := written + n;
    }
    assert chunk[..|chunk|] == chunk;
    failure := None;
  }

  /** On success the file holds, the hash has seen and the count is that of exactly the UTF-8 encoding of
    * the whole text, within the budget; a failure for lack of budget means it really does not fit. */
  method StreamSource(file: SourceFile, text: Text, remainingByteBudget: nat) returns (result: Streamed)
    requires file.content == []
    modifies file
    ensures result.Streamed? ==>
              && result.digested == Encode(text) && file.content == Encode(text)
              && result.bytes == |Encode(text)| <= remainingByteBudget
    ensures result == Failed(BudgetExceeded) ==> |Encode(text)| > remainingByteBudget
    ensures |file.content| <= remainingByteBudget
    ensures file.content <= Encode(text)
  {
    var bytes, offset := 0, 0;
    var hashed: Bytes := [];
    assert text[..0] == [];
    while offset < |text|
      invariant offset <= |text| && bytes == |hashed| <= remainingByteBudget
      invariant hashed == Encode(text[..offset]) && file.content == hashed
      invariant !Straddles(text[..offset], text[offset..])
      decreases |text| - offset
    {
      Prefix(text, offset);
      var available: bool := *;
      if !available {
        return Failed(Unavailable);
      }
      var end := ChunkEnd(text, offset);
      var chunk := Encode(text[offset..end]);
      Advance(text, offset, end);
      Prefix(text, end);
      bytes := bytes + |chunk|;
      if bytes > remainingByteBudget {
        return Failed(BudgetExceeded);
      }
      hashed := hashed + chunk;
      var failure := WriteAll(file, chunk);
      if failure.Some? {
        return Failed(failure.value);
      }
      offset := end;
    }
    assert text[..|text|] == text;
    result := Streamed(bytes, hashed);
  }

  /** What has been encoded so far is a prefix of the whole. */
  lemma Prefix(text: Text, offset: nat)
    requires offset <= |text| && !Straddles(text[..offset], text[offset..])
    ensures Encode(text) == Encode(text[..offset]) + Encode(text[offset..])
  {
    assert text == text[..offset] + text[offset..];
    EncodeConcat(text[..offset], text[offset..]);
  }

  lemma Advance(text: Text, offset: nat, end: nat)
    requires offset < end <= |text|
    requires !Straddles(text[..offset], text[offset..]) && !Straddles(text[offset..end], text[end..])
    ensures Encode(text[..end]) == Encode(text[..offset]) + Encode(text[offset..end])
    ensures !Straddles(text[..end], text[end..])
  {
    assert text[..end] == text[..offset] + text[offset..end];
    EncodeConcat(text[..offset], text[offset..end]);
  }

  /** The encodings of the chunks, one after the other. */
  function ChunkedEncoding(text: Text, offset: nat): Bytes
    requires offset <= |text|
    decreases |text| - offset
  {
    if offset == |text| then [] else
    var end := ChunkEnd(text, offset);
    Encode(text[offset..end]) + ChunkedEncoding(text, end)
  }

  /** Chunking is transparent, for every text and from every chunk boundary on. */
  lemma {:induction false} ChunkingIsTransparent(text: Text, offset: nat)
    requires offset <= |text|
    ensures ChunkedEncoding(text, offset) == Encode(text[offset..])
    decreases |text| - offset
  {
    if offset < |text| {
      hide Encode, ChunkEnd, Straddles;
      var end := ChunkEnd(text, offset);
      ChunkingIsTransparent(text, end);
      EncodeSplit(text, offset, end);
    }
  }

  lemma EncodeSplit(text: Text, offset: nat, end: nat)
    requires offset <= end <= |text| && !Straddles(text[offset..end], text[end..])
    ensures Encode(text[offset..]) == Encode(text[offset..end]) + Encode(text[end..])
  {
    EncodeConcat(text[offset..end], text[end..]);
    assert text[offset..] == text[offset..end] + text[end..];
  }
}
