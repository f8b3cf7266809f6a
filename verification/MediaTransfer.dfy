// Camera media arrives through the relay in ranges of 48 KiB, each range in one
// base64 reply with its own length and digest.
module MediaTransfer {
  import opened Prelude
  import opened Base64

  const CHUNK := 49_152
  const MAX := 134_217_728
  const MAX_ENCODED := 65_536
  // Milliseconds a whole transfer may take.
  const LIMIT := 120_000

  // SHA-256, taken to be injective.
  datatype Digest = Sha256(content: seq<Byte>)

  // The fields read of a reply; None where absent or ill-typed.
  datatype Response = Response(
    status: nat,
    totalBytes: Option<nat>,
    artifactOffset: Option<nat>,
    contentType: Option<string>,
    dataBase64: Option<string>,
    bytes: Option<nat>,
    sha256: Option<Digest>)

  // One request of a transfer: the reply if the relay gave one, when it came, and
  // whether the cache file took the bytes.
  datatype Round = Round(reply: Option<Response>, at: nat, stored: bool)

  predicate SameMime(a: string, b: string) {
    AsciiLower(a) == AsciiLower(b)
  }

  function RangeEnd(offset: nat): int {
    Min(offset + CHUNK - 1, MAX - 1)
  }

  // `end + 1 - offset` bytes or the rest of the artifact: the subtraction in the
  // length check never goes below zero.
  function DecodeRemote(r: Response, offset: nat, end: nat, mime: string): Result<(seq<Byte>, nat)>
    requires offset <= end
  {
    if r.status in {400, 401, 403, 404, 410, 416} then Err("denied")
    else if r.status != 200 && r.status != 206 then Err("invalid")
    else if r.totalBytes.None? || r.totalBytes.value <= offset || r.totalBytes.value > MAX then Err("invalid")
    else
      var total := r.totalBytes.value;
      if || r.artifactOffset != Some(offset)
         || (r.status == 200 && (offset != 0 || total > end + 1))
         || r.contentType.None? || !SameMime(r.contentType.value, mime) then
        Err("invalid")
      else if r.dataBase64.None? || Utf8Len(r.dataBase64.value) > MAX_ENCODED then Err("invalid")
      else
        var decoded := Decode(r.dataBase64.value);
        if decoded.None? then Err("invalid")
        else
          var wanted: nat := Min(end + 1, total) - offset;
          if || |decoded.value| != wanted
             || r.bytes != Some(|decoded.value|)
             || r.sha256 != Some(Sha256(decoded.value)) then
            Err("invalid")
          else Ok((decoded.value, total))
  }

  // The same letter, in either case.
  predicate SameLetter(c: char, d: char) {
    || c == d
    || ('A' <= c <= 'Z' && d as int == c as int + 32)
    || ('A' <= d <= 'Z' && c as int == d as int + 32)
  }

  // The same texts but for the case of the letters A to Z.
  predicate SameButCase(a: string, b: string) {
    |a| == |b| && forall i :: 0 <= i < |a| ==> SameLetter(a[i], b[i])
  }

  lemma LettersAgree(c: char, d: char)
    ensures AsciiLower([c])[0] == AsciiLower([d])[0] <==> SameLetter(c, d)
  {
    if 'A' <= c <= 'Z' {
      assert AsciiLower([c])[0] as int == c as int + 32;
    }
    if 'A' <= d <= 'Z' {
      assert AsciiLower([d])[0] as int == d as int + 32;
    }
  }

  lemma MimesAgree(a: string, b: string)
    ensures SameMime(a, b) <==> SameButCase(a, b)
  {
    var x, y := AsciiLower(a), AsciiLower(b);
    if |a| == |b| {
      forall i | 0 <= i < |a|
        ensures x[i] == y[i] <==> SameLetter(a[i], b[i])
      {
        LettersAgree(a[i], b[i]);
      }
      assert x == y <==> forall i :: 0 <= i < |a| ==> x[i] == y[i];
    }
  }

  // A reply that carries `content` as the bytes at `offset` of `total`.
  ghost predicate Carries(r: Response, mime: string, offset: nat, end: nat, content: seq<Byte>, total: nat) {
    && (r.status == 206 || (r.status == 200 && offset == 0 && total <= end + 1))
    && r.totalBytes == Some(total)
    && r.artifactOffset == Some(offset)
    && r.contentType.Some? && SameButCase(r.contentType.value, mime)
    && r.dataBase64.Some? && Spells(r.dataBase64.value, content)
    && r.bytes == Some(|content|)
    && r.sha256 == Some(Sha256(content))
  }

  // The checks accept exactly the canonical replies for the requested range; the
  // limit on the text never turns a full chunk away.
  lemma AcceptedReplies(r: Response, offset: nat, mime: string, content: seq<Byte>, total: nat)
    requires offset < 134_217_728
    ensures var end := Min(offset + 49_151, 134_217_727);
            DecodeRemote(r, offset, end, mime) == Ok((content, total)) <==>
            && offset < total <= 134_217_728
            && |content| == Min(end + 1, total) - offset
            && Carries(r, mime, offset, end, content, total)
  {
    hide Encode, Decode, Utf8Len, AsciiLower, Spells;
    EncodedLength(content);
    EncodedIsAscii(content);
    if r.contentType.Some? {
      MimesAgree(r.contentType.value, mime);
    }
    if r.dataBase64.Some? {
      DecodesByTheTable(r.dataBase64.value, content);
      EncodeSpells(r.dataBase64.value, content);
    }
  }

  // Permission that was withdrawn is told apart from an answer that is wrong.
  lemma RefusalsAreDenied(r: Response, offset: nat, end: nat, mime: string)
    requires offset <= end
    ensures DecodeRemote(r, offset, end, mime) == Err("denied") <==>
            || r.status == 400 || r.status == 401 || r.status == 403 || r.status == 404 || r.status == 410
            || r.status == 416
  {
    hide Decode, Utf8Len, AsciiLower;
    assert "denied" != "invalid" by {
      assert "denied"[0] != "invalid"[0];
    }
  }

  // A full chunk fills the limit on the text to the last character.
  lemma FullChunkFillsTheLimit(content: seq<Byte>)
    ensures |content| == 48 * 1024 ==> Utf8Len(Encode(content)) == 65_536 == MAX_ENCODED
    ensures |content| > 48 * 1024 ==> Utf8Len(Encode(content)) > MAX_ENCODED
  {
    hide Encode, Utf8Len;
    EncodedLength(content);
    EncodedIsAscii(content);
  }

  // ------------------------------------------------------------ the transfer

  // The bytes stored from round `i` on.
  function Fetch(rounds: nat -> Round, mime: string, i: nat, total: Option<nat>, flushed: bool): Result<seq<Byte>>
    requires i * CHUNK < MAX
    decreases MAX - i * CHUNK
  {
    var offset := i * CHUNK;
    var round := rounds(i);
    if round.at > LIMIT then Err("timed out")
    else if round.reply.None? then Err("relay")
    else
      var decoded := DecodeRemote(round.reply.value, offset, RangeEnd(offset), mime);
      if decoded.Err? then Err(decoded.error)
      else if total.Some? && total.value != decoded.value.1 then Err("changed")
      else if !round.stored then Err("write")
      else if offset + |decoded.value.0| == decoded.value.1 then
        (if flushed then Ok(decoded.value.0) else Err("flush"))
      else
        ChunksAreWhole(round.reply.value, offset, mime);
        Joined(decoded.value.0, Fetch(rounds, mime, i + 1, Some(decoded.value.1), flushed))
  }

  // Every range but the last is exactly one chunk, so the next offset is the next
  // multiple of the chunk size and stays below the cap.
  lemma ChunksAreWhole(r: Response, offset: nat, mime: string)
    requires offset < MAX
    ensures var d := DecodeRemote(r, offset, RangeEnd(offset), mime);
            d.Ok? ==>
              && 0 < |d.value.0| <= CHUNK && offset + |d.value.0| <= d.value.1 <= MAX
              && (offset + |d.value.0| < d.value.1 ==> |d.value.0| == CHUNK)
  {
    hide Decode, Utf8Len, AsciiLower;
  }

  // What is on file so far, then the rest.
  function Joined(file: seq<Byte>, rest: Result<seq<Byte>>): Result<seq<Byte>> {
    if rest.Err? then rest else Ok(file + rest.value)
  }

  lemma JoinedTwice(a: seq<Byte>, b: seq<Byte>, rest: Result<seq<Byte>>)
    ensures Joined(a, Joined(b, rest)) == Joined(a + b, rest)
    ensures Joined([], rest) == rest
  {
    if rest.Ok? {
      assert a + (b + rest.value) == (a + b) + rest.value;
      assert [] + rest.value == rest.value;
    }
  }

  method Download(rounds: nat -> Round, mime: string, flushed: bool)
    returns (result: Result<Unit>, file: seq<Byte>, requested: seq<(nat, nat)>)
    ensures result.Ok? <==> Fetch(rounds, mime, 0, None, flushed).Ok?
    ensures result.Ok? ==> file == Fetch(rounds, mime, 0, None, flushed).value
    ensures result.Err? ==> result.error == Fetch(rounds, mime, 0, None, flushed).error
    ensures result.Ok? ==> |requested| * CHUNK >= |file| > (|requested| - 1) * CHUNK
    ensures forall i :: 0 <= i < |requested| ==>
                          requested[i] == (i * 49_152, Min(i * 49_152 + 49_151, 134_217_727))
  {
    hide Decode, Utf8Len, DecodeRemote;
    JoinedTwice([], [], Fetch(rounds, mime, 0, None, flushed));
    var offset: nat := 0;
    var total: Option<nat> := None;
    file := [];
    requested := [];
    while true
      invariant offset == |requested| * CHUNK == |file| < MAX
      invariant forall i :: 0 <= i < |requested| ==>
                              requested[i] == (i * 49_152, Min(i * 49_152 + 49_151, 134_217_727))
      invariant Fetch(rounds, mime, 0, None, flushed) == Joined(file, Fetch(rounds, mime, |requested|, total, flushed))
      decreases MAX - offset
    {
      var end := RangeEnd(offset);
      var round := rounds(|requested|);
      requested := requested + [(offset, end)];
      if round.at > LIMIT {
        return Err("timed out"), file, requested;
      }
      if round.reply.None? {
        return Err("relay"), file, requested;
      }
      var decoded := DecodeRemote(round.reply.value, offset, end, mime);
      ChunksAreWhole(round.reply.value, offset, mime);
      if decoded.Err? {
        return Err(decoded.error), file, requested;
      }
      var (bytes, reportedTotal) := decoded.value;
      if total.Some? && total.value != reportedTotal {
        return Err("changed"), file, requested;
      }
      total := Some(reportedTotal);
      if !round.stored {
        return Err("write"), file, requested;
      }
      ghost var before := file;
      file := file + bytes;
      offset := offset + |bytes|;
      if offset == reportedTotal {
        if !flushed {
          return Err("flush"), file, requested;
        }
        return Ok(Unit), file, requested;
      }
      JoinedTwice(before, bytes, Fetch(rounds, mime, |requested|, total, flushed));
    }
  }

  // ------------------------------------------------- what a transfer promises

  function Chunks(total: nat): nat {
    (total + CHUNK - 1) / CHUNK
  }

  // Round `i` stored exactly its part of `file`.
  ghost predicate Delivers(round: Round, mime: string, i: nat, file: seq<Byte>) {
    && i * CHUNK < |file|
    && round.at <= 120_000 && round.stored && round.reply.Some?
    && Carries(round.reply.value, mime, i * CHUNK, RangeEnd(i * CHUNK),
               file[i * CHUNK..Min((i + 1) * CHUNK, |file|)], |file|)
  }

  // Rounds `i` onwards deliver the rest of `file`, each its own part, with no gap
  // and no overlap.
  ghost predicate Assembles(rounds: nat -> Round, mime: string, i: nat, file: seq<Byte>) {
    && i * CHUNK < |file| <= 134_217_728
    && forall j :: i <= j < Chunks(|file|) ==> Delivers(rounds(j), mime, j, file)
  }

  lemma ChunkBounds(total: nat, i: nat)
    ensures i < Chunks(total) <==> i * CHUNK < total
    ensures i + 1 == Chunks(total) <==> i * CHUNK < total <= (i + 1) * CHUNK
  {
  }

  lemma {:induction false} FetchAssembles(rounds: nat -> Round, mime: string, i: nat, total: Option<nat>, flushed: bool,
                                          before: seq<Byte>)
    requires i * CHUNK < MAX && |before| == i * CHUNK
    requires Fetch(rounds, mime, i, total, flushed).Ok?
    ensures var file := before + Fetch(rounds, mime, i, total, flushed).value;
            && flushed && Assembles(rounds, mime, i, file)
            && (total.Some? ==> total.value == |file|)
    decreases MAX - i * CHUNK
  {
    hide DecodeRemote, Carries;
    var file := before + Fetch(rounds, mime, i, total, flushed).value;
    var r := rounds(i).reply.value;
    var (bytes, t) := DecodeRemote(r, i * CHUNK, RangeEnd(i * CHUNK), mime).value;
    ChunksAreWhole(r, i * CHUNK, mime);
    AcceptedReplies(r, i * CHUNK, mime, bytes, t);
    ChunkBounds(|file|, i);
    if i * CHUNK + |bytes| == t {
      assert file == before + bytes;
      assert file[i * CHUNK..Min((i + 1) * CHUNK, |file|)] == bytes;
    } else {
      var rest := Fetch(rounds, mime, i + 1, Some(t), flushed).value;
      FetchAssembles(rounds, mime, i + 1, Some(t), flushed, before + bytes);
      assert before + bytes + rest == file;
      assert file[i * CHUNK..(i + 1) * CHUNK] == bytes;
    }
  }

  lemma {:induction false} AssembledFetches(rounds: nat -> Round, mime: string, i: nat, total: Option<nat>,
                                            file: seq<Byte>)
    requires Assembles(rounds, mime, i, file) && (total.Some? ==> total.value == |file|)
    ensures Fetch(rounds, mime, i, total, true) == Ok(file[i * CHUNK..])
    decreases MAX - i * CHUNK
  {
    hide DecodeRemote, Carries;
    ChunkBounds(|file|, i);
    assert Delivers(rounds(i), mime, i, file);
    var bytes := file[i * CHUNK..Min((i + 1) * CHUNK, |file|)];
    AcceptedReplies(rounds(i).reply.value, i * CHUNK, mime, bytes, |file|);
    if |file| > (i + 1) * CHUNK {
      AssembledFetches(rounds, mime, i + 1, Some(|file|), file);
      assert file[i * CHUNK..] == bytes + file[(i + 1) * CHUNK..];
    } else {
      assert file[i * CHUNK..] == bytes;
    }
  }

  // Against any responder: a transfer succeeds just when every round delivered
  // its own part of one file of 1 byte to 128 MiB, and then that is what it stored.
  lemma TransferIsExact(rounds: nat -> Round, mime: string, flushed: bool, file: seq<Byte>)
    ensures Fetch(rounds, mime, 0, None, flushed) == Ok(file) <==> flushed && Assembles(rounds, mime, 0, file)
  {
    hide Fetch, Assembles;
    if Fetch(rounds, mime, 0, None, flushed) == Ok(file) {
      FetchAssembles(rounds, mime, 0, None, flushed, []);
      assert [] + file == file;
    }
    if flushed && Assembles(rounds, mime, 0, file) {
      AssembledFetches(rounds, mime, 0, None, file);
      assert file[0..] == file;
    }
  }

  // What an honest hub answers to a request for the bytes from `offset` to `end`
  // inclusive: that range cut off at the artifact's last byte, as section 14.1.2
  // of RFC 9110 has it.
  function Serve(artifact: seq<Byte>, mime: string, offset: nat, end: nat): Response
    requires offset < |artifact| && offset <= end
  {
    var content := artifact[offset..Min(end + 1, |artifact|)];
    Response(if offset == 0 && |artifact| <= end + 1 then 200 else 206, Some(|artifact|), Some(offset), Some(mime),
             Some(Encode(content)), Some(|content|), Some(Sha256(content)))
  }

  // An artifact of 1 byte to 128 MiB arrives whole from an honest hub that is
  // fast enough.
  lemma HonestTransfersArrive(rounds: nat -> Round, mime: string, artifact: seq<Byte>)
    requires 1 <= |artifact| <= 134_217_728
    requires forall i: nat :: i * CHUNK < |artifact| ==>
                                && rounds(i).at <= 120_000 && rounds(i).stored
                                && rounds(i).reply == Some(Serve(artifact, mime, i * CHUNK, RangeEnd(i * CHUNK)))
    ensures Fetch(rounds, mime, 0, None, true) == Ok(artifact)
  {
    hide Fetch, Encode, AsciiLower, Spells;
    forall i: nat | i < Chunks(|artifact|)
      ensures Delivers(rounds(i), mime, i, artifact)
    {
      ChunkBounds(|artifact|, i);
      assert rounds(i).reply == Some(Serve(artifact, mime, i * CHUNK, RangeEnd(i * CHUNK)));
      var content := artifact[i * CHUNK..Min((i + 1) * CHUNK, |artifact|)];
      EncodeSpells(Encode(content), content);
    }
    TransferIsExact(rounds, mime, true, artifact);
  }
}
