/**
 * The asset downloader: the decision procedure of `download` (accept the
 * local file, trust a complete one, resume a partial one or fetch it again),
 * the running hash over the local prefix and the received chunks, the
 * verification against the expected hash, and the hash cache that maps a
 * saved path to the digest last verified for it.
 *
 * The file system is the `disk` map, the HTTP exchanges are parameters
 * (None for a response whose status raised) and are logged in `requests`;
 * a `content-length` header that is absent makes `int()` raise, and a body
 * stream can break after some of its chunks;
 * the digest function is the `hash` parameter, applied to everything the
 * hasher has been fed.
 */
module Downloader {
  import opened Common

  /** A hex digest as the hasher prints it. */
  type Digest = string

  /** The headers of the HEAD response that `download` reads; None for an absent header. */
  datatype Head = Head(contentLength: Option<int>, acceptRanges: Option<string>)

  /**
   * A GET response whose status passed: its `content-length` header, the
   * chunks the stream delivered, and whether the stream then broke off.
   */
  datatype Body = Body(contentLength: Option<int>, chunks: seq<seq<byte>>, interrupted: bool)

  datatype Request =
    | HeadRequest(url: string)
    | GetRequest(url: string, rangeFrom: Option<nat>)

  datatype Outcome =
    | Verified
    | SizeMatched
    | Downloaded
    | VerificationFailed(saveTo: string, hash: Digest, expected: Digest)
    | HttpFailure
    | LengthMissing
    | StreamInterrupted

  /** What `download` does once the local file is known and the HEAD response is in. */
  datatype Decision =
    | AcceptLocal
    | HeadFailed
    | HeadWithoutLength
    | RejectComplete(hash: Digest)
    | CacheComplete(hash: Digest)
    | Fetch(resume: bool)

  /** Whether the local file is accepted as is: its digest equals the expected one or, without one, the cached one. */
  predicate LocallyVerified(local: Option<seq<byte>>, expected: Option<Digest>, cached: Option<Digest>,
                            hash: seq<byte> -> Digest)
  {
    local.Some? && (if expected.Some? then hash(local.value) == expected.value
                    else cached.Some? && hash(local.value) == cached.value)
  }

  /** A partial download is resumed only if the file exists, the server accepts byte ranges and the file is short. */
  predicate ResumeDownload(offset: Option<nat>, acceptRanges: Option<string>, contentLength: int)
  {
    offset.Some? && acceptRanges.Some? && acceptRanges.value == "bytes" && offset.value < contentLength
  }

  /** The decision procedure of `download` before any body is fetched. */
  function Decide(local: Option<seq<byte>>, expected: Option<Digest>, cached: Option<Digest>,
                  hash: seq<byte> -> Digest, head: Option<Head>): Decision
  {
    if LocallyVerified(local, expected, cached, hash) then AcceptLocal
    else if head.None? then HeadFailed
    else if head.value.contentLength.None? then HeadWithoutLength
    else if local.Some? && |local.value| == head.value.contentLength.value then
      (if expected.Some? && hash(local.value) != expected.value then RejectComplete(hash(local.value))
       else CacheComplete(hash(local.value)))
    else Fetch(ResumeDownload(if local.Some? then Some(|local.value|) else None,
                              head.value.acceptRanges, head.value.contentLength.value))
  }

  /**
   * A complete local file with an expected hash is never cached: it reaches
   * the size check only after its digest failed to match, so it is rejected.
   */
  lemma {:induction false} CompleteWithExpectedIsRejected(local: Option<seq<byte>>, expected: Option<Digest>,
                                                          cached: Option<Digest>, hash: seq<byte> -> Digest, head: Option<Head>)
    requires expected.Some?
    ensures !Decide(local, expected, cached, hash, head).CacheComplete?
    ensures Decide(local, expected, cached, hash, head).RejectComplete? <==>
      local.Some? && head.Some? && head.value.contentLength == Some(|local.value|) && hash(local.value) != expected.value
  {
    if local.Some? && head.Some? && head.value.contentLength == Some(|local.value|) {
      assert !LocallyVerified(local, expected, cached, hash) <==> hash(local.value) != expected.value;
    }
  }

  /**
   * The network is reached exactly when the local file is not accepted, and a
   * body is fetched only when the HEAD answered with a length that differs
   * from the local file's size.
   */
  lemma {:induction false} FetchOnlyWhenIncomplete(local: Option<seq<byte>>, expected: Option<Digest>,
                                                  cached: Option<Digest>, hash: seq<byte> -> Digest, head: Option<Head>)
    ensures Decide(local, expected, cached, hash, head).Fetch? <==>
      !LocallyVerified(local, expected, cached, hash) && head.Some? && head.value.contentLength.Some?
      && !(local.Some? && |local.value| == head.value.contentLength.value)
    ensures Decide(local, expected, cached, hash, head).Fetch? && Decide(local, expected, cached, hash, head).resume ==>
      local.Some? && head.value.contentLength.Some? && |local.value| < head.value.contentLength.value
      && head.value.acceptRanges == Some("bytes")
  {
  }

  /** The file after a download, which is also what the hasher saw: the local prefix when resuming, then the new chunks. */
  function FinalContent(local: Option<seq<byte>>, resume: bool, chunks: seq<seq<byte>>): seq<byte>
  {
    (if resume && local.Some? then local.value else []) + Flatten(chunks)
  }

  /** The hash cache, the file system and the log of HTTP requests. */
  class AssetStore {
    var files: map<string, Digest>
    var disk: map<string, seq<byte>>
    var requests: seq<Request>
    var dumps: seq<map<string, Digest>>

    constructor (files: map<string, Digest>, disk: map<string, seq<byte>>)
      ensures this.files == files && this.disk == disk && requests == [] && dumps == []
    {
      this.files := files;
      this.disk := disk;
      requests := [];
      dumps := [];
    }

    /** `write_file_entry`: record the digest for the path, keep every other entry, and dump the whole cache. */
    method WriteFileEntry(saveTo: string, hash: Digest)
      modifies this`files, this`dumps
      ensures files == old(files)[saveTo := hash]
      ensures saveTo in files && files[saveTo] == hash
      ensures forall p :: p != saveTo ==> (p in files <==> p in old(files)) && (p in files ==> files[p] == old(files)[p])
      ensures dumps == old(dumps) + [files]
    {
      files := files[saveTo := hash];
      dumps := dumps + [files];
    }

    /**
     * The chunk loop: each received chunk is appended to the open file and
     * fed to the hasher, in order.
     */
    method WriteChunks(saveTo: string, chunks: seq<seq<byte>>, fed: seq<byte>) returns (hasherInput: seq<byte>)
      requires saveTo in disk
      modifies this`disk
      ensures disk == old(disk)[saveTo := old(disk)[saveTo] + Flatten(chunks)]
      ensures hasherInput == fed + Flatten(chunks)
    {
      hasherInput := fed;
      var i := 0;
      assert old(disk)[saveTo] + Flatten(chunks[..0]) == old(disk)[saveTo];
      assert disk == old(disk)[saveTo := old(disk)[saveTo]];
      while i < |chunks|
        invariant 0 <= i <= |chunks|
        invariant disk == old(disk)[saveTo := old(disk)[saveTo] + Flatten(chunks[..i])]
        invariant hasherInput == fed + Flatten(chunks[..i])
      {
        assert chunks[..i + 1][..i] == chunks[..i];
        assert Flatten(chunks[..i + 1]) == Flatten(chunks[..i]) + chunks[i];
        disk := disk[saveTo := disk[saveTo] + chunks[i]];
        assert disk[saveTo] == old(disk)[saveTo] + Flatten(chunks[..i + 1]);
        hasherInput := hasherInput + chunks[i];
        i := i + 1;
      }
      assert chunks[..|chunks|] == chunks;
    }

    /**
     * The body phase of `download`: request the rest of the file (from the
     * local size when resuming) or all of it, append to or overwrite the
     * file, and compare the digest of everything the hasher saw with the
     * expected one; only a verified download with an expected hash is cached.
     * A response without `content-length` raises before the file is opened; a
     * stream that breaks leaves what it delivered in the file and caches
     * nothing.
     */
    method FetchBody(url: string, saveTo: string, expected: Option<Digest>, hash: seq<byte> -> Digest,
                     resume: bool, fed: seq<byte>, body: Option<Body>)
      returns (outcome: Outcome)
      requires resume ==> saveTo in disk && fed == disk[saveTo]
      modifies this`disk, this`files, this`dumps, this`requests
      ensures requests == old(requests) + [GetRequest(url, if resume then Some(|fed|) else None)]
      ensures body.None? ==> outcome == HttpFailure && disk == old(disk) && files == old(files) && dumps == old(dumps)
      ensures body.Some? && body.value.contentLength.None? ==>
        outcome == LengthMissing && disk == old(disk) && files == old(files) && dumps == old(dumps)
      ensures body.Some? && body.value.contentLength.Some? ==>
        disk == old(disk)[saveTo := (if resume then fed else []) + Flatten(body.value.chunks)]
      ensures body.Some? && body.value.contentLength.Some? && body.value.interrupted ==>
        outcome == StreamInterrupted && files == old(files) && dumps == old(dumps)
      ensures body.Some? && body.value.contentLength.Some? && !body.value.interrupted ==>
        var content := (if resume then fed else []) + Flatten(body.value.chunks);
        && (expected.Some? && hash(content) != expected.value ==>
              outcome == VerificationFailed(saveTo, hash(content), expected.value) && files == old(files) && dumps == old(dumps))
        && (expected.Some? && hash(content) == expected.value ==>
              outcome == Downloaded && files == old(files)[saveTo := hash(content)] && dumps == old(dumps) + [files])
        && (expected.None? ==> outcome == Downloaded && files == old(files) && dumps == old(dumps))
    {
      var hasherInput := fed;
      if resume {
        requests := requests + [GetRequest(url, Some(|fed|))];
      } else {
        hasherInput := [];
        requests := requests + [GetRequest(url, None)];
      }
      if body.None? {
        return HttpFailure;
      }
      if body.value.contentLength.None? {
        return LengthMissing;
      }
      if !resume {
        disk := disk[saveTo := []];
      }
      hasherInput := WriteChunks(saveTo, body.value.chunks, hasherInput);
      if body.value.interrupted {
        return StreamInterrupted;
      }
      var h := hash(hasherInput);
      if expected.Some? && h != expected.value {
        return VerificationFailed(saveTo, h, expected.value);
      }
      if expected.Some? {
        WriteFileEntry(saveTo, h);
      }
      return Downloaded;
    }

    /**
     * How the body phase of `download` ends, from the state before it: a
     * failed status or a missing length changes no file; otherwise the file
     * holds the local prefix when resuming, then what the stream delivered; a
     * broken stream or a digest mismatch caches nothing, and a verified
     * download is cached (and the cache dumped) exactly when a hash was expected.
     */
    ghost predicate Fetched(disk0: map<string, seq<byte>>, files0: map<string, Digest>, dumps0: seq<map<string, Digest>>,
                            saveTo: string, local: Option<seq<byte>>, resume: bool, expected: Option<Digest>,
                            hash: seq<byte> -> Digest, body: Option<Body>, outcome: Outcome)
      reads this
    {
      && (body.None? ==> outcome == HttpFailure && disk == disk0 && files == files0 && dumps == dumps0)
      && (body.Some? && body.value.contentLength.None? ==>
            outcome == LengthMissing && disk == disk0 && files == files0 && dumps == dumps0)
      && (body.Some? && body.value.contentLength.Some? ==>
            var content := FinalContent(local, resume, body.value.chunks);
            && disk == disk0[saveTo := content]
            && (body.value.interrupted ==> outcome == StreamInterrupted && files == files0 && dumps == dumps0)
            && (!body.value.interrupted ==>
                  && (outcome == Downloaded <==> expected.None? || hash(content) == expected.value)
                  && (outcome != Downloaded ==> outcome == VerificationFailed(saveTo, hash(content), expected.value))
                  && (expected.Some? && outcome == Downloaded ==>
                        files == files0[saveTo := hash(content)] && dumps == dumps0 + [files])
                  && (expected.None? || outcome != Downloaded ==> files == files0 && dumps == dumps0)))
    }

    /**
     * `download`: the local file is hashed and accepted without any request
     * when its digest matches the expected or cached one. Otherwise a HEAD
     * request gives the length: a local file of exactly that length is
     * rejected (with an expected hash) or its digest cached. Otherwise the
     * body is fetched, resumed or from scratch as `ResumeDownload` says.
     */
    method Download(url: string, saveTo: string, expected: Option<Digest>, hash: seq<byte> -> Digest,
                    head: Option<Head>, body: Option<Body>)
      returns (outcome: Outcome)
      modifies this`disk, this`files, this`dumps, this`requests
      ensures var local := if saveTo in old(disk) then Some(old(disk)[saveTo]) else None;
              var cached := if saveTo in old(files) then Some(old(files)[saveTo]) else None;
              var decision := Decide(local, expected, cached, hash, head);
              && (decision.AcceptLocal? <==> outcome == Verified)
              && (decision.AcceptLocal? ==> requests == old(requests) && files == old(files) && dumps == old(dumps))
              && (!decision.AcceptLocal? && !decision.Fetch? ==> requests == old(requests) + [HeadRequest(url)])
              && (decision.Fetch? ==>
                    requests == old(requests) + [HeadRequest(url),
                                                 GetRequest(url, if decision.resume then Some(|local.value|) else None)])
              && (!decision.Fetch? ==> disk == old(disk))
              && (decision.HeadFailed? ==> outcome == HttpFailure && files == old(files) && dumps == old(dumps))
              && (decision.HeadWithoutLength? ==> outcome == LengthMissing && files == old(files) && dumps == old(dumps))
              && (decision.RejectComplete? ==>
                    outcome == VerificationFailed(saveTo, decision.hash, expected.value)
                    && files == old(files) && dumps == old(dumps))
              && (decision.CacheComplete? ==>
                    outcome == SizeMatched && files == old(files)[saveTo := decision.hash] && dumps == old(dumps) + [files])
              && (decision.Fetch? ==> Fetched(old(disk), old(files), old(dumps), saveTo, local, decision.resume,
                                              expected, hash, body, outcome))
    {
      var local := if saveTo in disk then Some(disk[saveTo]) else None;
      var cached := if saveTo in files then Some(files[saveTo]) else None;
      ghost var decision := Decide(local, expected, cached, hash, head);
      var fed: seq<byte> := [];
      if saveTo in disk {
        fed := disk[saveTo];
        var h := hash(fed);
        if expected.Some? {
          if h == expected.value {
            return Verified;
          }
        } else if saveTo in files {
          if h == files[saveTo] {
            return Verified;
          }
        }
      }
      requests := requests + [HeadRequest(url)];
      if head.None? {
        return HttpFailure;
      }
      if head.value.contentLength.None? {
        return LengthMissing;
      }
      var contentLength := head.value.contentLength.value;
      if saveTo in disk && |disk[saveTo]| == contentLength {
        var h := hash(disk[saveTo]);
        if expected.Some? && h != expected.value {
          return VerificationFailed(saveTo, h, expected.value);
        }
        WriteFileEntry(saveTo, h);
        return SizeMatched;
      }
      var offset: Option<nat> := if saveTo in disk then Some(|disk[saveTo]|) else None;
      var resume := ResumeDownload(offset, head.value.acceptRanges, contentLength);
      outcome := FetchBody(url, saveTo, expected, hash, resume, fed, body);
    }
  }
}
