/** The upload endpoint behind an unreliable network, and what the browser's loop achieves with it
    (backend/app/api/v1/uploads.py). Equal SHA-256 digests mean equal content. */
module UploadServer {
  import opened Numbers
  import opened Options
  import opened ResumableTransfer

  /** What goes wrong with one request: it never arrives; the session has run out; its body is cut off after some
      bytes; publication fails after the bytes are committed; or only the reply is lost. */
  datatype Fault = Fine | LostRequest | Expired | Cut(received: nat) | PublishFails | LostReply

  /** `data` is the staged file, which may hold uncommitted bytes beyond `offset`; `expected` is the declared
      checksum as the content it belongs to; `faults` are what the following requests will meet. */
  datatype Upload = Upload(
    data: seq<Byte>,
    offset: nat,
    total: nat,
    chunk: nat,
    status: string,
    expected: Option<seq<Byte>>,
    published: Option<seq<Byte>>,
    faults: seq<Fault>)

  function Current(s: Upload): Fault {
    if s.faults == [] then Fine else s.faults[0]
  }

  function Popped(s: Upload): Upload {
    s.(faults := if s.faults == [] then [] else s.faults[1..])
  }

  /** Writing at a position of the file keeps what lies beyond. */
  function Written(data: seq<Byte>, at: nat, body: seq<Byte>): seq<Byte>
    requires at <= |data|
  {
    data[..at] + body + if at + |body| <= |data| then data[at + |body|..] else []
  }

  /** session_response. */
  function Answer(s: Upload, fault: Fault): PatchReply {
    if fault.LostReply? then NoReply else Accepted(Some(Session(Some(s.offset), Some(s.chunk), s.status)))
  }

  /** The second half of append_upload: nothing more until all bytes are there, then verification and publication. */
  function Publish(s: Upload, fault: Fault): (Upload, PatchReply) {
    if s.offset < s.total then (s, Answer(s, fault))
    else if s.expected.Some? && s.expected.value != s.data then (s.(status := "failed"), Refused(422))
    else if fault.PublishFails? then (s, Refused(503))
    else
      var done := s.(status := "complete", published := Some(s.data));
      (done, Answer(done, fault))
  }

  /** append_upload. */
  function Patch(s: Upload, offset: int, body: seq<Byte>): (Upload, PatchReply)
  {
    var fault, s' := Current(s), Popped(s);
    if fault.LostRequest? then (s', NoReply)
    else if s.status != "active" then (s', Refused(409))
    else if fault.Expired? then (s'.(status := "expired"), Refused(410))
    else if offset != s.offset then (s', Refused(409))
    else if s.offset > |s.data| then (s', Refused(410))
    else if s.offset >= s.total then Publish(s', fault)
    else if fault.Cut? then
      (s'.(data := Written(s.data, s.offset, body[..Min(fault.received, |body|)])), NoReply)
    else if s.offset + |body| > s.total then (s', Refused(413))
    else if body == [] then (s', Refused(400))
    else Publish(s'.(data := Written(s.data, s.offset, body), offset := s.offset + |body|), fault)
  }

  /** upload_status. */
  function Head(s: Upload): (Upload, HeadReply) {
    var fault := Current(s);
    (Popped(s),
     if fault.LostRequest? || fault.LostReply? then NoStatus else Status(Some(Some(s.offset)), Some(s.status)))
  }

  const SERVER: Server<Upload> := Server(Patch, Head)

  // ---------------------------------------------------------------- integrity

  /** The committed bytes are a prefix of the file, and what is published is the file. */
  ghost predicate Faithful(s: Upload, file: seq<Byte>) {
    && s.total == |file| <= MAX_SAFE_INTEGER && 0 < s.chunk <= MAX_SAFE_INTEGER
    && s.offset <= |s.data| <= s.total
    && s.data[..s.offset] == file[..s.offset]
    && (s.expected.Some? ==> s.expected.value == file)
    && (s.published.Some? ==> s.published.value == file)
    && (s.status == "complete" ==> s.published.Some? && s.offset == s.total)
  }

  /** The session the client holds never claims a completion that did not happen. */
  predicate Truthful(upload: Session, s: Upload) {
    upload.status == "complete" ==> s.status == "complete"
  }

  lemma WrittenPrefix(data: seq<Byte>, at: nat, body: seq<Byte>, file: seq<Byte>, k: nat)
    requires at <= |data| <= |file| && data[..at] == file[..at]
    requires at + |body| <= |file| && body == file[at..at + |body|]
    requires k <= |body|
    ensures |Written(data, at, body)| <= |file|
    ensures Written(data, at, body)[..at + k] == file[..at + k]
  {
    assert Written(data, at, body)[..at + k] == data[..at] + body[..k];
    assert file[..at + k] == file[..at] + file[at..at + k];
  }

  lemma PublishKeeps(s: Upload, fault: Fault, file: seq<Byte>)
    requires Faithful(s, file) && s.status == "active"
    ensures var (s', reply) := Publish(s, fault);
            && Faithful(s', file)
            && (reply.Accepted? ==> reply.body.Some? && Truthful(reply.body.value, s'))
  {
    if s.offset == s.total {
      assert s.data == s.data[..s.offset] == file;
    }
  }

  /** Bytes of the file written at the committed offset keep the prefix, committed or not. */
  lemma WriteKeeps(s: Upload, body: seq<Byte>, file: seq<Byte>, committed: bool)
    requires Faithful(s, file) && s.status == "active"
    requires s.offset + |body| <= |file| && body == file[s.offset..s.offset + |body|]
    ensures Faithful(s.(data := Written(s.data, s.offset, body), offset := if committed then s.offset + |body|
            else s.offset), file)
  {
    WrittenPrefix(s.data, s.offset, body, file, if committed then |body| else 0);
  }

  /** What every reply to the client's chunk leaves behind. */
  ghost predicate Answered(s: Upload, s': Upload, reply: PatchReply, file: seq<Byte>) {
    && Faithful(s', file)
    && (reply.Accepted? ==> reply.body.Some? && Truthful(reply.body.value, s'))
    && (s.status == "complete" ==> s'.status == "complete")
  }

  /** A chunk that arrives at the committed offset of an active session. */
  lemma ChunkKeeps(s: Upload, file: seq<Byte>, upload: Session)
    requires Faithful(s, file) && Valid(upload, |file|) && upload.offset.value == s.offset < s.total
    requires s.status == "active" && !Current(s).LostRequest? && !Current(s).Expired?
    ensures var (s', reply) := Patch(s, s.offset, Chunk(file, upload)); Answered(s, s', reply, file)
  {
    var body, fault := Chunk(file, upload), Current(s);
    if fault.Cut? {
      var part := body[..Min(fault.received, |body|)];
      assert part == file[s.offset..s.offset + |part|];
      WriteKeeps(Popped(s), part, file, false);
    } else {
      WriteKeeps(Popped(s), body, file, true);
      PublishKeeps(Popped(s).(data := Written(s.data, s.offset, body), offset := s.offset + |body|), fault, file);
    }
  }

  /** Whatever happens to a request of the client, the committed bytes stay a prefix of the file. */
  lemma PatchKeeps(s: Upload, file: seq<Byte>, upload: Session)
    requires Faithful(s, file) && Valid(upload, |file|)
    ensures var (s', reply) := Patch(s, upload.offset.value, Chunk(file, upload)); Answered(s, s', reply, file)
  {
    if s.status == "active" && upload.offset.value == s.offset && !Current(s).LostRequest? && !Current(s).Expired? {
      if s.offset < s.total { ChunkKeeps(s, file, upload); } else { PublishKeeps(Popped(s), Current(s), file); }
    }
  }

  lemma ExchangeKeeps(s: Upload, file: seq<Byte>, upload: Session)
    requires Faithful(s, file) && Valid(upload, |file|) && upload.status == "active"
    ensures var (s', next) := Exchange(SERVER, file, s, upload);
            Faithful(s', file) && next.Some? && Truthful(next.value, s')
  {
    PatchKeeps(s, file, upload);
  }

  /** End-to-end integrity: requests, bytes and replies may be lost at any point, yet the committed bytes are
      always a prefix of the file, and when the loop returns normally the server has published exactly the file. */
  lemma {:induction false} LoopIsFaithful(s: Upload, file: seq<Byte>, upload: Session, stalled: nat)
    requires stalled < 3 && Faithful(s, file)
    ensures var r := Loop(SERVER, file, s, upload, stalled);
            && Faithful(r.server, file)
            && (r.outcome.Finished? ==> r.server.status == "complete" && r.server.published == Some(file))
    decreases Measure(upload, |file|, stalled), if upload.status == "active" then 1 else 0
  {
    if upload.status == "active" && Valid(upload, |file|) {
      ExchangeKeeps(s, file, upload);
      var offset := upload.offset.value;
      var (s', next) := Exchange(SERVER, file, s, upload);
      if Acceptable(next, offset, |file|) && next.value.status != "complete"
         && !(next.value.offset.value == offset && stalled + 1 >= 3) {
        LoopIsFaithful(s', file, next.value, if next.value.offset.value > offset then 0 else stalled + 1);
      }
    }
  }

  lemma TransferIsFaithful(s: Upload, file: seq<Byte>, initial: Session)
    requires Faithful(s, file) && Truthful(initial, s)
    ensures var r := Transfer(SERVER, file, s, initial);
            && Faithful(r.server, file)
            && (r.outcome.Finished? ==> r.server.status == "complete" && r.server.published == Some(file))
  {
    if initial.status != "complete" { LoopIsFaithful(s, file, initial, 0); }
  }

  // ---------------------------------------------------------------- completion once the faults are over

  /** The client continues at or behind the server's offset. */
  ghost predicate Behind(upload: Session, s: Upload, file: seq<Byte>) {
    && Faithful(s, file) && s.faults == [] && (s.status == "active" || s.status == "complete")
    && upload.status == "active" && Valid(upload, |file|) && upload.offset.value <= s.offset
  }

  /** Without faults one exchange either completes or moves the client forward, still behind the server. */
  lemma ExchangeAdvances(s: Upload, file: seq<Byte>, upload: Session)
    requires Behind(upload, s, file)
    ensures var (s', next) := Exchange(SERVER, file, s, upload);
            && Acceptable(next, upload.offset.value, |file|)
            && (if next.value.status == "complete" then next.value.offset == Some(|file|)
                else next.value.offset.value > upload.offset.value && Behind(next.value, s', file))
  {
    PatchKeeps(s, file, upload);
    if s.status == "active" && upload.offset.value == s.offset {
      if s.offset == s.total {
        assert s.data == s.data[..s.offset] == file;
      } else {
        var body := Chunk(file, upload);
        WrittenPrefix(s.data, s.offset, body, file, |body|);
        var data := Written(s.data, s.offset, body);
        if s.offset + |body| == s.total {
          assert data == data[..s.offset + |body|] == file;
        }
      }
    }
  }

  /** So the transfer finishes: from any moment after the last fault, wherever the lost replies left the client. */
  lemma {:induction false} TransferCompletes(s: Upload, file: seq<Byte>, upload: Session, stalled: nat)
    requires stalled < 3 && Behind(upload, s, file)
    ensures var r := Loop(SERVER, file, s, upload, stalled);
            r.outcome.Finished? && r.server.published == Some(file)
    decreases |file| - upload.offset.value
  {
    LoopIsFaithful(s, file, upload, stalled);
    ExchangeAdvances(s, file, upload);
    var (s', next) := Exchange(SERVER, file, s, upload);
    if next.value.status != "complete" {
      TransferCompletes(s', file, next.value, 0);
    }
  }

  /** The client is exactly where the server is, with the chunk size it was told. */
  ghost predicate Level(upload: Session, s: Upload, file: seq<Byte>) {
    Behind(upload, s, file) && s.status == "active" && upload == Session(Some(s.offset), Some(s.chunk), "active")
  }

  /** Without faults each request brings a whole chunk, or what is left. */
  lemma ChunkArrives(s: Upload, file: seq<Byte>, upload: Session)
    requires Level(upload, s, file) && s.offset < |file|
    ensures var (s', next) := Exchange(SERVER, file, s, upload);
            && s'.offset == Min(s.offset + s.chunk, |file|) && s'.chunk == s.chunk
            && next == Some(Session(Some(s'.offset), Some(s.chunk), s'.status))
            && if s'.offset == |file| then s'.status == "complete" else Level(next.value, s', file)
  {
    ExchangeAdvances(s, file, upload);
  }

  lemma OneChunkMore(chunk: nat, rest: nat, p: nat)
    requires (p - 1) * chunk < rest <= p * chunk
    ensures p * chunk < rest + chunk <= (p + 1) * chunk
  {
  }

  /** So the transfer takes as many requests as there are chunks left, and no more. */
  lemma {:induction false} TransferTakes(s: Upload, file: seq<Byte>, upload: Session, stalled: nat)
    requires stalled < 3 && Level(upload, s, file) && s.offset < |file|
    ensures var p := Loop(SERVER, file, s, upload, stalled).patches;
            p >= 1 && (p - 1) * s.chunk < |file| - s.offset <= p * s.chunk
    decreases |file| - s.offset
  {
    ChunkArrives(s, file, upload);
    var (s', next) := Exchange(SERVER, file, s, upload);
    LoopTurns(SERVER, file, s, upload, stalled, s', next.value);
    if s'.offset < |file| {
      TransferTakes(s', file, next.value, 0);
      OneChunkMore(s.chunk, |file| - s'.offset, Loop(SERVER, file, s', next.value, 0).patches);
    }
  }

  // ---------------------------------------------------------------- any client

  /** What is published is the whole staged file, of the declared content, and only under a completed session. */
  predicate Verified(s: Upload) {
    && (s.published != None <==> s.status == "complete")
    && (s.published != None ==>
          s.published == Some(s.data) && s.offset >= s.total && (s.expected != None ==> s.expected == s.published))
  }

  /** The request arrives at the committed offset of a session that is still good. */
  predicate Arrives(s: Upload, offset: int) {
    && s.status == "active" && !Current(s).LostRequest? && !Current(s).Expired?
    && offset == s.offset && s.offset <= |s.data|
  }

  /** Its body is committed: not empty, not cut off, and not beyond the declared size. */
  predicate Commits(s: Upload, offset: int, body: seq<Byte>) {
    && Arrives(s, offset) && s.offset < s.total && !Current(s).Cut?
    && body != [] && s.offset + |body| <= s.total
  }

  /** All bytes are there after the request, which may have brought the last of them or none. */
  predicate Completes(s: Upload, offset: int, body: seq<Byte>) {
    Arrives(s, offset) && (s.offset >= s.total || (Commits(s, offset, body) && s.offset + |body| == s.total))
  }

  /** What one request of any client does to the session. */
  lemma PatchExactly(s: Upload, offset: int, body: seq<Byte>)
    ensures var s' := Patch(s, offset, body).0;
            && s'.offset == (if Commits(s, offset, body) then s.offset + |body| else s.offset)
            && s'.status == (if s.status == "active" && Current(s).Expired? then "expired"
                             else if !Completes(s, offset, body) then s.status
                             else if s.expected != None && s.expected.value != s'.data then "failed"
                             else if Current(s).PublishFails? then "active" else "complete")
            && s'.published == (if s.status == "active" && s'.status == "complete" then Some(s'.data) else s.published)
  {
  }

  lemma PatchVerifies(s: Upload, offset: int, body: seq<Byte>)
    requires Verified(s)
    ensures var s' := Patch(s, offset, body).0;
            Verified(s') && (s.status != "active" ==> s' == Popped(s))
  {
    PatchExactly(s, offset, body);
  }

  datatype Request = Request(offset: int, body: seq<Byte>)

  function Requested(s: Upload, requests: seq<Request>): Upload
    decreases |requests|
  {
    if requests == [] then s else Requested(Patch(s, requests[0].offset, requests[0].body).0, requests[1..])
  }

  /** Whatever any clients send, in any order and under any faults, nothing is published but whole files of the declared
      content, and what is published stays. */
  lemma {:induction false} AnyClientIsVerified(s: Upload, requests: seq<Request>)
    requires Verified(s)
    ensures var s' := Requested(s, requests);
            Verified(s') && (s.published != None ==> s'.published == s.published)
    decreases |requests|
  {
    if requests != [] {
      PatchVerifies(s, requests[0].offset, requests[0].body);
      AnyClientIsVerified(Patch(s, requests[0].offset, requests[0].body).0, requests[1..]);
    }
  }
}
