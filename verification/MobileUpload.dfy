/** One upload of the phone's backup: its chunk loop against any server, and what "complete" means there
    (uploadTransfer and resumeOrCreate in mobile/src/backup.ts). */
module MobileUpload {
  import opened Numbers
  import opened Options
  import opened ResumableTransfer
  import opened UploadServer

  datatype Stop = NetworkFailed | SessionGone | Rejected(code: int) | BadOffset

  datatype Status = Sending(offset: int) | Uploaded | Interrupted(stop: Stop)

  /** The loop after some rounds; `conflicts` counts the replies with status 409. */
  datatype Trip<S> = Trip(server: S, status: Status, conflicts: nat)

  /** The loop goes on while bytes are missing, and calls the upload done when none are. */
  function At(offset: int, total: nat): Status {
    if offset < total then Sending(offset) else Uploaded
  }

  /** After a 409 the phone takes the offset that a HEAD reports; a missing header reads as zero. */
  function Reconciled(reply: HeadReply, total: nat): Status {
    match reply
    case NoStatus => Interrupted(NetworkFailed)
    case Status(offset, _) =>
      var remote := if offset.Some? then offset.value else Some(0);
      if remote.Some? && 0 <= remote.value <= total then At(remote.value, total) else Interrupted(Rejected(409))
  }

  /** What the phone makes of the reply to the chunk at `offset`. */
  function Heard<S>(server: Server<S>, s: S, reply: PatchReply, offset: int, total: nat, conflicts: nat): Trip<S> {
    match reply
    case NoReply => Trip(s, Interrupted(NetworkFailed), conflicts)
    case Accepted(body) =>
      var ok := body.Some? && body.value.offset.Some? && offset < body.value.offset.value <= total;
      Trip(s, if ok then At(body.value.offset.value, total) else Interrupted(BadOffset), conflicts)
    case Refused(code) =>
      if code == 409 then
        var (s', status) := server.head(s);
        Trip(s', Reconciled(status, total), conflicts + 1)
      else Trip(s, Interrupted(if code == 404 || code == 410 then SessionGone else Rejected(code)), conflicts)
  }

  /** One chunk. */
  function Round<S>(server: Server<S>, file: seq<Byte>, chunk: nat, t: Trip<S>): Trip<S>
    requires t.status.Sending? ==> 0 <= t.status.offset < |file|
  {
    if !t.status.Sending? then t
    else
      var offset := t.status.offset;
      var (s', reply) := server.patch(t.server, offset, file[offset..Min(offset + chunk, |file|)]);
      Heard(server, s', reply, offset, |file|, t.conflicts)
  }

  /** The only ground for each thing the phone makes of a reply. */
  predicate Hears<S>(server: Server<S>, s: S, reply: PatchReply, offset: int, total: nat, status: Status) {
    var stale := reply == Refused(409);
    var remote := server.head(s).1;
    match status
    case Interrupted(stop) =>
      (match stop
       case NetworkFailed => reply == NoReply || (stale && remote == NoStatus)
       case SessionGone => reply == Refused(404) || reply == Refused(410)
       case BadOffset => reply.Accepted? && forall n | offset < n <= total :: !Reports(reply.body, n)
       case Rejected(code) =>
         if stale then code == 409 && remote.Status? && forall n | 0 <= n <= total :: !ReportsHead(remote, n)
         else reply == Refused(code) && code != 404 && code != 410)
    case Sending(n) => n < total && ((offset < n && reply.Accepted? && Reports(reply.body, n))
                                     || (0 <= n && stale && ReportsHead(remote, n)))
    case Uploaded => (offset < total && reply.Accepted? && Reports(reply.body, total))
                     || (stale && ReportsHead(remote, total))
  }

  predicate Reports(body: Option<Session>, n: int) {
    body != None && body.value.offset == Some(n)
  }

  /** A missing header reads as zero. */
  predicate ReportsHead(reply: HeadReply, n: int) {
    reply.Status? && (reply.offset == Some(Some(n)) || (reply.offset == None && n == 0))
  }

  lemma HearsExactly<S>(server: Server<S>, s: S, reply: PatchReply, offset: int, total: nat, conflicts: nat)
    requires 0 <= offset < total
    ensures var t := Heard(server, s, reply, offset, total, conflicts);
            && Hears(server, s, reply, offset, total, t.status)
            && t.conflicts == conflicts + (if reply == Refused(409) then 1 else 0)
  {
  }

  function Start<S>(file: seq<Byte>, s: S, offset: nat): Trip<S> {
    Trip(s, At(offset, |file|), 0)
  }

  /** The loop after `n` rounds. */
  function Rounds<S>(server: Server<S>, file: seq<Byte>, chunk: nat, s: S, offset: nat, n: nat): (t: Trip<S>)
    ensures t.status.Sending? ==> 0 <= t.status.offset < |file|
  {
    if n == 0 then Start(file, s, offset) else Round(server, file, chunk, Rounds(server, file, chunk, s, offset, n - 1))
  }

  // ---------------------------------------------------------------- termination

  ghost predicate ConflictsAtMost<S>(server: Server<S>, file: seq<Byte>, chunk: nat, s: S, offset: nat, limit: nat) {
    forall n: nat :: Rounds(server, file, chunk, s, offset, n).conflicts <= limit
  }

  /** The loop itself. It ends against every server that answers 409 only finitely often. */
  method UploadLoop<S>(server: Server<S>, file: seq<Byte>, chunk: nat, s: S, offset: nat, ghost limit: nat)
    returns (t: Trip<S>, ghost rounds: nat)
    requires ConflictsAtMost(server, file, chunk, s, offset, limit)
    ensures !t.status.Sending? && t == Rounds(server, file, chunk, s, offset, rounds)
    ensures rounds > 0 ==> Rounds(server, file, chunk, s, offset, rounds - 1).status.Sending?
  {
    t, rounds := Start(file, s, offset), 0;
    while t.status.Sending?
      invariant t == Rounds(server, file, chunk, s, offset, rounds)
      invariant t.conflicts <= limit
      invariant rounds > 0 ==> Rounds(server, file, chunk, s, offset, rounds - 1).status.Sending?
      decreases limit - t.conflicts, if t.status.Sending? then |file| - t.status.offset else 0
    {
      ghost var before := t;
      t := Round(server, file, chunk, t);
      rounds := rounds + 1;
      assert t == Rounds(server, file, chunk, s, offset, rounds);
      assert t.conflicts == before.conflicts && t.status.Sending? ==> t.status.offset > before.status.offset;
    }
  }

  /** The bytes that `c` conflicts can undo. */
  function Undone(c: nat, size: nat): nat {
    if c == 0 then 0 else size + Undone(c - 1, size)
  }

  lemma {:induction false} UndoneIs(c: nat, size: nat)
    ensures Undone(c, size) == c * size
  {
    if c > 0 {
      UndoneIs(c - 1, size);
      assert c * size == (c - 1) * size + size;
    }
  }

  lemma OneRoundOn<S>(server: Server<S>, file: seq<Byte>, chunk: nat, t: Trip<S>)
    requires t.status.Sending? && 0 <= t.status.offset < |file|
    ensures var t' := Round(server, file, chunk, t);
            t'.status.Sending? ==>
              || (t'.conflicts == t.conflicts && t'.status.offset > t.status.offset)
              || (t'.conflicts == t.conflicts + 1 && t'.status.offset >= 0)
  {
  }

  lemma LongerByOne<S>(server: Server<S>, file: seq<Byte>, chunk: nat, t: Trip<S>, n: nat, offset: nat)
    requires t.status.Sending? && 0 <= t.status.offset < |file|
    requires n - t.conflicts <= t.status.offset - offset + Undone(t.conflicts, |file|)
    ensures var t' := Round(server, file, chunk, t);
            t'.status.Sending? ==> n + 1 - t'.conflicts <= t'.status.offset - offset + Undone(t'.conflicts, |file|)
  {
    OneRoundOn(server, file, chunk, t);
    assert Undone(t.conflicts + 1, |file|) == |file| + Undone(t.conflicts, |file|);
  }

  /** While it runs, every round but the 409s has brought a byte, and each 409 can lose the whole file. */
  lemma {:induction false} RunningLong<S>(server: Server<S>, file: seq<Byte>, chunk: nat, s: S, offset: nat, n: nat)
    requires Rounds(server, file, chunk, s, offset, n).status.Sending?
    ensures var t := Rounds(server, file, chunk, s, offset, n);
            n - t.conflicts <= t.status.offset - offset + Undone(t.conflicts, |file|)
  {
    if n > 0 {
      var before := Rounds(server, file, chunk, s, offset, n - 1);
      RunningLong(server, file, chunk, s, offset, n - 1);
      LongerByOne(server, file, chunk, before, n - 1, offset);
    }
  }

  /** So a run that has met `c` conflicts is over after (c + 1) (size + 1) rounds. */
  lemma FewConflictsEndTheLoop<S>(server: Server<S>, file: seq<Byte>, chunk: nat, s: S, offset: nat, n: nat)
    requires n >= (Rounds(server, file, chunk, s, offset, n).conflicts + 1) * (|file| + 1)
    ensures !Rounds(server, file, chunk, s, offset, n).status.Sending?
  {
    var c := Rounds(server, file, chunk, s, offset, n).conflicts;
    BoundSplits(c, |file|);
    if Rounds(server, file, chunk, s, offset, n).status.Sending? { RunningLong(server, file, chunk, s, offset, n); }
  }

  lemma BoundSplits(c: nat, size: nat)
    ensures (c + 1) * (size + 1) == Undone(c, size) + size + c + 1
  {
    UndoneIs(c, size);
    assert (c + 1) * (size + 1) == c * size + c + size + 1;
  }

  /** A sequence of trips in which every one follows from the one before is the run of the loop. */
  lemma {:induction false} FollowsChain<S>(server: Server<S>, file: seq<Byte>, chunk: nat, s: S, offset: nat,
                                           chain: nat -> Trip<S>, n: nat)
    requires forall k: nat :: chain(k).status.Sending? ==> 0 <= chain(k).status.offset < |file|
    requires chain(0) == Start(file, s, offset) && forall k: nat :: Round(server, file, chunk, chain(k)) == chain(k + 1)
    ensures Rounds(server, file, chunk, s, offset, n) == chain(n)
  {
    if n > 0 {
      FollowsChain(server, file, chunk, s, offset, chain, n - 1);
      assert Round(server, file, chunk, chain(n - 1)) == chain(n - 1 + 1);
    }
  }

  lemma ConflictAgain(file: seq<Byte>, chunk: nat, s: Upload, n: nat)
    requires s.faults == [] && s.status != "active" && s.offset < s.total == |file|
    ensures Round(SERVER, file, chunk, Trip(s, Sending(s.offset), n)) == Trip(s, Sending(s.offset), n + 1)
  {
  }

  /** Nothing bounds the conflicts: a server that answers 409 and keeps reporting the same offset holds the phone
      in the loop forever, where the browser's loop gives up at the third stall. */
  lemma ConflictsForever(file: seq<Byte>, chunk: nat, s: Upload, n: nat)
    requires s.faults == [] && s.status != "active" && s.offset < s.total == |file|
    ensures Rounds(SERVER, file, chunk, s, s.offset, n) == Trip(s, Sending(s.offset), n)
  {
    var chain := (k: nat) => Trip(s, Sending(s.offset), k);
    forall k: nat
      ensures Round(SERVER, file, chunk, chain(k)) == chain(k + 1)
    {
      ConflictAgain(file, chunk, s, k);
    }
    FollowsChain(SERVER, file, chunk, s, s.offset, chain, n);
  }

  // ---------------------------------------------------------------- what a completed row proves

  /** The phone's view of an active session it is filling. */
  ghost predicate InStep(t: Trip<Upload>, file: seq<Byte>) {
    && Faithful(t.server, file)
    && (t.status.Sending? ==> t.server.status == "active" && t.status.offset == t.server.offset)
    && (t.status.Uploaded? ==> t.server.published == Some(file))
  }

  /** What the server replies to a chunk at its own offset. */
  ghost predicate GoodReply(s: Upload, reply: PatchReply, file: seq<Byte>) {
    && Faithful(s, file) && reply != Refused(409)
    && (reply.Accepted? ==>
          && reply.body.Some? && reply.body.value.offset == Some(s.offset)
          && (if s.offset < s.total then s.status == "active" else s.published == Some(file)))
  }

  lemma HeardInStep(s: Upload, reply: PatchReply, offset: int, file: seq<Byte>, conflicts: nat)
    requires GoodReply(s, reply, file)
    ensures InStep(Heard(SERVER, s, reply, offset, |file|, conflicts), file)
  {
  }

  lemma ChunkInStep(s: Upload, file: seq<Byte>, upload: Session)
    requires Faithful(s, file) && s.status == "active" && Valid(upload, |file|)
             && upload.offset.value == s.offset < s.total
    ensures var (s', reply) := Patch(s, s.offset, Chunk(file, upload)); GoodReply(s', reply, file)
  {
    PatchKeeps(s, file, upload);
  }

  lemma RoundInStep(t: Trip<Upload>, file: seq<Byte>, chunk: nat)
    requires InStep(t, file) && 0 < chunk <= MAX_SAFE_INTEGER && (t.status.Sending? ==> 0 <= t.status.offset < |file|)
    ensures InStep(Round(SERVER, file, chunk, t), file)
  {
    if t.status.Sending? {
      var upload := Session(Some(t.status.offset), Some(chunk), "active");
      ChunkInStep(t.server, file, upload);
      var (s', reply) := Patch(t.server, t.status.offset, Chunk(file, upload));
      HeardInStep(s', reply, t.status.offset, file, t.conflicts);
    }
  }

  lemma {:induction false} RoundsInStep(file: seq<Byte>, chunk: nat, s: Upload, n: nat)
    requires Faithful(s, file) && s.status == "active" && s.offset < s.total && 0 < chunk <= MAX_SAFE_INTEGER
    ensures InStep(Rounds(SERVER, file, chunk, s, s.offset, n), file)
  {
    if n > 0 {
      RoundsInStep(file, chunk, s, n - 1);
      RoundInStep(Rounds(SERVER, file, chunk, s, s.offset, n - 1), file, chunk);
    }
  }

  /** From an active session every round either ends the loop or brings a byte, whatever the network does: the
      server never answers it with a 409. */
  lemma {:induction false} ActiveSessionAdvances(file: seq<Byte>, chunk: nat, s: Upload, n: nat)
    requires Faithful(s, file) && s.status == "active" && s.offset < s.total && 0 < chunk <= MAX_SAFE_INTEGER
    ensures var t := Rounds(SERVER, file, chunk, s, s.offset, n);
            t.conflicts == 0 && (t.status.Sending? ==> s.offset + n <= t.status.offset)
  {
    if n > 0 {
      ActiveSessionAdvances(file, chunk, s, n - 1);
      RoundsInStep(file, chunk, s, n - 1);
      RoundAdvances(Rounds(SERVER, file, chunk, s, s.offset, n - 1), file, chunk);
    }
  }

  lemma RoundAdvances(t: Trip<Upload>, file: seq<Byte>, chunk: nat)
    requires InStep(t, file) && (t.status.Sending? ==> 0 <= t.status.offset < |file|) && 0 < chunk <= MAX_SAFE_INTEGER
    ensures var t' := Round(SERVER, file, chunk, t);
            && t'.conflicts == t.conflicts
            && (t'.status.Sending? ==> t.status.Sending? && t'.status.offset > t.status.offset)
  {
    if t.status.Sending? {
      NoConflict(t, file, chunk);
      OneRoundOn(SERVER, file, chunk, t);
    }
  }

  lemma NoConflict(t: Trip<Upload>, file: seq<Byte>, chunk: nat)
    requires InStep(t, file) && t.status.Sending? && 0 <= t.status.offset < |file| && 0 < chunk <= MAX_SAFE_INTEGER
    ensures Round(SERVER, file, chunk, t).conflicts == t.conflicts
  {
    ChunkInStep(t.server, file, Session(Some(t.status.offset), Some(chunk), "active"));
  }

  lemma NoConflictsEver(file: seq<Byte>, chunk: nat, s: Upload)
    requires Faithful(s, file) && 0 < chunk <= MAX_SAFE_INTEGER && (s.status == "active" || s.offset == s.total)
    ensures ConflictsAtMost(SERVER, file, chunk, s, s.offset, 0)
  {
    forall n: nat
      ensures Rounds(SERVER, file, chunk, s, s.offset, n).conflicts <= 0
    {
      if s.offset < s.total { ActiveSessionAdvances(file, chunk, s, n); } else { NothingToSend(file, chunk, s, n); }
    }
  }

  lemma RoundsNeeded(file: seq<Byte>, chunk: nat, s: Upload, n: nat)
    requires Faithful(s, file) && 0 < chunk <= MAX_SAFE_INTEGER && (s.status == "active" || s.offset == s.total)
    ensures Rounds(SERVER, file, chunk, s, s.offset, n).status.Sending? ==> n < s.total - s.offset
  {
    if s.offset < s.total { ActiveSessionAdvances(file, chunk, s, n); } else { NothingToSend(file, chunk, s, n); }
  }

  lemma EndedAt(file: seq<Byte>, chunk: nat, s: Upload, n: nat)
    requires Faithful(s, file) && 0 < chunk <= MAX_SAFE_INTEGER && (s.status == "active" || s.offset == s.total)
    requires n > 0 ==> Rounds(SERVER, file, chunk, s, s.offset, n - 1).status.Sending?
    ensures n <= s.total - s.offset
    ensures s.offset < s.total ==> InStep(Rounds(SERVER, file, chunk, s, s.offset, n), file)
  {
    if n > 0 { RoundsNeeded(file, chunk, s, n - 1); }
    if s.offset < s.total { RoundsInStep(file, chunk, s, n); }
  }

  /** The phone's loop over a session it has resumed at the server's own offset ends within as many rounds as bytes
      are missing, under any faults, when the session is active or has all its bytes. */
  method ResumeUpload(file: seq<Byte>, chunk: nat, s: Upload) returns (t: Trip<Upload>, ghost rounds: nat)
    requires Faithful(s, file) && 0 < chunk <= MAX_SAFE_INTEGER
    requires s.status == "active" || s.offset == s.total
    ensures !t.status.Sending? && t == Rounds(SERVER, file, chunk, s, s.offset, rounds)
    ensures rounds <= s.total - s.offset
    ensures s.offset < s.total ==> InStep(t, file)
  {
    NoConflictsEver(file, chunk, s);
    t, rounds := UploadLoop(SERVER, file, chunk, s, s.offset, 0);
    EndedAt(file, chunk, s, rounds);
  }

  lemma {:induction false} NothingToSend(file: seq<Byte>, chunk: nat, s: Upload, n: nat)
    requires s.offset == s.total == |file|
    ensures Rounds(SERVER, file, chunk, s, s.offset, n) == Start(file, s, s.offset)
  {
    if n > 0 { NothingToSend(file, chunk, s, n - 1); }
  }

  /** Exactly when the loop ends once the network is sound: the resumed session is active or has all its bytes. A
      session that has expired or failed in between answers 409 for ever. */
  lemma EndsExactlyWhenActive(file: seq<Byte>, chunk: nat, s: Upload)
    requires Faithful(s, file) && s.faults == [] && 0 < chunk <= MAX_SAFE_INTEGER
    ensures (exists n: nat :: !Rounds(SERVER, file, chunk, s, s.offset, n).status.Sending?)
            <==> s.status == "active" || s.offset == s.total
  {
    if s.offset == s.total {
      assert !Rounds(SERVER, file, chunk, s, s.offset, 0).status.Sending?;
    } else if s.status == "active" {
      var n := s.total - s.offset;
      ActiveSessionAdvances(file, chunk, s, n);
      assert !Rounds(SERVER, file, chunk, s, s.offset, n).status.Sending?;
    } else {
      forall n: nat
        ensures Rounds(SERVER, file, chunk, s, s.offset, n).status.Sending?
      {
        ConflictsForever(file, chunk, s, n);
      }
    }
  }

  /** Without faults each round brings a whole chunk, or what is left. */
  lemma RoundBringsAChunk(t: Trip<Upload>, file: seq<Byte>, chunk: nat)
    requires InStep(t, file) && t.status.Sending? && t.server.faults == [] && 0 < chunk <= MAX_SAFE_INTEGER
    requires 0 <= t.status.offset < |file|
    ensures var t' := Round(SERVER, file, chunk, t);
            && t'.status == At(Min(t.status.offset + chunk, |file|), |file|)
            && t'.server.faults == [] && InStep(t', file) && t'.conflicts == t.conflicts
  {
    RoundInStep(t, file, chunk);
    var s, body := t.server, file[t.status.offset..Min(t.status.offset + chunk, |file|)];
    WrittenPrefix(s.data, s.offset, body, file, |body|);
    var data := Written(s.data, s.offset, body);
    if s.offset + |body| == s.total { assert data == data[..s.offset + |body|] == file; }
  }

  ghost predicate IsAt(t: Trip<Upload>, file: seq<Byte>, at: int) {
    InStep(t, file) && t.status == At(at, |file|) && t.server.faults == []
  }

  lemma ChunkOrDone(t: Trip<Upload>, file: seq<Byte>, chunk: nat, at: int)
    requires IsAt(t, file, at) && 0 <= at <= |file| && 0 < chunk <= MAX_SAFE_INTEGER
    ensures IsAt(Round(SERVER, file, chunk, t), file, Min(at + chunk, |file|))
  {
    if at < |file| { RoundBringsAChunk(t, file, chunk); }
  }

  /** Where `n` chunks lead. */
  function Reached(offset: nat, n: nat, chunk: nat, size: nat): (at: nat)
    requires offset <= size
    ensures at <= size
  {
    if n == 0 then offset else Min(Reached(offset, n - 1, chunk, size) + chunk, size)
  }

  lemma {:induction false} ReachedIs(offset: nat, n: nat, chunk: nat, size: nat)
    requires offset <= size
    ensures Reached(offset, n, chunk, size) == Min(offset + n * chunk, size)
  {
    if n > 0 {
      ReachedIs(offset, n - 1, chunk, size);
      assert n * chunk == (n - 1) * chunk + chunk;
    }
  }

  lemma {:induction false} RoundsReach(file: seq<Byte>, chunk: nat, s: Upload, n: nat)
    requires Faithful(s, file) && s.status == "active" && s.faults == [] && s.offset < s.total
    requires 0 < chunk <= MAX_SAFE_INTEGER
    ensures IsAt(Rounds(SERVER, file, chunk, s, s.offset, n), file, Reached(s.offset, n, chunk, |file|))
  {
    if n > 0 {
      RoundsReach(file, chunk, s, n - 1);
      ChunkOrDone(Rounds(SERVER, file, chunk, s, s.offset, n - 1), file, chunk,
                  Reached(s.offset, n - 1, chunk, |file|));
    }
  }

  /** So after `n` rounds exactly `n` chunks are there, until the file is. */
  lemma RoundsTaken(file: seq<Byte>, chunk: nat, s: Upload, n: nat)
    requires Faithful(s, file) && s.status == "active" && s.faults == [] && s.offset < s.total
    requires 0 < chunk <= MAX_SAFE_INTEGER
    ensures Rounds(SERVER, file, chunk, s, s.offset, n).status == At(Min(s.offset + n * chunk, |file|), |file|)
  {
    RoundsReach(file, chunk, s, n);
    ReachedIs(s.offset, n, chunk, |file|);
  }

  /** The phone resumes an active session and comes to call it uploaded. */
  ghost predicate CallsUploaded(file: seq<Byte>, chunk: nat, s: Upload, n: nat) {
    Rounds(SERVER, file, chunk, s, s.offset, n).status.Uploaded?
  }

  /** Exactly when a completed row proves that the server has the file: an upload resumed from an active,
      unpublished session is published whenever the phone calls it uploaded if and only if bytes were still
      missing when it resumed. With all bytes received but publication failed, the phone sends nothing, calls the
      upload done, and nothing is published. */
  lemma UploadedMeansPublished(file: seq<Byte>, chunk: nat, s: Upload)
    requires Faithful(s, file) && s.status == "active" && s.published.None? && 0 < chunk <= MAX_SAFE_INTEGER
    ensures (forall n: nat :: CallsUploaded(file, chunk, s, n) ==>
               Rounds(SERVER, file, chunk, s, s.offset, n).server.published == Some(file))
            <==> s.offset < s.total
  {
    if s.offset < s.total {
      forall n: nat | CallsUploaded(file, chunk, s, n)
        ensures Rounds(SERVER, file, chunk, s, s.offset, n).server.published == Some(file)
      {
        RoundsInStep(file, chunk, s, n);
      }
    } else {
      assert CallsUploaded(file, chunk, s, 0);
      assert Rounds(SERVER, file, chunk, s, s.offset, 0).server == s;
    }
  }

  /** On that very session the browser's loop publishes the file with one empty PATCH. */
  lemma BrowserPublishesIt(file: seq<Byte>, s: Upload)
    requires Faithful(s, file) && s.status == "active" && s.offset == s.total && s.faults == []
    ensures var r := Transfer(SERVER, file, s, Session(Some(s.offset), Some(s.chunk), "active"));
            r.outcome.Finished? && r.server.published == Some(file)
  {
    TransferCompletes(s, file, Session(Some(s.offset), Some(s.chunk), "active"), 0);
  }
}
