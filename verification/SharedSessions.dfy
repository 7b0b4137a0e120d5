/** The phone's upload loop when another PATCH, say a delayed one of an earlier run, has changed the session
    meanwhile (uploadTransfer in mobile/src/backup.ts, append_upload in backend/app/api/v1/uploads.py). */
module SharedSessions {
  import opened MobileUpload
  import opened Options
  import opened ResumableTransfer
  import opened UploadServer

  predicate Inside<S>(t: Trip<S>, file: seq<Byte>) {
    t.status.Sending? ==> 0 <= t.status.offset < |file|
  }

  /** `n` rounds more. */
  function On<S>(server: Server<S>, file: seq<Byte>, chunk: nat, t: Trip<S>, n: nat): (t': Trip<S>)
    requires Inside(t, file)
    ensures Inside(t', file)
  {
    if n == 0 then t else Round(server, file, chunk, On(server, file, chunk, t, n - 1))
  }

  lemma {:induction false} OnFromRound<S>(server: Server<S>, file: seq<Byte>, chunk: nat, t: Trip<S>, n: nat)
    requires Inside(t, file)
    ensures On(server, file, chunk, t, n + 1) == On(server, file, chunk, Round(server, file, chunk, t), n)
  {
    if n == 0 {
      assert On(server, file, chunk, t, 1) == Round(server, file, chunk, On(server, file, chunk, t, 0));
    } else {
      OnFromRound(server, file, chunk, t, n - 1);
    }
  }

  /** The loop does not look at the number of conflicts it has met. */
  predicate SameBut<S(==)>(a: Trip<S>, b: Trip<S>) {
    a.server == b.server && a.status == b.status
  }

  lemma SameRound<S>(server: Server<S>, file: seq<Byte>, chunk: nat, a: Trip<S>, b: Trip<S>)
    requires SameBut(a, b) && Inside(a, file)
    ensures SameBut(Round(server, file, chunk, a), Round(server, file, chunk, b))
  {
  }

  lemma {:induction false} OnIsRounds(file: seq<Byte>, chunk: nat, t: Trip<Upload>, n: nat)
    requires Inside(t, file) && t.status == Start(file, t.server, t.server.offset).status
    ensures SameBut(On(SERVER, file, chunk, t, n), Rounds(SERVER, file, chunk, t.server, t.server.offset, n))
  {
    if n > 0 {
      OnIsRounds(file, chunk, t, n - 1);
      SameRound(SERVER, file, chunk, On(SERVER, file, chunk, t, n - 1),
                Rounds(SERVER, file, chunk, t.server, t.server.offset, n - 1));
    }
  }

  /** A PATCH at an offset that is not the server's, or to a session that is not active, only makes the phone take
      the server's offset. */
  lemma OutOfStep(file: seq<Byte>, chunk: nat, t: Trip<Upload>)
    requires t.status.Sending? && Inside(t, file) && Faithful(t.server, file) && t.server.faults == []
    requires t.server.status != "active" || t.status.offset != t.server.offset
    ensures Round(SERVER, file, chunk, t)
            == Trip(t.server, Start(file, t.server, t.server.offset).status, t.conflicts + 1)
  {
  }

  ghost predicate Ends(file: seq<Byte>, chunk: nat, t: Trip<Upload>)
    requires Inside(t, file)
  {
    exists n: nat :: !On(SERVER, file, chunk, t, n).status.Sending?
  }

  /** Whatever the other PATCH did, once the network is sound the loop ends if and only if the session is still active
      or has all its bytes. */
  lemma EndsExactlyWhenActiveStill(file: seq<Byte>, chunk: nat, t: Trip<Upload>)
    requires t.status.Sending? && Inside(t, file) && Faithful(t.server, file) && t.server.faults == []
    requires 0 < chunk <= MAX_SAFE_INTEGER
    ensures Ends(file, chunk, t) <==> t.server.status == "active" || t.server.offset == t.server.total
  {
    if t.server.status == "active" && t.status.offset == t.server.offset {
      InStepEnds(file, chunk, t);
    } else {
      OutOfStep(file, chunk, t);
      var t' := Round(SERVER, file, chunk, t);
      InStepEnds(file, chunk, t');
      RoundDoesNotMatter(file, chunk, t);
    }
  }

  lemma InStepEnds(file: seq<Byte>, chunk: nat, t: Trip<Upload>)
    requires Inside(t, file) && Faithful(t.server, file) && t.server.faults == [] && 0 < chunk <= MAX_SAFE_INTEGER
    requires t.status == Start(file, t.server, t.server.offset).status
    ensures Ends(file, chunk, t) <==> t.server.status == "active" || t.server.offset == t.server.total
  {
    EndsExactlyWhenActive(file, chunk, t.server);
    if n: nat :| !On(SERVER, file, chunk, t, n).status.Sending? {
      OnIsRounds(file, chunk, t, n);
      assert !Rounds(SERVER, file, chunk, t.server, t.server.offset, n).status.Sending?;
    }
    if n: nat :| !Rounds(SERVER, file, chunk, t.server, t.server.offset, n).status.Sending? {
      OnIsRounds(file, chunk, t, n);
      assert !On(SERVER, file, chunk, t, n).status.Sending?;
    }
  }

  lemma EndsOneRoundSooner(file: seq<Byte>, chunk: nat, t: Trip<Upload>, n: nat)
    requires Inside(t, file) && !On(SERVER, file, chunk, t, n + 1).status.Sending?
    ensures Ends(file, chunk, Round(SERVER, file, chunk, t))
  {
    OnFromRound(SERVER, file, chunk, t, n);
    assert !On(SERVER, file, chunk, Round(SERVER, file, chunk, t), n).status.Sending?;
  }

  lemma EndsOneRoundLater(file: seq<Byte>, chunk: nat, t: Trip<Upload>, n: nat)
    requires Inside(t, file) && !On(SERVER, file, chunk, Round(SERVER, file, chunk, t), n).status.Sending?
    ensures Ends(file, chunk, t)
  {
    OnFromRound(SERVER, file, chunk, t, n);
    assert !On(SERVER, file, chunk, t, n + 1).status.Sending?;
  }

  lemma RoundDoesNotMatter(file: seq<Byte>, chunk: nat, t: Trip<Upload>)
    requires t.status.Sending? && Inside(t, file)
    ensures Ends(file, chunk, t) ==> Ends(file, chunk, Round(SERVER, file, chunk, t))
    ensures Ends(file, chunk, Round(SERVER, file, chunk, t)) ==> Ends(file, chunk, t)
  {
    if n: nat :| !On(SERVER, file, chunk, t, n).status.Sending? { EndsOneRoundSooner(file, chunk, t, n - 1); }
    if n: nat :| !On(SERVER, file, chunk, Round(SERVER, file, chunk, t), n).status.Sending? {
      EndsOneRoundLater(file, chunk, t, n);
    }
  }

  /** So a PATCH of an earlier run that finds the session run out, in the middle of a loop that has bytes left to send,
      holds the phone for ever. */
  lemma EarlierPatchHoldsThePhone(file: seq<Byte>, chunk: nat, t: Trip<Upload>, body: seq<Byte>, offset: int, n: nat)
    requires t.status.Sending? && Inside(t, file) && Faithful(t.server, file) && 0 < chunk <= MAX_SAFE_INTEGER
    requires t.server.status == "active" && t.server.offset < t.server.total && t.server.faults == [Expired]
    ensures var s := Patch(t.server, offset, body).0; On(SERVER, file, chunk, t.(server := s), n).status.Sending?
  {
    EndsExactlyWhenActiveStill(file, chunk, t.(server := Patch(t.server, offset, body).0));
  }
}
