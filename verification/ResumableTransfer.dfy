/** The browser's upload loop against a server that may answer anything
    (finishTransfer in frontend/app/resumable-transfer.ts). */
module ResumableTransfer {
  import opened Numbers
  import opened Options

  type Byte = bv8

  /** A number as the server reported it; None stands for everything that is not a safe integer. */
  type Number = Option<int>

  const MAX_SAFE_INTEGER := 9_007_199_254_740_991

  datatype Session = Session(offset: Number, chunkSize: Number, status: string)

  /** A request may bring no reply, be refused, or be answered by a body that may not parse. */
  datatype PatchReply = NoReply | Refused(code: int) | Accepted(body: Option<Session>)

  datatype HeadReply = NoStatus | Status(offset: Option<Number>, status: Option<string>)

  /** Any server whatever: how it changes and what it replies. */
  datatype Server<!S> = Server(patch: (S, int, seq<Byte>) -> (S, PatchReply), head: S -> (S, HeadReply))

  datatype Failure = Premature | NotActive | InvalidProgress | Stalled

  datatype Outcome = Finished(session: Session) | Failed(failure: Failure)

  /** The server afterwards, how the call ended, the number of PATCH requests, and the offsets shown on the way. */
  datatype Report<S> = Report(server: S, outcome: Outcome, patches: nat, shown: seq<int>)

  predicate IsSafe(n: Number) {
    n.Some? && -MAX_SAFE_INTEGER <= n.value <= MAX_SAFE_INTEGER
  }

  /** The session can be continued: an offset inside the file and a positive chunk. */
  predicate Valid(upload: Session, size: nat) {
    && IsSafe(upload.offset) && 0 <= upload.offset.value <= size
    && IsSafe(upload.chunkSize) && upload.chunkSize.value > 0
  }

  /** The bytes sent from an offset. */
  function Chunk(file: seq<Byte>, upload: Session): seq<Byte>
    requires Valid(upload, |file|)
  {
    file[upload.offset.value..Min(upload.offset.value + upload.chunkSize.value, |file|)]
  }

  /** What the session is after a HEAD request. */
  function Recovered(upload: Session, reply: HeadReply): Session {
    match reply
    case NoStatus => upload
    case Status(offset, status) =>
      upload.(offset := if offset.Some? then offset.value else upload.offset,
              status := if status.Some? then status.value else upload.status)
  }

  /** One PATCH, and a HEAD when it was not accepted. */
  function Exchange<S>(server: Server<S>, file: seq<Byte>, s: S, upload: Session): (S, Option<Session>)
    requires Valid(upload, |file|)
  {
    var (s1, reply) := server.patch(s, upload.offset.value, Chunk(file, upload));
    match reply
    case Accepted(body) => (s1, body)
    case _ => var (s2, status) := server.head(s1); (s2, Some(Recovered(upload, status)))
  }

  /** The reply keeps inside the file and does not go back. */
  predicate Acceptable(next: Option<Session>, offset: int, size: nat) {
    next.Some? && IsSafe(next.value.offset) && offset <= next.value.offset.value <= size
  }

  function Measure(upload: Session, size: nat, stalled: nat): nat
    requires stalled < 3
  {
    if Valid(upload, size) then 3 * (size - upload.offset.value) + 3 - stalled else 0
  }

  /** What the loop does from one state on. */
  function Loop<S>(server: Server<S>, file: seq<Byte>, s: S, upload: Session, stalled: nat): Report<S>
    requires stalled < 3
    decreases Measure(upload, |file|, stalled), if upload.status == "active" then 1 else 0
  {
    if upload.status != "active" then Report(s, Failed(NotActive), 0, [])
    else if !Valid(upload, |file|) then Report(s, Failed(InvalidProgress), 0, [])
    else
      var offset := upload.offset.value;
      var (s', next) := Exchange(server, file, s, upload);
      if !Acceptable(next, offset, |file|) then Report(s', Failed(InvalidProgress), 1, [])
      else
        var now := next.value.offset.value;
        if next.value.status == "complete" then
          Report(s', if now == |file| then Finished(next.value) else Failed(Premature), 1, [now])
        else if now == offset && stalled + 1 >= 3 then Report(s', Failed(Stalled), 1, [now])
        else
          var rest := Loop(server, file, s', next.value, if now > offset then 0 else stalled + 1);
          After(1, [now], rest)
  }

  function After<S>(patches: nat, shown: seq<int>, rest: Report<S>): Report<S> {
    rest.(patches := patches + rest.patches, shown := shown + rest.shown)
  }

  /** The whole call. */
  function Transfer<S>(server: Server<S>, file: seq<Byte>, s: S, initial: Session): Report<S> {
    if initial.status == "complete" then
      Report(s, if initial.offset == Some(|file|) then Finished(initial) else Failed(Premature), 0, [])
    else Loop(server, file, s, initial, 0)
  }

  // ---------------------------------------------------------------- what the caller is told

  /** What the server was and what the browser knew, at first and after each accepted exchange. */
  type Talk<S> = seq<(S, Session)>

  function Known<S>(talk: Talk<S>): Session
    requires talk != []
  {
    talk[|talk| - 1].1
  }

  /** A request from an active session with sound numbers, answered by an offset that does not go back. */
  ghost predicate Proceeds<S>(server: Server<S>, file: seq<Byte>, was: (S, Session), now: (S, Session)) {
    && was.1.status == "active" && Valid(was.1, |file|) && Acceptable(Some(now.1), was.1.offset.value, |file|)
    && var (s', next) := Exchange(server, file, was.0, was.1);
       s' == now.0 && next == Some(now.1)
  }

  /** The last three answers brought nothing new. */
  predicate Stuck<S>(talk: Talk<S>) {
    |talk| > 3 && forall j | |talk| - 4 <= j < |talk| :: talk[j].1.offset == Known(talk).offset
  }

  ghost predicate Turn<S>(server: Server<S>, file: seq<Byte>, talk: Talk<S>, k: nat)
    requires k + 1 < |talk|
  {
    Proceeds(server, file, talk[k], talk[k + 1]) && !Stuck(talk[..k + 1])
  }

  /** How the talk began and went on. */
  ghost predicate Held<S>(server: Server<S>, file: seq<Byte>, talk: Talk<S>, s: S, initial: Session) {
    talk != [] && talk[0] == (s, initial) && forall k :: 0 <= k < |talk| - 1 ==> Turn(server, file, talk, k)
  }

  /** The next answer cannot be used. */
  predicate Spoilt<S>(server: Server<S>, file: seq<Byte>, s: S, upload: Session) {
    !Valid(upload, |file|) || !Acceptable(Exchange(server, file, s, upload).1, upload.offset.value, |file|)
  }

  /** Why the talk ended: only a complete session with the whole file is a success, and each error has its own
      reason. */
  predicate Concludes<S>(server: Server<S>, file: seq<Byte>, talk: Talk<S>, outcome: Outcome)
    requires talk != []
  {
    var upload := Known(talk);
    match outcome
    case Finished(session) => session == upload && upload.status == "complete" && upload.offset == Some(|file|)
    case Failed(failure) =>
      match failure
      case Premature => upload.status == "complete" && upload.offset != Some(|file|)
      case Stalled => upload.status != "complete" && Stuck(talk)
      case NotActive => upload.status != "complete" && upload.status != "active" && !Stuck(talk)
      case InvalidProgress =>
        upload.status == "active" && !Stuck(talk) && Spoilt(server, file, talk[|talk| - 1].0, upload)
  }

  predicate ShownAre<S>(talk: Talk<S>, shown: seq<int>) {
    |talk| == |shown| + 1 && forall k | 0 <= k < |shown| :: talk[k + 1].1.offset == Some(shown[k])
  }

  /** The number of answers in a row that brought nothing new. */
  predicate StalledFor<S>(talk: Talk<S>, stalled: int) {
    && 0 <= stalled < |talk|
    && (forall j | |talk| - 1 - stalled <= j < |talk| :: talk[j].1.offset == Known(talk).offset)
    && (stalled + 1 < |talk| ==> talk[|talk| - 2 - stalled].1.offset != Known(talk).offset)
  }

  lemma StuckAfterThree<S>(talk: Talk<S>, stalled: int)
    requires StalledFor(talk, stalled)
    ensures Stuck(talk) <==> stalled >= 3
  {
    if stalled + 1 < |talk| { assert talk[|talk| - 2 - stalled].1.offset != Known(talk).offset; }
  }

  lemma TalkGoesOn<S>(server: Server<S>, file: seq<Byte>, talk: Talk<S>, s: S, initial: Session, next: (S, Session),
                      shown: seq<int>, stalled: int)
    requires Held(server, file, talk, s, initial) && ShownAre(talk, shown) && StalledFor(talk, stalled) && stalled < 3
    requires Proceeds(server, file, talk[|talk| - 1], next)
    ensures Held(server, file, talk + [next], s, initial)
    ensures ShownAre(talk + [next], shown + [next.1.offset.value])
    ensures StalledFor(talk + [next], if next.1.offset.value > Known(talk).offset.value then 0 else stalled + 1)
  {
    StuckAfterThree(talk, stalled);
    var more := talk + [next];
    assert more[..|talk|] == talk;
    forall k | 0 <= k < |talk|
      ensures Turn(server, file, more, k)
    {
      if k < |talk| - 1 { assert more[..k + 1] == talk[..k + 1] && Turn(server, file, talk, k); }
    }
  }

  /** The loop ends without a usable answer. */
  lemma LoopStops<S>(server: Server<S>, file: seq<Byte>, s: S, upload: Session, stalled: nat, talk: Talk<S>)
    requires stalled < 3 && talk != [] && talk[|talk| - 1] == (s, upload) && !Stuck(talk)
    requires upload.status != "complete" && (upload.status != "active" || Spoilt(server, file, s, upload))
    ensures var r := Loop(server, file, s, upload, stalled);
            Concludes(server, file, talk, r.outcome) && r.shown == [] && r.patches <= 1
  {
  }

  /** One turn of the loop: it ends there, or goes on from the answer. */
  lemma LoopTurns<S>(server: Server<S>, file: seq<Byte>, s: S, upload: Session, stalled: nat, s': S, next: Session)
    requires stalled < 3 && Proceeds(server, file, (s, upload), (s', next))
    ensures var r, now := Loop(server, file, s, upload, stalled), next.offset.value;
            var stalled' := if now > upload.offset.value then 0 else stalled + 1;
            if next.status == "complete" then
              r == Report(s', if next.offset == Some(|file|) then Finished(next) else Failed(Premature), 1, [now])
            else if stalled' >= 3 then r == Report(s', Failed(Stalled), 1, [now])
            else r == After(1, [now], Loop(server, file, s', next, stalled'))
  {
  }

  /** The talk accounts for the outcome, and for the offsets shown in it. */
  ghost predicate Tells<S>(server: Server<S>, file: seq<Byte>, talk: Talk<S>, s: S, initial: Session,
                           outcome: Outcome, shown: seq<int>) {
    Held(server, file, talk, s, initial) && Concludes(server, file, talk, outcome) && ShownAre(talk, shown)
  }

  /** The talk after the last turn. */
  lemma LastTurn<S>(server: Server<S>, file: seq<Byte>, s: S, upload: Session, stalled: nat, talk: Talk<S>, first: S,
                    initial: Session, shown: seq<int>, s': S, next: Session)
    requires stalled < 3 && Proceeds(server, file, (s, upload), (s', next)) && talk != []
    requires Held(server, file, talk, first, initial) && talk[|talk| - 1] == (s', next)
    requires ShownAre(talk, shown + [next.offset.value])
    requires var stalled' := if next.offset.value > upload.offset.value then 0 else stalled + 1;
             StalledFor(talk, stalled') && (next.status == "complete" || stalled' >= 3)
    ensures var r := Loop(server, file, s, upload, stalled);
            Tells(server, file, talk, first, initial, r.outcome, shown + r.shown) && |r.shown| == r.patches == 1
  {
    LoopTurns(server, file, s, upload, stalled, s', next);
    StuckAfterThree(talk, if next.offset.value > upload.offset.value then 0 else stalled + 1);
  }

  /** The rest of the talk from one state of the loop on. */
  lemma {:induction false} LoopTalks<S>(server: Server<S>, file: seq<Byte>, s: S, upload: Session, stalled: nat,
                                        before: Talk<S>, first: S, initial: Session, shown: seq<int>)
    returns (talk: Talk<S>)
    requires stalled < 3 && Held(server, file, before, first, initial) && before[|before| - 1] == (s, upload)
    requires ShownAre(before, shown) && StalledFor(before, stalled) && upload.status != "complete"
    ensures var r := Loop(server, file, s, upload, stalled);
            && Tells(server, file, talk, first, initial, r.outcome, shown + r.shown)
            && |r.shown| <= r.patches <= |r.shown| + 1
    decreases Measure(upload, |file|, stalled), 1
  {
    if upload.status != "active" || Spoilt(server, file, s, upload) {
      talk := before;
      StuckAfterThree(before, stalled);
      LoopStops(server, file, s, upload, stalled, before);
      assert shown + [] == shown;
    } else {
      var (after, next) := Exchange(server, file, s, upload);
      TalkGoesOn(server, file, before, first, initial, (after, next.value), shown, stalled);
      talk := TurnTalks(server, file, s, upload, stalled, before + [(after, next.value)], first, initial, shown, after,
                        next.value);
    }
  }

  lemma {:induction false} TurnTalks<S>(server: Server<S>, file: seq<Byte>, s: S, upload: Session, stalled: nat,
                                        before: Talk<S>, first: S, initial: Session, shown: seq<int>, s': S,
                                        next: Session)
    returns (talk: Talk<S>)
    requires stalled < 3 && Proceeds(server, file, (s, upload), (s', next)) && before != []
    requires Held(server, file, before, first, initial) && before[|before| - 1] == (s', next)
    requires ShownAre(before, shown + [next.offset.value])
    requires StalledFor(before, if next.offset.value > upload.offset.value then 0 else stalled + 1)
    ensures var r := Loop(server, file, s, upload, stalled);
            && Tells(server, file, talk, first, initial, r.outcome, shown + r.shown)
            && |r.shown| <= r.patches <= |r.shown| + 1
    decreases Measure(upload, |file|, stalled), 0
  {
    var now := next.offset.value;
    var stalled' := if now > upload.offset.value then 0 else stalled + 1;
    if next.status == "complete" || stalled' >= 3 {
      talk := before;
      LastTurn(server, file, s, upload, stalled, talk, first, initial, shown, s', next);
    } else {
      LoopTurns(server, file, s, upload, stalled, s', next);
      talk := LoopTalks(server, file, s', next, stalled', before, first, initial, shown + [now]);
      var rest := Loop(server, file, s', next, stalled').shown;
      assert shown + [now] + rest == shown + ([now] + rest);
    }
  }

  lemma TransferTalks<S>(server: Server<S>, file: seq<Byte>, s: S, initial: Session) returns (talk: Talk<S>)
    ensures var r := Transfer(server, file, s, initial);
            Tells(server, file, talk, s, initial, r.outcome, r.shown) && |r.shown| <= r.patches <= |r.shown| + 1
  {
    talk := [(s, initial)];
    if initial.status != "complete" {
      talk := LoopTalks(server, file, s, initial, 0, talk, s, initial, []);
      assert [] + Transfer(server, file, s, initial).shown == Transfer(server, file, s, initial).shown;
    }
  }

  /** finishTransfer. `talk` is what passed between the browser and the server, and decides the outcome. */
  method FinishTransfer<S>(server: Server<S>, file: seq<Byte>, s: S, initial: Session)
    returns (r: Report<S>, ghost talk: Talk<S>)
    ensures r == Transfer(server, file, s, initial)
    ensures r.outcome.Finished? ==>
              r.outcome.session.status == "complete" && r.outcome.session.offset == Some(|file|)
    ensures Tells(server, file, talk, s, initial, r.outcome, r.shown)
    ensures |r.shown| <= r.patches <= |r.shown| + 1
  {
    talk := TransferTalks(server, file, s, initial);
    r := Send(server, file, s, initial);
  }

  method Send<S>(server: Server<S>, file: seq<Byte>, s: S, initial: Session) returns (r: Report<S>)
    ensures r == Transfer(server, file, s, initial)
  {
    if initial.status == "complete" {
      return Report(s, if initial.offset == Some(|file|) then Finished(initial) else Failed(Premature), 0, []);
    }
    var upload, state, stalled := initial, s, 0;
    var patches: nat, shown: seq<int> := 0, [];
    while true
      invariant 0 <= stalled < 3
      invariant Loop(server, file, s, initial, 0) == After(patches, shown, Loop(server, file, state, upload, stalled))
      decreases Measure(upload, |file|, stalled), if upload.status == "active" then 1 else 0
    {
      if upload.status != "active" { return Report(state, Failed(NotActive), patches, shown); }
      if !Valid(upload, |file|) { return Report(state, Failed(InvalidProgress), patches, shown); }
      var offset := upload.offset.value;
      var (after, next) := Exchange(server, file, state, upload);
      if !Acceptable(next, offset, |file|) {
        return Report(after, Failed(InvalidProgress), patches + 1, shown);
      }
      var now := next.value.offset.value;
      ghost var before := stalled;
      if next.value.status == "complete" {
        return Report(after, if now == |file| then Finished(next.value)
            else Failed(Premature), patches + 1, shown + [now]);
      }
      if now > offset {
        stalled := 0;
      } else if stalled + 1 >= 3 {
        return Report(after, Failed(Stalled), patches + 1, shown + [now]);
      } else {
        stalled := stalled + 1;
      }
      LoopTurns(server, file, state, upload, before, after, next.value);
      AfterAfter(patches, shown, 1, [now], Loop(server, file, after, next.value, stalled));
      upload, state, patches, shown := next.value, after, patches + 1, shown + [now];
    }
  }

  lemma AfterAfter<S>(p1: nat, s1: seq<int>, p2: nat, s2: seq<int>, rest: Report<S>)
    ensures After(p1, s1, After(p2, s2, rest)) == After(p1 + p2, s1 + s2, rest)
  {
    assert s1 + (s2 + rest.shown) == s1 + s2 + rest.shown;
  }

  // ---------------------------------------------------------------- termination, against any server

  lemma {:induction false} LoopBound<S>(server: Server<S>, file: seq<Byte>, s: S, upload: Session, stalled: nat)
    requires stalled < 3
    ensures Loop(server, file, s, upload, stalled).patches <= Measure(upload, |file|, stalled)
    decreases Measure(upload, |file|, stalled), if upload.status == "active" then 1 else 0
  {
    if upload.status == "active" && Valid(upload, |file|) {
      var offset := upload.offset.value;
      var (s', next) := Exchange(server, file, s, upload);
      if Acceptable(next, offset, |file|) && next.value.status != "complete"
         && !(next.value.offset.value == offset && stalled + 1 >= 3) {
        LoopBound(server, file, s', next.value, if next.value.offset.value > offset then 0 else stalled + 1);
      }
    }
  }

  /** Against any server, even a malicious one, the call makes at most 3 (size - initial offset + 1) PATCH
      requests, and none when the initial session is not valid. */
  lemma TransferBound<S>(server: Server<S>, file: seq<Byte>, s: S, initial: Session)
    ensures Transfer(server, file, s, initial).patches
            <= if Valid(initial, |file|) then 3 * (|file| - initial.offset.value + 1) else 0
  {
    LoopBound(server, file, s, initial, 0);
  }

  /** Offsets shown to the user never go back and never leave the file. */
  predicate Ascending(offsets: seq<int>, low: int, high: int) {
    && (forall i :: 0 <= i < |offsets| ==> low <= offsets[i] <= high)
    && (forall i, j :: 0 <= i < j < |offsets| ==> offsets[i] <= offsets[j])
  }

  lemma {:induction false} ProgressAscends<S>(server: Server<S>, file: seq<Byte>, s: S, upload: Session, stalled: nat)
    requires stalled < 3
    ensures Valid(upload, |file|) ==>
              Ascending(Loop(server, file, s, upload, stalled).shown, upload.offset.value, |file|)
    decreases Measure(upload, |file|, stalled), if upload.status == "active" then 1 else 0
  {
    if upload.status == "active" && Valid(upload, |file|) {
      var offset := upload.offset.value;
      var (s', next) := Exchange(server, file, s, upload);
      if Acceptable(next, offset, |file|) && next.value.status != "complete"
         && !(next.value.offset.value == offset && stalled + 1 >= 3) {
        var stalled' := if next.value.offset.value > offset then 0 else stalled + 1;
        ProgressAscends(server, file, s', next.value, stalled');
      }
    }
  }

  // ---------------------------------------------------------------- the bound is reached

  /** A server that takes one byte at every third request and never completes. */
  datatype Stingy = Stingy(offset: int, size: nat, asked: nat)

  function StingyPatch(s: Stingy, offset: int, body: seq<Byte>): (Stingy, PatchReply) {
    var s' := if s.asked >= 2 && s.offset < s.size then Stingy(s.offset + 1, s.size, 0) else s.(asked := s.asked + 1);
    (s', Accepted(Some(AtOffset(s'.offset))))
  }

  function StingyHead(s: Stingy): (Stingy, HeadReply) {
    (s, NoStatus)
  }

  const STINGY_SERVER: Server<Stingy> := Server(StingyPatch, StingyHead)

  function AtOffset(offset: int): Session {
    Session(Some(offset), Some(1), "active")
  }

  /** One turn of the loop that neither fails nor completes. */
  lemma LoopTurn<S>(server: Server<S>, file: seq<Byte>, s: S, upload: Session, stalled: nat, s': S, next: Session)
    requires stalled < 3 && upload.status == "active" && Valid(upload, |file|)
    requires Exchange(server, file, s, upload) == (s', Some(next))
    requires Acceptable(Some(next), upload.offset.value, |file|) && next.status == "active"
    requires next.offset == upload.offset ==> stalled < 2
    ensures var stalled' := if next.offset.value > upload.offset.value then 0 else stalled + 1;
            Loop(server, file, s, upload, stalled).patches == 1 + Loop(server, file, s', next, stalled').patches
  {
  }

  lemma StingyExchange(file: seq<Byte>, s: Stingy)
    requires 0 <= s.offset <= |file| <= MAX_SAFE_INTEGER
    ensures Exchange(STINGY_SERVER, file, s, AtOffset(s.offset))
            == (StingyPatch(s, 0, []).0, Some(AtOffset(StingyPatch(s, 0, []).0.offset)))
  {
  }

  /** So the bound is the best possible, for every file and every initial offset. */
  lemma {:induction false} BoundIsReached(file: seq<Byte>, offset: nat, asked: nat)
    requires offset <= |file| <= MAX_SAFE_INTEGER && asked < 3
    ensures Loop(STINGY_SERVER, file, Stingy(offset, |file|, asked), AtOffset(offset), asked).patches
            == 3 * (|file| - offset) + 3 - asked
    decreases |file| - offset, 3 - asked
  {
    var s := Stingy(offset, |file|, asked);
    StingyExchange(file, s);
    if asked < 2 {
      LoopTurn(STINGY_SERVER, file, s, AtOffset(offset), asked, Stingy(offset, |file|, asked + 1), AtOffset(offset));
      BoundIsReached(file, offset, asked + 1);
    } else if offset < |file| {
      LoopTurn(STINGY_SERVER, file, s, AtOffset(offset), asked, Stingy(offset + 1, |file|, 0), AtOffset(offset + 1));
      BoundIsReached(file, offset + 1, 0);
    }
  }
}
