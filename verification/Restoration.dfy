/** Bringing an original back from the first replica that is really valid (restore_from_candidates and
    _copy_verified_replica in backend/app/worker/tasks.py). */
module Restoration {
  type ReplicaId = string
  type Path = string
  type Checksum = string

  datatype Candidate = Candidate(id: ReplicaId, path: Path)

  datatype Reason = Missing | ChecksumMismatch | Unreadable | Disappeared | CopyMismatch

  datatype Failure = Failure(id: ReplicaId, reason: Reason)

  /** What goes wrong while one candidate is read or its copy published. A failure to write is not the fault of the
      candidate, and setting the timestamp comes after the replace. */
  datatype Fault = NoFault | ReadError | Vanishes | Garbles | WriteFails | StampFails

  /** Whether removing the temporary file is refused at the end. */
  datatype Trouble = Trouble(fault: Fault, cleanupFails: bool)

  const NO_TROUBLE := Trouble(NoFault, false)

  datatype Verdict = Usable | Unusable(reason: Reason) | Aborted

  /** What _copy_verified_replica finds out about one candidate. */
  function Judged(files: map<Path, Checksum>, c: Candidate, expected: Checksum, trouble: Trouble): Verdict {
    if c.path !in files then Unusable(Missing)
    else if trouble.fault.ReadError? then Unusable(Unreadable)
    else if files[c.path] != expected then Unusable(ChecksumMismatch)
    else if trouble.cleanupFails then Aborted
    else if trouble.fault.Vanishes? then Unusable(Disappeared)
    else if trouble.fault.Garbles? then Unusable(CopyMismatch)
    else if trouble.fault.WriteFails? || trouble.fault.StampFails? then Aborted
    else Usable
  }

  /** The content is there, and reading it does not fail. */
  predicate Sound(files: map<Path, Checksum>, c: Candidate, expected: Checksum, trouble: Trouble) {
    c.path in files && files[c.path] == expected && trouble.fault != ReadError
  }

  /** The only ground for each verdict. A candidate that cannot be read is itself to blame, and so is one that is gone
      or has other content; a destination that fails is nobody's fault and ends the restore. */
  predicate Grounds(files: map<Path, Checksum>, c: Candidate, expected: Checksum, trouble: Trouble, v: Verdict) {
    match v
    case Usable => Sound(files, c, expected, trouble) && trouble == NO_TROUBLE
    case Aborted =>
      && Sound(files, c, expected, trouble)
      && (trouble.cleanupFails || trouble.fault == WriteFails || trouble.fault == StampFails)
    case Unusable(reason) =>
      match reason
      case Missing => c.path !in files
      case Unreadable => c.path in files && trouble.fault == ReadError
      case ChecksumMismatch => c.path in files && trouble.fault != ReadError && files[c.path] != expected
      case Disappeared => Sound(files, c, expected, trouble) && trouble == Trouble(Vanishes, false)
      case CopyMismatch => Sound(files, c, expected, trouble) && trouble == Trouble(Garbles, false)
  }

  /** Whether the replace is reached, which is no matter of the verdict alone. */
  predicate Publishes(files: map<Path, Checksum>, c: Candidate, expected: Checksum, trouble: Trouble) {
    c.path in files && files[c.path] == expected && (trouble.fault.NoFault? || trouble.fault.StampFails?)
  }

  /** The position of the first candidate that is not unusable. */
  function FirstNotUnusable(files: map<Path, Checksum>, candidates: seq<Candidate>, expected: Checksum,
      troubles: seq<Trouble>): (k: nat)
    requires |troubles| == |candidates|
    ensures k <= |candidates|
    ensures forall i :: 0 <= i < k ==> Judged(files, candidates[i], expected, troubles[i]).Unusable?
    ensures k < |candidates| ==> !Judged(files, candidates[k], expected, troubles[k]).Unusable?
  {
    if candidates == [] || !Judged(files, candidates[0], expected, troubles[0]).Unusable? then 0
    else 1 + FirstNotUnusable(files, candidates[1..], expected, troubles[1..])
  }

  /** The first candidate that is not unusable is usable. */
  predicate Succeeds(files: map<Path, Checksum>, candidates: seq<Candidate>, expected: Checksum,
                     troubles: seq<Trouble>)
    requires |troubles| == |candidates|
  {
    var k := FirstNotUnusable(files, candidates, expected, troubles);
    k < |candidates| && Judged(files, candidates[k], expected, troubles[k]).Usable?
  }

  datatype Result = Restored(id: ReplicaId) | NoUsableReplica | DestinationFailed

  class Disk {
    var files: map<Path, Checksum>

    constructor (files: map<Path, Checksum>)
      ensures this.files == files
    {
      this.files := files;
    }

    /** _copy_verified_replica: the destination changes only by the final replace, and only to verified content;
        what fails after the replace still fails. */
    method CopyVerifiedReplica(c: Candidate, destination: Path, expected: Checksum, trouble: Trouble)
      returns (v: Verdict)
      modifies this
      ensures v == Judged(old(files), c, expected, trouble)
      ensures Grounds(old(files), c, expected, trouble, v)
      ensures files == if Publishes(old(files), c, expected, trouble) then old(files)[destination := expected]
                       else old(files)
    {
      if c.path !in files { return Unusable(Missing); }
      if trouble.fault.ReadError? { return Unusable(Unreadable); }
      if files[c.path] != expected { return Unusable(ChecksumMismatch); }
      v := CopyAndReplace(c, destination, expected, trouble);
      if trouble.cleanupFails { v := Aborted; }
    }

    /** The try block, up to the timestamp. */
    method CopyAndReplace(c: Candidate, destination: Path, expected: Checksum, trouble: Trouble) returns (v: Verdict)
      requires c.path in files && files[c.path] == expected && !trouble.fault.ReadError?
      modifies this
      ensures v == Judged(old(files), c, expected, trouble.(cleanupFails := false))
      ensures files == if Publishes(old(files), c, expected, trouble) then old(files)[destination := expected]
                       else old(files)
    {
      if trouble.fault.Vanishes? { return Unusable(Disappeared); }
      if trouble.fault.WriteFails? { return Aborted; }
      var temporary := if trouble.fault.Garbles? then files[c.path] + "*" else files[c.path];
      if temporary != expected { return Unusable(CopyMismatch); }
      files := files[destination := temporary];
      if trouble.fault.StampFails? { return Aborted; }
      return Usable;
    }

    /** restore_from_candidates: restored exactly when the first candidate that is not unusable is usable, which is
        then the chosen one; the failures are exactly those of the candidates before it; and the destination is as
        it was, or has the verified content. */
    method RestoreFromCandidates(candidates: seq<Candidate>, destination: Path, expected: Checksum,
        troubles: seq<Trouble>)
      returns (r: Result, failures: seq<Failure>)
      requires |troubles| == |candidates|
      modifies this
      ensures |failures| <= |candidates| && |failures| == FirstNotUnusable(old(files), candidates, expected, troubles)
      ensures forall i :: 0 <= i < |failures| ==>
                failures[i] == Failure(candidates[i].id,
                                       Judged(old(files), candidates[i], expected, troubles[i]).reason)
      ensures forall i :: 0 <= i < |failures| ==>
                failures[i].id == candidates[i].id
                && Grounds(old(files), candidates[i], expected, troubles[i], Unusable(failures[i].reason))
      ensures !r.NoUsableReplica? ==>
                && |failures| < |candidates|
                && Grounds(old(files), candidates[|failures|], expected, troubles[|failures|],
                           if r.Restored? then Usable else Aborted)
      ensures r.Restored? <==> Succeeds(old(files), candidates, expected, troubles)
      ensures r.Restored? ==> candidates[|failures|].id == r.id
      ensures r.NoUsableReplica? <==> |failures| == |candidates|
      ensures files == if |failures| < |candidates|
                          && Publishes(old(files), candidates[|failures|], expected, troubles[|failures|])
                       then old(files)[destination := expected] else old(files)
    {
      failures := [];
      for k := 0 to |candidates|
        invariant |failures| == k && files == old(files)
        invariant forall i :: 0 <= i < k ==>
                    && Judged(old(files), candidates[i], expected, troubles[i]).Unusable?
                    && failures[i] == Failure(candidates[i].id,
                                              Judged(old(files), candidates[i], expected, troubles[i]).reason)
                    && Grounds(old(files), candidates[i], expected, troubles[i], Unusable(failures[i].reason))
      {
        var v := CopyVerifiedReplica(candidates[k], destination, expected, troubles[k]);
        if v.Usable? { return Restored(candidates[k].id), failures; }
        if v.Aborted? { return DestinationFailed, failures; }
        failures := failures + [Failure(candidates[k].id, v.reason)];
      }
      return NoUsableReplica, failures;
    }
  }

  /** Success is in no candidate's gift alone: some candidate must be usable and none before it may abort. */
  lemma SucceedsUnlessAborted(files: map<Path, Checksum>, candidates: seq<Candidate>, expected: Checksum,
                              troubles: seq<Trouble>)
    requires |troubles| == |candidates|
    ensures Succeeds(files, candidates, expected, troubles)
            <==> exists i :: 0 <= i < |candidates| && Judged(files, candidates[i], expected, troubles[i]).Usable?
                             && forall j :: 0 <= j < i ==> !Judged(files, candidates[j], expected, troubles[j]).Aborted?
  {
    var k := FirstNotUnusable(files, candidates, expected, troubles);
    if i :| 0 <= i < |candidates| && Judged(files, candidates[i], expected, troubles[i]).Usable?
            && forall j :: 0 <= j < i ==> !Judged(files, candidates[j], expected, troubles[j]).Aborted?
    {
      assert k <= i;
    }
  }

  /** A restore without trouble succeeds exactly when some candidate holds the expected content, wherever it stands
      in the order. */
  lemma SucceedsExactlyWithAValidCopy(files: map<Path, Checksum>, candidates: seq<Candidate>, expected: Checksum,
                                      troubles: seq<Trouble>)
    requires |troubles| == |candidates| && forall i :: 0 <= i < |troubles| ==> troubles[i] == NO_TROUBLE
    ensures Succeeds(files, candidates, expected, troubles)
            <==> exists i :: 0 <= i < |candidates| && candidates[i].path in files
                             && files[candidates[i].path] == expected
  {
    var k := FirstNotUnusable(files, candidates, expected, troubles);
    if i :| 0 <= i < |candidates| && candidates[i].path in files && files[candidates[i].path] == expected {
      assert Judged(files, candidates[i], expected, troubles[i]).Usable?;
      assert k <= i;
    }
  }
}
