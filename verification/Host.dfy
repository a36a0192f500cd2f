/** The files and the worker process a supervisor update works on. Any file operation may fail without
    effect, and the supervisor may die between any two of them; renames and removals are atomic. */
module Host {

  type Bytes = seq<int>

  // SHA-256, taken to be injective.
  datatype Digest = Digest(content: Bytes)
  function Sha256(b: Bytes): Digest { Digest(b) }

  datatype JournalPhase = Staged | Swapping
  datatype Journal = Journal(requestId: string, phase: JournalPhase, version: string, sha: Digest)

  datatype File = WorkerFile | PreviousFile | StagedFile | JournalFile | JournalTmp
  datatype Content = Binary(bytes: Bytes) | Record(journal: Journal) | Torn
  type Files = map<File, Content>

  datatype Option<+T> = None | Some(value: T)

  datatype WorkerStatus = WorkerStatus(
    installed: bool, running: bool, coreReady: bool, version: string, protocol: int, sha: Option<Digest>,
    activeSessions: nat)

  /** The digest a status reports is that of the installed file. */
  function InstalledDigest(files: Files): Option<Digest> {
    if WorkerFile in files && files[WorkerFile].Binary? then Some(Sha256(files[WorkerFile].bytes)) else None
  }

  /** A status query, whether it was answered, and how many states the files had gone through. */
  datatype Sighting = Sighting(status: WorkerStatus, answered: bool, at: nat)

  /** What is done that leaves the files as they are. */
  datatype Effort =
    | LockTaken | StagedSynced | IdentityAsked | SignatureChecked | StateSynced | MadeExecutable | WorkerSynced
    | WorkerStopped | WorkerStarted

  class Machine {
    const faultless: bool
    var files: Files
    var started: bool
    var dead: bool
    ghost var trail: seq<Files>         // every state of the files, in order
    ghost var seen: seq<Sighting>       // every status query, in order
    ghost var done: seq<Effort>         // every effort that succeeded, in order

    ghost predicate Valid()
      reads this
    {
      |trail| > 0 && trail[|trail| - 1] == files && (faultless ==> !dead)
    }

    constructor (faultless: bool, files: Files, started: bool)
      ensures Valid() && this.faultless == faultless && this.files == files
      ensures trail == [files] && seen == [] && done == []
    {
      this.faultless, this.files, this.started, this.dead := faultless, files, started, false;
      this.trail, this.seen, this.done := [files], [], [];
    }

    /** May the next operation take effect? */
    method Tick() returns (ok: bool)
      modifies this`dead
      ensures faultless && !old(dead) ==> ok && !dead
      ensures (old(dead) ==> dead) && (ok ==> !dead)
    {
      if dead { return false; }
      if faultless { return true; }
      ok := *;
      dead := *;
      ok := ok && !dead;
    }

    method Set(f: Files)
      modifies this`files, this`trail
      ensures files == f && trail == old(trail) + [f]
    {
      files := f;
      trail := trail + [f];
    }

    method Exists(f: File) returns (yes: bool)
      ensures yes <==> f in files
    {
      yes := f in files;
    }

    /** os.Remove; a missing file is an error. The worker's file may be touched only while it does not run. */
    method Remove(f: File) returns (ok: bool)
      requires Valid() && (f == WorkerFile ==> !started)
      modifies this`dead, this`files, this`trail
      ensures Valid() && trail == old(trail) + [files]
      ensures files == if ok then old(files) - {f} else old(files)
      ensures faultless ==> (ok <==> f in old(files))
    {
      ok := Tick();
      ok := ok && f in files;
      Set(if ok then files - {f} else files);
    }

    /** os.Rename, replacing the destination. */
    method Rename(from: File, to: File) returns (ok: bool)
      requires Valid() && from != to && (WorkerFile in {from, to} ==> !started)
      modifies this`dead, this`files, this`trail
      ensures Valid() && trail == old(trail) + [files]
      ensures ok ==> from in old(files) && files == (old(files) - {from})[to := old(files)[from]]
      ensures !ok ==> files == old(files)
      ensures faultless ==> (ok <==> from in old(files))
    {
      ok := Tick();
      ok := ok && from in files;
      Set(if ok then (files - {from})[to := files[from]] else files);
    }

    /** os.OpenFile with O_CREATE and O_EXCL: a file that is there is left alone. */
    method Create(f: File) returns (ok: bool, taken: bool)
      requires Valid()
      modifies this`dead, this`files, this`trail
      ensures Valid() && trail == old(trail) + [files]
      ensures ok ==> !taken && f !in old(files) && files == old(files)[f := Binary([])]
      ensures !ok ==> files == old(files)
      ensures taken ==> f in files
      ensures faultless ==> (ok <==> f !in old(files)) && (taken <==> f in old(files))
    {
      ok := Tick();
      taken := ok && f in files;
      ok := ok && !taken;
      Set(if ok then files[f := Binary([])] else files);
    }

    /** Writing a file is not atomic: a failure may leave any part of it. */
    method Write(f: File, c: Content) returns (ok: bool)
      requires Valid()
      modifies this`dead, this`files, this`trail
      ensures Valid() && trail == old(trail) + [files]
      ensures ok ==> files == old(files)[f := c]
      ensures !ok ==> files == old(files) || (!old(dead) && files == old(files)[f := Torn])
      ensures faultless ==> ok
    {
      var alive := !dead;
      ok := Tick();
      var torn: bool := *;
      Set(if ok then files[f := c] else if alive && torn then files[f := Torn] else files);
    }

    /** Operations that touch no file: syncing, changing a mode, locking, running another program. */
    method Try(ghost e: Effort) returns (ok: bool)
      requires Valid()
      modifies this`dead, this`done
      ensures Valid() && (faultless ==> ok)
      ensures done == if ok then old(done) + [e] else old(done)
    {
      ok := Tick();
      if ok { done := done + [e]; }
    }

    method StopWorker() returns (ok: bool)
      requires Valid()
      modifies this`dead, this`started, this`done
      ensures Valid() && (faultless ==> ok)
      ensures started == (old(started) && !ok)
      ensures done == if ok then old(done) + [WorkerStopped] else old(done)
    {
      ok := Tick();
      if ok { started, done := false, done + [WorkerStopped]; }
    }

    method StartWorker() returns (ok: bool)
      requires Valid()
      modifies this`dead, this`started, this`done
      ensures Valid() && (faultless ==> ok)
      ensures started == (old(started) || ok)
      ensures done == if ok then old(done) + [WorkerStarted] else old(done)
    {
      ok := Tick();
      if ok { started, done := true, done + [WorkerStarted]; }
    }

    /** What the worker says of itself is arbitrary, except that a faultless machine runs what it started. A
        digest, when there is one, is that of the installed file. */
    method Status() returns (s: WorkerStatus, ok: bool)
      requires Valid()
      modifies this`dead, this`seen
      ensures Valid() && (s.sha.Some? ==> s.sha == InstalledDigest(files)) && s.installed == s.sha.Some?
      ensures seen == old(seen) + [Sighting(s, ok, |trail|)]
      ensures !ok ==> !s.running && !s.coreReady && s.activeSessions == 0
      ensures faultless ==> s.sha == InstalledDigest(files)
      ensures faultless && started ==> ok && s.running && s.coreReady
    {
      var running: bool, coreReady: bool, hashed: bool := *, *, *;
      var version: string, protocol: int, sessions: nat := *, *, *;
      ok := Tick();
      if faultless && started {
        running, coreReady := true, true;
      } else {
        var silent: bool := *;
        ok := ok && !silent;
      }
      var sha := if faultless || hashed then InstalledDigest(files) else None;
      s := WorkerStatus(sha.Some?, ok && running, ok && coreReady, version, protocol, sha, if ok then sessions else 0);
      seen := seen + [Sighting(s, ok, |trail|)];
    }
  }
}
