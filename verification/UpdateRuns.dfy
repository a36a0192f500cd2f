/** Whole runs of the updater: an update stopped anywhere, then a recovery. */
module UpdateRuns {
  import opened Host
  import opened Updater

  /** Whatever step an update is stopped after, the complete old worker is still there, and nothing else but a
      payload that matches the manifest is ever installed. Without a journal left over from before, the state is
      one of those a recovery is prepared for. */
  lemma OldWorkerIsNeverLost(trail: seq<Files>, from: nat, before: Files, w: Bytes, m: Manifest)
    requires Passed(trail, from, before, Some(w), m) && WorkerIs(before, w)
    ensures forall i :: from <= i < |trail| ==> Kept(trail[i], w, m)
    ensures JournalFile !in before ==> forall i :: from <= i < |trail| ==> CrashState(trail[i], w, m)
  {
    forall i | from <= i < |trail|
      ensures Kept(trail[i], w, m) && (JournalFile !in before ==> CrashState(trail[i], w, m))
    {
      assert Untouched(before, trail[i]) || CrashState(trail[i], w, m);
    }
  }

  /** All three windows are states an update can be stopped in. That it goes through them is part of the contract of
      `Update`: through the first one if it has staged a payload, through the second one whether it is completed or
      rolled back, and through the third one if it is rolled back without failures. */
  lemma WindowsAreCrashStates(w: Bytes, m: Manifest, body: Bytes)
    returns (unjournaled: Files, aside: Files, back: Files)
    requires Matches(m, body)
    ensures Unjournaled(unjournaled) && CrashState(unjournaled, w, m)
    ensures SetAside(aside, w, m) && CrashState(aside, w, m)
    ensures PutBack(back, w, m) && CrashState(back, w, m)
    ensures !SetAside(unjournaled, w, m) && !PutBack(unjournaled, w, m) && StagedFile in unjournaled
  {
    unjournaled := map[WorkerFile := Binary(w), StagedFile := Binary(body)];
    aside := map[PreviousFile := Binary(w), StagedFile := Binary(body), JournalFile := Record(JournalOf(m, Staged))];
    back := map[WorkerFile := Binary(w), JournalFile := Record(JournalOf(m, Swapping))];
  }

  /** An update, stopped wherever its machine died; then a recovery without failures; then, if that left no worker
      installed, a rollback on request. A journal an earlier update left behind stays in force until this one has
      written its own: a recovery then goes by that journal. */
  method UpdateStopRecover(s: Supervisor, m: Manifest, body: Bytes, readable: bool)
    returns (stopped: Files, recovered: bool, left: Files, end: Files, ghost seen: seq<Sighting>)
    requires s.host.Valid() && Installed(s.host.files).Some?
    modifies s.host
    ensures stopped == s.host.files && Kept(stopped, Installed(old(s.host.files)).value, m)
    ensures var stale := JournalFile in old(s.host.files) && Untouched(old(s.host.files), stopped);
            if stale then Resumed(stopped, left, recovered, seen, 0, 1) && end == left
            else CrashState(stopped, Installed(old(s.host.files)).value, m) &&
                 Outcome(stopped, recovered, left, end, Installed(old(s.host.files)).value, m)
  {
    ghost var w := Installed(s.host.files).value;
    ghost var before, from := s.host.files, |s.host.trail|;
    var response, staged := s.Update(m, body, readable);
    stopped := s.host.files;
    assert Kept(stopped, w, m) && (Untouched(before, stopped) || (CrashState(stopped, w, m) && staged)) by {
      OldWorkerIsNeverLost(s.host.trail, from, before, w, m);
      assert |s.host.trail| == from ==> stopped == before;
    }
    var machine := new Machine(true, stopped, s.host.started);
    var next := new Supervisor(machine, s.channel, s.polls, s.identifies, s.signed);
    recovered := next.Recover(w, m);
    left, seen := machine.files, machine.seen;
    if WorkerFile !in machine.files {
      var _ := next.RollBackOnRequest();
    }
    end := machine.files;
  }

  /** So a journal left over from a swap displaces the installed worker, whatever it does, if the first status is not
      that of the journal's update: here because the digest is another one. */
  lemma StaleJournalDisplaces(w: Bytes, p: Bytes, j: Journal) returns (f: Files)
    requires ValidRequestId(j.requestId) && j.version != "" && j.phase.Swapping? && j.sha != Sha256(w)
    ensures WorkerIs(f, w) && PreviousIs(f, p) && JournalFile in f
    ensures forall g, ok, seen, asked, at :: Resumed(f, g, ok, seen, asked, at) ==> ok && WorkerIs(g, p)
  {
    f := map[WorkerFile := Binary(w), PreviousFile := Binary(p), JournalFile := Record(j)];
  }

  /** What becomes of an update that was stopped in a crash state. */
  ghost predicate Outcome(stopped: Files, recovered: bool, left: Files, end: Files, w: Bytes, m: Manifest) {
    && (!PutBack(stopped, w, m) ==> recovered && JournalFile !in left)
    && (!SetAside(stopped, w, m) ==> WorkerFile in left && end == left)
    && (recovered ==> (StagedFile in left <==> Unjournaled(stopped)))
    && (JournalFile !in stopped ==> left == stopped)
    && (SetAside(stopped, w, m) ==> WorkerFile !in left && WorkerIs(end, w))
    && (PutBack(stopped, w, m) ==> WorkerIs(end, w) && (Sha256(w) != m.sha ==> !recovered))
    && Kept(end, w, m) && WorkerFile in end
  }
}
