/** The supervisor's worker update: stage, journal, swap, watch, roll back, recover. */
module Updater {
  import opened Host

  const SUPERVISOR_VERSION := 1
  const SCHEMA_VERSION := 1
  const MAX_WORKER_BYTES := 0x800_0000
  const RELEASE_CHANNEL := "release"

  datatype Manifest = Manifest(
    schemaVersion: int, requestId: string, channel: string, version: string, workerProtocol: int,
    minimumSupervisorProtocol: int, size: int, sha: Digest, shaValid: bool, force: bool)

  datatype Response = Response(ok: bool, rolledBack: bool, previousAvailable: bool)

  predicate Alphanumeric(c: char) { 'A' <= c <= 'Z' || 'a' <= c <= 'z' || '0' <= c <= '9' }

  predicate ValidRequestId(id: string) {
    && 1 <= |id| <= 128 && Alphanumeric(id[0])
    && forall i :: 1 <= i < |id| ==> Alphanumeric(id[i]) || id[i] in "._-"
  }

  /** What a supervisor of protocol 1 accepts: a manifest of schema 1 for its channel, with a payload of at most
      128 MiB. */
  predicate ValidManifest(channel: string, m: Manifest) {
    && m.schemaVersion == 1 && ValidRequestId(m.requestId) && m.channel == channel
    && m.version != "" && m.workerProtocol > 0
    && m.minimumSupervisorProtocol <= 1
    && 0 < m.size <= 128 * 1024 * 1024 && m.shaValid
  }

  method IsRequestId(id: string) returns (ok: bool)
    ensures ok <==> ValidRequestId(id)
  {
    if |id| == 0 || |id| > 128 { return false; }
    for i := 0 to |id|
      invariant i > 0 ==> Alphanumeric(id[0])
      invariant forall k :: 1 <= k < i ==> Alphanumeric(id[k]) || id[k] in "._-"
    {
      var c := id[i];
      var letter := ('A' <= c && c <= 'Z') || ('a' <= c && c <= 'z') || ('0' <= c && c <= '9');
      if !letter && (i == 0 || (c != '.' && c != '_' && c != '-')) { return false; }
    }
    ok := true;
  }

  method ValidateManifest(channel: string, m: Manifest) returns (ok: bool)
    ensures ok <==> ValidManifest(channel, m)
  {
    if m.schemaVersion != SCHEMA_VERSION { return false; }
    var identified := IsRequestId(m.requestId);
    if !identified { return false; }
    if m.channel != channel { return false; }
    if m.version == "" || m.workerProtocol <= 0 { return false; }
    if m.minimumSupervisorProtocol > SUPERVISOR_VERSION { return false; }
    if m.size <= 0 || m.size > MAX_WORKER_BYTES { return false; }
    ok := m.shaValid;
  }

  predicate MachO(b: Bytes) {
    |b| >= 4 && b[..4] in [[0xcf, 0xfa, 0xed, 0xfe], [0xfe, 0xed, 0xfa, 0xcf],
                           [0xca, 0xfe, 0xba, 0xbe], [0xbe, 0xba, 0xfe, 0xca]]
  }

  method VerifyMachO(b: Bytes) returns (ok: bool)
    ensures ok <==> MachO(b)
  {
    if |b| < 4 { return false; }
    var magic := b[..4];
    ok := magic == [0xcf, 0xfa, 0xed, 0xfe] || magic == [0xfe, 0xed, 0xfa, 0xcf] ||
          magic == [0xca, 0xfe, 0xba, 0xbe] || magic == [0xbe, 0xba, 0xfe, 0xca];
  }

  /** A payload worth installing. */
  predicate Matches(m: Manifest, b: Bytes) { |b| == m.size && Sha256(b) == m.sha && MachO(b) }

  function JournalOf(m: Manifest, phase: JournalPhase): Journal { Journal(m.requestId, phase, m.version, m.sha) }

  /** A journal that can be decoded and is well formed. */
  predicate Readable(c: Content) { c.Record? && ValidRequestId(c.journal.requestId) && c.journal.version != "" }

  // ----- what a crash may leave -----

  function At(f: Files, k: File): Option<Content> { if k in f then Some(f[k]) else None }

  /** The worker, the previous worker and the journal are as they were. */
  predicate Untouched(f: Files, g: Files) {
    At(g, WorkerFile) == At(f, WorkerFile) && At(g, PreviousFile) == At(f, PreviousFile) &&
      At(g, JournalFile) == At(f, JournalFile)
  }

  predicate WorkerIs(f: Files, w: Bytes) { At(f, WorkerFile) == Some(Binary(w)) }
  predicate PreviousIs(f: Files, w: Bytes) { At(f, PreviousFile) == Some(Binary(w)) }

  predicate JournalSays(f: Files, m: Manifest, phase: JournalPhase) {
    At(f, JournalFile) == Some(Record(JournalOf(m, phase)))
  }

  /** The complete old worker is in one of its two places, and what is installed, if anything, is the old worker
      or a payload that matches the manifest. */
  predicate Kept(f: Files, w: Bytes, m: Manifest) {
    && (WorkerIs(f, w) || PreviousIs(f, w))
    && (WorkerFile in f ==> WorkerIs(f, w) || (f[WorkerFile].Binary? && Matches(m, f[WorkerFile].bytes)))
  }

  /** Between setting the old worker aside and the second journal write. */
  predicate SetAside(f: Files, w: Bytes, m: Manifest) {
    JournalSays(f, m, Staged) && WorkerFile !in f && PreviousIs(f, w)
  }

  /** After a rollback put the old worker back and before the journal is removed. */
  predicate PutBack(f: Files, w: Bytes, m: Manifest) {
    JournalSays(f, m, Swapping) && WorkerIs(f, w) && PreviousFile !in f
  }

  /** Before the first journal write, with the payload already staged. */
  predicate Unjournaled(f: Files) { JournalFile !in f && StagedFile in f }

  /** The moments of an update a recovery cannot wholly make good. */
  datatype Window = BeforeJournal | WhileAside | AfterPutBack

  predicate In(f: Files, x: Window, w: Bytes, m: Manifest) {
    match x
    case BeforeJournal => Unjournaled(f)
    case WhileAside => SetAside(f, w, m)
    case AfterPutBack => PutBack(f, w, m)
  }

  ghost predicate WentThrough(trail: seq<Files>, from: nat, x: Window, w: Bytes, m: Manifest) {
    exists i :: from <= i < |trail| && In(trail[i], x, w, m)
  }

  lemma WentThroughStays(trail: seq<Files>, from: nat, later: seq<Files>, earlier: nat, w: Bytes, m: Manifest)
    requires trail <= later && earlier <= from
    ensures forall x :: WentThrough(trail, from, x, w, m) ==> WentThrough(later, earlier, x, w, m)
  {
    forall x | WentThrough(trail, from, x, w, m) ensures WentThrough(later, earlier, x, w, m) {
      var i :| from <= i < |trail| && In(trail[i], x, w, m);
      assert later[i] == trail[i];
    }
  }

  lemma ThereNow(trail: seq<Files>, from: nat, x: Window, w: Bytes, m: Manifest)
    requires from < |trail| && In(trail[|trail| - 1], x, w, m)
    ensures WentThrough(trail, from, x, w, m)
  {}

  lemma StagedNow(trail: seq<Files>, from: nat, w: Bytes, m: Manifest)
    requires from < |trail| && Unjournaled(trail[|trail| - 1])
    ensures WentThrough(trail, from, BeforeJournal, w, m)
  {
    ThereNow(trail, from, BeforeJournal, w, m);
  }

  /** Every state an update can be stopped in, once its journal is written or when there was none. */
  predicate CrashState(f: Files, w: Bytes, m: Manifest) {
    && Kept(f, w, m)
    && (|| (JournalFile !in f && WorkerFile in f)
        || (JournalSays(f, m, Staged) && WorkerIs(f, w))
        || (JournalSays(f, m, Swapping) && PreviousIs(f, w))
        || SetAside(f, w, m) || PutBack(f, w, m))
  }

  /** What a rollback passes through: the installed worker goes, then the previous one takes its place. */
  predicate Reverting(f: Files, g: Files) {
    && At(g, JournalFile) == At(f, JournalFile)
    && (|| (At(g, PreviousFile) == At(f, PreviousFile) &&
            (At(g, WorkerFile) == At(f, WorkerFile) || (PreviousFile in f && WorkerFile !in g)))
        || (PreviousFile in f && At(g, WorkerFile) == At(f, PreviousFile) && PreviousFile !in g))
  }

  /** At most the journal changed, and to that. */
  predicate Journaled(f: Files, g: Files, value: Journal) {
    && At(g, WorkerFile) == At(f, WorkerFile) && At(g, PreviousFile) == At(f, PreviousFile)
    && At(g, StagedFile) == At(f, StagedFile)
    && (At(g, JournalFile) == At(f, JournalFile) || At(g, JournalFile) == Some(Record(value)))
  }

  predicate WentBack(f: Files, g: Files) { At(g, WorkerFile) == At(f, PreviousFile) && PreviousFile !in g }

  /** What setting the old worker aside passes through. */
  predicate Vacating(f: Files, g: Files) {
    && At(g, JournalFile) == At(f, JournalFile) && At(g, StagedFile) == At(f, StagedFile)
    && (|| (At(g, WorkerFile) == At(f, WorkerFile) &&
            (At(g, PreviousFile) == At(f, PreviousFile) || PreviousFile !in g))
        || (WorkerFile in f && WorkerFile !in g && At(g, PreviousFile) == At(f, WorkerFile)))
  }

  /** What a swap passes through: the journal, then the staged worker in place. */
  predicate Swapped(f: Files, g: Files, m: Manifest) {
    && At(g, PreviousFile) == At(f, PreviousFile)
    && (|| (At(g, WorkerFile) == At(f, WorkerFile) &&
            (At(g, JournalFile) == At(f, JournalFile) || JournalSays(g, m, Swapping)))
        || (StagedFile in f && At(g, WorkerFile) == At(f, StagedFile) && JournalSays(g, m, Swapping)))
  }

  /** The staged worker is not yet, or already, in place. */
  predicate Placed(f: Files, g: Files) {
    && At(g, PreviousFile) == At(f, PreviousFile) && At(g, JournalFile) == At(f, JournalFile)
    && (At(g, WorkerFile) == At(f, WorkerFile) || (StagedFile in f && At(g, WorkerFile) == At(f, StagedFile)))
  }

  /** Only the staged file and the journal may have gone. */
  predicate Discarding(f: Files, g: Files) {
    At(g, WorkerFile) == At(f, WorkerFile) && At(g, PreviousFile) == At(f, PreviousFile) &&
    (At(g, JournalFile) == At(f, JournalFile) || JournalFile !in g)
  }

  /** The worker from before is installed; without one, the previous one that could not be removed. */
  predicate Former(f: Files, g: Files) {
    WorkerFile in g && At(g, WorkerFile) == At(f, if WorkerFile in f then WorkerFile else PreviousFile)
  }

  ghost predicate LeftAlone(trail: seq<Files>, from: nat, before: Files) {
    forall i :: from <= i < |trail| ==> Untouched(before, trail[i])
  }

  ghost predicate Reverted(trail: seq<Files>, from: nat, before: Files) {
    forall i :: from <= i < |trail| ==> Reverting(before, trail[i])
  }

  /** Every state from `from` on leaves everything as it was or is one an update can be stopped in. */
  ghost predicate Passed(trail: seq<Files>, from: nat, before: Files, w: Option<Bytes>, m: Manifest) {
    w.Some? ==> forall i :: from <= i < |trail| ==> Untouched(before, trail[i]) || CrashState(trail[i], w.value, m)
  }

  function Installed(f: Files): Option<Bytes> {
    if WorkerFile in f && f[WorkerFile].Binary? then Some(f[WorkerFile].bytes) else None
  }

  /** After position `from`, the worker was seen ready while that file was installed. */
  ghost predicate SeenReady(trail: seq<Files>, seen: seq<Sighting>, from: nat, worker: Option<Content>) {
    exists i :: 0 <= i < |seen| && from < seen[i].at <= |trail| && seen[i].status.running && seen[i].status.coreReady &&
                At(trail[seen[i].at - 1], WorkerFile) == worker
  }

  /** After position `from`, with that worker installed, a status was seen that is running and ready and has version,
      protocol and digest of the manifest. */
  ghost predicate SeenAs(trail: seq<Files>, seen: seq<Sighting>, from: nat, worker: Option<Content>, m: Manifest) {
    exists i :: 0 <= i < |seen| && from < seen[i].at <= |trail| && At(trail[seen[i].at - 1], WorkerFile) == worker &&
                seen[i].status.running && seen[i].status.coreReady && seen[i].status.version == m.version &&
                seen[i].status.protocol == m.workerProtocol && seen[i].status.sha == Some(m.sha)
  }

  /** The worker is up as the manifest announces it. */
  predicate Shows(s: WorkerStatus, m: Manifest) {
    s.running && s.coreReady && s.version == m.version && s.protocol == m.workerProtocol && s.sha == Some(m.sha)
  }

  ghost predicate NeverShown(seen: seq<Sighting>, from: nat, m: Manifest) {
    forall i :: from <= i < |seen| ==> !Shows(seen[i].status, m)
  }

  ghost predicate NeverReady(seen: seq<Sighting>, from: nat) {
    forall i :: from <= i < |seen| ==> !seen[i].status.running || !seen[i].status.coreReady
  }

  /** What has been seen since was seen at that position or later. */
  predicate Later(seen: seq<Sighting>, asked: nat, at: nat) {
    forall i :: asked <= i < |seen| ==> seen[i].at >= at
  }

  /** A state an update with a valid manifest can be stopped in. */
  predicate Recovers(f: Files, w: Bytes, m: Manifest) {
    CrashState(f, w, m) && (JournalFile in f ==> Readable(Record(JournalOf(m, Staged))))
  }

  /** The answer to a status query that lets an update begin. */
  predicate Admitted(m: Manifest, s: Sighting) {
    (s.answered || s.status.installed) && (m.force || s.status.activeSessions == 0)
  }

  /** The first status asked for was seen at that position, running and ready with that version. */
  predicate FirstSeen(seen: seq<Sighting>, asked: nat, at: int, version: string) {
    && |seen| > asked && seen[asked].at == at
    && seen[asked].status.running && seen[asked].status.coreReady && seen[asked].status.version == version
  }

  /** What a recovery without failures makes of each state an update can be stopped in. */
  ghost predicate Recovered(trail: seq<Files>, seen: seq<Sighting>, from: int, asked: nat, f: Files, g: Files, ok: bool,
                            w: Bytes, m: Manifest) {
    if JournalFile !in f then ok && g == f
    else if SetAside(f, w, m) then
      ok && JournalFile !in g && StagedFile !in g && WorkerFile !in g && PreviousIs(g, w)
    else if PutBack(f, w, m) then
      && WorkerIs(g, w)
      && (ok <==> Sha256(w) == m.sha && FirstSeen(seen, asked, from + 1, m.version))
      && (if ok then JournalFile !in g && StagedFile !in g else g == f)
    else
      && ok && JournalFile !in g && StagedFile !in g
      && (WorkerIs(g, w) || (WorkerFile in g && g[WorkerFile].Binary? && Matches(m, g[WorkerFile].bytes)))
      && (JournalSays(f, m, Swapping) ==> from >= 0 && SeenReady(trail, seen, from, At(g, WorkerFile)))
  }

  /** Only the staged file and the journal have gone. */
  predicate Swept(f: Files, g: Files) {
    At(g, WorkerFile) == At(f, WorkerFile) && At(g, PreviousFile) == At(f, PreviousFile) &&
    StagedFile !in g && JournalFile !in g
  }

  /** The first status asked for, before anything was changed, is that of the journal's update. */
  predicate Announced(f: Files, seen: seq<Sighting>, asked: nat, at: nat, j: Journal) {
    FirstSeen(seen, asked, at, j.version) && InstalledDigest(f) == Some(j.sha)
  }

  /** What a recovery without failures makes of any files with any journal: one that cannot be read stops it; a staged
      update is dropped; after a swap the worker stays exactly if it came up as the journal says, and else the previous
      worker takes its place, if there is one. */
  predicate Resumed(f: Files, g: Files, ok: bool, seen: seq<Sighting>, asked: nat, at: nat)
    requires JournalFile in f
  {
    if !Readable(f[JournalFile]) then !ok && g == f
    else if f[JournalFile].journal.phase.Staged? then ok && Swept(f, g)
    else if Announced(f, seen, asked, at, f[JournalFile].journal) then ok && Swept(f, g)
    else if PreviousFile in f then ok && WentBack(f, g) && StagedFile !in g && JournalFile !in g
    else !ok && g == f
  }

  lemma SeenLast(trail: seq<Files>, seen: seq<Sighting>, from: nat, m: Manifest)
    requires from < |trail| && |seen| > 0
    requires var last := seen[|seen| - 1];
             && last.at == |trail| && last.status.running && last.status.coreReady && last.status.version == m.version
             && last.status.protocol == m.workerProtocol && last.status.sha == Some(m.sha)
    ensures SeenAs(trail, seen, from, At(trail[|trail| - 1], WorkerFile), m)
  {}

  lemma SightingsLast(trail: seq<Files>, later: seq<Files>, seen: seq<Sighting>, since: seq<Sighting>, from: nat,
                      earlier: nat)
    requires trail <= later && seen <= since && earlier <= from
    ensures forall worker :: SeenReady(trail, seen, from, worker) ==> SeenReady(later, since, earlier, worker)
    ensures forall worker, m :: SeenAs(trail, seen, from, worker, m) ==> SeenAs(later, since, earlier, worker, m)
  {
    forall worker | SeenReady(trail, seen, from, worker) ensures SeenReady(later, since, earlier, worker) {
      var i :| 0 <= i < |seen| && from < seen[i].at <= |trail| && seen[i].status.running && seen[i].status.coreReady &&
               At(trail[seen[i].at - 1], WorkerFile) == worker;
      assert since[i] == seen[i] && later[seen[i].at - 1] == trail[seen[i].at - 1];
    }
    forall worker, m | SeenAs(trail, seen, from, worker, m) ensures SeenAs(later, since, earlier, worker, m) {
      var i :| 0 <= i < |seen| && from < seen[i].at <= |trail| && At(trail[seen[i].at - 1], WorkerFile) == worker &&
               seen[i].status.running && seen[i].status.coreReady && seen[i].status.version == m.version &&
               seen[i].status.protocol == m.workerProtocol && seen[i].status.sha == Some(m.sha);
      assert since[i] == seen[i] && later[seen[i].at - 1] == trail[seen[i].at - 1];
    }
  }

  /** Runs join where the first ends in a state an update can be stopped in. */
  lemma PassedOn(first: seq<Files>, later: seq<Files>, from: nat, before: Files, mid: Files, w: Option<Bytes>,
                 m: Manifest)
    requires first <= later && Passed(first, from, before, w, m) && Passed(later, |first|, mid, w, m)
    requires w.Some? ==> CrashState(mid, w.value, m) || Untouched(before, mid)
    ensures Passed(later, from, before, w, m)
  {
    if w.Some? {
      forall i | from <= i < |later| ensures Untouched(before, later[i]) || CrashState(later[i], w.value, m) {
        if i < |first| { assert later[i] == first[i]; }
      }
    }
  }

  /** Nothing but the staged file changes. */
  lemma PassedUntouched(first: seq<Files>, later: seq<Files>, from: nat, before: Files, w: Option<Bytes>, m: Manifest)
    requires |first| > 0 && first <= later && LeftAlone(later, |first|, first[|first| - 1])
    requires Passed(first, from, before, w, m) && (from < |first| || first[|first| - 1] == before)
    ensures Passed(later, from, before, w, m)
  {
    if w.Some? {
      forall i | from <= i < |later| ensures Untouched(before, later[i]) || CrashState(later[i], w.value, m) {
        if i < |first| { assert later[i] == first[i]; }
      }
    }
  }

  lemma NothingPassed(trail: seq<Files>, before: Files, w: Option<Bytes>, m: Manifest)
    ensures Passed(trail, |trail|, before, w, m) && LeftAlone(trail, |trail|, before)
  {
  }

  lemma OneMore(trail: seq<Files>, f: Files)
    requires |trail| > 0 && Untouched(trail[|trail| - 1], f)
    ensures LeftAlone(trail + [f], |trail|, trail[|trail| - 1])
  {
  }

  /** Removing a journal while a worker is installed. */
  lemma JournalGone(first: seq<Files>, f: Files, g: Files, from: nat, before: Files, w: Option<Bytes>, m: Manifest)
    requires Passed(first, from, before, w, m) && |first| > from && first[|first| - 1] == f
    requires w.Some? ==> CrashState(f, w.value, m) && WorkerFile in f
    requires g == f || g == f - {JournalFile}
    ensures Passed(first + [g], from, before, w, m) && (w.Some? ==> CrashState(g, w.value, m))
  {
    assert Passed(first + [g], |first|, f, w, m);
    PassedOn(first, first + [g], from, before, f, w, m);
  }

  class Supervisor {
    const host: Machine
    const channel: string
    const polls: nat // how many status queries fit into the readiness timeout
    const identifies: (Bytes, Manifest) -> bool // the payload says of itself what the manifest says
    const signed: Bytes -> bool                 // its signature is the release one

    constructor (host: Machine, channel: string, polls: nat, identifies: (Bytes, Manifest) -> bool,
                 signed: Bytes -> bool)
      ensures this.host == host && this.channel == channel && this.polls == polls
      ensures this.identifies == identifies && this.signed == signed
    {
      this.host, this.channel, this.polls, this.identifies, this.signed := host, channel, polls, identifies, signed;
    }

    /** A payload that may be installed. */
    predicate Trusted(m: Manifest, body: Bytes) {
      Matches(m, body) && identifies(body, m) && (channel == "release" ==> signed(body))
    }

    /** Remove a file; one that is already gone is no error. */
    method RemoveIfPresent(f: File) returns (ok: bool)
      requires host.Valid() && f != WorkerFile
      modifies host
      ensures host.Valid() && host.trail == old(host.trail) + [host.files]
      ensures host.seen == old(host.seen) && host.started == old(host.started) && host.done == old(host.done)
      ensures host.files == if ok then old(host.files) - {f} else old(host.files)
      ensures host.faultless ==> ok
    {
      var present := host.Exists(f);
      ok := host.Remove(f);
      ok := ok || !present;
      assert !present ==> old(host.files) - {f} == old(host.files);
    }

    /** Write to a temporary file, rename, sync. An error may come after the rename. */
    method WriteJournal(value: Journal) returns (ok: bool)
      requires host.Valid()
      modifies host
      ensures host.Valid() && old(host.trail) < host.trail && host.seen == old(host.seen) &&
              host.started == old(host.started)
      ensures forall i :: |old(host.trail)| <= i < |host.trail| ==> Journaled(old(host.files), host.trail[i], value)
      ensures Journaled(old(host.files), host.files, value) &&
              (ok ==> At(host.files, JournalFile) == Some(Record(value)))
      ensures old(host.done) <= host.done && (ok ==> host.done == old(host.done) + [StateSynced])
      ensures host.faultless ==> ok
    {
      ok := host.Write(JournalTmp, Record(value));
      if !ok { return; }
      ok := host.Rename(JournalTmp, JournalFile);
      if !ok { return; }
      ok := host.Try(StateSynced);
    }

    /** Create the staged file; one left behind is removed first. */
    method CreateStaged() returns (ok: bool)
      requires host.Valid()
      modifies host
      ensures host.Valid() && old(host.trail) < host.trail && host.seen == old(host.seen) &&
              host.started == old(host.started) && host.done == old(host.done)
      ensures LeftAlone(host.trail, |old(host.trail)|, old(host.files)) && Untouched(old(host.files), host.files)
      ensures ok ==> StagedFile in host.files && host.files[StagedFile] == Binary([])
      ensures host.faultless ==> ok
    {
      var taken;
      ok, taken := host.Create(StagedFile);
      if taken {
        var _ := host.Remove(StagedFile);
        ok, taken := host.Create(StagedFile);
      }
    }

    /** Create the staged file afresh and copy exactly the announced number of bytes into it; a shorter payload,
        an extra byte or a read error is refused. */
    method Receive(m: Manifest, body: Bytes, readable: bool) returns (created: bool, ok: bool)
      requires host.Valid() && 0 < m.size
      modifies host
      ensures host.Valid() && old(host.trail) <= host.trail && host.seen == old(host.seen) &&
              host.started == old(host.started)
      ensures LeftAlone(host.trail, |old(host.trail)|, old(host.files)) && Untouched(old(host.files), host.files)
      ensures ok ==> created && |body| == m.size && StagedFile in host.files && host.files[StagedFile] == Binary(body)
      ensures host.faultless ==> created && (ok <==> readable && |body| == m.size)
      ensures ok ==> readable
      ensures old(host.trail) < host.trail && old(host.done) <= host.done
      ensures ok ==> host.done == old(host.done) + [StagedSynced]
    {
      ok := false;
      created := CreateStaged();
      if !created { return; }
      var short := |body| < m.size;
      ok := host.Write(StagedFile, Binary(if short then body else body[..m.size]));
      ok := ok && !short && readable && |body| == m.size;
      if ok { ok := host.Try(StagedSynced); }
    }

    /** The checks on a staged payload: digest, header, what it says of itself and, for a release, its signature. */
    method VerifyPayload(m: Manifest, body: Bytes) returns (ok: bool)
      requires host.Valid() && |body| == m.size
      modifies host`dead, host`done
      ensures host.Valid() && (ok ==> Trusted(m, body)) && (host.faultless ==> (ok <==> Trusted(m, body)))
      ensures old(host.done) <= host.done
      ensures ok ==>
                host.done == old(host.done) + [IdentityAsked] + if channel == "release" then [SignatureChecked] else []
    {
      if Sha256(body) != m.sha { return false; }
      ok := VerifyMachO(body);
      if !ok { return; }
      ok := host.Try(IdentityAsked);
      ok := ok && identifies(body, m);
      if ok && channel == RELEASE_CHANNEL {
        ok := host.Try(SignatureChecked);
        ok := ok && signed(body);
      }
    }

    /** What it takes to stage a payload. */
    ghost function Vetted(): seq<Effort> {
      [StagedSynced, IdentityAsked] + if channel == "release" then [SignatureChecked] else []
    }

    /** Receive the payload and verify it. On failure nothing but the staged file was touched. */
    method Stage(m: Manifest, body: Bytes, readable: bool) returns (ok: bool)
      requires host.Valid() && ValidManifest(channel, m)
      modifies host
      ensures host.Valid() && old(host.trail) <= host.trail && host.seen == old(host.seen) &&
              host.started == old(host.started)
      ensures LeftAlone(host.trail, |old(host.trail)|, old(host.files)) && Untouched(old(host.files), host.files)
      ensures ok ==> Trusted(m, body) && StagedFile in host.files && host.files[StagedFile] == Binary(body)
      ensures (ok ==> readable) && (host.faultless ==> (ok <==> readable && Trusted(m, body)))
      ensures host.faultless && !ok ==> StagedFile !in host.files
      ensures old(host.trail) < host.trail && old(host.done) <= host.done
      ensures ok ==> host.done == old(host.done) + Vetted()
    {
      var created;
      created, ok := Receive(m, body, readable);
      if !created { return; }
      if ok { ok := VerifyPayload(m, body); }
      if !ok {
        var _ := host.Remove(StagedFile);
      }
    }

    /** Poll until the worker reports itself as the manifest says, or time is up. */
    method WaitReady(m: Manifest) returns (ok: bool)
      requires host.Valid()
      modifies host`dead, host`seen
      ensures host.Valid() && old(host.seen) <= host.seen
      ensures Later(host.seen, |old(host.seen)|, |host.trail|)
      ensures ok ==>
                var last := |host.seen| - 1;
                && last >= 0 && host.seen[last].at == |host.trail|
                && host.seen[last].status.running && host.seen[last].status.coreReady
                && host.seen[last].status.version == m.version && host.seen[last].status.protocol == m.workerProtocol
                && host.seen[last].status.sha == Some(m.sha)
      ensures !ok ==> NeverShown(host.seen, |old(host.seen)|, m)
      ensures |old(host.seen)| < |host.seen|
    {
      var left := polls;
      while true
        invariant host.Valid() && old(host.seen) <= host.seen
        invariant Later(host.seen, |old(host.seen)|, |host.trail|)
        invariant NeverShown(host.seen, |old(host.seen)|, m)
        decreases left
      {
        var s, answered := host.Status();
        if answered && s.running && s.coreReady && s.version == m.version && s.protocol == m.workerProtocol &&
           s.sha == Some(m.sha)
        {
          return true;
        }
        var timedOut: bool := *;
        if left == 0 || timedOut { return false; }
        left := left - 1;
      }
    }

    method WaitAnyReady() returns (ok: bool)
      requires host.Valid()
      modifies host`dead, host`seen
      ensures host.Valid() && old(host.seen) <= host.seen
      ensures Later(host.seen, |old(host.seen)|, |host.trail|)
      ensures !ok ==> NeverReady(host.seen, |old(host.seen)|)
      ensures |old(host.seen)| < |host.seen|
      ensures ok ==> host.seen[|host.seen| - 1].at == |host.trail| &&
                     host.seen[|host.seen| - 1].status.running && host.seen[|host.seen| - 1].status.coreReady
      ensures host.faultless && host.started ==> ok
    {
      var left := polls;
      while true
        invariant host.Valid() && old(host.seen) <= host.seen
        invariant Later(host.seen, |old(host.seen)|, |host.trail|)
        invariant NeverReady(host.seen, |old(host.seen)|)
        decreases left
      {
        var s, answered := host.Status();
        if answered && s.running && s.coreReady { return true; }
        var timedOut: bool := *;
        if left == 0 || timedOut { return false; }
        left := left - 1;
      }
    }

    /** Put the previous worker back and watch it come up. */
    method RollBack() returns (ok: bool)
      requires host.Valid()
      modifies host
      ensures host.Valid() && old(host.trail) <= host.trail && old(host.seen) <= host.seen
      ensures Later(host.seen, |old(host.seen)|, |old(host.trail)| + 1)
      ensures Reverted(host.trail, |old(host.trail)|, old(host.files)) && Reverting(old(host.files), host.files)
      ensures ok ==> PreviousFile in old(host.files) && PreviousFile !in host.files &&
                     At(host.files, WorkerFile) == At(old(host.files), PreviousFile) &&
                     SeenReady(host.trail, host.seen, |old(host.trail)|, At(host.files, WorkerFile))
      ensures ok ==> old(host.trail) < host.trail
      ensures PreviousFile !in old(host.files) ==> !ok && host.files == old(host.files)
      ensures ok ==> host.started && host.done == old(host.done) + [WorkerStopped, WorkerStarted]
      ensures host.faultless ==> (ok <==> PreviousFile in old(host.files))
    {
      hide NeverReady;
      ok := host.StopWorker();
      if !ok { return; }
      ok := host.Exists(PreviousFile);
      if !ok { return; }
      var _ := host.Remove(WorkerFile);
      ok := host.Rename(PreviousFile, WorkerFile);
      if !ok { return; }
      ok := host.StartWorker();
      if !ok { return; }
      ok := WaitAnyReady();
    }

    /** Swap the staged worker in; any failure after the old one was set aside rolls back. */
    method Activate(m: Manifest, body: Bytes) returns (ok: bool, rolledBack: bool)
      requires host.Valid() && Matches(m, body) && JournalSays(host.files, m, Staged)
      requires StagedFile in host.files && host.files[StagedFile] == Binary(body)
      requires WorkerFile in host.files ==> host.files[WorkerFile].Binary?
      modifies host
      ensures host.Valid() && old(host.trail) <= host.trail && old(host.seen) <= host.seen
      ensures Later(host.seen, |old(host.seen)|, |old(host.trail)|)
      ensures Passed(host.trail, |old(host.trail)|, old(host.files), Installed(old(host.files)), m)
      ensures !(ok && rolledBack) && (ok || rolledBack ==> host.started)
      ensures ok ==>
                && At(host.files, WorkerFile) == Some(Binary(body))
                && SeenAs(host.trail, host.seen, |old(host.trail)|, At(host.files, WorkerFile), m)
                && host.done == old(host.done) +
                                [WorkerStopped, StateSynced, MadeExecutable, WorkerSynced, WorkerStarted]
      ensures rolledBack ==> Former(old(host.files), host.files) &&
                             SeenReady(host.trail, host.seen, |old(host.trail)|, At(host.files, WorkerFile))
      ensures host.faultless && WorkerFile in old(host.files) ==> ok || rolledBack
      ensures (ok || rolledBack) && WorkerFile in old(host.files) ==>
                WentThrough(host.trail, |old(host.trail)|, WhileAside, Installed(old(host.files)).value, m)
      ensures host.faultless && rolledBack && WorkerFile in old(host.files) ==>
                WentThrough(host.trail, |old(host.trail)|, AfterPutBack, Installed(old(host.files)).value, m)
    {
      hide WentThrough;
      ok, rolledBack := false, false;
      ghost var w, from := Installed(host.files), |host.trail|;
      var aside := SetWorkerAside();
      if aside {
        ghost var trail := host.trail;
        if w.Some? { ThereNow(trail, from, WhileAside, w.value, m); }
        ok := Swap(m);
        if !ok { rolledBack := RollBack(); }
        if w.Some? {
          WentThroughStays(trail, from, host.trail, from, w.value, m);
          if host.faultless && rolledBack { ThereNow(host.trail, from, AfterPutBack, w.value, m); }
        }
      }
    }

    /** Stop the worker, drop the worker before it and set this one aside. */
    method SetWorkerAside() returns (ok: bool)
      requires host.Valid()
      modifies host
      ensures host.Valid() && old(host.trail) <= host.trail && old(host.seen) == host.seen
      ensures forall i :: |old(host.trail)| <= i < |host.trail| ==> Vacating(old(host.files), host.trail[i])
      ensures Vacating(old(host.files), host.files) && (ok ==> WorkerFile !in host.files)
      ensures ok ==> host.done == old(host.done) + [WorkerStopped]
      ensures ok && WorkerFile in old(host.files) ==> At(host.files, PreviousFile) == At(old(host.files), WorkerFile)
      ensures ok ==> !host.started
      ensures !ok ==> At(host.files, WorkerFile) == At(old(host.files), WorkerFile)
      ensures host.faultless ==> ok
      ensures ok ==> old(host.trail) < host.trail
    {
      ok := host.StopWorker();
      if !ok { return; }
      var _ := host.Remove(PreviousFile);
      var present := host.Exists(WorkerFile);
      if present {
        ok := host.Rename(WorkerFile, PreviousFile);
        if !ok {
          var _ := host.StartWorker();
        }
      }
    }

    /** Journal the swap, put the staged worker in place, start it and watch it. */
    method Swap(m: Manifest) returns (ok: bool)
      requires host.Valid() && StagedFile in host.files && !host.started
      modifies host
      ensures host.Valid() && old(host.trail) <= host.trail && old(host.seen) <= host.seen
      ensures Later(host.seen, |old(host.seen)|, |old(host.trail)|)
      ensures forall i :: |old(host.trail)| <= i < |host.trail| ==> Swapped(old(host.files), host.trail[i], m)
      ensures Swapped(old(host.files), host.files, m)
      ensures host.faultless ==> JournalSays(host.files, m, Swapping)
      ensures ok ==> At(host.files, WorkerFile) == At(old(host.files), StagedFile) &&
                     SeenAs(host.trail, host.seen, |old(host.trail)|, At(host.files, WorkerFile), m)
      ensures ok ==> host.started && host.done == old(host.done) +
                                                  [StateSynced, MadeExecutable, WorkerSynced, WorkerStarted]
    {
      ok := WriteJournal(Journal(m.requestId, Swapping, m.version, m.sha));
      if !ok { return; }
      ghost var trail := host.trail;
      ok := Place(m);
      SightingsLast(host.trail, host.trail, host.seen, host.seen, |trail|, |old(host.trail)|);
    }

    /** Put the staged worker in place, start it and watch it. */
    method Place(m: Manifest) returns (ok: bool)
      requires host.Valid() && StagedFile in host.files && !host.started
      modifies host
      ensures host.Valid() && old(host.trail) <= host.trail && old(host.seen) <= host.seen
      ensures Later(host.seen, |old(host.seen)|, |old(host.trail)|)
      ensures forall i :: |old(host.trail)| <= i < |host.trail| ==> Placed(old(host.files), host.trail[i])
      ensures Placed(old(host.files), host.files)
      ensures ok ==> At(host.files, WorkerFile) == At(old(host.files), StagedFile) &&
                     SeenAs(host.trail, host.seen, |old(host.trail)|, At(host.files, WorkerFile), m)
      ensures ok ==> host.started && host.done == old(host.done) + [MadeExecutable, WorkerSynced, WorkerStarted]
    {
      hide NeverShown;
      ok := host.Rename(StagedFile, WorkerFile);
      if !ok { return; }
      ok := host.Try(MadeExecutable);
      if !ok { return; }
      ok := host.Try(WorkerSynced);
      if !ok { return; }
      ok := host.StartWorker();
      if !ok { return; }
      ok := WaitReady(m);
      if ok { SeenLast(host.trail, host.seen, |old(host.trail)|, m); }
    }

    /** A worker that answers must be without sessions, unless the update is forced; one that does not answer must at
        least be installed. */
    method Admit(m: Manifest) returns (ok: bool)
      requires host.Valid()
      modifies host`dead, host`seen
      ensures host.Valid() && old(host.seen) <= host.seen && |host.seen| == |old(host.seen)| + 1
      ensures host.seen[|old(host.seen)|].at == |host.trail|
      ensures ok <==> Admitted(m, host.seen[|old(host.seen)|])
      ensures ok && !host.seen[|old(host.seen)|].answered ==> Installed(host.files).Some?
    {
      var current, answered := host.Status();
      if !answered && !current.installed { return false; }
      if current.activeSessions != 0 && !m.force { return false; }
      ok := true;
    }

    /** The manifest, the lock, the sessions and the payload, in this order, before anything but the staged file is
        touched. */
    method Prepare(m: Manifest, body: Bytes, readable: bool) returns (ok: bool)
      requires host.Valid()
      modifies host
      ensures host.Valid() && old(host.trail) <= host.trail && old(host.seen) <= host.seen
      ensures |host.seen| <= |old(host.seen)| + 1 && host.started == old(host.started)
      ensures LeftAlone(host.trail, |old(host.trail)|, old(host.files)) && Untouched(old(host.files), host.files)
      ensures ok ==> ValidManifest(channel, m) && Trusted(m, body) && readable && old(host.trail) < host.trail
      ensures ok ==> StagedFile in host.files && host.files[StagedFile] == Binary(body)
      ensures |host.seen| > |old(host.seen)| ==> host.seen[|old(host.seen)|].at == |old(host.trail)|
      ensures ok ==> |host.seen| > |old(host.seen)| && Admitted(m, host.seen[|old(host.seen)|])
      ensures ok ==> host.done == old(host.done) + [LockTaken] + Vetted()
      ensures host.faultless && ValidManifest(channel, m) ==>
                && |host.seen| > |old(host.seen)|
                && (ok <==> Admitted(m, host.seen[|old(host.seen)|]) && readable && Trusted(m, body))
    {
      hide Matches, ValidManifest;
      ok := ValidateManifest(channel, m);
      if !ok { return; }
      ok := host.Try(LockTaken);
      if !ok { return; }
      ok := Admit(m);
      if !ok { return; }
      ok := Stage(m, body, readable);
    }

    /** One update. `readable` is false when reading past the payload fails with anything but its end. */
    method Update(m: Manifest, body: Bytes, readable: bool) returns (response: Response, ghost staged: bool)
      requires host.Valid() && (WorkerFile in host.files ==> host.files[WorkerFile].Binary?)
      modifies host
      ensures host.Valid() && old(host.trail) <= host.trail
      ensures Passed(host.trail, |old(host.trail)|, old(host.files), Installed(old(host.files)), m)
      ensures !(response.ok && response.rolledBack) && (response.ok || response.rolledBack ==> host.started)
      ensures response.ok ==>
                && Matches(m, body) && At(host.files, WorkerFile) == Some(Binary(body)) && JournalFile !in host.files
                && SeenAs(host.trail, host.seen, |old(host.trail)|, At(host.files, WorkerFile), m)
                && host.done == old(host.done) + [LockTaken] + Vetted() +
                                [StateSynced, WorkerStopped, StateSynced, MadeExecutable, WorkerSynced, WorkerStarted]
      ensures response.rolledBack ==> Former(old(host.files), host.files) &&
                                      SeenReady(host.trail, host.seen, |old(host.trail)|, At(host.files, WorkerFile))
      ensures response.ok || response.rolledBack ==> (response.previousAvailable <==> PreviousFile in host.files)
      ensures response.previousAvailable ==> PreviousFile in host.files
      ensures staged ==> ValidManifest(channel, m) && Trusted(m, body) && readable
      ensures old(host.seen) <= host.seen
      ensures staged ==>
                && |host.seen| > |old(host.seen)| && host.seen[|old(host.seen)|].at == |old(host.trail)|
                && Admitted(m, host.seen[|old(host.seen)|])
      ensures !staged ==>
                && LeftAlone(host.trail, |old(host.trail)|, old(host.files))
                && response == Response(false, false, false)
                && host.started == old(host.started)
      ensures host.faultless && ValidManifest(channel, m) ==>
                && |host.seen| > |old(host.seen)|
                && (staged <==> Admitted(m, host.seen[|old(host.seen)|]) && readable && Trusted(m, body))
      ensures host.faultless && staged && WorkerFile in old(host.files) ==> response.ok || response.rolledBack
      ensures host.faultless && (response.ok || response.rolledBack) ==>
                JournalFile !in host.files && StagedFile !in host.files
      ensures staged && JournalFile !in old(host.files) && WorkerFile in old(host.files) ==>
                WentThrough(host.trail, |old(host.trail)|, BeforeJournal, Installed(old(host.files)).value, m)
      ensures (response.ok || response.rolledBack) && WorkerFile in old(host.files) ==>
                WentThrough(host.trail, |old(host.trail)|, WhileAside, Installed(old(host.files)).value, m)
      ensures host.faultless && response.rolledBack && WorkerFile in old(host.files) ==>
                WentThrough(host.trail, |old(host.trail)|, AfterPutBack, Installed(old(host.files)).value, m)
    {
      hide SeenReady, SeenAs, Matches, ValidManifest, Passed, LeftAlone, CrashState, WentThrough, In, SetAside, PutBack,
           Admitted;
      ghost var before, from, w, start := host.files, |host.trail|, Installed(host.files), host.trail;
      assert Passed(start, from, before, w, m) && LeftAlone(start, from, before) by {
        NothingPassed(start, before, w, m);
      }
      response, staged := Response(false, false, false), false;
      var prepared := Prepare(m, body, readable);
      PassedUntouched(start, host.trail, from, before, w, m);
      staged := prepared;
      if !prepared { return; }
      ghost var mid, first := host.files, host.trail;
      if w.Some? && JournalFile !in before { StagedNow(first, from, w.value, m); }
      response := Install(m, body);
      PassedOn(first, host.trail, from, before, mid, w, m);
      ghost var trail, seen := host.trail, host.seen;
      var _ := host.Remove(StagedFile);
      assert LeftAlone(host.trail, |trail|, trail[|trail| - 1]) by { OneMore(trail, host.files); }
      PassedUntouched(trail, host.trail, from, before, w, m);
      SightingsLast(trail, host.trail, seen, host.seen, |first|, from);
      if w.Some? {
        WentThroughStays(first, from, host.trail, from, w.value, m);
        WentThroughStays(trail, |first|, host.trail, from, w.value, m);
      }
    }

    /** The part of an update after staging, up to the removal of the staged file. */
    method Install(m: Manifest, body: Bytes) returns (response: Response)
      requires host.Valid() && Matches(m, body)
      requires StagedFile in host.files && host.files[StagedFile] == Binary(body)
      requires WorkerFile in host.files ==> host.files[WorkerFile].Binary?
      modifies host
      ensures host.Valid() && old(host.trail) < host.trail && old(host.seen) <= host.seen
      ensures Later(host.seen, |old(host.seen)|, |old(host.trail)|)
      ensures Passed(host.trail, |old(host.trail)|, old(host.files), Installed(old(host.files)), m)
      ensures !(response.ok && response.rolledBack) && (response.ok || response.rolledBack ==> host.started)
      ensures response.ok ==>
                && At(host.files, WorkerFile) == Some(Binary(body)) && JournalFile !in host.files
                && SeenAs(host.trail, host.seen, |old(host.trail)|, At(host.files, WorkerFile), m)
                && host.done == old(host.done) + [StateSynced, WorkerStopped, StateSynced, MadeExecutable, WorkerSynced,
                                               WorkerStarted]
      ensures response.rolledBack ==> Former(old(host.files), host.files) &&
                                      SeenReady(host.trail, host.seen, |old(host.trail)|, At(host.files, WorkerFile))
      ensures response.ok || response.rolledBack ==> (response.previousAvailable <==> PreviousFile in host.files)
      ensures response.previousAvailable ==> PreviousFile in host.files
      ensures host.faultless && WorkerFile in old(host.files) ==> response.ok || response.rolledBack
      ensures host.faultless && (response.ok || response.rolledBack) ==> JournalFile !in host.files
      ensures (response.ok || response.rolledBack) && WorkerFile in old(host.files) ==>
                WentThrough(host.trail, |old(host.trail)|, WhileAside, Installed(old(host.files)).value, m)
      ensures host.faultless && response.rolledBack && WorkerFile in old(host.files) ==>
                WentThrough(host.trail, |old(host.trail)|, AfterPutBack, Installed(old(host.files)).value, m)
    {
      hide WentThrough, Matches;
      ghost var before, from, w := host.files, |host.trail|, Installed(host.files);
      response := Response(false, false, false);
      var journaled := WriteJournal(Journal(m.requestId, Staged, m.version, m.sha));
      assert JournalPassed: Passed(host.trail, from, before, w, m);
      if !journaled { return; }
      ghost var mid, first := host.files, host.trail;
      assert Installed(mid) == w;
      var active, rolledBack := Activate(m, body);
      PassedOn(first, host.trail, from, before, mid, w, m);
      ghost var trail := host.trail;
      response := Finish(m, from, before, active, rolledBack);
      if w.Some? { WentThroughStays(trail, |first|, host.trail, from, w.value, m); }
    }

    method Finish(m: Manifest, ghost from: nat, ghost before: Files, active: bool, rolledBack: bool)
      returns (response: Response)
      requires host.Valid() && from < |host.trail| && !(active && rolledBack)
      requires Passed(host.trail, from, before, Installed(before), m)
      requires Installed(before).Some? && (active || rolledBack) ==> CrashState(host.files, Installed(before).value, m)
      requires active || rolledBack ==> WorkerFile in host.files
      modifies host
      ensures host.Valid() && old(host.trail) <= host.trail && old(host.seen) <= host.seen
      ensures Later(host.seen, |old(host.seen)|, |old(host.trail)|)
      ensures Passed(host.trail, from, before, Installed(before), m)
      ensures host.files == old(host.files) || host.files == old(host.files) - {JournalFile}
      ensures host.started == old(host.started) && host.done == old(host.done)
      ensures response.rolledBack == rolledBack && (response.ok ==> active && JournalFile !in host.files)
      ensures response.previousAvailable <==> PreviousFile in host.files
      ensures host.faultless ==> response.ok == active
      ensures host.faultless && rolledBack ==> JournalFile !in host.files
    {
      hide Passed, CrashState;
      ghost var trail, f := host.trail, host.files;
      if rolledBack {
        var _ := RemoveIfPresent(JournalFile);
        JournalGone(trail, f, host.files, from, before, Installed(before), m);
      }
      var previous := host.Exists(PreviousFile);
      var _, _ := host.Status();
      response := Response(false, rolledBack, previous);
      if !active { return; }
      var removed := RemoveIfPresent(JournalFile);
      JournalGone(trail, f, host.files, from, before, Installed(before), m);
      response := Response(removed, rolledBack, previous);
    }

    method CleanUp() returns (ok: bool)
      requires host.Valid()
      modifies host
      ensures host.Valid() && old(host.trail) <= host.trail && host.seen == old(host.seen)
      ensures host.started == old(host.started) && host.done == old(host.done)
      ensures forall i :: |old(host.trail)| <= i < |host.trail| ==> Discarding(old(host.files), host.trail[i])
      ensures Discarding(old(host.files), host.files)
      ensures ok ==> StagedFile !in host.files && JournalFile !in host.files
      ensures host.faultless ==> ok
    {
      var staged := RemoveIfPresent(StagedFile);
      var journal := RemoveIfPresent(JournalFile);
      ok := staged && journal;
    }

    /** The journal, if it can be decoded and is well formed. */
    method ReadJournal() returns (r: Option<Journal>)
      requires JournalFile in host.files
      ensures r == if Readable(host.files[JournalFile]) then Some(host.files[JournalFile].journal) else None
    {
      if !host.files[JournalFile].Record? { return None; }
      var value := host.files[JournalFile].journal;
      var identified := IsRequestId(value.requestId);
      r := if identified && value.version != "" then Some(value) else None;
    }

    /** Finish or undo what an interrupted update left; run before the supervisor serves. */
    method Recover(ghost w: Bytes, ghost m: Manifest) returns (ok: bool)
      requires host.Valid()
      modifies host
      ensures host.Valid() && old(host.trail) <= host.trail && old(host.seen) <= host.seen
      ensures CrashState(old(host.files), w, m) ==>
                forall i :: |old(host.trail)| <= i < |host.trail| ==> Kept(host.trail[i], w, m)
      ensures ok ==> JournalFile !in host.files
      ensures host.faultless ==>
                if JournalFile in old(host.files) then
                  Resumed(old(host.files), host.files, ok, host.seen, |old(host.seen)|, |old(host.trail)|)
                else ok && host.files == old(host.files)
      ensures host.faultless && Recovers(old(host.files), w, m) ==>
                Recovered(host.trail, host.seen, |old(host.trail)| - 1, |old(host.seen)|, old(host.files), host.files,
                          ok, w, m)
    {
      hide Matches, ValidRequestId;
      var found := host.Exists(JournalFile);
      if !found { return true; }
      var read := ReadJournal();
      if read.None? { return false; }
      var record := read.value;
      if record.phase == Staged {
        ok := CleanUp();
        return;
      }
      ok := RecoverSwap(record, w, m);
    }

    /** The journal says a swap had begun: keep a worker that came up as announced, else go back. */
    method RecoverSwap(record: Journal, ghost w: Bytes, ghost m: Manifest) returns (ok: bool)
      requires host.Valid() && JournalFile in host.files && host.files[JournalFile] == Record(record) &&
               record.phase == Swapping
      modifies host
      ensures host.Valid() && old(host.trail) <= host.trail && old(host.seen) <= host.seen
      ensures CrashState(old(host.files), w, m) ==>
                forall i :: |old(host.trail)| <= i < |host.trail| ==> Kept(host.trail[i], w, m)
      ensures ok ==> JournalFile !in host.files
      ensures host.faultless && Readable(Record(record)) ==>
                Resumed(old(host.files), host.files, ok, host.seen, |old(host.seen)|, |old(host.trail)|)
      ensures host.faultless && CrashState(old(host.files), w, m) ==>
                Recovered(host.trail, host.seen, |old(host.trail)| - 1, |old(host.seen)|, old(host.files), host.files,
                          ok, w, m)
    {
      hide Matches, ValidRequestId;
      var s, answered := host.Status();
      if answered && s.running && s.coreReady && s.version == record.version && s.sha == Some(record.sha) {
        ok := CleanUp();
        assert host.seen[|old(host.seen)|].at == |old(host.trail)| &&
               host.trail[|old(host.trail)| - 1] == old(host.files);
        return;
      }
      var previous := host.Exists(PreviousFile);
      if !previous { return false; }
      ok := GoBack();
    }

    /** Roll back and clear what the update left. */
    method GoBack() returns (ok: bool)
      requires host.Valid() && PreviousFile in host.files
      modifies host
      ensures host.Valid() && old(host.trail) <= host.trail && old(host.seen) <= host.seen
      ensures Later(host.seen, |old(host.seen)|, |old(host.trail)| + 1)
      ensures forall i :: |old(host.trail)| <= i < |host.trail| ==>
                Reverting(old(host.files), host.trail[i]) || WentBack(old(host.files), host.trail[i])
      ensures ok ==> host.started
      ensures ok ==> WentBack(old(host.files), host.files) && JournalFile !in host.files && StagedFile !in host.files &&
                     SeenReady(host.trail, host.seen, |old(host.trail)|, At(host.files, WorkerFile))
      ensures host.faultless ==> ok
    {
      ok := RollBack();
      if !ok { return; }
      ghost var trail, seen := host.trail, host.seen;
      ok := CleanUp();
      SightingsLast(trail, host.trail, seen, host.seen, |old(host.trail)|, |old(host.trail)|);
    }

    /** Going back on request. */
    method RollBackOnRequest() returns (response: Response)
      requires host.Valid()
      modifies host
      ensures host.Valid() && old(host.trail) <= host.trail
      ensures Reverted(host.trail, |old(host.trail)|, old(host.files)) && response.ok == response.rolledBack
      ensures !response.previousAvailable && (response.ok ==> host.started)
      ensures response.ok ==> PreviousFile in old(host.files) && PreviousFile !in host.files &&
                              At(host.files, WorkerFile) == At(old(host.files), PreviousFile) &&
                              SeenReady(host.trail, host.seen, |old(host.trail)|, At(host.files, WorkerFile))
      ensures host.faultless ==> (response.ok <==> PreviousFile in old(host.files))
    {
      response := Response(false, false, false);
      var previous := host.Exists(PreviousFile);
      if !previous { return; }
      var rolledBack := RollBack();
      ghost var seen := host.seen;
      var _, _ := host.Status();
      SightingsLast(host.trail, host.trail, seen, host.seen, |old(host.trail)|, |old(host.trail)|);
      response := Response(rolledBack, rolledBack, false);
    }
  }
}
