/** Installing the privileged helper: four files are replaced, or none. */
module Install {

  datatype Option<+T> = None | Some(value: T)

  type Bytes = seq<int>

  datatype Which = Binary | Core | Auth | Token
  datatype Path =
    | Main(which: Which) | Tmp(which: Which) | Backup(which: Which) | BackupTmp(which: Which) | Other(name: string)
  datatype File = File(content: Bytes, mode: nat)
  type Files = map<Path, File>

  const EXECUTABLE := 0x1ED // rwxr-xr-x
  const PRIVATE := 0x180    // rw-------

  function At(f: Files, p: Path): Option<File> { if p in f then Some(f[p]) else None }

  /** One of the four files and its snapshot are as they were. */
  predicate SameFor(f: Files, g: Files, w: Which) {
    At(g, Main(w)) == At(f, Main(w)) && At(g, Backup(w)) == At(f, Backup(w)) &&
      At(g, BackupTmp(w)) == At(f, BackupTmp(w))
  }

  predicate SameForOthers(f: Files, g: Files, w: Which) {
    && (w != Binary ==> SameFor(f, g, Binary)) && (w != Core ==> SameFor(f, g, Core))
    && (w != Auth ==> SameFor(f, g, Auth)) && (w != Token ==> SameFor(f, g, Token))
  }

  /** No file outside the installation is touched. */
  ghost predicate RestSame(f: Files, g: Files) { forall n :: At(g, Other(n)) == At(f, Other(n)) }

  predicate Has(f: Files, p: Path, content: Bytes) { At(f, p).Some? && At(f, p).value.content == content }

  ghost predicate SameBut(f: Files, g: Files, except: set<Path>) { forall p :: p !in except ==> At(g, p) == At(f, p) }

  /** What is done besides reading and writing the files. */
  datatype Deed = DirectoryMade | Stopped | Started | Disabled | Answered

  /** A file system, and a service, where any operation may fail unless they are faultless. */
  class Disk {
    const faultless: bool
    var files: Files
    ghost var stuck: set<Path>  // the files that were there and could not be removed
    ghost var faults: seq<Path> // the files an operation has failed on
    ghost var deeds: seq<Deed>  // what was done without an error

    constructor (faultless: bool, files: Files)
      ensures this.faultless == faultless && this.files == files && stuck == {} && faults == [] && deeds == []
    {
      this.faultless, this.files, this.stuck, this.faults, this.deeds := faultless, files, {}, [], [];
    }

    method Do(ghost deed: Deed) returns (ok: bool)
      modifies this`deeds
      ensures deeds == (if ok then old(deeds) + [deed] else old(deeds)) && (faultless ==> ok)
    {
      ok := *;
      ok := ok || faultless;
      if ok { deeds := deeds + [deed]; }
    }

    /** Looking at a file. */
    method Look() returns (ok: bool)
      ensures faultless ==> ok
    {
      ok := *;
      ok := ok || faultless;
    }

    method Remove(p: Path) returns (ok: bool)
      modifies this`files, this`stuck, this`faults
      ensures files == if ok then old(files) - {p} else old(files)
      ensures (ok ==> p in old(files)) && (faultless && p in old(files) ==> ok)
      ensures stuck == if !ok && p in old(files) then old(stuck) + {p} else old(stuck)
      ensures faults == if !ok && p in old(files) then old(faults) + [p] else old(faults)
    {
      ok := *;
      ok := (ok || faultless) && p in files;
      if ok {
        files := files - {p};
      } else if p in files {
        stuck, faults := stuck + {p}, faults + [p];
      }
    }

    method Rename(from: Path, to: Path) returns (ok: bool)
      requires from != to
      modifies this`files, this`faults
      ensures ok ==> from in old(files) && files == (old(files) - {from})[to := old(files)[from]]
      ensures !ok ==> files == old(files)
      ensures faultless && from in old(files) ==> ok
      ensures faults == if ok then old(faults) else old(faults) + [to]
    {
      ok := *;
      ok := (ok || faultless) && from in files;
      if ok { files := (files - {from})[to := files[from]]; } else { faults := faults + [to]; }
    }

    method ChangeMode(p: Path, mode: nat) returns (ok: bool)
      modifies this`files, this`faults
      ensures ok ==> p in old(files) && files == old(files)[p := old(files)[p].(mode := mode)]
      ensures !ok ==> files == old(files)
      ensures faultless && p in old(files) ==> ok
      ensures faults == if ok then old(faults) else old(faults) + [p]
    {
      ok := *;
      ok := (ok || faultless) && p in files;
      if ok { files := files[p := files[p].(mode := mode)]; } else { faults := faults + [p]; }
    }

    /** Writing over a file, or creating it; a failure may leave anything in it. The mode is that of a new file. */
    method Write(p: Path, content: Bytes, mode: nat) returns (ok: bool)
      modifies this`files
      ensures SameBut(old(files), files, {p})
      ensures ok ==> At(files, p) == Some(File(content, if p in old(files) then old(files)[p].mode else mode))
      ensures faultless ==> ok
    {
      ok := *;
      ok := ok || faultless;
      var touched: bool, rest: Bytes := *, *;
      var kept := if p in files then files[p].mode else mode;
      if ok {
        files := files[p := File(content, kept)];
      } else if touched {
        files := files[p := File(rest, kept)];
      }
    }

    /** Copy through a temporary file whose stored bytes are read back and compared before it is put in place. */
    method Copy(from: Path, to: Path, tmp: Path, mode: nat) returns (ok: bool)
      requires from != tmp && to != tmp
      modifies this
      ensures SameBut(old(files), files, {to, tmp}) && old(stuck) <= stuck
      ensures old(deeds) <= deeds && (ok ==> deeds == old(deeds) + [DirectoryMade])
      ensures ok ==> from in old(files) && At(files, to) == Some(File(old(files)[from].content, mode))
      ensures ok ==> tmp !in files
      ensures !ok ==> At(files, to) == At(old(files), to) ||
                      (from in old(files) && Has(files, to, old(files)[from].content))
      ensures tmp in files ==> tmp in stuck || (!ok && At(files, tmp) == At(old(files), tmp))
      ensures faultless ==> (ok <==> from in old(files)) && (!ok ==> files == old(files)) && stuck == old(stuck)
    {
      ok := Do(DirectoryMade);
      if !ok || from !in files { return false; }
      var content := files[from].content;
      var garbled: bool, other: Bytes := *, *;
      var stored := if garbled && !faultless then other else content; // what ends up in the file
      ok := Write(tmp, stored, mode);
      var readBack := Look();
      if !ok || !readBack || stored != content {
        var _ := Remove(tmp);
        return false;
      }
      ok := Rename(tmp, to);
      if !ok {
        var _ := Remove(tmp);
        return;
      }
      ok := ChangeMode(to, mode);
    }
  }

  datatype FileRollback = FileRollback(which: Which, existed: bool, mode: nat)

  /** The snapshot holds what the file was. */
  predicate Saved(before: Files, now: Files, s: FileRollback) {
    if Main(s.which) in before then
      s.existed && s.mode == before[Main(s.which)].mode && At(now, Backup(s.which)) == At(before, Main(s.which))
    else !s.existed
  }

  method SnapshotFile(disk: Disk, w: Which) returns (ok: bool, s: FileRollback)
    modifies disk
    ensures At(disk.files, Main(w)) == At(old(disk.files), Main(w)) && s.which == w
    ensures SameForOthers(old(disk.files), disk.files, w) && RestSame(old(disk.files), disk.files)
    ensures ok ==>
              Saved(old(disk.files), disk.files, s) &&
                (s.existed || Backup(w) !in disk.files || Backup(w) in disk.stuck)
    ensures old(disk.stuck) <= disk.stuck
    ensures old(disk.deeds) <= disk.deeds
    ensures disk.faultless ==> ok && disk.stuck == old(disk.stuck)
  {
    s := FileRollback(w, false, 0);
    ok := disk.Look();
    if !ok { return; }
    if Main(w) !in disk.files {
      var _ := disk.Remove(Backup(w));
      return;
    }
    s := FileRollback(w, true, disk.files[Main(w)].mode);
    ok := disk.Copy(Main(w), Backup(w), BackupTmp(w), s.mode);
  }

  /** An operation on the file has failed since. */
  ghost predicate Faulted(faults: seq<Path>, from: nat, p: Path) {
    exists i :: from <= i < |faults| && faults[i] == p
  }

  /** Nothing of a file is lost while it is in place or its snapshot is. */
  predicate Recoverable(before: Files, now: Files, w: Which) {
    Main(w) in before ==>
      Has(now, Main(w), before[Main(w)].content) || At(now, Backup(w)) == At(before, Main(w))
  }

  method RestoreFile(disk: Disk, s: FileRollback, ghost before: Files) returns (ok: bool)
    requires Saved(before, disk.files, s)
    modifies disk
    ensures SameForOthers(old(disk.files), disk.files, s.which) && RestSame(old(disk.files), disk.files)
    ensures ok ==> At(disk.files, Main(s.which)) == At(before, Main(s.which))
    ensures ok && s.existed ==> Backup(s.which) !in disk.files
    ensures !s.existed ==> At(disk.files, Backup(s.which)) == At(old(disk.files), Backup(s.which))
    ensures Recoverable(before, disk.files, s.which)
    ensures old(disk.stuck) <= disk.stuck && disk.deeds == old(disk.deeds) && old(disk.faults) <= disk.faults
    ensures !ok ==> Faulted(disk.faults, |old(disk.faults)|, Main(s.which))
    ensures disk.faultless ==> ok && disk.stuck == old(disk.stuck)
  {
    if !s.existed {
      var present := Main(s.which) in disk.files;
      ok := disk.Remove(Main(s.which));
      ok := ok || !present;
      assert !ok ==> disk.faults[|disk.faults| - 1] == Main(s.which);
      return;
    }
    ok := disk.Rename(Backup(s.which), Main(s.which));
    assert !ok ==> disk.faults[|disk.faults| - 1] == Main(s.which);
    if !ok { return; }
    ok := disk.ChangeMode(Main(s.which), s.mode);
    assert !ok ==> disk.faults[|disk.faults| - 1] == Main(s.which);
  }

  /** A snapshot is there only if it could not be removed. */
  ghost predicate Discarded(disk: Disk, w: Which)
    reads disk
  {
    forall p :: p in {Backup(w), BackupTmp(w)} && At(disk.files, p).Some? ==> p in disk.stuck
  }

  method DiscardFile(disk: Disk, s: FileRollback)
    modifies disk
    ensures At(disk.files, Main(s.which)) == At(old(disk.files), Main(s.which)) && Discarded(disk, s.which)
    ensures SameForOthers(old(disk.files), disk.files, s.which) && RestSame(old(disk.files), disk.files)
    ensures old(disk.stuck) <= disk.stuck && disk.deeds == old(disk.deeds) && old(disk.faults) <= disk.faults
    ensures disk.faultless ==> disk.stuck == old(disk.stuck)
  {
    var _ := disk.Remove(Backup(s.which));
    var _ := disk.Remove(BackupTmp(s.which));
  }

  // ----- all four files -----

  datatype InstallRollback = InstallRollback(binary: FileRollback, core: FileRollback, auth: FileRollback,
                                             token: FileRollback) {
    predicate Valid() { binary.which == Binary && core.which == Core && auth.which == Auth && token.which == Token }
  }

  predicate AllSaved(before: Files, now: Files, r: InstallRollback) {
    && Saved(before, now, r.binary) && Saved(before, now, r.core) && Saved(before, now, r.auth) &&
       Saved(before, now, r.token)
  }

  /** Every file is as it was: there or not, with its content and its mode. */
  predicate AllAsBefore(before: Files, now: Files) {
    && At(now, Main(Binary)) == At(before, Main(Binary)) && At(now, Main(Core)) == At(before, Main(Core))
    && At(now, Main(Auth)) == At(before, Main(Auth)) && At(now, Main(Token)) == At(before, Main(Token))
  }

  predicate AllRecoverable(before: Files, now: Files) {
    && Recoverable(before, now, Binary) && Recoverable(before, now, Core)
    && Recoverable(before, now, Auth) && Recoverable(before, now, Token)
  }

  ghost predicate AllDiscarded(disk: Disk)
    reads disk
  {
    Discarded(disk, Binary) && Discarded(disk, Core) && Discarded(disk, Auth) && Discarded(disk, Token)
  }

  method BeginRollback(disk: Disk) returns (ok: bool, r: InstallRollback)
    modifies disk
    ensures AllAsBefore(old(disk.files), disk.files) && RestSame(old(disk.files), disk.files)
    ensures ok ==> r.Valid() && AllSaved(old(disk.files), disk.files, r)
    ensures old(disk.deeds) <= disk.deeds
    ensures disk.faultless ==> ok && disk.stuck == old(disk.stuck)
  {
    var none := FileRollback(Binary, false, 0);
    r := InstallRollback(none, none, none, none);
    var binary, core, auth, token;
    ok, binary := SnapshotFile(disk, Binary);
    if !ok { return; }
    ok, core := SnapshotFile(disk, Core);
    if !ok {
      DiscardFile(disk, binary);
      return;
    }
    ok, auth := SnapshotFile(disk, Auth);
    if !ok {
      DiscardFile(disk, binary);
      DiscardFile(disk, core);
      return;
    }
    ok, token := SnapshotFile(disk, Token);
    if !ok {
      DiscardFile(disk, binary);
      DiscardFile(disk, core);
      DiscardFile(disk, auth);
      return;
    }
    r := InstallRollback(binary, core, auth, token);
  }

  method Commit(disk: Disk, r: InstallRollback)
    requires r.Valid()
    modifies disk
    ensures AllAsBefore(old(disk.files), disk.files) && AllDiscarded(disk) && RestSame(old(disk.files), disk.files)
    ensures disk.deeds == old(disk.deeds) && old(disk.faults) <= disk.faults
    ensures disk.faultless ==> disk.stuck == old(disk.stuck)
  {
    DiscardFile(disk, r.binary);
    DiscardFile(disk, r.core);
    DiscardFile(disk, r.auth);
    DiscardFile(disk, r.token);
  }

  /** The file is as it was, or an operation on it has failed. */
  ghost predicate BackUnlessFaulted(before: Files, now: Files, faults: seq<Path>, from: nat, w: Which) {
    At(now, Main(w)) == At(before, Main(w)) || Faulted(faults, from, Main(w))
  }

  ghost predicate AllBackUnlessFaulted(before: Files, now: Files, faults: seq<Path>, from: nat) {
    && BackUnlessFaulted(before, now, faults, from, Binary) && BackUnlessFaulted(before, now, faults, from, Core)
    && BackUnlessFaulted(before, now, faults, from, Auth) && BackUnlessFaulted(before, now, faults, from, Token)
  }

  /** All four files are put back, whatever becomes of the others. */
  method RestoreFiles(disk: Disk, r: InstallRollback, ghost before: Files) returns (ok: bool)
    requires r.Valid() && AllSaved(before, disk.files, r)
    modifies disk
    ensures ok ==> AllAsBefore(before, disk.files)
    ensures AllBackUnlessFaulted(before, disk.files, disk.faults, |old(disk.faults)|)
    ensures AllRecoverable(before, disk.files) && disk.deeds == old(disk.deeds)
    ensures disk.faultless ==> ok && disk.stuck == old(disk.stuck)
  {
    var binary := RestoreFile(disk, r.binary, before);
    ghost var f1 := disk.faults;
    assert BackUnlessFaulted(before, disk.files, f1, |old(disk.faults)|, Binary);
    var core := RestoreFile(disk, r.core, before);
    ghost var f2 := disk.faults;
    var auth := RestoreFile(disk, r.auth, before);
    ghost var f3 := disk.faults;
    var token := RestoreFile(disk, r.token, before);
    ok := binary && core && auth && token;
  }

  /** The service is stopped, the files are put back, and the service of before is started again, or a new one goes. */
  method Restore(disk: Disk, r: InstallRollback, ghost before: Files) returns (ok: bool)
    requires r.Valid() && AllSaved(before, disk.files, r)
    modifies disk
    ensures ok ==> AllAsBefore(before, disk.files) && AllDiscarded(disk)
    ensures ok ==> disk.deeds == old(disk.deeds) + [Stopped, if Main(Binary) in before then Started else Disabled]
    ensures !ok ==> AllBackUnlessFaulted(before, disk.files, disk.faults, |old(disk.faults)|)
    ensures AllRecoverable(before, disk.files)
    ensures disk.faultless ==> ok && disk.stuck == old(disk.stuck)
  {
    var stopped := disk.Do(Stopped);
    var files := RestoreFiles(disk, r, before);
    var service;
    if r.binary.existed { service := disk.Do(Started); } else { service := disk.Do(Disabled); }
    ok := stopped && files && service;
    if ok { Commit(disk, r); }
  }

  // ----- the install -----

  datatype Outcome = Refused | Installed | RolledBack | RollbackFailed

  /** Whether the file at the destination has to be replaced; a source that cannot be read is an error. */
  method NeedsUpdate(disk: Disk, source: Path, w: Which) returns (ok: bool, needed: bool)
    ensures ok && !needed ==>
              source == Main(w) || (source in disk.files && Has(disk.files, Main(w), disk.files[source].content))
    ensures source == Main(w) ==> ok && !needed
    ensures disk.faultless ==> (ok <==> source == Main(w) || Main(w) !in disk.files || source in disk.files)
    ensures disk.faultless && ok && source != Main(w) && source in disk.files ==>
              (needed <==> !Has(disk.files, Main(w), disk.files[source].content))
  {
    if source == Main(w) { return true, false; }
    var known := disk.Look();
    if !known { return false, false; }
    if Main(w) !in disk.files { return true, true; }
    var read := disk.Look();
    if !read || source !in disk.files { return false, false; }
    var hashed := disk.Look();
    if !hashed { return true, true; }
    return true, disk.files[source].content != disk.files[Main(w)].content;
  }

  /** A file for its owner alone, unless it was there with another mode. */
  predicate Secret(before: Files, now: Files, w: Which, content: Bytes) {
    At(now, Main(w)) == Some(File(content, if Main(w) in before then before[Main(w)].mode else 6 * 64))
  }

  /** Both secrets, the second only after the first. */
  method WriteSystemAuth(disk: Disk, auth: Bytes, token: Bytes) returns (ok: bool)
    modifies disk`files, disk`deeds
    ensures SameBut(old(disk.files), disk.files, {Main(Auth), Main(Token)})
    ensures ok ==> Secret(old(disk.files), disk.files, Auth, auth) && Secret(old(disk.files), disk.files, Token, token)
    ensures old(disk.deeds) <= disk.deeds
    ensures ok ==> disk.deeds == old(disk.deeds) + [DirectoryMade]
    ensures !Has(disk.files, Main(Auth), auth) ==> At(disk.files, Main(Token)) == At(old(disk.files), Main(Token))
    ensures disk.faultless ==> ok
  {
    ok := disk.Do(DirectoryMade);
    if !ok { return; }
    ok := disk.Write(Main(Auth), auth, PRIVATE);
    if !ok { return; }
    ghost var mid := disk.files;
    assert At(mid, Main(Token)) == At(old(disk.files), Main(Token));
    ok := disk.Write(Main(Token), token, PRIVATE);
    assert At(disk.files, Main(Auth)) == At(mid, Main(Auth));
  }

  predicate OwnOrOther(source: Path, w: Which) { source == Main(w) || source.Other? }

  /** The file now holds what the source held and can be executed, unless it is its own source or had that content. */
  predicate Brought(before: Files, now: Files, source: Path, w: Which) {
    if source == Main(w) then At(now, Main(w)) == At(before, Main(w))
    else
      && source in before && Has(now, Main(w), before[source].content)
      && (At(now, Main(w)) == At(before, Main(w)) || now[Main(w)].mode == 7 * 64 + 5 * 8 + 5)
  }

  /** What a successful install leaves. */
  predicate AllInstalled(before: Files, now: Files, source: Path, core: Path, auth: Bytes, token: Bytes) {
    && Brought(before, now, source, Binary) && Brought(before, now, core, Core)
    && Secret(before, now, Auth, auth) && Secret(before, now, Token, token)
  }

  predicate SnapshotsSame(f: Files, g: Files) {
    && At(g, Backup(Binary)) == At(f, Backup(Binary)) && At(g, Backup(Core)) == At(f, Backup(Core))
    && At(g, Backup(Auth)) == At(f, Backup(Auth)) && At(g, Backup(Token)) == At(f, Backup(Token))
  }

  /** The directories made for the copies. */
  function Copies(source: Path, core: Path, needsBinary: bool, needsCore: bool): seq<Deed> {
    (if needsBinary && source != Main(Binary) then [DirectoryMade] else []) +
    (if needsCore && core != Main(Core) then [DirectoryMade] else [])
  }

  predicate Readable(f: Files, source: Path, w: Which) { source == Main(w) || source in f }

  method Replace(disk: Disk, source: Path, core: Path, needsBinary: bool, needsCore: bool, auth: Bytes, token: Bytes)
    returns (ok: bool)
    requires source.Main? || source.Other?
    requires core.Main? || core.Other?
    modifies disk
    ensures SnapshotsSame(old(disk.files), disk.files) && old(disk.stuck) <= disk.stuck
    ensures old(disk.deeds) <= disk.deeds
    ensures ok ==>
              disk.deeds == old(disk.deeds) + [Stopped] + Copies(source, core, needsBinary, needsCore) +
                            [DirectoryMade, Started, Answered]
    ensures ok && OwnOrOther(source, Binary) && OwnOrOther(core, Core) ==>
              BothBrought(old(disk.files), disk.files, source, core, needsBinary, needsCore) &&
              Secret(old(disk.files), disk.files, Auth, auth) && Secret(old(disk.files), disk.files, Token, token)
    ensures disk.faultless && OwnOrOther(source, Binary) && OwnOrOther(core, Core) ==>
              (ok <==> (needsBinary ==> Readable(old(disk.files), source, Binary)) &&
                       (needsCore ==> Readable(old(disk.files), core, Core)))
    ensures disk.faultless ==> disk.stuck == old(disk.stuck)
  {
    ok := disk.Do(Stopped);
    if !ok { return; }
    ok := ReplaceBinaries(disk, source, core, needsBinary, needsCore);
    if !ok { return; }
    ok := WriteSystemAuth(disk, auth, token);
    if !ok { return; }
    ok := disk.Do(Started);
    if !ok { return; }
    ok := disk.Do(Answered); // it answers with its version
  }

  /** The binaries that need it are replaced. */
  ghost predicate BothBrought(before: Files, now: Files, source: Path, core: Path, needsBinary: bool, needsCore: bool) {
    && (if needsBinary then Brought(before, now, source, Binary)
        else At(now, Main(Binary)) == At(before, Main(Binary)))
    && (if needsCore then Brought(before, now, core, Core) else At(now, Main(Core)) == At(before, Main(Core)))
  }

  method ReplaceBinaries(disk: Disk, source: Path, core: Path, needsBinary: bool, needsCore: bool) returns (ok: bool)
    requires source.Main? || source.Other?
    requires core.Main? || core.Other?
    modifies disk
    ensures SnapshotsSame(old(disk.files), disk.files) && old(disk.stuck) <= disk.stuck
    ensures SameFor(old(disk.files), disk.files, Auth) && SameFor(old(disk.files), disk.files, Token)
    ensures old(disk.deeds) <= disk.deeds
    ensures ok ==> disk.deeds == old(disk.deeds) + Copies(source, core, needsBinary, needsCore)
    ensures ok && OwnOrOther(source, Binary) && OwnOrOther(core, Core) ==>
              BothBrought(old(disk.files), disk.files, source, core, needsBinary, needsCore)
    ensures disk.faultless && OwnOrOther(source, Binary) && OwnOrOther(core, Core) ==>
              (ok <==> (needsBinary ==> Readable(old(disk.files), source, Binary)) &&
                       (needsCore ==> Readable(old(disk.files), core, Core)))
    ensures disk.faultless ==> disk.stuck == old(disk.stuck)
  {
    ok := ReplaceOne(disk, source, Binary, needsBinary);
    if !ok { return; }
    SameSource(old(disk.files), disk.files, core);
    ok := ReplaceOne(disk, core, Core, needsCore);
  }

  lemma SameSource(f: Files, g: Files, source: Path)
    requires SameForOthers(f, g, Binary) && RestSame(f, g)
    ensures OwnOrOther(source, Core) ==> At(g, source) == At(f, source)
  {
    if source.Other? { assert At(g, Other(source.name)) == At(f, Other(source.name)); }
  }

  method ReplaceOne(disk: Disk, source: Path, w: Which, needed: bool) returns (ok: bool)
    requires source.Main? || source.Other?
    modifies disk
    ensures SnapshotsSame(old(disk.files), disk.files) && old(disk.stuck) <= disk.stuck
    ensures SameForOthers(old(disk.files), disk.files, w) && RestSame(old(disk.files), disk.files)
    ensures ok && needed ==> Brought(old(disk.files), disk.files, source, w)
    ensures !needed ==> ok && disk.files == old(disk.files)
    ensures old(disk.deeds) <= disk.deeds
    ensures ok ==>
              disk.deeds == old(disk.deeds) + if needed && source != Main(w) then [DirectoryMade] else []
    ensures disk.faultless ==> (ok <==> (needed ==> Readable(old(disk.files), source, w)))
    ensures disk.faultless ==> disk.stuck == old(disk.stuck)
  {
    ok := true;
    if needed && source != Main(w) {
      ok := disk.Copy(source, Main(w), Tmp(w), EXECUTABLE);
    }
  }

  /** The service has been stopped since, and now runs and answers. */
  ghost predicate Serves(deeds: seq<Deed>, from: nat) {
    && |deeds| >= from + 3 && deeds[|deeds| - 2..] == [Started, Answered]
    && exists i :: from <= i < |deeds| - 2 && deeds[i] == Stopped
  }

  lemma ServesNow(begun: seq<Deed>, copies: seq<Deed>, from: nat)
    requires from <= |begun|
    ensures Serves(begun + [Stopped] + copies + [DirectoryMade, Started, Answered], from)
  {
    var deeds := begun + [Stopped] + copies + [DirectoryMade, Started, Answered];
    assert deeds[|begun|] == Stopped;
  }

  /** All four files are replaced, or all four are as they were, or what they were is still recoverable. */
  method InstallFromCLI(disk: Disk, source: Path, core: Path, auth: Bytes, token: Bytes) returns (outcome: Outcome)
    requires source.Main? || source.Other?
    requires core.Main? || core.Other?
    modifies disk
    ensures outcome.Refused? || outcome.RolledBack? ==> AllAsBefore(old(disk.files), disk.files)
    ensures outcome.Installed? || outcome.RolledBack? ==> AllDiscarded(disk)
    ensures outcome.Installed? && OwnOrOther(source, Binary) && OwnOrOther(core, Core) ==>
              AllInstalled(old(disk.files), disk.files, source, core, auth, token)
    ensures outcome.Installed? ==> Serves(disk.deeds, |old(disk.deeds)|)
    ensures outcome.RolledBack? ==>
              |disk.deeds| > |old(disk.deeds)| &&
              disk.deeds[|disk.deeds| - 1] == if Main(Binary) in old(disk.files) then Started else Disabled
    ensures !outcome.Installed? ==> AllRecoverable(old(disk.files), disk.files)
    ensures disk.faultless ==> !outcome.RollbackFailed? && disk.stuck == old(disk.stuck)
    ensures disk.faultless && OwnOrOther(source, Binary) && OwnOrOther(core, Core) ==>
              (outcome.Installed? <==>
               Readable(old(disk.files), source, Binary) && Readable(old(disk.files), core, Core))
  {
    ghost var before := disk.files;
    var ok, needsBinary := NeedsUpdate(disk, source, Binary);
    if !ok { return Refused; }
    var needsCore;
    ok, needsCore := NeedsUpdate(disk, core, Core);
    if !ok { return Refused; }
    var r;
    ok, r := BeginRollback(disk);
    if !ok { return Refused; }
    ghost var saved, begun := disk.files, disk.deeds;
    assert source.Other? ==> At(saved, Other(source.name)) == At(before, Other(source.name));
    assert core.Other? ==> At(saved, Other(core.name)) == At(before, Other(core.name));
    ok := Replace(disk, source, core, needsBinary, needsCore, auth, token);
    if ok {
      ServesNow(begun, Copies(source, core, needsBinary, needsCore), |old(disk.deeds)|);
      Commit(disk, r);
      return Installed;
    }
    ok := Restore(disk, r, before);
    outcome := if ok then RolledBack else RollbackFailed;
  }
}
