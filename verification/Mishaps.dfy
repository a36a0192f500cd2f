/** One small cluster, and how it is harmed when an assumption about the other parties is broken. */
module Mishaps {
  import opened Kube
  import opened Bindings
  import opened Safety
  import opened Writes
  import opened Api
  import opened Validation
  import opened Controller
  import opened Boundaries
  import Restore
  import Intercept

  const WHO := Subject("exchange", "u1", Exchange, "web")
  const OTHER := Subject("mirror", "u2", Mirror, "web")

  const SNAPSHOT := Snapshot("web", "s1", map["app" := "web"], [], false, [], false)
  const UUID := "01234567-89ab-4cde-8f01-23456789abcd"
  const IDENTITY := Identity(UUID, UUID, "user", 1)
  const SPEC := Spec(Active, Exchange, IDENTITY, Some(Target(ServiceTarget, "web")),
                     Some(Relay("10.0.0.9", true, false)),
                     None, [TrafficPort("", 80, Some(9000), None, TcpProtocol)])
  const STATUS := Status(1, Ready, "web", "", Some(SNAPSHOT), Conditions(Yes, No, Yes, No, No, No))
  const BINDING := Binding("exchange", "u1", 1, false, true, SPEC, STATUS)

  function Web(uid: string, selector: map<string, string>): Service {
    Service(uid, "10.1.0.1", ClusterIPService, selector, map[], map[], [], [ServicePort("http", TCP, 80, 8080)])
  }

  const ORIGINAL := Web("s1", map["app" := "web"])
  const CLAIMED := Hijacked(ORIGINAL, WHO)
  const REPLACED := Web("s2", map["app" := "new"])
  const ANOTHERS := Hijacked(ORIGINAL, OTHER)

  function Stored(s: Service): World { World(Some(BINDING), Shared(map["web" := s], map[], map[])) }

  lemma UuidIsValid()
    ensures IsUuid(UUID)
  {}

  lemma IdentityIsValid()
    ensures IdentityValid(IDENTITY)
  {
    UuidIsValid();
    hide IsUuid;
    assert IDENTITY.identityId[0] == 'u';
    assert Utf8Length("") == 0 && Utf8Length("r") == 1 && Utf8Length("er") == 2 && Utf8Length("ser") == 3;
    assert "user"[1..] == "ser" && "ser"[1..] == "er" && "er"[1..] == "r" && "r"[1..] == "";
  }

  lemma SpecIsValid()
    ensures ValidSpec(SPEC) && Shaped(SPEC)
  {
    IdentityIsValid();
    hide IdentityValid;
    assert IsDnsSubdomain("web");
    assert |SPEC.ports| == 1;
  }

  lemma StoredIsSafe(s: Service)
    requires Marked(s, WHO.uid) ==> s.uid == "s1"
    ensures Safe(WHO, Stored(s)) && MayMark(WHO, BINDING)
  {
    SpecIsValid();
    hide ValidSpec;
    var c := Stored(s).shared;
    assert !OwnSlice(WHO, c);
    assert WellFormed(WHO, BINDING) && Coherent(STATUS) && SnapshotSafe(WHO, BINDING);
    assert MarksLegitimate(WHO, BINDING, c);
  }

  /** The patch of a Service that was read with the UID of the snapshot. */
  lemma Misses(s: Service, read: Service, after: Service)
    requires !Marked(s, WHO.uid) && read in {ORIGINAL, CLAIMED} && s in {REPLACED, ANOTHERS}
    requires after == Hijacked(read, WHO) || after == Restore.RestoredService(read, SNAPSHOT)
    requires MergeService(s, read, after) != s
    ensures PatchReady(WHO, Stored(s), BINDING, read) && !LandsWell(WHO, Stored(s), read, after)
  {
    StoredIsSafe(s);
    assert Stored(s).shared.services["web"] == s;
    assert "s1"[1] != "s2"[1];
    assert Foreign(ANOTHERS, WHO.uid) by { assert "u1"[1] != "u2"[1]; }
    hide Safe, MayMark, Guarantee, MergeService;
    if after == Hijacked(read, WHO) {
      ClaimLandsWellWhen(WHO, Stored(s), BINDING, read);
    } else {
      ReleaseLandsWellWhen(WHO, Stored(s), BINDING, read);
    }
    assert Edited(WHO, Stored(s), read, after).shared.services["web"] == MergeService(s, read, after);
  }

  const CLUSTER := Stored(CLAIMED).shared
  const WITHDRAWN := RelayWithdrawn(BINDING)
  const WAITING := WITHDRAWN.(status := LifecycleStatus(STATUS, 2, Pending, No))
  const ASKED := PauseRequested(WAITING)
  const LEFT := ASKED.(status := PausedStatus(WAITING.status, 3))
  const DELETED := LEFT.(deleting := true)
  const RELEASED := DELETED.(status := RestoredStatus(LEFT.status, 3))

  lemma Decisions()
    ensures Decide(WITHDRAWN) == Record(WAITING.status) && Decide(ASKED) == Record(LEFT.status)
    ensures Decide(DELETED) == Record(RELEASED.status) && Decide(RELEASED) == DropFinalizer
  {
    SpecIsValid();
    RelayLessIsValid(BINDING);
  }

  /** The relay of a serving intercept is withdrawn, it falls back to Pending, a pause is asked for and recorded: the
      Service is still without its selector and the snapshot gone. A deletion ends there too. */
  lemma InterceptionIsLeftBehind()
    ensures Safe(WHO, Stored(CLAIMED)) && Footprint(WHO, CLUSTER)
    ensures Follows(WHO, WITHDRAWN, World(Some(WITHDRAWN), CLUSTER), World(Some(WAITING), CLUSTER))
    ensures Follows(WHO, ASKED, World(Some(ASKED), CLUSTER), World(Some(LEFT), CLUSTER))
    ensures LEFT.status.snapshot.None? && !Safe(WHO, World(Some(LEFT), CLUSTER))
    ensures Follows(WHO, DELETED, World(Some(DELETED), CLUSTER), World(Some(RELEASED), CLUSTER))
    ensures Follows(WHO, RELEASED, World(Some(RELEASED), CLUSTER), World(None, CLUSTER))
    ensures CLUSTER.services["web"].selector == map[] != ORIGINAL.selector
  {
    assert Marked(CLUSTER.services["web"], WHO.uid) && "app" in ORIGINAL.selector;
    StoredIsSafe(CLAIMED);
    Decisions();
    SpecIsValid();
    hide ValidSpec, Decide;
    WithdrawnThenPaused(WHO, Stored(CLAIMED), BINDING, World(Some(WAITING), CLUSTER), WAITING,
                        World(Some(LEFT), CLUSTER));
  }

  const OVER := Stored(REPLACED).shared

  lemma UsersMay(b: Binding)
    requires b == BINDING.(deleting := true) || b == PauseRequested(BINDING)
    ensures Outside(WHO, false, Stored(CLAIMED), Stored(REPLACED))
    ensures Outside(WHO, false, Stored(REPLACED), World(Some(b), OVER))
  {
    SpecIsValid();
    hide ValidSpec;
  }

  lemma RefusedOver(b: Binding)
    requires b == BINDING.(deleting := true) || b == PauseRequested(BINDING)
    ensures Stuck(WHO, World(Some(b), OVER))
  {
    SpecIsValid();
    hide IdentityValid, IsDnsSubdomain, Attainable;
    assert "s1"[1] != "s2"[1] && "web" in OVER.services;
    assert !Restore.Undoable(WHO, b, OVER);
  }

  /** The Service of a serving intercept is deleted and created again, then the binding deleted or asked to pause: its
      rollback is refused, and it is stuck. */
  lemma RollbackIsRefused(b: Binding)
    requires b == BINDING.(deleting := true) || b == PauseRequested(BINDING)
    ensures Safe(WHO, Stored(CLAIMED)) && Outside(WHO, false, Stored(CLAIMED), Stored(REPLACED))
    ensures Safe(WHO, Stored(REPLACED)) && Outside(WHO, false, Stored(REPLACED), World(Some(b), OVER))
    ensures Safe(WHO, World(Some(b), OVER)) && Stuck(WHO, World(Some(b), OVER))
  {
    hide Safe, Outside, Stuck;
    StoredIsSafe(CLAIMED);
    StoredIsSafe(REPLACED);
    UsersMay(b);
    OutsideKeepsSafe(WHO, false, Stored(REPLACED), World(Some(b), OVER));
    RefusedOver(b);
  }

  const NAME_TAKEN := World(Some(BINDING), Stored(ORIGINAL).shared.(slices := map[ManagedSlice(WHO) := STRAY]))
  const STRAY := Slice(map[], map[], [], IPv4, [], [])

  /** A slice nobody marked or labelled has the name of the managed one: the interception is stuck, after it has taken
      the Service's selector, slices and Endpoints away (`Intercept.ReconcileIntercept`). */
  lemma RelayHasNoPlace()
    ensures Safe(WHO, NAME_TAKEN) && Intercept.Interceptable(BINDING, NAME_TAKEN.shared, "web") &&
            Stuck(WHO, NAME_TAKEN)
  {
    StoredIsSafe(ORIGINAL);
    SpecIsValid();
    hide IdentityValid, IsDnsSubdomain;
    assert !OwnSlice(WHO, NAME_TAKEN.shared);
    assert !Intercept.SlotUsable(WHO, NAME_TAKEN.shared);
    assert ORIGINAL.ports[0].port == 80;
  }

  /** A Service replaced after it was read is claimed, though the snapshot is of its predecessor. */
  lemma ReplacementIsClaimed()
    ensures PatchReady(WHO, Stored(REPLACED), BINDING, ORIGINAL)
    ensures !LandsWell(WHO, Stored(REPLACED), ORIGINAL, Hijacked(ORIGINAL, WHO))
    ensures MergeService(REPLACED, ORIGINAL, Hijacked(ORIGINAL, WHO)) == Hijacked(REPLACED, WHO)
  {
    MergedMaps(REPLACED, ORIGINAL, Hijacked(ORIGINAL, WHO), Hijacked(REPLACED, WHO));
    assert Marked(Hijacked(REPLACED, WHO), WHO.uid);
    Misses(REPLACED, ORIGINAL, Hijacked(ORIGINAL, WHO));
  }

  /** A release that meets a replacement gives it the selector of its predecessor. */
  lemma ReplacementIsReleased()
    ensures PatchReady(WHO, Stored(REPLACED), BINDING, CLAIMED)
    ensures !LandsWell(WHO, Stored(REPLACED), CLAIMED, ORIGINAL) &&
            Restore.RestoredService(CLAIMED, SNAPSHOT) == ORIGINAL
    ensures MergeService(REPLACED, CLAIMED, ORIGINAL) == Web("s2", ORIGINAL.selector) != REPLACED
  {
    assert "web"[0] != "new"[0];
    assert REPLACED.selector["app"] != ORIGINAL.selector["app"];
    ReleasedIsOriginal();
    MergedMaps(REPLACED, CLAIMED, ORIGINAL, Web("s2", ORIGINAL.selector));
    Misses(REPLACED, CLAIMED, ORIGINAL);
  }

  /** A Service that another binding claimed after it was read is taken from it. */
  lemma ClaimIsOverwritten()
    ensures PatchReady(WHO, Stored(ANOTHERS), BINDING, ORIGINAL)
    ensures !LandsWell(WHO, Stored(ANOTHERS), ORIGINAL, Hijacked(ORIGINAL, WHO))
    ensures MergeService(ANOTHERS, ORIGINAL, Hijacked(ORIGINAL, WHO)) == CLAIMED != ANOTHERS
  {
    assert "u1"[1] != "u2"[1];
    assert ANOTHERS.annotations[UidKey] != CLAIMED.annotations[UidKey];
    MergedMaps(ANOTHERS, ORIGINAL, Hijacked(ORIGINAL, WHO), CLAIMED);
    Misses(ANOTHERS, ORIGINAL, Hijacked(ORIGINAL, WHO));
  }

  /** A release that meets another binding's claim erases it and brings the selector back. */
  lemma ClaimIsErased()
    ensures PatchReady(WHO, Stored(ANOTHERS), BINDING, CLAIMED)
    ensures !LandsWell(WHO, Stored(ANOTHERS), CLAIMED, ORIGINAL) &&
            Restore.RestoredService(CLAIMED, SNAPSHOT) == ORIGINAL
    ensures MergeService(ANOTHERS, CLAIMED, ORIGINAL) == ORIGINAL != ANOTHERS
  {
    assert "u1"[1] != "u2"[1];
    ReleasedIsOriginal();
    assert UidKey in ANOTHERS.annotations && UidKey !in ORIGINAL.annotations;
    MergedMaps(ANOTHERS, CLAIMED, ORIGINAL, ORIGINAL);
    Misses(ANOTHERS, CLAIMED, ORIGINAL);
  }

  lemma ReleasedIsOriginal()
    ensures Restore.RestoredService(CLAIMED, SNAPSHOT) == ORIGINAL
  {
    assert Released(CLAIMED.annotations) == map[];
  }

  /** A merge is what its maps are, key by key. */
  lemma MergedMaps(stored: Service, before: Service, after: Service, merged: Service)
    requires before.kind == after.kind && before.ports == after.ports &&
             before.labels == after.labels == stored.labels == map[]
    requires merged == stored.(selector := merged.selector, annotations := merged.annotations)
    requires merged.selector.Keys == MergeMap(stored.selector, before.selector, after.selector).Keys
    requires forall k :: k in merged.selector ==>
               merged.selector[k] == MergeMap(stored.selector, before.selector, after.selector)[k]
    requires merged.annotations.Keys == MergeMap(stored.annotations, before.annotations, after.annotations).Keys
    requires forall k :: k in merged.annotations ==>
               merged.annotations[k] == MergeMap(stored.annotations, before.annotations, after.annotations)[k]
    ensures MergeService(stored, before, after) == merged
  {
    assert merged.selector == MergeMap(stored.selector, before.selector, after.selector);
    assert merged.annotations == MergeMap(stored.annotations, before.annotations, after.annotations);
  }

  const PAUSING := BINDING.(spec := SPEC.(desired := Paused), status := LifecycleStatus(STATUS, 1, Pausing, Yes))
  const COPY := CLAIMED.(uid := "s3")
  const COPIED := Shared(map["copy" := COPY], map[], map[])

  lemma PausingIsSound()
    ensures WellFormed(WHO, PAUSING) && Coherent(PAUSING.status) && SnapshotSafe(WHO, PAUSING) && MayMark(WHO, PAUSING)
    ensures Decide(PAUSING) == CleanUp(Pausing)
  {
    SpecIsValid();
    hide IdentityValid, IsDnsSubdomain;
  }

  /** The Service is deleted and a copy of it, annotations and all, created: the cleanup of a pause finds nothing to
      do, and the copy is left without its selector and with the binding's mark when the snapshot goes. */
  lemma CopyIsLeftBehind()
    ensures !Safe(WHO, World(Some(PAUSING), COPIED)) && Decide(PAUSING) == CleanUp(Pausing)
    ensures var paused := PAUSING.(status := PausedStatus(PAUSING.status, 1));
            Follows(WHO, PAUSING, World(Some(PAUSING), COPIED), World(Some(paused), COPIED))
    ensures Footprint(WHO, COPIED) && COPY.selector == map[] != ORIGINAL.selector
  {
    PausingIsSound();
    hide ValidSpec, Decide;
    assert "copy"[0] != "web"[0] && "app" in ORIGINAL.selector;
    assert Marked(COPIED.services["copy"], WHO.uid);
  }

  const RELAY_SLICE := Slice(map[ServiceNameLabel := "web"], map[NameKey := "exchange", UidKey := "u1"],
                             [OwnerRef("u1", true)], IPv4, [], [])

  function Relayed(s: Service): World {
    World(Some(PAUSING), Shared(map["web" := s], map[ManagedSlice(WHO) := RELAY_SLICE], map[]))
  }

  const TAKEN := Relayed(CLAIMED)
  const EARLY := Relayed(ORIGINAL)

  lemma RelayedIsSafe(s: Service)
    requires s.uid == "s1"
    ensures Safe(WHO, Relayed(s))
  {
    hide WellFormed, Coherent, SnapshotSafe, MayMark, Decide;
    PausingIsSound();
    assert RELAY_SLICE.owners[0] == OwnerRef("u1", true);
    assert MarksLegitimate(WHO, PAUSING, Relayed(s).shared);
  }

  lemma ReleaseOfTheTaken()
    ensures Edited(WHO, TAKEN, CLAIMED, Restore.RestoredService(CLAIMED, SNAPSHOT)) == EARLY
  {
    ReleasedIsOriginal();
    MergeServiceUnraced(CLAIMED, ORIGINAL);
    hide MergeService;
  }

  const LATE := World(None, Shared(map["web" := ORIGINAL], map[], map[]))
  const RECORD := SNAPSHOT.(slices := [NamedSlice(ManagedSlice(WHO), RELAY_SLICE)], hadSlices := true)
  const RECORDER := BINDING.(name := "mirror", uid := "u2", status := STATUS.(snapshot := Some(RECORD)))

  lemma RecordOfTheEarly()
    ensures Faithful(RECORD, EARLY.shared, "web") && Records(WHO, RECORD)
    ensures Saved(Some(RECORDER), ManagedSlice(WHO), RELAY_SLICE)
  {
    assert RECORD.slices[0] == NamedSlice(ManagedSlice(WHO), RELAY_SLICE);
  }

  /** A capture that falls between another binding's release of the Service and its deletion of the managed slice
      records that slice. */
  lemma SliceIsRecorded()
    ensures Safe(WHO, TAKEN) && Decide(PAUSING) == CleanUp(Pausing)
    ensures Edited(WHO, TAKEN, CLAIMED, Restore.RestoredService(CLAIMED, SNAPSHOT)) == EARLY
    ensures Safe(WHO, EARLY) && NotForeign(OTHER, EARLY.shared)
    ensures Faithful(RECORD, EARLY.shared, "web") && Records(WHO, RECORD)
    ensures Saved(Some(RECORDER), ManagedSlice(WHO), RELAY_SLICE)
  {
    hide Safe, Edited, Decide;
    PausingIsSound();
    RelayedIsSafe(CLAIMED);
    RelayedIsSafe(ORIGINAL);
    ReleaseOfTheTaken();
    RecordOfTheEarly();
  }

  /** Restored when its binding is gone, it stays for good. */
  lemma SliceOutlivesItsBinding()
    ensures Safe(WHO, LATE)
    ensures var back := WithSlice(LATE, ManagedSlice(WHO), RELAY_SLICE);
            && Guarantee(OTHER, World(Some(RECORDER), LATE.shared), World(Some(RECORDER), back.shared))
            && !Safe(WHO, back)
  {
    SliceIsRecorded();
    ReturnOfTheSliceIsSafeWhen(WHO, LATE, OTHER, RECORDER, RELAY_SLICE);
  }
}
