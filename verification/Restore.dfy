/** Undoing an interception from the stored snapshot, from whatever point it was left at. */
module Restore {
  import opened Kube
  import opened Bindings
  import opened Safety
  import opened Writes
  import opened Api
  import opened StatusWriter

  /** The Service as rollback writes it. */
  function RestoredService(s: Service, snapshot: Snapshot): Service {
    s.(selector := snapshot.selector, labels := s.labels - {BindingLabel}, annotations := Released(s.annotations))
  }

  lemma RestoredServiceIsOriginal(who: Subject, base: Shared, s: Service, snapshot: Snapshot)
    requires Pristine(who, base) && Intercepting(who.mode) && Faithful(snapshot, base, who.service)
    requires s == base.services[who.service] || s == Hijacked(base.services[who.service], who)
    ensures RestoredService(s, snapshot) == base.services[who.service]
  {
    var o := base.services[who.service];
    assert Released(o.annotations) == o.annotations;
    assert Released(Claim(o.annotations, who)) == o.annotations;
    assert o.labels - {BindingLabel} == o.labels;
  }

  /** Where an exclusive run stands while the binding holds a snapshot. */
  lemma IntermediateState(client: ApiServer, b: Binding)
    requires Known(client, b) && b.finalizer && client.exclusive
    requires Intercepting(client.who.mode) && b.status.snapshot.Some?
    ensures Pristine(client.who, client.base) && PartlyHijacked(client.who, client.base, client.world.shared)
    ensures client.who.service in client.world.shared.services && NotForeign(client.who, client.world.shared)
    ensures client.world.shared.services[client.who.service].uid == b.status.snapshot.value.serviceUid
  {}

  /** After the last step nothing differs from the baseline. */
  lemma RestoreComplete(who: Subject, base: Shared, snapshot: Snapshot, c: Shared)
    requires Pristine(who, base) && PartlyHijacked(who, base, c) && Faithful(snapshot, base, who.service)
    requires c.services[who.service] == base.services[who.service]
    requires ManagedSlice(who) !in c.slices
    requires forall i :: 0 <= i < |snapshot.slices| ==> snapshot.slices[i].name in c.slices
    requires snapshot.hadEndpoints ==> who.service in c.endpoints
    ensures c == base
  {
    assert c.services == base.services;
    forall n | n in base.slices ensures n in c.slices {
      if Labelled(base.slices[n], who.service) {
        var i :| 0 <= i < |snapshot.slices| && snapshot.slices[i].name == n;
      }
    }
    assert c.slices == base.slices;
    assert c.endpoints.Keys == base.endpoints.Keys;
    assert c.endpoints == base.endpoints;
  }

  /** The name of the managed slice is free, or the binding's own slice has it. */
  predicate SlotOk(who: Subject, c: Shared) { ManagedSlice(who) in c.slices ==> OwnSlice(who, c) }

  /** What an undisturbed rollback needs: nothing else has the name of the managed slice, and the Service is gone or
      still the captured one, not claimed by another binding. Without a snapshot only a Service that carries the
      binding's own name or UID is in the way. */
  predicate Undoable(who: Subject, b: Binding, c: Shared) {
    match b.status.snapshot
    case Some(snapshot) =>
      SlotOk(who, c) &&
      (snapshot.serviceName in c.services ==>
         var s := c.services[snapshot.serviceName]; s.uid == snapshot.serviceUid && !Foreign(s, b.uid))
    case None =>
      b.status.serviceName == "" ||
      (SlotOk(who, c) &&
       (b.status.serviceName in c.services ==>
          var s := c.services[b.status.serviceName];
          Lookup(s.annotations, NameKey) != b.name && Lookup(s.annotations, UidKey) != b.uid))
  }

  method DeleteOwnManagedSlice(client: ApiServer, b: Binding) returns (r: Result<()>)
    requires client.Valid() && Synced(b, client.world) && WellFormed(client.who, b) && b.finalizer
    modifies client
    ensures client.Valid() && old(client.history) <= client.history && Synced(b, client.world)
    ensures Unmarked(client.who, old(client.world).shared) ==> Unmarked(client.who, client.world.shared)
    ensures NotForeign(client.who, old(client.world).shared) ==> NotForeign(client.who, client.world.shared)
    ensures r.Ok? ==> !OwnSlice(client.who, client.world.shared)
    ensures r.Ok? && client.exclusive ==>
              client.world.shared ==
              old(client.world).shared.(slices := old(client.world).shared.slices - {ManagedSlice(client.who)})
    ensures client.quiet ==>
              && client.world.binding == old(client.world).binding
              && (r.Ok? <==> SlotOk(client.who, old(client.world).shared))
              && (r.Err? ==> client.world == old(client.world) && r.error.Permanent?)
  {
    hide Inv;
    var name := ManagedSliceName(b.uid);
    var slice := client.GetSlice(name);
    if slice.Err? {
      if slice.error.NotFound? {
        assert client.world.shared.slices == client.world.shared.slices - {name};
        return Ok(());
      }
      return Err(slice.error);
    }
    if !(Lookup(slice.value.annotations, NameKey) == b.name && Lookup(slice.value.annotations, UidKey) == b.uid) {
      return Err(Permanent);
    }
    r := client.DeleteManagedSlice(name);
    if r.Err? && r.error.NotFound? { r := Ok(()); }
  }

  method RestoreSlice(client: ApiServer, ghost b: Binding, saved: NamedSlice) returns (r: Result<()>)
    requires client.Valid() && Licensed(client.who, b, client.world)
    requires Intercepting(client.who.mode) && NotForeign(client.who, client.world.shared)
    requires saved.name == ManagedSlice(client.who) ==> !Owned(saved.slice.annotations, client.who)
    requires Saved(Some(b), saved.name, saved.slice)
    requires client.exclusive ==>
               && saved.name != ManagedSlice(client.who)
               && saved.name in client.base.slices && client.base.slices[saved.name] == saved.slice
    modifies client
    ensures client.Valid() && old(client.history) <= client.history
    ensures Licensed(client.who, b, client.world) && NotForeign(client.who, client.world.shared)
    ensures Unmarked(client.who, old(client.world).shared) ==> Unmarked(client.who, client.world.shared)
    ensures !OwnSlice(client.who, old(client.world).shared) ==> !OwnSlice(client.who, client.world.shared)
    ensures r.Ok? ==>
              && saved.name in client.world.shared.slices && client.world.shared.slices[saved.name] == saved.slice
              && SlicePut(client.history, |old(client.history)|, saved.name, saved.slice)
    ensures r.Ok? && client.exclusive ==>
              client.world.shared ==
              old(client.world).shared.(slices := old(client.world).shared.slices[saved.name := saved.slice])
    ensures r.Err? ==> r.error.NotFound? || r.error.Conflict? || r.error.Unavailable?
    ensures r.Err? && r.error.NotFound? ==> saved.name !in client.world.shared.slices
    ensures client.quiet ==> r.Ok? && client.world.binding == old(client.world).binding
  {
    hide Inv;
    var current := client.GetSlice(saved.name);
    if current.Err? && current.error.NotFound? {
      ghost var missed := client.history;
      var created := client.CreateSlice(b, saved.name, saved.slice);
      PutStays(client.history, |missed|, client.history, |old(client.history)|);
      if created.Ok? { return Ok(()); }
      if !created.error.AlreadyExists? { return created; }
      current := client.GetSlice(saved.name);
    }
    if current.Err? { return Err(current.error); }
    ghost var read := client.history;
    r := client.UpdateSlice(b, saved.name, current.value, saved.slice);
    PutStays(client.history, |read|, client.history, |old(client.history)|);
  }

  method RestoreEndpoints(client: ApiServer, ghost b: Binding, snapshot: Snapshot) returns (r: Result<()>)
    requires client.Valid() && Licensed(client.who, b, client.world)
    requires Intercepting(client.who.mode) && NotForeign(client.who, client.world.shared)
    requires snapshot.serviceName == client.who.service
    requires client.exclusive ==>
               snapshot.serviceName in client.base.endpoints &&
                 client.base.endpoints[snapshot.serviceName] == snapshot.subsets
    modifies client
    ensures client.Valid() && old(client.history) <= client.history && Licensed(client.who, b, client.world)
    ensures Unmarked(client.who, old(client.world).shared) ==> Unmarked(client.who, client.world.shared)
    ensures !OwnSlice(client.who, old(client.world).shared) ==> !OwnSlice(client.who, client.world.shared)
    ensures r.Ok? ==>
              && snapshot.serviceName in client.world.shared.endpoints
              && client.world.shared.endpoints[snapshot.serviceName] == snapshot.subsets
              && EndpointsPut(client.history, |old(client.history)|, snapshot.serviceName, snapshot.subsets)
    ensures r.Ok? && client.exclusive ==>
              client.world.shared ==
              old(client.world).shared.(endpoints :=
                old(client.world).shared.endpoints[snapshot.serviceName := snapshot.subsets])
    ensures client.quiet ==> r.Ok? && client.world.binding == old(client.world).binding
  {
    hide Inv;
    var current := client.GetEndpoints(snapshot.serviceName);
    ghost var read := client.history;
    if current.Err? && current.error.NotFound? {
      r := client.PutEndpoints(b, snapshot.serviceName, true, snapshot.subsets);
      PutStays(client.history, |read|, client.history, |old(client.history)|);
      return;
    }
    if current.Err? { return Err(current.error); }
    r := client.PutEndpoints(b, snapshot.serviceName, false, snapshot.subsets);
    PutStays(client.history, |read|, client.history, |old(client.history)|);
  }

  /** Slice i of the snapshot may be written back. */
  lemma SavedSlice(who: Subject, exclusive: bool, base: Shared, b: Binding, snapshot: Snapshot, i: nat)
    requires b.status.snapshot == Some(snapshot)
    requires i < |snapshot.slices| && !Records(who, snapshot)
    requires exclusive ==> Faithful(snapshot, base, who.service) && ManagedSlice(who) !in base.slices
    ensures Saved(Some(b), snapshot.slices[i].name, snapshot.slices[i].slice)
    ensures snapshot.slices[i].name == ManagedSlice(who) ==> !Owned(snapshot.slices[i].slice.annotations, who)
    ensures exclusive ==>
              && snapshot.slices[i].name != ManagedSlice(who)
              && snapshot.slices[i].name in base.slices &&
                 base.slices[snapshot.slices[i].name] == snapshot.slices[i].slice
  {}

  /** The first i slices are back and nothing else about the slices changed. */
  predicate BackUpTo(who: Subject, base: Shared, snapshot: Snapshot, was: Shared, now: Shared, i: nat)
    requires i <= |snapshot.slices|
  {
    && now == was.(slices := now.slices)
    && SlicesPart(who, base.slices, now.slices)
    && (ManagedSlice(who) in now.slices ==> ManagedSlice(who) in was.slices)
    && forall j :: 0 <= j < i ==> snapshot.slices[j].name in now.slices
  }

  lemma OneMoreBack(who: Subject, base: Shared, snapshot: Snapshot, was: Shared, now: Shared, i: nat)
    requires i < |snapshot.slices| && BackUpTo(who, base, snapshot, was, now, i)
    requires snapshot.slices[i].name != ManagedSlice(who)
    requires snapshot.slices[i].name in base.slices && base.slices[snapshot.slices[i].name] == snapshot.slices[i].slice
    ensures BackUpTo(who, base, snapshot, was,
                     now.(slices := now.slices[snapshot.slices[i].name := snapshot.slices[i].slice]), i + 1)
  {
    SlicesPartPut(who, base.slices, now.slices, snapshot.slices[i].name, snapshot.slices[i].slice);
  }

  /** Slice i of the snapshot. */
  method RestoreSaved(client: ApiServer, ghost b: Binding, snapshot: Snapshot, i: nat, ghost was: Shared)
    returns (r: Result<()>)
    requires client.Valid() && Licensed(client.who, b, client.world)
    requires Intercepting(client.who.mode) && NotForeign(client.who, client.world.shared)
    requires i < |snapshot.slices| && !Records(client.who, snapshot) && b.status.snapshot == Some(snapshot)
    requires client.exclusive ==>
               && Faithful(snapshot, client.base, client.who.service) && ManagedSlice(client.who) !in client.base.slices
               && BackUpTo(client.who, client.base, snapshot, was, client.world.shared, i)
    modifies client
    ensures client.Valid() && old(client.history) <= client.history
    ensures Licensed(client.who, b, client.world) && NotForeign(client.who, client.world.shared)
    ensures Unmarked(client.who, old(client.world).shared) ==> Unmarked(client.who, client.world.shared)
    ensures !OwnSlice(client.who, old(client.world).shared) ==> !OwnSlice(client.who, client.world.shared)
    ensures r.Ok? ==>
              SlicePut(client.history, |old(client.history)|, snapshot.slices[i].name, snapshot.slices[i].slice)
    ensures r.Ok? && client.exclusive ==> BackUpTo(client.who, client.base, snapshot, was, client.world.shared, i + 1)
    ensures client.quiet ==> r.Ok? && client.world.binding == old(client.world).binding
  {
    hide *;
    SavedSlice(client.who, client.exclusive, client.base, b, snapshot, i);
    ghost var now := client.world.shared;
    r := RestoreSlice(client, b, snapshot.slices[i]);
    if r.Ok? && client.exclusive { OneMoreBack(client.who, client.base, snapshot, was, now, i); }
  }

  /** The first i slices of the snapshot have been written back since that position of the run. */
  ghost predicate SlicesPut(snapshot: Snapshot, history: seq<Step>, from: nat, i: nat)
    requires i <= |snapshot.slices|
  {
    forall k :: 0 <= k < i ==> SlicePut(history, from, snapshot.slices[k].name, snapshot.slices[k].slice)
  }

  lemma OneMorePut(snapshot: Snapshot, history: seq<Step>, history': seq<Step>, from: nat, i: nat)
    requires i < |snapshot.slices| && history <= history' && from <= |history| && SlicesPut(snapshot, history, from, i)
    requires SlicePut(history', |history|, snapshot.slices[i].name, snapshot.slices[i].slice)
    ensures SlicesPut(snapshot, history', from, i + 1)
  {
    PutStays(history, from, history', from);
    PutStays(history', |history|, history', from);
  }

  /** The slices of the snapshot, one by one. */
  method RestoreSlices(client: ApiServer, ghost b: Binding, snapshot: Snapshot) returns (r: Result<()>)
    requires client.Valid() && Licensed(client.who, b, client.world)
    requires Intercepting(client.who.mode) && NotForeign(client.who, client.world.shared)
    requires !Records(client.who, snapshot) && b.status.snapshot == Some(snapshot)
    requires client.exclusive ==>
               Faithful(snapshot, client.base, client.who.service) && ManagedSlice(client.who) !in client.base.slices
    requires client.exclusive ==> SlicesPart(client.who, client.base.slices, client.world.shared.slices)
    modifies client
    ensures client.Valid() && old(client.history) <= client.history
    ensures Licensed(client.who, b, client.world) && NotForeign(client.who, client.world.shared)
    ensures Unmarked(client.who, old(client.world).shared) ==> Unmarked(client.who, client.world.shared)
    ensures !OwnSlice(client.who, old(client.world).shared) ==> !OwnSlice(client.who, client.world.shared)
    ensures r.Ok? ==> SlicesPut(snapshot, client.history, |old(client.history)|, |snapshot.slices|)
    ensures r.Ok? && client.exclusive ==>
              BackUpTo(client.who, client.base, snapshot, old(client.world).shared, client.world.shared,
                       |snapshot.slices|)
    ensures client.quiet ==> r.Ok? && client.world.binding == old(client.world).binding
  {
    assert client.exclusive ==>
             BackUpTo(client.who, client.base, snapshot, client.world.shared, client.world.shared, 0);
    assert SlicesPut(snapshot, client.history, |client.history|, 0);
    hide *;
    for i := 0 to |snapshot.slices|
      invariant client.Valid() && old(client.history) <= client.history
      invariant Licensed(client.who, b, client.world) && NotForeign(client.who, client.world.shared)
      invariant Unmarked(client.who, old(client.world).shared) ==> Unmarked(client.who, client.world.shared)
      invariant !OwnSlice(client.who, old(client.world).shared) ==> !OwnSlice(client.who, client.world.shared)
      invariant SlicesPut(snapshot, client.history, |old(client.history)|, i)
      invariant client.exclusive ==>
                  BackUpTo(client.who, client.base, snapshot, old(client.world).shared, client.world.shared, i)
      invariant client.quiet ==> client.world.binding == old(client.world).binding
    {
      ghost var before := client.history;
      r := RestoreSaved(client, b, snapshot, i, old(client.world).shared);
      if r.Err? { return; }
      OneMorePut(snapshot, before, client.history, |old(client.history)|, i);
    }
    r := Ok(());
  }

  /** Slices and Endpoints, as far as there were any, have been written back since that position of the run. */
  ghost predicate RestPut(snapshot: Snapshot, history: seq<Step>, from: nat) {
    && (snapshot.hadSlices ==> SlicesPut(snapshot, history, from, |snapshot.slices|))
    && (snapshot.hadEndpoints ==> EndpointsPut(history, from, snapshot.serviceName, snapshot.subsets))
  }

  /** What follows the patch of the Service: slices and Endpoints return. */
  method RestoreRest(client: ApiServer, b: Binding) returns (r: Result<()>)
    requires Known(client, b) && MayMark(client.who, b) && Intercepting(client.who.mode)
    requires Unmarked(client.who, client.world.shared) && NotForeign(client.who, client.world.shared)
    requires client.exclusive ==>
               && Pristine(client.who, client.base) && PartlyHijacked(client.who, client.base, client.world.shared)
               && client.world.shared.services == client.base.services
    modifies client
    ensures Known(client, b) && old(client.history) <= client.history
    ensures r.Ok? ==> Clear(client)
    ensures r.Ok? ==> RestPut(b.status.snapshot.value, client.history, |old(client.history)|)
    ensures client.quiet ==>
              && client.world.binding == old(client.world).binding
              && (r.Ok? <==> SlotOk(client.who, old(client.world).shared))
              && (r.Err? ==> client.world == old(client.world) && r.error.Permanent?)
  {
    hide Inv, Guarantee, Outside, Drifts, Faithful, BackUpTo;
    var snapshot := b.status.snapshot.value;
    r := DeleteOwnManagedSlice(client, b);
    if r.Err? { return; }
    ghost var was := client.world.shared;
    if snapshot.hadSlices {
      ghost var before := client.history;
      r := RestoreSlices(client, b, snapshot);
      if r.Err? { return; }
      PutStays(client.history, |before|, client.history, |old(client.history)|);
    }
    ghost var mid, part := client.world.shared, client.history;
    if snapshot.hadEndpoints {
      if client.exclusive { SavedEndpoints(client.who, client.base, snapshot); }
      r := RestoreEndpoints(client, b, snapshot);
      if r.Err? { return; }
      PutStays(client.history, |part|, client.history, |old(client.history)|);
    }
    PutStays(part, |old(client.history)|, client.history, |old(client.history)|);
    if client.exclusive {
      RestSettled(client.who, client.base, snapshot, was, mid, client.world.shared);
    }
    r := Ok(());
  }

  lemma SavedEndpoints(who: Subject, base: Shared, snapshot: Snapshot)
    requires Faithful(snapshot, base, who.service) && snapshot.hadEndpoints
    ensures who.service in base.endpoints && base.endpoints[who.service] == snapshot.subsets
  {}

  lemma RestSettled(who: Subject, base: Shared, snapshot: Snapshot, was: Shared, mid: Shared, now: Shared)
    requires Pristine(who, base) && Faithful(snapshot, base, who.service)
    requires PartlyHijacked(who, base, was) && was.services == base.services && ManagedSlice(who) !in was.slices
    requires if snapshot.hadSlices then BackUpTo(who, base, snapshot, was, mid, |snapshot.slices|) else mid == was
    requires now == if !snapshot.hadEndpoints then mid
                    else mid.(endpoints := mid.endpoints[snapshot.serviceName := snapshot.subsets])
    ensures now == base
  {
    EndpointsPartChange(who.service, base.endpoints, was.endpoints);
    RestoreComplete(who, base, snapshot, now);
  }

  /** The selector and the metadata of the Service return in one patch. */
  method PatchBack(client: ApiServer, b: Binding, service: Service) returns (r: Result<()>)
    requires Known(client, b) && MayMark(client.who, b) && Intercepting(client.who.mode)
    requires client.who.service in client.world.shared.services &&
             client.world.shared.services[client.who.service] == service
    requires service.uid == b.status.snapshot.value.serviceUid && !Foreign(service, client.who.uid)
    requires client.exclusive ==>
               Pristine(client.who, client.base) && PartlyHijacked(client.who, client.base, client.world.shared)
    modifies client
    ensures Known(client, b) && old(client.history) <= client.history
    ensures r.Ok? ==> Unmarked(client.who, client.world.shared) && NotForeign(client.who, client.world.shared)
    ensures r.Ok? ==>
              ServicePatched(client.history, |old(client.history)|, client.who.service, service,
                             RestoredService(service, b.status.snapshot.value))
    ensures r.Ok? && client.exclusive ==>
              && PartlyHijacked(client.who, client.base, client.world.shared)
              && client.world.shared.services == client.base.services
    ensures client.quiet ==> r.Ok? && client.world.binding == old(client.world).binding
    ensures client.quiet ==> client.world.shared.slices == old(client.world).shared.slices
  {
    hide Inv, Guarantee, Outside, Drifts, Faithful, Pristine, SlicesPart, EndpointsPart;
    var snapshot := b.status.snapshot.value;
    var after := service.(selector := snapshot.selector, labels := service.labels - {BindingLabel},
                          annotations := service.annotations - {NameKey, UidKey, ModeKey});
    assert after == RestoredService(service, snapshot);
    if client.exclusive {
      RestoredServiceIsOriginal(client.who, client.base, service, snapshot);
    }
    r := client.PatchService(b, snapshot.serviceName, service, after);
    if r.Ok? && client.exclusive {
      assert client.world.shared.services == client.base.services;
    }
  }

  /** Whatever others write meanwhile: selector and metadata, every saved slice and the Endpoints have been written
      back since. */
  ghost predicate PutBackSince(who: Subject, snapshot: Snapshot, history: seq<Step>, from: nat) {
    && (exists read: Service :: read.uid == snapshot.serviceUid && !Foreign(read, who.uid) &&
                       ServicePatched(history, from, who.service, read, RestoredService(read, snapshot)))
    && RestPut(snapshot, history, from)
  }

  /** The Service was gone, or what was captured has been put back. */
  ghost predicate RolledBackSince(who: Subject, snapshot: Snapshot, start: World, history: seq<Step>, from: nat) {
    ServiceGone(start, history, from, who.service) || PutBackSince(who, snapshot, history, from)
  }

  lemma RolledBackStays(who: Subject, snapshot: Snapshot, start: World, history: seq<Step>, history': seq<Step>,
                        from: nat)
    requires history <= history' && RolledBackSince(who, snapshot, start, history, from)
    ensures RolledBackSince(who, snapshot, start, history', from)
  {
    hide ServiceGone, ServicePatched, SlicePut, EndpointsPut;
    SeenStays(start, history, from, history', from);
    PutStays(history, from, history', from);
  }

  /** Rollback. However often it was interrupted before, once it succeeds nothing carries the binding's
      mark, and in an exclusive run the shared objects are exactly what they were before the binding. */
  method RestoreService(client: ApiServer, b: Binding) returns (r: Result<()>)
    requires Known(client, b) && MayMark(client.who, b)
    requires Intercepting(client.who.mode)
    modifies client
    ensures Known(client, b) && old(client.history) <= client.history
    ensures r.Ok? ==> Clear(client)
    ensures r.Ok? ==>
              RolledBackSince(client.who, b.status.snapshot.value, client.start, client.history,
                              |old(client.history)|)
    ensures client.quiet ==>
              && client.world.binding == old(client.world).binding
              && (r.Ok? <==> Undoable(client.who, b, old(client.world).shared))
              && (r.Err? ==> !Undoable(client.who, b, client.world.shared) && r.error.Permanent?)
  {
    hide Inv, Guarantee, Outside, Drifts, Faithful, Pristine, PartlyHijacked, ServicePatched, RestPut, ServiceGone,
         PutBackSince;
    var snapshot := b.status.snapshot.value;
    var service := client.GetService(snapshot.serviceName);
    if client.exclusive { IntermediateState(client, b); }
    ghost var got := client.history;
    if service.Err? {
      if service.error.NotFound? {
        SeenNow(client.start, client.history, client.world, |old(client.history)|);
        OnlyOwnServiceMarked(client.who, client.exclusive, client.base, client.world);
        r := DeleteOwnManagedSlice(client, b);
        SeenStays(client.start, got, |old(client.history)|, client.history, |old(client.history)|);
        return;
      }
      return Err(service.error);
    }
    if service.value.uid != snapshot.serviceUid { return Err(Permanent); }
    if Lookup(service.value.annotations, UidKey) != "" && Lookup(service.value.annotations, UidKey) != b.uid {
      return Err(Permanent);
    }
    r := PatchBack(client, b, service.value);
    if r.Err? { return; }
    ghost var patched := client.history;
    r := RestoreRest(client, b);
    if r.Ok? {
      PutTogether(client.who, snapshot, service.value, |old(client.history)|, |got|, patched, client.history);
    }
  }

  lemma PutTogether(who: Subject, snapshot: Snapshot, read: Service, from: nat, got: nat, patched: seq<Step>,
                    history: seq<Step>)
    requires from <= got <= |patched| && patched <= history
    requires read.uid == snapshot.serviceUid && !Foreign(read, who.uid)
    requires ServicePatched(patched, got, who.service, read, RestoredService(read, snapshot))
    requires RestPut(snapshot, history, |patched|)
    ensures PutBackSince(who, snapshot, history, from)
  {
    hide SlicePut, EndpointsPut, ServicePatched;
    PutStays(patched, got, history, from);
    PutStays(history, |patched|, history, from);
    assert ServicePatched(history, from, who.service, read, RestoredService(read, snapshot));
  }

  method CleanupWithoutSnapshot(client: ApiServer, b: Binding) returns (r: Result<()>)
    requires Known(client, b) && b.finalizer && Intercepting(client.who.mode) && b.status.snapshot.None?
    requires Clear(client)
    modifies client
    ensures Known(client, b) && old(client.history) <= client.history
    ensures Clear(client)
    ensures client.quiet ==>
              && client.world.binding == old(client.world).binding
              && (r.Ok? <==> Undoable(client.who, b, old(client.world).shared))
              && (r.Err? ==> !Undoable(client.who, b, client.world.shared) && r.error.Permanent?)
  {
    assert client.exclusive ==> Pristine(client.who, client.base);
    assert client.who.name != "" && client.who.uid != "";
    hide Inv, Guarantee, Outside, Drifts, Faithful;
    if b.status.serviceName == "" { return Ok(()); }
    var service := client.GetService(b.status.serviceName);
    if service.Err? {
      if service.error.NotFound? { r := DeleteOwnManagedSlice(client, b); return; }
      return Err(service.error);
    }
    if Lookup(service.value.annotations, NameKey) == b.name || Lookup(service.value.annotations, UidKey) == b.uid {
      return Err(Permanent);
    }
    r := DeleteOwnManagedSlice(client, b);
  }
}
