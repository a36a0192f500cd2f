/** The API server as the operator meets it. Every call may be preceded by other parties' writes, may be
    rejected, may take effect and lose its reply, or may be the last thing the process does. */
module Api {
  import opened Kube
  import opened Bindings
  import opened Safety
  import opened Writes

  datatype Error = NotFound | AlreadyExists | Conflict | Unavailable | Permanent
  datatype Result<+T> = Ok(value: T) | Err(error: Error)
  datatype Fate = Fine | Rejected | LostReply | CrashedBefore | CrashedAfter

  function Reply<T>(f: Fate, value: T): Result<T> {
    if f.Fine? then Ok(value) else Err(Unavailable)
  }

  predicate Effective(f: Fate) { f.Fine? || f.LostReply? || f.CrashedAfter? }

  /** The slices labelled with a Service, each once, in whatever order the server lists them. */
  predicate Listing(items: seq<NamedSlice>, slices: map<string, Slice>, t: string) {
    && DistinctNames(items)
    && (forall i :: 0 <= i < |items| ==>
          items[i].name in slices && Labelled(slices[items[i].name], t) && items[i].slice == slices[items[i].name])
    && (forall n :: n in slices && Labelled(slices[n], t) ==> exists i :: 0 <= i < |items| && items[i].name == n)
  }

  method Enumerate(slices: map<string, Slice>, t: string) returns (items: seq<NamedSlice>)
    ensures Listing(items, slices, t)
  {
    var rest := set n | n in slices && Labelled(slices[n], t);
    items := [];
    while rest != {}
      invariant rest <= slices.Keys
      invariant forall n :: n in rest ==> Labelled(slices[n], t)
      invariant DistinctNames(items)
      invariant forall i :: 0 <= i < |items| ==>
                  && items[i].name in slices && Labelled(slices[items[i].name], t)
                  && items[i].slice == slices[items[i].name] && items[i].name !in rest
      invariant forall n :: n in slices && Labelled(slices[n], t) ==>
                  n in rest || exists i :: 0 <= i < |items| && items[i].name == n
      decreases |rest|
    {
      var n :| n in rest;
      ghost var before := items;
      items := items + [NamedSlice(n, slices[n])];
      rest := rest - {n};
      forall m | m in slices && Labelled(slices[m], t) && m !in rest
        ensures exists i :: 0 <= i < |items| && items[i].name == m
      {
        if m == n {
          assert items[|before|].name == n;
        } else {
          var i :| 0 <= i < |before| && before[i].name == m;
          assert items[i].name == m;
        }
      }
    }
  }

  // ----- runs -----

  /** Steps that follow one another from `start` to `world`. */
  ghost predicate Chain(start: World, history: seq<Step>, world: World) {
    && (if history == [] then world == start else history[0].pre == start && history[|history| - 1].post == world)
    && forall i :: 0 < i < |history| ==> history[i].pre == history[i - 1].post
  }

  predicate LabelledIn(who: Subject, w: World, n: string) {
    n in w.shared.slices && Labelled(w.shared.slices[n], who.service)
  }

  /** The slice carried the Service's label before one of the first steps. */
  ghost predicate LabelledWithin(who: Subject, history: seq<Step>, n: string) {
    exists j :: 0 <= j < |history| && LabelledIn(who, history[j].pre, n)
  }

  ghost predicate Deletes(s: Step, n: string) {
    s.actor.Operator? && n in s.pre.shared.slices && n !in s.post.shared.slices
  }

  /** The operator deletes no slices but the managed one and those an intercept has found labelled with its Service. */
  ghost predicate DeletionsJustified(who: Subject, history: seq<Step>) {
    forall i, n :: 0 <= i < |history| && Deletes(history[i], n) && n != ManagedSlice(who) ==>
      Intercepting(who.mode) && LabelledWithin(who, history[..i + 1], n)
  }

  lemma JustifiedNext(who: Subject, history: seq<Step>, s: Step)
    requires DeletionsJustified(who, history)
    requires forall n :: Deletes(s, n) && n != ManagedSlice(who) ==>
               Intercepting(who.mode) && (LabelledIn(who, s.pre, n) || LabelledWithin(who, history, n))
    ensures DeletionsJustified(who, history + [s])
  {
    var next := history + [s];
    forall i, n | 0 <= i < |next| && Deletes(next[i], n) && n != ManagedSlice(who)
      ensures Intercepting(who.mode) && LabelledWithin(who, next[..i + 1], n)
    {
      if i < |history| {
        assert next[..i + 1] == history[..i + 1];
      } else {
        assert next[..i + 1] == next && next[i].pre == s.pre;
        if !LabelledIn(who, s.pre, n) {
          var j :| 0 <= j < |history| && LabelledIn(who, history[j].pre, n);
          assert next[j] == history[j];
        }
      }
    }
  }

  /** What was once labelled stays so on record. */
  lemma LabelledStays(who: Subject, start: World, history: seq<Step>, w: World, history': seq<Step>, w': World,
                      n: string)
    requires Chain(start, history, w) && Chain(start, history', w') && history <= history'
    requires LabelledIn(who, w, n) || LabelledWithin(who, history, n)
    ensures LabelledIn(who, w', n) || LabelledWithin(who, history', n)
  {
    if LabelledWithin(who, history, n) {
      var j :| 0 <= j < |history| && LabelledIn(who, history[j].pre, n);
      assert history'[j] == history[j];
    } else if history == history' {
      assert w == w';
    } else {
      var k := |history|;
      assert history'[k].pre == w by {
        if k > 0 { assert history'[k - 1] == history[k - 1]; }
      }
    }
  }

  // ----- what the operator has written since a position of the run -----

  ghost predicate SlicePut(history: seq<Step>, from: nat, n: string, s: Slice) {
    exists i :: from <= i < |history| && history[i].actor.Operator? &&
                n in history[i].post.shared.slices && history[i].post.shared.slices[n] == s
  }

  ghost predicate EndpointsPut(history: seq<Step>, from: nat, n: string, e: seq<Subset>) {
    exists i :: from <= i < |history| && history[i].actor.Operator? &&
                n in history[i].post.shared.endpoints && history[i].post.shared.endpoints[n] == e
  }

  /** A patch of the Service from `read` to `after` has landed on whatever was stored. */
  ghost predicate ServicePatched(history: seq<Step>, from: nat, n: string, read: Service, after: Service) {
    exists i :: from <= i < |history| && history[i].actor.Operator? &&
                n in history[i].pre.shared.services && n in history[i].post.shared.services &&
                history[i].post.shared.services[n] == MergeService(history[i].pre.shared.services[n], read, after)
  }

  ghost predicate SlicePatched(history: seq<Step>, from: nat, n: string, read: Slice, after: Slice) {
    exists i :: from <= i < |history| && history[i].actor.Operator? &&
                n in history[i].pre.shared.slices && n in history[i].post.shared.slices &&
                history[i].post.shared.slices[n] == MergeSlice(history[i].pre.shared.slices[n], read, after)
  }

  lemma JustPut(history: seq<Step>, from: nat, s: Step)
    requires from <= |history| && s.actor.Operator?
    ensures forall n :: n in s.post.shared.slices ==> SlicePut(history + [s], from, n, s.post.shared.slices[n])
    ensures forall n :: n in s.post.shared.endpoints ==>
              EndpointsPut(history + [s], from, n, s.post.shared.endpoints[n])
  {
    assert (history + [s])[|history|] == s;
  }

  lemma JustPatched(history: seq<Step>, from: nat, s: Step, n: string, read: Service, after: Service)
    requires from <= |history| && s.actor.Operator? && n in s.pre.shared.services && n in s.post.shared.services
    requires s.post.shared.services[n] == MergeService(s.pre.shared.services[n], read, after)
    ensures ServicePatched(history + [s], from, n, read, after)
  {
    assert (history + [s])[|history|] == s;
  }

  lemma JustPatchedSlice(history: seq<Step>, from: nat, s: Step, n: string, read: Slice, after: Slice)
    requires from <= |history| && s.actor.Operator? && n in s.pre.shared.slices && n in s.post.shared.slices
    requires s.post.shared.slices[n] == MergeSlice(s.pre.shared.slices[n], read, after)
    ensures SlicePatched(history + [s], from, n, read, after)
  {
    assert (history + [s])[|history|] == s;
  }

  lemma PutStays(history: seq<Step>, from: nat, history': seq<Step>, from': nat)
    requires history <= history' && from' <= from
    ensures forall n, s :: SlicePut(history, from, n, s) ==> SlicePut(history', from', n, s)
    ensures forall n, e :: EndpointsPut(history, from, n, e) ==> EndpointsPut(history', from', n, e)
    ensures forall n, read, after ::
              ServicePatched(history, from, n, read, after) ==> ServicePatched(history', from', n, read, after)
    ensures forall n, read, after ::
              SlicePatched(history, from, n, read, after) ==> SlicePatched(history', from', n, read, after)
  {
    forall n, s | SlicePut(history, from, n, s) ensures SlicePut(history', from', n, s) {
      var i :| from <= i < |history| && history[i].actor.Operator? &&
               n in history[i].post.shared.slices && history[i].post.shared.slices[n] == s;
      assert history'[i] == history[i];
    }
    forall n, e | EndpointsPut(history, from, n, e) ensures EndpointsPut(history', from', n, e) {
      var i :| from <= i < |history| && history[i].actor.Operator? &&
               n in history[i].post.shared.endpoints && history[i].post.shared.endpoints[n] == e;
      assert history'[i] == history[i];
    }
    forall n, read, after | ServicePatched(history, from, n, read, after)
      ensures ServicePatched(history', from', n, read, after)
    {
      var i :| from <= i < |history| && history[i].actor.Operator? &&
               n in history[i].pre.shared.services && n in history[i].post.shared.services &&
               history[i].post.shared.services[n] == MergeService(history[i].pre.shared.services[n], read, after);
      assert history'[i] == history[i];
    }
    forall n, read, after | SlicePatched(history, from, n, read, after)
      ensures SlicePatched(history', from', n, read, after)
    {
      var i :| from <= i < |history| && history[i].actor.Operator? &&
               n in history[i].pre.shared.slices && n in history[i].post.shared.slices &&
               history[i].post.shared.slices[n] == MergeSlice(history[i].pre.shared.slices[n], read, after);
      assert history'[i] == history[i];
    }
  }

  // ----- what was so at some moment since a position of the run -----

  /** The world after the first i steps. */
  ghost function WorldAt(start: World, history: seq<Step>, i: nat): World
    requires i <= |history|
  {
    if i == 0 then start else history[i - 1].post
  }

  ghost predicate ServiceGone(start: World, history: seq<Step>, from: nat, n: string) {
    exists i :: from <= i <= |history| && n !in WorldAt(start, history, i).shared.services
  }

  ghost predicate SliceGone(start: World, history: seq<Step>, from: nat, n: string) {
    exists i :: from <= i <= |history| && n !in WorldAt(start, history, i).shared.slices
  }

  ghost predicate EndpointsGone(start: World, history: seq<Step>, from: nat, n: string) {
    exists i :: from <= i <= |history| && n !in WorldAt(start, history, i).shared.endpoints
  }

  ghost predicate ServiceHeld(start: World, history: seq<Step>, from: nat, n: string, s: Service) {
    exists i :: from <= i <= |history| && n in WorldAt(start, history, i).shared.services &&
                WorldAt(start, history, i).shared.services[n] == s
  }

  ghost predicate SliceHeld(start: World, history: seq<Step>, from: nat, n: string, s: Slice) {
    exists i :: from <= i <= |history| && n in WorldAt(start, history, i).shared.slices &&
                WorldAt(start, history, i).shared.slices[n] == s
  }

  ghost predicate EndpointsHeld(start: World, history: seq<Step>, from: nat, n: string, e: seq<Subset>) {
    exists i :: from <= i <= |history| && n in WorldAt(start, history, i).shared.endpoints &&
                WorldAt(start, history, i).shared.endpoints[n] == e
  }

  ghost predicate Listed(start: World, history: seq<Step>, from: nat, items: seq<NamedSlice>, t: string) {
    exists i :: from <= i <= |history| && Listing(items, WorldAt(start, history, i).shared.slices, t)
  }

  lemma SeenNow(start: World, history: seq<Step>, w: World, from: nat)
    requires Chain(start, history, w) && from <= |history|
    ensures forall n :: n !in w.shared.services ==> ServiceGone(start, history, from, n)
    ensures forall n :: n !in w.shared.slices ==> SliceGone(start, history, from, n)
    ensures forall n :: n !in w.shared.endpoints ==> EndpointsGone(start, history, from, n)
    ensures forall n :: n in w.shared.services ==> ServiceHeld(start, history, from, n, w.shared.services[n])
    ensures forall n :: n in w.shared.slices ==> SliceHeld(start, history, from, n, w.shared.slices[n])
    ensures forall n :: n in w.shared.endpoints ==> EndpointsHeld(start, history, from, n, w.shared.endpoints[n])
    ensures forall items, t :: Listing(items, w.shared.slices, t) ==> Listed(start, history, from, items, t)
  {
    hide Listing;
    assert WorldAt(start, history, |history|) == w;
  }

  lemma SeenStays(start: World, history: seq<Step>, from: nat, history': seq<Step>, from': nat)
    requires history <= history' && from' <= from
    ensures forall n :: ServiceGone(start, history, from, n) ==> ServiceGone(start, history', from', n)
    ensures forall n :: SliceGone(start, history, from, n) ==> SliceGone(start, history', from', n)
    ensures forall n :: EndpointsGone(start, history, from, n) ==> EndpointsGone(start, history', from', n)
    ensures forall n, s :: ServiceHeld(start, history, from, n, s) ==> ServiceHeld(start, history', from', n, s)
    ensures forall n, s :: SliceHeld(start, history, from, n, s) ==> SliceHeld(start, history', from', n, s)
    ensures forall n, e :: EndpointsHeld(start, history, from, n, e) ==> EndpointsHeld(start, history', from', n, e)
    ensures forall items, t :: Listed(start, history, from, items, t) ==> Listed(start, history', from', items, t)
  {
    hide Listing;
    forall i | 0 <= i <= |history| ensures WorldAt(start, history', i) == WorldAt(start, history, i) {}
  }

  class ApiServer {
    const who: Subject
    const exclusive: bool // nobody else writes Services, slices or Endpoints
    const quiet: bool     // no failing call, no concurrent write
    ghost const base: Shared
    ghost const start: World
    var world: World
    var down: bool        // the operator process has stopped; only Restart revives it
    ghost var history: seq<Step>

    /** Nobody else writes shared objects while a call is under way. */
    predicate Alone() { exclusive || quiet }

    /** The run so far is a chain of allowed steps ending in the present world. */
    ghost predicate Valid()
      reads this
    {
      && Inv(who, exclusive, base, world)
      && (quiet ==> !down && SameElsewhere(who, start.shared, world.shared))
      && (forall i :: 0 <= i < |history| ==> StepOk(who, exclusive, base, history[i]))
      && Chain(start, history, world)
      && DeletionsJustified(who, history)
    }

    /** The slice carries the Service's label or did so at an earlier state of the run. */
    ghost predicate WasLabelled(n: string)
      reads this
    {
      LabelledIn(who, world, n) || LabelledWithin(who, history, n)
    }

    constructor (who: Subject, exclusive: bool, quiet: bool, ghost base: Shared, world: World)
      requires Inv(who, exclusive, base, world)
      ensures Valid() && this.who == who && this.exclusive == exclusive && this.quiet == quiet
      ensures this.base == base && this.world == world && start == world && history == []
    {
      this.who, this.exclusive, this.quiet, this.base, this.start := who, exclusive, quiet, base, world;
      this.world, this.down, this.history := world, false, [];
    }

    lemma Named()
      requires Valid()
      ensures who.name != "" && who.uid != ""
    {}

    /** One step of the run. */
    method Commit(ghost actor: Actor, w: World)
      requires Valid() && StepOk(who, exclusive, base, Step(actor, world, w)) && (quiet ==> actor.Operator?)
      requires forall n :: Deletes(Step(actor, world, w), n) && n != ManagedSlice(who) ==>
                 Intercepting(who.mode) && WasLabelled(n)
      modifies this`world, this`history
      ensures Valid() && world == w && history == old(history) + [Step(actor, old(world), w)]
    {
      hide Inv, Outside;
      assert actor.Operator? ==> SameElsewhere(who, world.shared, w.shared);
      hide Guarantee;
      JustifiedNext(who, history, Step(actor, world, w));
      hide DeletionsJustified, LabelledWithin;
      history := history + [Step(actor, world, w)];
      world := w;
    }

    /** Other parties move, then the call meets its fate. */
    method Begin() returns (f: Fate)
      requires Valid()
      modifies this
      ensures Valid() && old(history) <= history
      ensures Drifts(who, exclusive, old(world), world) && Idle(who, exclusive, old(world), world)
      ensures quiet ==> f.Fine? && world == old(world) && history == old(history)
    {
      hide Inv, Guarantee, Outside, Idle;
      assert Drifts(who, exclusive, world, world);
      DriftsIsIdle(who, exclusive, world, world);
      hide Drifts;
      if quiet { return Fine; }
      if down { return CrashedBefore; }
      var w: World := *;
      if Drifts(who, exclusive, world, w) {
        DriftsIsOutside(who, exclusive, world, w);
        OutsideKeepsInv(who, exclusive, base, world, w);
        DriftsIsIdle(who, exclusive, world, w);
        Commit(Others, w);
      }
      f := *;
      down := f.CrashedBefore? || f.CrashedAfter?;
    }

    /** Between reconciles: other parties move and the operator may be started again. */
    method Outsiders()
      requires Valid()
      modifies this
      ensures Valid() && old(history) <= history
      ensures Outside(who, exclusive, old(world), world) && (quiet ==> world == old(world))
    {
      hide Inv, Guarantee;
      assert Outside(who, exclusive, world, world);
      hide Outside;
      if quiet { return; }
      down := false;
      var w: World := *;
      if Outside(who, exclusive, world, w) {
        OutsideKeepsInv(who, exclusive, base, world, w);
        Commit(Others, w);
      }
    }

    // ----- reads -----

    method GetBinding() returns (r: Result<Binding>)
      requires Valid()
      modifies this
      ensures Valid() && old(history) <= history
      ensures Idle(who, exclusive, old(world), world) && (quiet ==> world == old(world) && history == old(history))
      ensures r.Ok? ==> world.binding == Some(r.value)
      ensures r.Err? && (quiet || r.error.NotFound?) ==> world.binding.None? && r.error.NotFound?
    {
      hide Inv, Guarantee, Outside, DeletionsJustified, LabelledWithin, Chain, SlicePut, EndpointsPut, ServicePatched,
           SlicePatched, Drifts;
      var f := Begin();
      if !f.Fine? { return Err(Unavailable); }
      r := if world.binding.Some? then Ok(world.binding.value) else Err(NotFound);
    }

    method GetService(n: string) returns (r: Result<Service>)
      requires Valid()
      modifies this
      ensures Valid() && old(history) <= history
      ensures Idle(who, exclusive, old(world), world) && (quiet ==> world == old(world) && history == old(history))
      ensures r.Ok? ==> n in world.shared.services && world.shared.services[n] == r.value
      ensures r.Err? && (quiet || r.error.NotFound?) ==> n !in world.shared.services && r.error.NotFound?
      ensures r.Err? ==> r.error.NotFound? || r.error.Unavailable?
    {
      hide Inv, Guarantee, Outside, DeletionsJustified, LabelledWithin, Chain, SlicePut, EndpointsPut, ServicePatched,
           SlicePatched, Drifts;
      var f := Begin();
      if !f.Fine? { return Err(Unavailable); }
      r := if n in world.shared.services then Ok(world.shared.services[n]) else Err(NotFound);
    }

    /** Pods are not modelled: the answer is arbitrary. */
    method GetPod(n: string) returns (r: Result<()>)
      requires Valid()
      modifies this
      ensures Valid() && old(history) <= history
      ensures Idle(who, exclusive, old(world), world) && (quiet ==> world == old(world) && history == old(history))
    {
      hide Inv, Guarantee, Outside, DeletionsJustified, LabelledWithin, Chain, SlicePut, EndpointsPut, ServicePatched,
           SlicePatched, Drifts;
      var f := Begin();
      r := *;
    }

    method GetSlice(n: string) returns (r: Result<Slice>)
      requires Valid()
      modifies this
      ensures Valid() && old(history) <= history
      ensures Idle(who, exclusive, old(world), world) && (quiet ==> world == old(world) && history == old(history))
      ensures r.Ok? ==> n in world.shared.slices && world.shared.slices[n] == r.value
      ensures r.Err? && (quiet || r.error.NotFound?) ==> n !in world.shared.slices && r.error.NotFound?
      ensures r.Err? ==> r.error.NotFound? || r.error.Unavailable?
    {
      hide Inv, Guarantee, Outside, DeletionsJustified, LabelledWithin, Chain, SlicePut, EndpointsPut, ServicePatched,
           SlicePatched, Drifts;
      var f := Begin();
      if !f.Fine? { return Err(Unavailable); }
      r := if n in world.shared.slices then Ok(world.shared.slices[n]) else Err(NotFound);
    }

    method GetEndpoints(n: string) returns (r: Result<seq<Subset>>)
      requires Valid()
      modifies this
      ensures Valid() && old(history) <= history
      ensures Idle(who, exclusive, old(world), world) && (quiet ==> world == old(world) && history == old(history))
      ensures r.Ok? ==> n in world.shared.endpoints && world.shared.endpoints[n] == r.value
      ensures r.Err? && (quiet || r.error.NotFound?) ==> n !in world.shared.endpoints && r.error.NotFound?
      ensures r.Err? ==> r.error.NotFound? || r.error.Unavailable?
    {
      hide Inv, Guarantee, Outside, DeletionsJustified, LabelledWithin, Chain, SlicePut, EndpointsPut, ServicePatched,
           SlicePatched, Drifts;
      var f := Begin();
      if !f.Fine? { return Err(Unavailable); }
      r := if n in world.shared.endpoints then Ok(world.shared.endpoints[n]) else Err(NotFound);
    }

    method ListSlices(t: string) returns (r: Result<seq<NamedSlice>>)
      requires Valid()
      modifies this
      ensures Valid() && old(history) <= history
      ensures Idle(who, exclusive, old(world), world) && (quiet ==> world == old(world) && history == old(history))
      ensures r.Ok? ==> Listing(r.value, world.shared.slices, t)
      ensures r.Err? ==> !quiet && r.error.Unavailable?
    {
      hide Inv, Guarantee, Outside, DeletionsJustified, LabelledWithin, Chain, SlicePut, EndpointsPut, ServicePatched,
           SlicePatched, Drifts;
      var f := Begin();
      if !f.Fine? { return Err(Unavailable); }
      var items := Enumerate(world.shared.slices, t);
      r := Ok(items);
    }

    // ----- writes on the binding -----

    method PatchStatus(before: Status, after: Status) returns (r: Result<()>)
      requires Valid()
      requires world.binding.Some? ==>
                 StatusAllowed(who, exclusive, base, world, MergeStatus(world.binding.value.status, before, after))
      modifies this
      ensures Valid() && old(history) <= history
      ensures world.binding.Some? ==> old(world).binding.Some?
      ensures r.Ok? ==> world.binding.Some?
      ensures world.binding.Some? ==>
                var b, b' := old(world).binding.value, world.binding.value;
                && (b'.status == b.status || b'.status == MergeStatus(b.status, before, after))
                && (r.Ok? ==> b'.status == MergeStatus(b.status, before, after))
                && UserStep(b, b'.(status := b.status))
      ensures r.Err? && !after.phase.Pending? ==>
                forall b :: Synced(b, old(world)) && !Resting(b.status.phase) ==>
                           Synced(b, world) || Synced(b.(status := MergeStatus(b.status, before, after)), world)
      ensures !OwnSlice(who, old(world).shared) ==> !OwnSlice(who, world.shared)
      ensures Unmarked(who, old(world).shared) ==> Unmarked(who, world.shared)
      ensures exclusive ==> world.shared == old(world).shared
      ensures quiet && old(world).binding.Some? ==>
                r.Ok? && world == WithStatus(old(world), MergeStatus(old(world).binding.value.status, before, after))
      ensures r.Err? ==> !r.error.Permanent?
    {
      hide Inv, Guarantee, Outside, DeletionsJustified, LabelledWithin, Chain, SlicePut, EndpointsPut, ServicePatched,
           SlicePatched, Drifts, StatusAllowed, StatusFits;
      var f := Begin();
      if world.binding.None? { return if f.Fine? then Err(NotFound) else Err(Unavailable); }
      if Effective(f) {
        var s := MergeStatus(world.binding.value.status, before, after);
        StatusAllowedDrifts(who, exclusive, base, old(world), world, s);
        StatusWrite(who, exclusive, base, world, s);
        Commit(Operator, WithStatus(world, s));
      }
      r := Reply(f, ());
    }

    method AddFinalizer() returns (r: Result<()>)
      requires Valid()
      modifies this
      ensures Valid() && old(history) <= history
      ensures r.Ok? ==> forall b :: Synced(b, old(world)) ==> Synced(b.(finalizer := true), world)
      ensures Unmarked(who, old(world).shared) ==> Unmarked(who, world.shared)
      ensures !OwnSlice(who, old(world).shared) ==> !OwnSlice(who, world.shared)
      ensures r.Err? ==> !r.error.Permanent?
      ensures exclusive ==> world.shared == old(world).shared
      ensures quiet && old(world).binding.Some? ==> r.Ok? && world == WithFinalizer(old(world), true)
    {
      hide Inv, Guarantee, Outside, DeletionsJustified, LabelledWithin, Chain, SlicePut, EndpointsPut, ServicePatched,
           SlicePatched, Drifts;
      var f := Begin();
      if world.binding.None? { return if f.Fine? then Err(NotFound) else Err(Unavailable); }
      if Effective(f) {
        FinalizerAdded(who, exclusive, base, world);
        Commit(Operator, WithFinalizer(world, true));
      }
      r := Reply(f, ());
    }

    method RemoveFinalizer() returns (r: Result<()>)
      requires Valid()
      requires world.binding.Some? ==> world.binding.value.status.phase.Restored?
      modifies this
      ensures Valid() && old(history) <= history
      ensures r.Ok? || r.error.NotFound? ==>
                && (world.binding.Some? ==> old(world).binding.Some?)
                && (world.binding.None? || (!world.binding.value.finalizer && !old(world).binding.value.deleting))
      ensures quiet && old(world).binding.Some? ==> r.Ok? && world == WithFinalizer(old(world), false)
    {
      hide Inv, Guarantee, Outside, DeletionsJustified, LabelledWithin, Chain, SlicePut, EndpointsPut, ServicePatched,
           SlicePatched, Drifts;
      var f := Begin();
      if world.binding.None? { return if f.Fine? then Err(NotFound) else Err(Unavailable); }
      if Effective(f) {
        FinalizerRemoved(who, exclusive, base, world);
        Commit(Operator, WithFinalizer(world, false));
      }
      r := Reply(f, ());
    }

    // ----- writes on the Service -----

    method PatchService(ghost b: Binding, n: string, before: Service, after: Service) returns (r: Result<()>)
      requires Valid() && Licensed(who, b, world) && ServiceEdit(who, b, before, after)
      requires n == who.service && n in world.shared.services && world.shared.services[n] == before
      requires exclusive && Intercepting(who.mode) ==>
                 who.service in base.services &&
                 (after == base.services[who.service] || after == Hijacked(base.services[who.service], who))
      modifies this
      ensures Valid() && old(history) <= history
      ensures Licensed(who, b, world) && (r.Ok? ==> NotForeign(who, world.shared))
      ensures r.Ok? && after.annotations == Released(before.annotations) ==> Unmarked(who, world.shared)
      ensures r.Ok? ==> ServicePatched(history, |old(history)|, n, before, after)
      ensures r.Ok? && Alone() ==>
                world.shared == old(world).shared.(services := old(world).shared.services[who.service := after])
      ensures r.Err? ==> !r.error.Permanent?
      ensures quiet ==> r.Ok? && world.binding == old(world).binding
    {
      hide Inv, Guarantee, Outside, DeletionsJustified, LabelledWithin, Chain, SlicePut, EndpointsPut, ServicePatched,
           SlicePatched, Drifts;
      var f := Begin();
      if who.service !in world.shared.services { return if f.Fine? then Err(NotFound) else Err(Unavailable); }
      if Effective(f) {
        if Alone() { MergeServiceUnraced(before, after); }
        ServiceWrite(who, exclusive, base, world, b, before, after);
        ServiceWriteEffect(who, exclusive, base, world, b, before, after);
        JustPatched(history, |old(history)|, Step(Operator, world, Edited(who, world, before, after)), n, before,
                    after);
        Commit(Operator, Edited(who, world, before, after));
      }
      r := Reply(f, ());
    }

    method CreateService(ghost b: Binding, n: string, s: Service) returns (r: Result<Service>)
      requires Valid() && Licensed(who, b, world) && who.mode == Preview && n == who.service
      requires Owned(s.annotations, who) && ControlledBy(s.owners, who.uid)
      modifies this
      ensures Valid() && old(history) <= history
      ensures Licensed(who, b, world)
      ensures r.Ok? ==> r.value == s.(clusterIP := r.value.clusterIP, uid := r.value.uid) // assigned by the server
      ensures r.Ok? ==> n in world.shared.services && world.shared.services[n] == r.value
      ensures r.Ok? && Alone() ==>
                && n !in old(world).shared.services
                && world.shared == old(world).shared.(services := old(world).shared.services[n := r.value])
      ensures quiet ==> world.binding == old(world).binding && (n !in old(world).shared.services ==> r.Ok?)
      ensures r.Err? ==> r.error.AlreadyExists? || r.error.Unavailable?
      ensures r.Err? && r.error.AlreadyExists? ==> n in world.shared.services
    {
      hide Inv, Guarantee, Outside, DeletionsJustified, LabelledWithin, Chain, SlicePut, EndpointsPut, ServicePatched,
           SlicePatched, Drifts;
      var f := Begin();
      if n in world.shared.services { return if f.Fine? then Err(AlreadyExists) else Err(Unavailable); }
      var address: string, uid: string := *, *;
      var created := s.(clusterIP := address, uid := uid);
      if Effective(f) {
        PreviewServiceCreated(who, exclusive, base, world, b, created);
        Commit(Operator, WithService(world, n, created));
      }
      r := Reply(f, created);
    }

    method DeletePreviewService(n: string, ghost seen: Service) returns (r: Result<()>)
      requires Valid() && who.mode == Preview && world.binding.Some? && world.binding.value.finalizer
      requires n == who.service && who.service in world.shared.services && world.shared.services[who.service] == seen
      requires Owned(seen.annotations, who)
      modifies this
      ensures Valid() && old(history) <= history
      ensures forall b :: Synced(b, old(world)) ==> Synced(b, world)
      ensures !OwnSlice(who, old(world).shared) ==> !OwnSlice(who, world.shared)
      ensures r.Ok? || r.error.NotFound? ==> who.service !in world.shared.services
      ensures quiet ==> r.Ok? && world == WithoutService(old(world), who.service)
      ensures r.Err? ==> !r.error.Permanent?
    {
      hide Inv, Guarantee, Outside, DeletionsJustified, LabelledWithin, Chain, SlicePut, EndpointsPut, ServicePatched,
           SlicePatched, Drifts;
      var f := Begin();
      if who.service !in world.shared.services { return if f.Fine? then Err(NotFound) else Err(Unavailable); }
      if Effective(f) {
        PreviewServiceDeleted(who, exclusive, base, world);
        Commit(Operator, WithoutService(world, who.service));
      }
      r := Reply(f, ());
    }

    // ----- writes on slices -----

    method DeleteManagedSlice(n: string) returns (r: Result<()>)
      requires Valid() && world.binding.Some? && world.binding.value.finalizer && n == ManagedSlice(who)
      modifies this
      ensures Valid() && old(history) <= history
      ensures forall b :: Synced(b, old(world)) ==> Synced(b, world)
      ensures Unmarked(who, old(world).shared) ==> Unmarked(who, world.shared)
      ensures NotForeign(who, old(world).shared) ==> NotForeign(who, world.shared)
      ensures who.service !in old(world).shared.services ==> who.service !in world.shared.services
      ensures r.Ok? || r.error.NotFound? ==> ManagedSlice(who) !in world.shared.slices
      ensures (r.Ok? || r.error.NotFound?) && Alone() ==>
                world.shared == old(world).shared.(slices := old(world).shared.slices - {ManagedSlice(who)})
      ensures quiet ==> (r.Ok? || r.error.NotFound?) && world.binding == old(world).binding
      ensures r.Err? ==> !r.error.Permanent?
    {
      hide Inv, Guarantee, Outside, DeletionsJustified, LabelledWithin, Chain, SlicePut, EndpointsPut, ServicePatched,
           SlicePatched, Drifts;
      var f := Begin();
      if ManagedSlice(who) !in world.shared.slices {
        assert world.shared.slices == world.shared.slices - {ManagedSlice(who)};
        return if f.Fine? then Err(NotFound) else Err(Unavailable);
      }
      if Effective(f) {
        ManagedSliceDelete(who, exclusive, base, world);
        Commit(Operator, WithoutSlice(world, ManagedSlice(who)));
      }
      r := Reply(f, ());
    }

    /** Deleting one of the intercepted Service's slices. */
    method DeleteSlice(ghost b: Binding, n: string) returns (r: Result<()>)
      requires Valid() && Licensed(who, b, world)
      requires Intercepting(who.mode) && NotForeign(who, world.shared)
      requires exclusive && n in base.slices ==> Labelled(base.slices[n], who.service)
      requires n == ManagedSlice(who) || WasLabelled(n)
      modifies this
      ensures Valid() && old(history) <= history
      ensures Licensed(who, b, world) && NotForeign(who, world.shared)
      ensures r.Ok? || r.error.NotFound? ==> n !in world.shared.slices
      ensures (r.Ok? || r.error.NotFound?) && Alone() ==>
                world.shared == old(world).shared.(slices := old(world).shared.slices - {n})
      ensures quiet ==> (r.Ok? || r.error.NotFound?) && world.binding == old(world).binding
      ensures quiet && n !in old(world).shared.slices ==> history == old(history)
      ensures r.Err? ==> !r.error.Permanent?
    {
      hide Inv, Guarantee, Outside, DeletionsJustified, LabelledWithin, Chain, SlicePut, EndpointsPut, ServicePatched,
           SlicePatched, Drifts;
      ghost var was, before := history, world;
      var f := Begin();
      if n !in world.shared.slices {
        assert world.shared.slices == world.shared.slices - {n};
        return if f.Fine? then Err(NotFound) else Err(Unavailable);
      }
      if Effective(f) {
        LicensedIsBusy(who, b, world);
        if n != ManagedSlice(who) { LabelledStays(who, start, was, before, history, world, n); }
        if n == ManagedSlice(who) {
          ManagedSliceDelete(who, exclusive, base, world);
        } else {
          ServiceSliceDelete(who, exclusive, base, world, b, n);
        }
        Commit(Operator, WithoutSlice(world, n));
      }
      r := Reply(f, ());
    }

    method CreateSlice(ghost b: Binding, n: string, s: Slice) returns (r: Result<()>)
      requires Valid() && Licensed(who, b, world) && SliceEdit(who, exclusive, base, world, n, s)
      modifies this
      ensures Valid() && old(history) <= history
      ensures Licensed(who, b, world) && (NotForeign(who, old(world).shared) ==> NotForeign(who, world.shared))
      ensures Unmarked(who, old(world).shared) ==> Unmarked(who, world.shared)
      ensures !OwnSlice(who, old(world).shared) && (n != ManagedSlice(who) || !Owned(s.annotations, who)) ==>
                !OwnSlice(who, world.shared)
      ensures r.Ok? ==> n in world.shared.slices && world.shared.slices[n] == s
      ensures r.Ok? ==> SlicePut(history, |old(history)|, n, s)
      ensures r.Ok? && Alone() ==> world.shared == old(world).shared.(slices := old(world).shared.slices[n := s])
      ensures r.Err? && r.error.AlreadyExists? && Alone() ==>
                n in world.shared.slices && world.shared == old(world).shared
      ensures quiet ==> world.binding == old(world).binding && (n !in old(world).shared.slices ==> r.Ok?)
      ensures r.Err? ==> r.error.AlreadyExists? || r.error.Unavailable?
      ensures r.Err? && r.error.AlreadyExists? ==> n in world.shared.slices
    {
      hide Inv, Guarantee, Outside, DeletionsJustified, LabelledWithin, Chain, SlicePut, EndpointsPut, ServicePatched,
           SlicePatched, Drifts;
      var f := Begin();
      if n in world.shared.slices { return if f.Fine? then Err(AlreadyExists) else Err(Unavailable); }
      if Effective(f) {
        SliceWrite(who, exclusive, base, world, b, n, s);
        JustPut(history, |old(history)|, Step(Operator, world, WithSlice(world, n, s)));
        Commit(Operator, WithSlice(world, n, s));
      }
      r := Reply(f, ());
    }

    /** Full update under optimistic locking: it fails if the slice changed since it was read. */
    method UpdateSlice(ghost b: Binding, n: string, seen: Slice, s: Slice) returns (r: Result<()>)
      requires Valid() && Licensed(who, b, world) && SliceEdit(who, exclusive, base, world, n, s)
      modifies this
      ensures Valid() && old(history) <= history
      ensures Licensed(who, b, world) && (NotForeign(who, old(world).shared) ==> NotForeign(who, world.shared))
      ensures Unmarked(who, old(world).shared) ==> Unmarked(who, world.shared)
      ensures !OwnSlice(who, old(world).shared) && (n != ManagedSlice(who) || !Owned(s.annotations, who)) ==>
                !OwnSlice(who, world.shared)
      ensures r.Ok? ==> n in world.shared.slices && world.shared.slices[n] == s
      ensures r.Ok? ==> SlicePut(history, |old(history)|, n, s)
      ensures r.Ok? && Alone() ==> world.shared == old(world).shared.(slices := old(world).shared.slices[n := s])
      ensures quiet && n in old(world).shared.slices && old(world).shared.slices[n] == seen ==>
                r.Ok? && world.binding == old(world).binding
      ensures r.Err? ==> r.error.NotFound? || r.error.Conflict? || r.error.Unavailable?
      ensures r.Err? && r.error.NotFound? ==> n !in world.shared.slices
    {
      hide Inv, Guarantee, Outside, DeletionsJustified, LabelledWithin, Chain, SlicePut, EndpointsPut, ServicePatched,
           SlicePatched, Drifts;
      var f := Begin();
      if n !in world.shared.slices { return if f.Fine? then Err(NotFound) else Err(Unavailable); }
      if world.shared.slices[n] != seen { return if f.Fine? then Err(Conflict) else Err(Unavailable); }
      if Effective(f) {
        SliceWrite(who, exclusive, base, world, b, n, s);
        JustPut(history, |old(history)|, Step(Operator, world, WithSlice(world, n, s)));
        Commit(Operator, WithSlice(world, n, s));
      }
      r := Reply(f, ());
    }

    method PatchSlice(ghost b: Binding, n: string, before: Slice, after: Slice) returns (r: Result<()>)
      requires Valid() && Licensed(who, b, world) && n == ManagedSlice(who)
      requires n in world.shared.slices && world.shared.slices[n] == before
      requires Owned(before.annotations, who) && ControlledBy(before.owners, who.uid)
      requires Relaying(who, after)
      modifies this
      ensures Valid() && old(history) <= history && Licensed(who, b, world)
      ensures r.Ok? ==> SlicePatched(history, |old(history)|, n, before, after)
      ensures r.Ok? && Alone() ==> world.shared == old(world).shared.(slices := old(world).shared.slices[n := after])
      ensures quiet ==> r.Ok? && world.binding == old(world).binding
      ensures r.Err? ==> r.error.NotFound? || r.error.Unavailable?
      ensures r.Err? && r.error.NotFound? ==> n !in world.shared.slices
    {
      hide Inv, Guarantee, Outside, DeletionsJustified, LabelledWithin, Chain, SlicePut, EndpointsPut, ServicePatched,
           SlicePatched;
      Named();
      var f := Begin();
      if n !in world.shared.slices { return if f.Fine? then Err(NotFound) else Err(Unavailable); }
      if Effective(f) {
        var s := MergeSlice(world.shared.slices[n], before, after);
        MergedSliceMarks(who, world.shared.slices[n], before, after);
        if Alone() { MergeSliceUnraced(before, after); }
        SliceWrite(who, exclusive, base, world, b, n, s);
        JustPatchedSlice(history, |old(history)|, Step(Operator, world, WithSlice(world, n, s)), n, before, after);
        Commit(Operator, WithSlice(world, n, s));
      }
      r := Reply(f, ());
    }

    // ----- writes on Endpoints -----

    method PutEndpoints(ghost b: Binding, n: string, create: bool, e: seq<Subset>) returns (r: Result<()>)
      requires Valid() && EndpointsEdit(who, exclusive, base, world, b) && n == who.service
      requires exclusive ==> who.service in base.endpoints && base.endpoints[who.service] == e
      modifies this
      ensures Valid() && old(history) <= history
      ensures Licensed(who, b, world)
      ensures Unmarked(who, old(world).shared) ==> Unmarked(who, world.shared)
      ensures !OwnSlice(who, old(world).shared) ==> !OwnSlice(who, world.shared)
      ensures r.Ok? ==>
                && n in world.shared.endpoints && world.shared.endpoints[n] == e
                && EndpointsPut(history, |old(history)|, n, e)
      ensures r.Ok? && Alone() ==>
                world.shared == old(world).shared.(endpoints := old(world).shared.endpoints[who.service := e])
      ensures quiet && create == (who.service !in old(world).shared.endpoints) ==>
                r.Ok? && world.binding == old(world).binding
      ensures r.Err? ==> !r.error.Permanent?
    {
      hide Inv, Guarantee, Outside, DeletionsJustified, LabelledWithin, Chain, SlicePut, EndpointsPut, ServicePatched,
           SlicePatched, Drifts;
      var f := Begin();
      var present := who.service in world.shared.endpoints;
      if create && present { return if f.Fine? then Err(AlreadyExists) else Err(Unavailable); }
      if !create && !present { return if f.Fine? then Err(NotFound) else Err(Unavailable); }
      if Effective(f) {
        EndpointsWrite(who, exclusive, base, world, b, e);
        JustPut(history, |old(history)|, Step(Operator, world, WithEndpoints(world, who.service, e)));
        Commit(Operator, WithEndpoints(world, who.service, e));
      }
      r := Reply(f, ());
    }

    method DeleteEndpoints(ghost b: Binding, n: string) returns (r: Result<()>)
      requires Valid() && EndpointsEdit(who, exclusive, base, world, b) && n == who.service
      modifies this
      ensures Valid() && old(history) <= history
      ensures Licensed(who, b, world) && NotForeign(who, world.shared)
      ensures r.Ok? || r.error.NotFound? ==> n !in world.shared.endpoints
      ensures (r.Ok? || r.error.NotFound?) && Alone() ==>
                world.shared == old(world).shared.(endpoints := old(world).shared.endpoints - {who.service})
      ensures quiet ==> (r.Ok? || r.error.NotFound?) && world.binding == old(world).binding
      ensures quiet && n !in old(world).shared.endpoints ==> history == old(history)
      ensures r.Err? ==> !r.error.Permanent?
    {
      hide Inv, Guarantee, Outside, DeletionsJustified, LabelledWithin, Chain, SlicePut, EndpointsPut, ServicePatched,
           SlicePatched, Drifts;
      var f := Begin();
      if who.service !in world.shared.endpoints {
        assert world.shared.endpoints == world.shared.endpoints - {who.service};
        return if f.Fine? then Err(NotFound) else Err(Unavailable);
      }
      if Effective(f) {
        EndpointsDelete(who, exclusive, base, world, b);
        Commit(Operator, WithoutEndpoints(world, who.service));
      }
      r := Reply(f, ());
    }
  }
}
