/** Several bindings over one cluster: each keeps its invariant whatever the operator does for the others. */
module ManyBindings {
  import opened Kube
  import opened Bindings
  import opened Safety
  import opened Runs

  /** The stored bindings, None once gone, and the namespace they share. */
  datatype Namespace = Namespace(bindings: map<Subject, Option<Binding>>, shared: Shared)

  function View(s: Namespace, who: Subject): World
    requires who in s.bindings
  {
    World(s.bindings[who], s.shared)
  }

  /** UIDs tell the bindings apart. */
  predicate Distinguished(s: Namespace) {
    forall who, other :: who in s.bindings && other in s.bindings && who.uid == other.uid ==> who == other
  }

  ghost predicate AllSafe(s: Namespace) { forall who :: who in s.bindings ==> Safe(who, View(s, who)) }

  /** The one thing that must not happen between bindings: no stored snapshot holds another's managed slice. */
  predicate NobodyRecorded(s: Namespace) {
    forall who, other :: who in s.bindings && other in s.bindings && who != other ==>
      !HoldsSliceOf(s.bindings[other], who)
  }

  predicate HoldsSliceOf(b: Option<Binding>, who: Subject) {
    b.Some? && b.value.status.snapshot.Some? && Records(who, b.value.status.snapshot.value)
  }

  datatype Move = Operates(who: Subject) | Rest

  /** A write of the operator for one binding is what a pass over that binding issues from a safe world; everybody else
      stays, towards each binding, within what `Outside` allows. */
  ghost predicate Moves(s: Namespace, move: Move, s': Namespace) {
    && s'.bindings.Keys == s.bindings.Keys
    && match move
       case Operates(who) =>
         && who in s.bindings
         && (forall other :: other in s.bindings && other != who ==> s'.bindings[other] == s.bindings[other])
         && (Safe(who, View(s, who)) ==>
               StepOk(who, false, s.shared, Step(Operator, View(s, who), View(s', who))))
       case Rest => forall who :: who in s.bindings ==> Outside(who, false, View(s, who), View(s', who))
  }

  lemma MoveKeepsAllSafe(s: Namespace, move: Move, s': Namespace)
    requires AllSafe(s) && Distinguished(s) && NobodyRecorded(s) && Moves(s, move, s')
    ensures AllSafe(s')
  {
    hide Safe, Guarantee, Outside;
    forall who | who in s'.bindings ensures Safe(who, View(s', who)) {
      match move
      case Rest => OutsideKeepsSafe(who, false, View(s, who), View(s', who));
      case Operates(busy) =>
        assert Safe(busy, View(s, busy));
        if who == busy {
          OwnStepIsSafe(who, s, s');
        } else {
          HasUid(busy, View(s, busy));
          OtherBindingsAreOutsiders(who, busy, View(s, who), s'.shared, s.bindings[busy], s'.bindings[busy]);
        }
    }
  }

  lemma OwnStepIsSafe(who: Subject, s: Namespace, s': Namespace)
    requires who in s.bindings && who in s'.bindings
    requires StepOk(who, false, s.shared, Step(Operator, View(s, who), View(s', who)))
    ensures Safe(who, View(s', who))
  {}

  lemma HasUid(who: Subject, w: World)
    requires Safe(who, w)
    ensures who.uid != ""
  {}

  ghost predicate ManyRun(states: seq<Namespace>, moves: seq<Move>) {
    && |states| == |moves| + 1
    && forall i :: 0 <= i < |moves| ==> Moves(states[i], moves[i], states[i + 1])
  }

  /** In every run of any number of bindings, interleaved in any way, each satisfies its invariant in every state, as
      long as no snapshot has come to hold another's managed slice. */
  lemma {:induction false} RunsKeepAllSafe(states: seq<Namespace>, moves: seq<Move>, i: nat)
    requires ManyRun(states, moves) && AllSafe(states[0]) && Distinguished(states[0]) && i < |states|
    requires forall j :: 0 <= j < i ==> NobodyRecorded(states[j])
    ensures AllSafe(states[i]) && Distinguished(states[i])
  {
    if i > 0 {
      RunsKeepAllSafe(states, moves, i - 1);
      assert Moves(states[i - 1], moves[i - 1], states[i]);
      hide AllSafe, NobodyRecorded;
      MoveKeepsAllSafe(states[i - 1], moves[i - 1], states[i]);
    }
  }
}
