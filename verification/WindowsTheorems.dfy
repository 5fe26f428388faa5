/** What holds of every log the Windows back-end may produce. */
module WindowsTheorems {
  import opened Seqs
  import opened Names
  import opened Events
  import opened WindowsProtocol

  // ---- Where everything stands ----

  predicate BackOk(s: State, back: Back) {
    back.Walk? ==> back.id < |s.contexts| && s.guard && back.id in s.active
  }

  function BackOf(point: Point): Back {
    match point
    case Starting(_, back) => back
    case Asking(_, back) => back
    case Registering(_, back) => back
    case Discarding(_, back) => back
    case Complaining(_, walk) => walk
    case Walking(walk) => walk
    case Resolving(_, back) => back
    case Querying(_, back) => back
    case Refusing(_, back) => back
    case Refused(_, back) => back
    case _ => Away
  }

  /** The browse being started, not yet in the registry. */
  predicate Underway(point: Point, id: nat) {
    (point.Asking? || point.Registering? || point.Discarding?) && point.id == id
  }

  /** The raw box in hand. */
  predicate Handling(point: Point, b: nat) {
    (point.Querying? || point.Refusing? || point.Completing?) && point.box == b
  }

  /** The browses active in the OS are the registry's and the one being started;
      their contexts are allocated, and no others; and only the first context can
      be the meta-query's. */
  ghost predicate BrowsesOk(s: State) {
    && (forall i :: i in s.active <==>
          (i in s.registry && s.point != Closing(Some(i))) || (s.point.Registering? && s.point.id == i))
    && (forall i :: i in s.held <==> i in s.registry || Underway(s.point, i))
    && (forall i, j :: 0 <= i < j < |s.registry| ==> s.registry[i] != s.registry[j])
    && (forall i :: i in s.held ==> i < |s.contexts|)
    && (forall i :: Underway(s.point, i) ==> i !in s.registry)
    && (forall i :: 0 < i < |s.contexts| ==> !s.contexts[i].spec.meta)
  }

  /** The raw boxes are those the OS will complete, and the one in hand. */
  ghost predicate BoxesOk(s: State) {
    && (forall b :: b in s.raw <==> b in s.waiting || Handling(s.point, b))
    && (forall b :: Handling(s.point, b) ==> b !in s.waiting)
    && (forall b :: b in s.raw ==> b < |s.boxes|)
  }

  ghost predicate Lifecycle(s: State) {
    BrowsesOk(s) && BoxesOk(s) && PointOk(s)
  }

  ghost predicate PointOk(s: State) {
    && BackOk(s, BackOf(s.point))
    && ((s.point.Complaining? || s.point.Walking?) ==> BackOf(s.point).Walk?)
    && (s.point.Starting? && s.point.back.Root? ==> s.contexts == [] && s.registry == [])
    && (s.point.Starting? && !s.point.back.Root? ==> s.point.back.Walk? && !s.point.spec.meta)
    && ((s.point.Asking? || s.point.Registering? || s.point.Discarding?) ==>
          s.point.back.Walk? || (s.point.back.Root? && s.registry == []))
    && (s.point.Resolving? ==> s.point.back.Walk? && s.point.content.via.Some?)
    && (s.point.Refused? || s.point.Answering? || s.point.Releasing? ==>
          s.point.box < |s.boxes| && s.point.box !in s.raw)
    && (s.point.Releasing? && s.point.later.Some? ==> s.boxes[s.point.box].via.None?)
    && (s.point.Closing? ==> !s.guard && s.registry != [])
    && (s.point.Closing? && s.point.cancelled.Some? ==> s.point.cancelled.value == s.registry[0])
    && (!s.guard && !s.point.Closing? ==> s.registry == [] && forall i :: !Underway(s.point, i))
    && !(s.point.Starting? && !s.guard)
  }

  lemma {:induction false} LifecycleHolds(names: Surgery, root: Spec, log: seq<Action>)
    requires After(names, root, log).Some?
    ensures Lifecycle(After(names, root, log).value)
  {
    hide Step;
    if log != [] {
      LifecycleHolds(names, root, log[..|log| - 1]);
      StepLifecycle(After(names, root, log[..|log| - 1]).value, log[|log| - 1], After(names, root, log).value);
    }
  }

  lemma {:induction false} StepLifecycle(s: State, a: Action, t: State)
    requires Lifecycle(s) && Step(s, a) == Some(t)
    ensures Lifecycle(t)
  {
    match s.point {
      case Starting(spec, back) => StartLifecycle(s, a, t);
      case Asking(id, back) => AskLifecycle(s, a, t);
      case Registering(id, back) => RegisterLifecycle(s, a, t);
      case Discarding(id, back) => AskLifecycle(s, a, t);
      case Idle => IdleLifecycle(s, a, t);
      case Complaining(status, walk) => WalkLifecycle(s, a, t);
      case Walking(walk) => WalkLifecycle(s, a, t);
      case Closing(cancelled) => ClosingLifecycle(s, a, t);
      case _ => BoxLifecycle(s, a, t);
    }
  }

  lemma {:induction false} StartLifecycle(s: State, a: Action, t: State)
    requires Lifecycle(s) && Step(s, a) == Some(t) && s.point.Starting?
    ensures Lifecycle(t)
  {
  }

  lemma {:induction false} AskLifecycle(s: State, a: Action, t: State)
    requires Lifecycle(s) && Step(s, a) == Some(t) && (s.point.Asking? || s.point.Discarding?)
    ensures Lifecycle(t)
  {
  }

  lemma {:induction false} RegisterLifecycle(s: State, a: Action, t: State)
    requires Lifecycle(s) && Step(s, a) == Some(t) && s.point.Registering?
    ensures Lifecycle(t)
  {
    assert t.registry == s.registry + [s.point.id];
    assert Underway(s.point, s.point.id);
    assert forall i :: i in t.registry <==> i in s.registry || i == s.point.id;
    assert forall i :: 0 <= i < |s.registry| ==> t.registry[i] in s.registry;
  }

  lemma {:induction false} IdleLifecycle(s: State, a: Action, t: State)
    requires Lifecycle(s) && Step(s, a) == Some(t) && s.point.Idle?
    ensures Lifecycle(t)
  {
  }

  lemma {:induction false} WalkLifecycle(s: State, a: Action, t: State)
    requires Lifecycle(s) && Step(s, a) == Some(t) && (s.point.Complaining? || s.point.Walking?)
    ensures Lifecycle(t)
  {
    SameBrowses(s, a, t);
    assert t.raw == s.raw && t.waiting == s.waiting && t.boxes == s.boxes;
  }

  /** The points that deal with one resolve. */
  predicate BoxPoint(point: Point) {
    point.Resolving? || point.Querying? || point.Refusing? || point.Refused?
    || point.Completing? || point.Answering? || point.Releasing?
  }

  /** Nothing about the browses changes but their dedup sets. */
  ghost predicate SameBrowsesAfter(s: State, t: State) {
    && t.active == s.active && t.held == s.held && t.registry == s.registry && t.guard == s.guard
    && |t.contexts| == |s.contexts| && (forall i :: 0 <= i < |s.contexts| ==> t.contexts[i].spec == s.contexts[i].spec)
    && !t.point.Closing? && !t.point.Asking? && !t.point.Registering? && !t.point.Discarding?
  }

  /** Points that do not touch the registry or the OS's browses. */
  lemma {:induction false} SameBrowses(s: State, a: Action, t: State)
    requires BrowsesOk(s) && PointOk(s) && Step(s, a) == Some(t)
    requires s.point.Complaining? || s.point.Walking? || BoxPoint(s.point)
    ensures SameBrowsesAfter(s, t) && !a.Free? && !a.Cancel? && !a.OsBrowse?
  {
    hide Step;
    if BoxPoint(s.point) {
      BoxBrowses(s, a, t);
    } else {
      WalkBrowses(s, a, t);
    }
  }

  lemma {:induction false} BoxBrowses(s: State, a: Action, t: State)
    requires PointOk(s) && Step(s, a) == Some(t) && BoxPoint(s.point)
    ensures SameBrowsesAfter(s, t) && !a.Free? && !a.Cancel? && !a.OsBrowse?
  {
  }

  lemma {:induction false} WalkBrowses(s: State, a: Action, t: State)
    requires PointOk(s) && Step(s, a) == Some(t) && (s.point.Complaining? || s.point.Walking?)
    ensures SameBrowsesAfter(s, t) && !a.Free? && !a.Cancel? && !a.OsBrowse?
  {
    if s.point.Walking? {
      var walk := s.point.walk;
      assert StepWalk(s, a, walk.id, walk.todo, walk.list) == Some(t);
    }
  }

  lemma {:induction false} ClosingLifecycle(s: State, a: Action, t: State)
    requires Lifecycle(s) && Step(s, a) == Some(t) && s.point.Closing?
    ensures Lifecycle(t)
  {
    if s.point.cancelled.None? {
      CancelLifecycle(s);
    } else {
      FreeLifecycle(s);
    }
  }

  function Cancelled(s: State): State
    requires s.registry != []
  {
    s.(active := s.active - {s.registry[0]}, point := Closing(Some(s.registry[0])))
  }

  function Freed(s: State): State
    requires s.registry != []
  {
    s.(registry := s.registry[1..], held := s.held - {s.registry[0]},
       point := if |s.registry| == 1 then Idle else Closing(None))
  }

  lemma {:induction false} CancelLifecycle(s: State)
    requires Lifecycle(s) && s.point == Closing(None)
    ensures Lifecycle(Cancelled(s))
  {
  }

  lemma {:induction false} FreeLifecycle(s: State)
    requires Lifecycle(s) && s.point.Closing? && s.point.cancelled.Some?
    ensures Lifecycle(Freed(s))
  {
    var id, rest := s.registry[0], s.registry[1..];
    assert forall i :: 0 <= i < |rest| ==> rest[i] == s.registry[i + 1];
    assert forall i :: i in s.registry <==> i == id || i in rest;
    assert id !in rest;
  }

  lemma {:induction false} BoxLifecycle(s: State, a: Action, t: State)
    requires Lifecycle(s) && Step(s, a) == Some(t)
    requires BoxPoint(s.point)
    ensures Lifecycle(t)
  {
    SameBrowses(s, a, t);
    assert BrowsesOk(t);
    StepBoxes(s, a, t);
  }

  lemma {:induction false} StepBoxes(s: State, a: Action, t: State)
    requires BoxesOk(s) && PointOk(s) && Step(s, a) == Some(t)
    requires BoxPoint(s.point)
    requires t.active == s.active && t.registry == s.registry && t.guard == s.guard && t.contexts == s.contexts
    ensures BoxesOk(t) && PointOk(t)
  {
    hide Outcome, Handle, StepWalk, StepIdle, StepStart;
    if s.point.Refusing? || s.point.Completing? {
      assert s.point.box !in t.raw;
    } else if !s.point.Resolving? {
      assert t.raw == s.raw;
    }
  }

  // ---- Each thing once ----

  function Times(log: seq<Action>, a: Action): nat {
    if log == [] then 0 else Times(log[..|log| - 1], a) + if log[|log| - 1] == a then 1 else 0
  }

  function Bit(b: bool): nat { if b then 1 else 0 }

  predicate Gone(s: State, id: nat) { id < |s.contexts| && id !in s.held }

  lemma {:induction false} StepBrowse(s: State, a: Action, t: State, id: nat)
    requires Lifecycle(s) && Step(s, a) == Some(t)
    ensures Bit(Gone(t, id)) == Bit(Gone(s, id)) + Bit(a == Free(id))
    ensures Bit(id in t.active) + Bit(a == Cancel(id)) == Bit(id in s.active) + Bit(a == OsBrowse(id, DNS_REQUEST_PENDING))
  {
    hide Step;
    if BoxPoint(s.point) || s.point.Walking? || s.point.Complaining? {
      SameBrowses(s, a, t);
    } else {
      OtherBrowse(s, a, t, id);
    }
  }

  lemma {:induction false} OtherBrowse(s: State, a: Action, t: State, id: nat)
    requires Lifecycle(s) && Step(s, a) == Some(t)
    requires !BoxPoint(s.point) && !s.point.Walking? && !s.point.Complaining?
    ensures Bit(Gone(t, id)) == Bit(Gone(s, id)) + Bit(a == Free(id))
    ensures Bit(id in t.active) + Bit(a == Cancel(id)) == Bit(id in s.active) + Bit(a == OsBrowse(id, DNS_REQUEST_PENDING))
  {
    if s.point.Closing? {
      assert s.registry[0] in s.registry;
    }
  }

  /** Every context is freed at most once, and exactly the allocated, unfreed ones
      are held; every browse the OS accepted is cancelled at most once, and exactly
      the accepted, uncancelled ones are active. */
  lemma {:induction false} BrowseOnce(names: Surgery, root: Spec, log: seq<Action>, id: nat)
    requires After(names, root, log).Some?
    ensures var s := After(names, root, log).value;
            && Times(log, Free(id)) == Bit(Gone(s, id))
            && Times(log, OsBrowse(id, DNS_REQUEST_PENDING)) == Times(log, Cancel(id)) + Bit(id in s.active)
  {
    hide Step;
    if log != [] {
      var before := log[..|log| - 1];
      BrowseOnce(names, root, before, id);
      LifecycleHolds(names, root, before);
      StepBrowse(After(names, root, before).value, log[|log| - 1], After(names, root, log).value, id);
    }
  }

  predicate Reclaimed(s: State, b: nat) { b < |s.boxes| && b !in s.raw }

  predicate AnswerDue(point: Point, b: nat) {
    (point.Refused? || point.Answering? || (point.Releasing? && point.later.Some?)) && point.box == b
  }

  predicate InstanceDue(point: Point, b: nat) {
    ((point.Completing? && point.instance.Some?) || (point.Answering? && point.held) || point.Releasing?) && point.box == b
  }

  predicate Answers(a: Action, b: nat) { a.Answer? && a.box == b }
  predicate Completes(a: Action, b: nat) { a.Complete? && a.box == b }

  function CountAnswers(log: seq<Action>, b: nat): nat {
    if log == [] then 0 else CountAnswers(log[..|log| - 1], b) + Bit(Answers(log[|log| - 1], b))
  }

  function CountCompletions(log: seq<Action>, b: nat): nat {
    if log == [] then 0 else CountCompletions(log[..|log| - 1], b) + Bit(Completes(log[|log| - 1], b))
  }

  /** Instances the OS handed over with completions of `b`. */
  function CountInstances(log: seq<Action>, b: nat): nat {
    if log == [] then 0
    else
      var a := log[|log| - 1];
      CountInstances(log[..|log| - 1], b) + Bit(Completes(a, b) && a.instance.Some?)
  }

  lemma {:induction false} StepRaw(s: State, a: Action, t: State, b: nat)
    requires Lifecycle(s) && Step(s, a) == Some(t)
    ensures Bit(Reclaimed(t, b)) == Bit(Reclaimed(s, b)) + Bit(a == Reclaim(b))
  {
    hide Step;
    if BoxPoint(s.point) {
      BoxNext(s, a, t);
      BoxRaw(s, a, t);
    } else {
      OtherNext(s, a, t);
      OtherRaw(s, a, t);
    }
  }

  lemma {:induction false} BoxRaw(s: State, a: Action, t: State)
    requires BoxesOk(s) && Step(s, a) == Some(t) && BoxPoint(s.point)
    ensures if a.Reclaim? then a.box in s.raw && t.raw == s.raw - {a.box} && t.boxes == s.boxes
            else if a.Leak? then t.raw == s.raw + {|s.boxes|} && t.boxes == s.boxes + [a.content]
            else t.raw == s.raw && t.boxes == s.boxes
  {
    BoxNext(s, a, t);
    if s.point.Refusing? || s.point.Completing? {
      assert Handling(s.point, s.point.box);
    }
  }

  lemma {:induction false} OtherRaw(s: State, a: Action, t: State)
    requires Step(s, a) == Some(t) && !BoxPoint(s.point)
    ensures if a.Leak? then t.raw == s.raw + {|s.boxes|} && t.boxes == s.boxes + [a.content]
            else t.raw == s.raw && t.boxes == s.boxes
  {
  }

  lemma {:induction false} StepWaiting(s: State, a: Action, t: State, b: nat)
    requires Lifecycle(s) && Step(s, a) == Some(t)
    ensures Bit(b in t.waiting) + Bit(Completes(a, b)) == Bit(b in s.waiting) + Bit(a == OsResolve(b, DNS_REQUEST_PENDING))
  {
    hide Step;
    if s.point.Querying? {
      QueryWaiting(s, a, t);
      assert Handling(s.point, s.point.box);
    } else {
      IdleWaiting(s, a, t);
    }
  }

  lemma {:induction false} QueryWaiting(s: State, a: Action, t: State)
    requires Step(s, a) == Some(t) && s.point.Querying?
    ensures a.OsResolve? && a.box == s.point.box
    ensures t.waiting == if a.status == DNS_REQUEST_PENDING then s.waiting + {a.box} else s.waiting
  {
  }

  lemma {:induction false} IdleWaiting(s: State, a: Action, t: State)
    requires Step(s, a) == Some(t) && !s.point.Querying?
    ensures !a.OsResolve?
    ensures if a.Complete? then a.box in s.waiting && t.waiting == s.waiting - {a.box} else t.waiting == s.waiting
  {
    if !s.point.Idle? {
      assert !a.Complete?;
    }
  }

  /** How the points that deal with one resolve follow each other. */
  lemma {:induction false} BoxNext(s: State, a: Action, t: State)
    requires Step(s, a) == Some(t) && BoxPoint(s.point)
    ensures var p, q := s.point, t.point;
            && (p.Resolving? ==> q.Walking? || q.Idle? || (a.Leak? && q.Querying?))
            && (p.Resolving? || p.Querying? ==> !a.Answer? && !a.Reclaim? && !a.FreeInstance? && !a.Complete?)
            && (p.Querying? ==> q.Walking? || q.Idle? || q.Refusing?)
            && (p.Refusing? ==> a == Reclaim(p.box) && q.Refused? && q.box == p.box)
            && (p.Refused? ==> a.Answer? && a.box == p.box && (q.Walking? || q.Idle?))
            && (p.Completing? ==>
                  && a == Reclaim(p.box)
                  && if q.Releasing? then q.box == p.box && p.instance.Some? && q.later.Some?
                     else q.Answering? && q.box == p.box && q.held == p.instance.Some?)
            && (p.Answering? ==>
                  a.Answer? && a.box == p.box && q == if p.held then Releasing(p.box, None) else Idle)
            && (p.Releasing? ==>
                  && a == FreeInstance(p.box)
                  && q == if p.later.Some? then Answering(p.box, p.later.value, false) else Idle)
  {
  }

  /** The other points neither answer nor release anything. */
  lemma {:induction false} OtherNext(s: State, a: Action, t: State)
    requires Step(s, a) == Some(t) && !BoxPoint(s.point)
    ensures !t.point.Refused? && !t.point.Answering? && !t.point.Releasing?
    ensures !a.Answer? && !a.Reclaim? && !a.FreeInstance?
    ensures if a.Complete? then s.point.Idle? && t.point == Completing(a.box, a.status, a.instance) else !t.point.Completing?
  {
    if s.point.Walking? {
      assert t.point.Walking? || t.point.Starting? || t.point.Resolving? || t.point.Idle?;
    } else if s.point.Closing? {
      assert t.point.Closing? || t.point.Idle?;
    }
  }

  lemma {:induction false} StepDue(s: State, a: Action, t: State, b: nat)
    requires Step(s, a) == Some(t)
    ensures Bit(AnswerDue(t.point, b)) + Bit(Answers(a, b)) == Bit(AnswerDue(s.point, b)) + Bit(a == Reclaim(b))
    ensures Bit(InstanceDue(t.point, b)) + Bit(a == FreeInstance(b))
         == Bit(InstanceDue(s.point, b)) + Bit(Completes(a, b) && a.instance.Some?)
  {
    hide Step;
    if BoxPoint(s.point) {
      BoxNext(s, a, t);
    } else {
      OtherNext(s, a, t);
    }
  }

  /** Every box passed through `into_raw` is reclaimed at most once, and exactly the
      leaked, unreclaimed ones are raw; each one reclaimed is answered exactly once
      (its answer may still be due); each resolve the OS took is completed once or
      still waiting; and each instance handed over is freed exactly once. */
  lemma {:induction false} BoxOnce(names: Surgery, root: Spec, log: seq<Action>, b: nat)
    requires After(names, root, log).Some?
    ensures var s := After(names, root, log).value;
            && Times(log, Reclaim(b)) == Bit(Reclaimed(s, b))
            && CountAnswers(log, b) + Bit(AnswerDue(s.point, b)) == Times(log, Reclaim(b))
            && Times(log, OsResolve(b, DNS_REQUEST_PENDING)) == CountCompletions(log, b) + Bit(b in s.waiting)
            && CountInstances(log, b) == Times(log, FreeInstance(b)) + Bit(InstanceDue(s.point, b))
  {
    hide Step;
    if log != [] {
      var before := log[..|log| - 1];
      BoxOnce(names, root, before, b);
      LifecycleHolds(names, root, before);
      var s, a, t := After(names, root, before).value, log[|log| - 1], After(names, root, log).value;
      StepRaw(s, a, t, b);
      StepWaiting(s, a, t, b);
      StepDue(s, a, t, b);
    }
  }

  /** An answer speaks of the box it answers: its name, type and domain. */
  predicate Concerns(event: Event, box: Box) {
    match event
    case Failed(error) => error == ResolveFailed(box.name)
    case Found(service) =>
      service.name == box.name && service.serviceType == box.serviceType && service.domain == box.domain
    case Removed(_, _, _, _) => false
  }

  /** The answer on its way, if any. */
  function Coming(point: Point): Option<Event> {
    match point
    case Answering(_, event, _) => Some(event)
    case Releasing(_, later) => later
    case _ => None
  }

  predicate Identified(s: State) {
    Coming(s.point).Some? ==> s.point.box < |s.boxes| && Concerns(Coming(s.point).value, s.boxes[s.point.box])
  }

  lemma {:induction false} StepIdentified(s: State, a: Action, t: State)
    requires Lifecycle(s) && Identified(s) && Step(s, a) == Some(t)
    ensures Identified(t)
    ensures a.Answer? ==> a.box < |s.boxes| && Concerns(a.event, s.boxes[a.box])
  {
    if s.point.Completing? {
      assert Concerns(Outcome(s, s.boxes[s.point.box], s.point.status, s.point.instance), s.boxes[s.point.box]);
      assert t.boxes == s.boxes;
    } else if BoxPoint(s.point) {
      BoxNext(s, a, t);
      BoxRaw(s, a, t);
    } else {
      OtherNext(s, a, t);
    }
  }

  lemma {:induction false} IdentifiedHolds(names: Surgery, root: Spec, log: seq<Action>)
    requires After(names, root, log).Some?
    ensures Identified(After(names, root, log).value)
  {
    hide Step;
    if log != [] {
      var before := log[..|log| - 1];
      IdentifiedHolds(names, root, before);
      LifecycleHolds(names, root, before);
      StepIdentified(After(names, root, before).value, log[|log| - 1], After(names, root, log).value);
    }
  }

  /** Every answer of every run is a failure naming its box, or a service under its
      box's identity, whatever identity the OS's instance came with. */
  lemma {:induction false} AnswersConcernTheirBox(names: Surgery, root: Spec, log: seq<Action>, i: nat)
    requires After(names, root, log).Some? && i < |log| && log[i].Answer?
    ensures After(names, root, log[..i]).Some?
    ensures var boxes := After(names, root, log[..i]).value.boxes;
            log[i].box < |boxes| && Concerns(log[i].event, boxes[log[i].box])
  {
    hide Step, Lifecycle, After, Concerns;
    var before := log[..i];
    PrefixAccepted(names, root, log, i + 1);
    AfterSnoc(names, root, before, log[i]);
    assert before + [log[i]] == log[..i + 1];
    IdentifiedHolds(names, root, before);
    LifecycleHolds(names, root, before);
    StepIdentified(After(names, root, before).value, log[i], After(names, root, log[..i + 1]).value);
  }

  /** What was answered on a box: events on the stream, or a one-shot's result. */
  function AnswersTo(log: seq<Action>, b: nat): seq<Event> {
    if log == [] then []
    else
      var rest, a := AnswersTo(log[..|log| - 1], b), log[|log| - 1];
      if Answers(a, b) then rest + [a.event] else rest
  }

  lemma {:induction false} BoxesStay(s: State, a: Action, t: State)
    requires BoxesOk(s) && Step(s, a) == Some(t)
    ensures s.boxes <= t.boxes
  {
    if BoxPoint(s.point) {
      BoxRaw(s, a, t);
    } else {
      OtherRaw(s, a, t);
    }
  }

  lemma {:induction false} AnswersCollected(names: Surgery, root: Spec, log: seq<Action>, b: nat)
    requires After(names, root, log).Some?
    ensures |AnswersTo(log, b)| == CountAnswers(log, b)
    ensures var boxes := After(names, root, log).value.boxes;
            forall e :: e in AnswersTo(log, b) ==> b < |boxes| && Concerns(e, boxes[b])
  {
    hide Step, Lifecycle, Concerns;
    if log != [] {
      var before := log[..|log| - 1];
      AnswersCollected(names, root, before, b);
      IdentifiedHolds(names, root, before);
      LifecycleHolds(names, root, before);
      var s, a, t := After(names, root, before).value, log[|log| - 1], After(names, root, log).value;
      StepIdentified(s, a, t);
      BoxesHold(s);
      BoxesStay(s, a, t);
    }
  }

  lemma {:induction false} BoxesHold(s: State)
    requires Lifecycle(s)
    ensures BoxesOk(s)
  {
  }

  /** Between callbacks, a resolve the OS has not completed is unanswered, and any
      other has been answered once, under its own identity: a one-shot's caller
      never finds its channel closed without a result. */
  lemma {:induction false} EachBoxAnswered(names: Surgery, root: Spec, log: seq<Action>, b: nat)
    requires After(names, root, log).Some?
    requires var s := After(names, root, log).value; s.point.Idle? && b < |s.boxes|
    ensures var s := After(names, root, log).value;
            if b in s.waiting then AnswersTo(log, b) == []
            else |AnswersTo(log, b)| == 1 && Concerns(AnswersTo(log, b)[0], s.boxes[b])
  {
    LifecycleHolds(names, root, log);
    BoxOnce(names, root, log, b);
    AnswersCollected(names, root, log, b);
  }

  // ---- Memory behind the pointers ----

  function CountAllocations(log: seq<Action>): nat {
    if log == [] then 0 else CountAllocations(log[..|log| - 1]) + Bit(log[|log| - 1].Allocate?)
  }

  function CountLeaks(log: seq<Action>): nat {
    if log == [] then 0 else CountLeaks(log[..|log| - 1]) + Bit(log[|log| - 1].Leak?)
  }

  /** Record lists the OS handed over. */
  function CountLists(log: seq<Action>): nat {
    if log == [] then 0
    else
      var a := log[|log| - 1];
      CountLists(log[..|log| - 1]) + Bit(a.Callback? && a.records != [])
  }

  /** A record list is in hand, to be walked or freed. */
  predicate ListHeld(point: Point) { BackOf(point).Walk? && BackOf(point).list }

  /** What is left to walk belongs to a list in hand. */
  predicate Listed(point: Point) { BackOf(point).Walk? && BackOf(point).todo != [] ==> BackOf(point).list }

  lemma {:induction false} StepLists(s: State, a: Action, t: State)
    requires PointOk(s) && Listed(s.point) && Step(s, a) == Some(t)
    ensures Listed(t.point)
    ensures Bit(ListHeld(t.point)) + Bit(a == FreeRecords) == Bit(ListHeld(s.point)) + Bit(a.Callback? && a.records != [])
  {
    if s.point.Walking? {
      var walk := s.point.walk;
      assert StepWalk(s, a, walk.id, walk.todo, walk.list) == Some(t);
    } else if s.point.Idle? {
      assert StepIdle(s, a) == Some(t);
    } else if BoxPoint(s.point) {
      BoxBack(s, a, t);
    } else {
      OtherBack(s, a, t);
    }
  }

  /** Elsewhere the list a walk will go on with stays as it is. */
  lemma {:induction false} BoxBack(s: State, a: Action, t: State)
    requires PointOk(s) && Step(s, a) == Some(t) && BoxPoint(s.point)
    ensures a != FreeRecords && !a.Callback? && !a.Send? && !t.point.Complaining?
    ensures if BackOf(s.point).Walk? then BackOf(t.point) == BackOf(s.point) else !BackOf(t.point).Walk?
  {
  }

  lemma {:induction false} OtherBack(s: State, a: Action, t: State)
    requires PointOk(s) && Step(s, a) == Some(t) && !BoxPoint(s.point) && !s.point.Walking? && !s.point.Idle?
    ensures a != FreeRecords && !a.Callback?
    ensures if BackOf(s.point).Walk? then BackOf(t.point) == BackOf(s.point) else !BackOf(t.point).Walk?
  {
  }

  lemma {:induction false} StepNumbers(s: State, a: Action, t: State)
    requires Lifecycle(s) && Step(s, a) == Some(t)
    ensures |t.contexts| == |s.contexts| + Bit(a.Allocate?)
    ensures |t.boxes| == |s.boxes| + Bit(a.Leak?)
  {
    if BoxPoint(s.point) {
      BoxRaw(s, a, t);
      SameBrowses(s, a, t);
    } else {
      OtherRaw(s, a, t);
      if s.point.Walking? {
        SameBrowses(s, a, t);
      } else if !s.point.Starting? {
        assert t.contexts == s.contexts && !a.Allocate?;
      }
    }
  }

  /** Contexts and boxes are numbered as they are made; a record list handed over
      is freed once, at the end of its walk. */
  lemma {:induction false} MemoryCounted(names: Surgery, root: Spec, log: seq<Action>)
    requires After(names, root, log).Some?
    ensures var s := After(names, root, log).value;
            && |s.contexts| == CountAllocations(log) && |s.boxes| == CountLeaks(log)
            && Listed(s.point) && CountLists(log) == Times(log, FreeRecords) + Bit(ListHeld(s.point))
  {
    hide Step, Lifecycle;
    if log != [] {
      var before := log[..|log| - 1];
      MemoryCounted(names, root, before);
      LifecycleHolds(names, root, before);
      var s, a, t := After(names, root, before).value, log[|log| - 1], After(names, root, log).value;
      StepNumbers(s, a, t);
      PointHolds(s);
      StepLists(s, a, t);
    }
  }

  lemma {:induction false} PointHolds(s: State)
    requires Lifecycle(s)
    ensures PointOk(s)
  {
  }

  /** What the OS and the boundary may rely on, at every action of every run: a
      browse is started, walked and called back for only while its context and query
      name are allocated; callbacks, walks and cancellations reach only accepted
      browses that are neither cancelled nor freed; a context is freed once, and
      only after its browse, if accepted, was cancelled; a resolve is started and
      completed, and its box reclaimed, only while the box is raw; and records are
      read and freed only while their list is in hand. */
  lemma {:induction false} NativeSafety(names: Surgery, root: Spec, log: seq<Action>, i: nat)
    requires After(names, root, log).Some? && i < |log|
    ensures var before, a := log[..i], log[i];
            && (a.Callback? || a.Visit? || a.Cancel? ==> Active(before, a.id) && Allocated(before, a.id))
            && (a.OsBrowse? || a.Free? ==> !Active(before, a.id) && Allocated(before, a.id))
            && (a.OsResolve? ==> !Owed(before, a.box) && Raw(before, a.box))
            && (a.Complete? ==> Owed(before, a.box) && Raw(before, a.box))
            && (a.Reclaim? ==> Raw(before, a.box) && CountAnswers(before, a.box) == 0)
            && (a.Visit? || a.FreeRecords? ==> CountLists(before) == Times(before, FreeRecords) + 1)
  {
    hide Step, Lifecycle, After;
    var before, a := log[..i], log[i];
    PrefixAccepted(names, root, log, i + 1);
    AfterSnoc(names, root, before, a);
    assert before + [a] == log[..i + 1];
    LifecycleHolds(names, root, before);
    StepTarget(After(names, root, before).value, a);
    MemoryCounted(names, root, before);
    if a.Callback? || a.Visit? || a.Cancel? || a.Free? || a.OsBrowse? {
      BrowseOnce(names, root, before, a.id);
    } else if a.OsResolve? || a.Complete? || a.Reclaim? {
      BoxOnce(names, root, before, a.box);
    }
  }

  /** Accepted by the OS and not cancelled since. */
  predicate Active(log: seq<Action>, id: nat) {
    Times(log, OsBrowse(id, DNS_REQUEST_PENDING)) == Times(log, Cancel(id)) + 1
  }

  /** The context was allocated and has not been freed. */
  predicate Allocated(log: seq<Action>, id: nat) {
    id < CountAllocations(log) && Times(log, Free(id)) == 0
  }

  /** The OS took the resolve and has not completed it. */
  predicate Owed(log: seq<Action>, b: nat) {
    Times(log, OsResolve(b, DNS_REQUEST_PENDING)) == CountCompletions(log, b) + 1
  }

  /** The box was leaked and has not been taken back. */
  predicate Raw(log: seq<Action>, b: nat) {
    b < CountLeaks(log) && Times(log, Reclaim(b)) == 0
  }

  lemma {:induction false} StepTarget(s: State, a: Action)
    requires Lifecycle(s) && Step(s, a).Some?
    ensures a.Callback? || a.Visit? || a.Cancel? ==> a.id in s.active && a.id in s.held && a.id < |s.contexts|
    ensures a.Free? || a.OsBrowse? ==> a.id !in s.active && a.id in s.held && a.id < |s.contexts|
    ensures a.OsResolve? ==> a.box !in s.waiting && a.box in s.raw && a.box < |s.boxes|
    ensures a.Complete? ==> a.box in s.waiting && a.box in s.raw && a.box < |s.boxes|
    ensures a.Reclaim? ==> a.box in s.raw && a.box < |s.boxes|
    ensures a.FreeRecords? ==> ListHeld(s.point)
    ensures a.Visit? && Listed(s.point) ==> ListHeld(s.point)
  {
    if s.point.Closing? {
      assert s.registry[0] in s.registry;
    } else if s.point.Discarding? || s.point.Asking? {
      assert Underway(s.point, s.point.id);
    } else if s.point.Refusing? || s.point.Completing? || s.point.Querying? {
      assert Handling(s.point, s.point.box);
    }
  }

  /** Once the guard is gone and its teardown done: every accepted browse has been
      cancelled exactly once, every context freed exactly once, and every box is
      either waiting for its completion or reclaimed and answered exactly once. */
  lemma {:induction false} AfterTeardown(names: Surgery, root: Spec, log: seq<Action>, id: nat, b: nat)
    requires After(names, root, log).Some?
    requires var s := After(names, root, log).value; !s.guard && s.point.Idle?
    ensures id < CountAllocations(log) ==>
              && Times(log, Free(id)) == 1
              && Times(log, Cancel(id)) == Times(log, OsBrowse(id, DNS_REQUEST_PENDING))
    ensures b < CountLeaks(log) ==>
              if b in After(names, root, log).value.waiting
              then Times(log, Reclaim(b)) == 0 && CountAnswers(log, b) == 0
              else Times(log, Reclaim(b)) == 1 && CountAnswers(log, b) == 1 && CountInstances(log, b) == Times(log, FreeInstance(b))
  {
    hide Step;
    LifecycleHolds(names, root, log);
    MemoryCounted(names, root, log);
    BrowseOnce(names, root, log, id);
    BoxOnce(names, root, log, b);
  }

  // ---- What reaches the stream ----

  /** The errors the browses' callbacks reported, in order. */
  function FailedCallbacks(log: seq<Action>): seq<Event> {
    if log == [] then []
    else
      var rest, a := FailedCallbacks(log[..|log| - 1]), log[|log| - 1];
      if a.Callback? && a.status != 0 then rest + [Failed(BrowseFailed(BrowseReply, a.status))] else rest
  }

  /** The events sent by browse callbacks, in order. */
  function Sends(log: seq<Action>): seq<Event> {
    if log == [] then []
    else
      var rest, a := Sends(log[..|log| - 1]), log[|log| - 1];
      if a.Send? then rest + [a.event] else rest
  }

  function Complaint(point: Point): seq<Event> {
    if point.Complaining? then [Failed(BrowseFailed(BrowseReply, point.status))] else []
  }

  /** Browse callbacks send exactly the errors they were called with, each before
      anything else the callback does. */
  lemma {:induction false} SendsExplained(names: Surgery, root: Spec, log: seq<Action>)
    requires After(names, root, log).Some?
    ensures Sends(log) + Complaint(After(names, root, log).value.point) == FailedCallbacks(log)
  {
    hide Step, Complaint, Lifecycle;
    if log != [] {
      var before := log[..|log| - 1];
      SendsExplained(names, root, before);
      LifecycleHolds(names, root, before);
      PointHolds(After(names, root, before).value);
      StepComplaint(After(names, root, before).value, log[|log| - 1], After(names, root, log).value);
    } else {
      NoComplaint(names, root);
    }
  }

  lemma {:induction false} NoComplaint(names: Surgery, root: Spec)
    ensures Complaint(Initial(names, root).point) == []
  {
  }

  lemma {:induction false} StepComplaint(s: State, a: Action, t: State)
    requires PointOk(s) && Step(s, a) == Some(t)
    ensures if a.Send? then Complaint(s.point) == [a.event] && Complaint(t.point) == []
            else if a.Callback? && a.status != 0 then
              Complaint(s.point) == [] && Complaint(t.point) == [Failed(BrowseFailed(BrowseReply, a.status))]
            else Complaint(s.point) == Complaint(t.point) == []
  {
    hide Step;
    if BoxPoint(s.point) {
      BoxBack(s, a, t);
    } else {
      OtherComplaint(s, a, t);
    }
  }

  lemma {:induction false} OtherComplaint(s: State, a: Action, t: State)
    requires Step(s, a) == Some(t) && !BoxPoint(s.point)
    ensures a.Send? <==> s.point.Complaining?
    ensures s.point.Complaining? ==> Complaint(s.point) == [a.event] && t.point.Walking?
    ensures t.point.Complaining? <==> a.Callback? && a.status != 0
    ensures t.point.Complaining? ==> s.point.Idle? && t.point.status == a.status
  {
    if s.point.Walking? {
      var walk := s.point.walk;
      assert StepWalk(s, a, walk.id, walk.todo, walk.list) == Some(t);
    }
  }

  function CountAllAnswers(log: seq<Action>): nat {
    if log == [] then 0 else CountAllAnswers(log[..|log| - 1]) + Bit(log[|log| - 1].Answer?)
  }

  /** Some answer is due. */
  predicate AnyDue(point: Point) {
    point.Refused? || point.Answering? || (point.Releasing? && point.later.Some?)
  }

  lemma {:induction false} StepAnyDue(s: State, a: Action, t: State)
    requires Step(s, a) == Some(t)
    ensures Bit(AnyDue(t.point)) + Bit(a.Answer?) == Bit(AnyDue(s.point)) + Bit(a.Reclaim?)
  {
    if BoxPoint(s.point) {
      BoxNext(s, a, t);
    } else {
      OtherNext(s, a, t);
    }
  }

  lemma {:induction false} StepRawCount(s: State, a: Action, t: State)
    requires Lifecycle(s) && Step(s, a) == Some(t)
    ensures |t.raw| + Bit(a.Reclaim?) == |s.raw| + Bit(a.Leak?)
  {
    hide Step;
    if BoxPoint(s.point) {
      BoxRaw(s, a, t);
      BoxNext(s, a, t);
    } else {
      OtherRaw(s, a, t);
      OtherNext(s, a, t);
    }
    if a.Leak? {
      assert |s.boxes| !in s.raw;
    }
  }

  /** Every resolve started is still with the OS, being answered, or answered. */
  lemma {:induction false} AnswersConserved(names: Surgery, root: Spec, log: seq<Action>)
    requires After(names, root, log).Some?
    ensures var s := After(names, root, log).value;
            CountAllAnswers(log) + Bit(AnyDue(s.point)) + |s.raw| == CountLeaks(log)
  {
    hide Step, Lifecycle, AnyDue;
    if log != [] {
      var before := log[..|log| - 1];
      AnswersConserved(names, root, before);
      LifecycleHolds(names, root, before);
      var s, a, t := After(names, root, before).value, log[|log| - 1], After(names, root, log).value;
      StepAnyDue(s, a, t);
      StepRawCount(s, a, t);
    } else {
      NothingDue(names, root);
    }
  }

  lemma {:induction false} NothingDue(names: Surgery, root: Spec)
    ensures !AnyDue(Initial(names, root).point)
  {
  }

  // ---- One attempt per name heard ----

  predicate Hears(a: Action, id: nat) {
    a.Visit? && a.id == id && a.record.kind == DNS_TYPE_PTR
  }

  /** Targets of the PTR records a browse was handed, in order, repeats included. */
  function Heard(names: Surgery, log: seq<Action>, id: nat): seq<string> {
    if log == [] then []
    else
      var rest, a := Heard(names, log[..|log| - 1], id), log[|log| - 1];
      if Hears(a, id) then rest + [names.trim(a.record.target)] else rest
  }

  predicate Attempts(a: Action, id: nat) {
    (a.Reject? && a.via == Some(id)) || (a.Allocate? && a.spec.via == Some(id)) || (a.Leak? && a.content.via == Some(id))
  }

  function Target(a: Action): string
    requires a.Reject? || a.Allocate? || a.Leak?
  {
    match a case Reject(_, name) => name case Allocate(spec) => spec.query case Leak(content) => content.full
  }

  /** Names for which a child browse or a resolve was attempted, in order. */
  function Attempted(log: seq<Action>, id: nat): seq<string> {
    if log == [] then []
    else
      var rest, a := Attempted(log[..|log| - 1], id), log[|log| - 1];
      if Attempts(a, id) then rest + [Target(a)] else rest
  }

  /** The name about to be attempted. */
  function Pending(point: Point, id: nat): seq<string> {
    if point.Starting? && point.spec.via == Some(id) then [point.spec.query]
    else if point.Resolving? && point.content.via == Some(id) then [point.content.full]
    else []
  }

  function SeenBy(s: State, id: nat): set<string> {
    if id < |s.contexts| then s.contexts[id].seen else {}
  }

  /** A PTR record heard for the first time makes one name due. */
  lemma {:induction false} StepHeard(s: State, a: Action, t: State, id: nat)
    requires Lifecycle(s) && Step(s, a) == Some(t) && Hears(a, id)
    ensures var target := s.names.trim(a.record.target);
            && SeenBy(t, id) == SeenBy(s, id) + {target}
            && Pending(s.point, id) == []
            && Pending(t.point, id) == if target in SeenBy(s, id) then [] else [target]
  {
    assert s.point.Walking? && s.point.walk.Walk? && s.point.walk.id == id;
    var target := s.names.trim(a.record.target);
    if target in s.contexts[id].seen {
      assert SeenBy(t, id) == SeenBy(s, id);
    }
  }

  /** Names fall due only while a record list is walked. */
  lemma {:induction false} OnlyWalksFall(s: State, a: Action, t: State)
    requires Step(s, a) == Some(t) && !s.point.Walking? && PointOk(s)
    ensures !t.point.Starting? && !t.point.Resolving?
  {
    if BoxPoint(s.point) {
      BoxNext(s, a, t);
    } else if s.point.Closing? {
      assert t.point.Closing? || t.point.Idle?;
    }
  }

  /** Any other action attempts what is due, or changes nothing. */
  lemma {:induction false} StepUnheard(s: State, a: Action, t: State, id: nat)
    requires Lifecycle(s) && Step(s, a) == Some(t) && !Hears(a, id)
    ensures SeenBy(t, id) == SeenBy(s, id)
    ensures Pending(s.point, id) == (if Attempts(a, id) then [Target(a)] else []) + Pending(t.point, id)
  {
    hide Step;
    if s.point.Walking? {
      WalkUnheard(s, a, t, id);
    } else {
      OnlyWalksFall(s, a, t);
      if BoxPoint(s.point) {
        BoxUnheard(s, a, t, id);
      } else {
        OtherUnheard(s, a, t, id);
      }
    }
  }

  lemma {:induction false} OtherUnheard(s: State, a: Action, t: State, id: nat)
    requires Step(s, a) == Some(t) && !BoxPoint(s.point) && !s.point.Walking?
    ensures SeenBy(t, id) == SeenBy(s, id)
    ensures Attempts(a, id) <==> s.point.Starting? && s.point.spec.via == Some(id)
    ensures s.point.Starting? && Attempts(a, id) ==> Target(a) == s.point.spec.query
  {
    if !s.point.Starting? {
      assert t.contexts == s.contexts && !a.Allocate?;
    }
  }

  lemma {:induction false} BoxUnheard(s: State, a: Action, t: State, id: nat)
    requires PointOk(s) && Step(s, a) == Some(t) && BoxPoint(s.point)
    ensures t.contexts == s.contexts
    ensures Pending(s.point, id) == if Attempts(a, id) then [Target(a)] else []
  {
    BoxNext(s, a, t);
  }

  lemma {:induction false} WalkUnheard(s: State, a: Action, t: State, id: nat)
    requires Lifecycle(s) && Step(s, a) == Some(t) && !Hears(a, id) && s.point.Walking?
    ensures SeenBy(t, id) == SeenBy(s, id)
    ensures Pending(t.point, id) == [] && !Attempts(a, id)
  {
    var walk := s.point.walk;
    assert StepWalk(s, a, walk.id, walk.todo, walk.list) == Some(t);
    if walk.id == id {
      assert t.point == Idle || t.point.Walking?;
    }
  }

  lemma {:induction false} StepKeepsNames(s: State, a: Action, t: State)
    requires Step(s, a) == Some(t)
    ensures t.names == s.names
  {
  }

  lemma {:induction false} SeenIsHeard(names: Surgery, root: Spec, log: seq<Action>, id: nat)
    requires After(names, root, log).Some?
    ensures After(names, root, log).value.names == names
    ensures forall name :: name in SeenBy(After(names, root, log).value, id) <==> name in Heard(names, log, id)
  {
    hide Step;
    if log != [] {
      var before, a := log[..|log| - 1], log[|log| - 1];
      SeenIsHeard(names, root, before, id);
      LifecycleHolds(names, root, before);
      var s, t := After(names, root, before).value, After(names, root, log).value;
      StepKeepsNames(s, a, t);
      if Hears(a, id) {
        StepHeard(s, a, t, id);
      } else {
        StepUnheard(s, a, t, id);
      }
    }
  }

  lemma {:induction false} CascadeStep(s: State, a: Action, t: State, id: nat, heard: seq<string>, attempted: seq<string>)
    requires Lifecycle(s) && Step(s, a) == Some(t)
    requires forall name :: name in SeenBy(s, id) <==> name in heard
    requires attempted + Pending(s.point, id) == Dedup(heard)
    ensures attempted + (if Attempts(a, id) then [Target(a)] else []) + Pending(t.point, id)
         == Dedup(if Hears(a, id) then heard + [s.names.trim(a.record.target)] else heard)
  {
    hide Step, Lifecycle, Dedup, Pending;
    if Hears(a, id) {
      StepHeard(s, a, t, id);
      DedupSnoc(heard, s.names.trim(a.record.target));
      assert attempted + [] == attempted;
    } else {
      StepUnheard(s, a, t, id);
    }
  }

  /** At every moment, for every browse: the names attempted, with the one about to
      be, are the PTR targets heard with repeats dropped, in order. */
  lemma {:induction false} CascadeRefinesDedup(names: Surgery, root: Spec, log: seq<Action>, id: nat)
    requires After(names, root, log).Some? && root.via.None?
    ensures Attempted(log, id) + Pending(After(names, root, log).value.point, id) == Dedup(Heard(names, log, id))
  {
    hide Step;
    if log != [] {
      var before, a := log[..|log| - 1], log[|log| - 1];
      CascadeRefinesDedup(names, root, before, id);
      LifecycleHolds(names, root, before);
      SeenIsHeard(names, root, before, id);
      CascadeStep(After(names, root, before).value, a, After(names, root, log).value, id,
                  Heard(names, before, id), Attempted(before, id));
      assert Attempted(log, id) == Attempted(before, id) + if Attempts(a, id) then [Target(a)] else [];
    }
  }

  // ---- Names along the cascade ----

  /** A child browse was heard of by a meta browse, and its type and domain are what
      the surgery splits its target into, falling back on that browse's domain. */
  ghost predicate SpecNamed(s: State, spec: Spec) {
    spec.via.Some? ==>
      && spec.via.value < |s.contexts| && !spec.meta
      && var heard := s.contexts[spec.via.value].spec;
         heard.meta && (spec.serviceType, spec.domain) == s.names.split(spec.query, heard.domain)
  }

  /** A resolve was heard of by an instance browse, and is named by stripping that
      browse's type and domain. */
  ghost predicate BoxNamed(s: State, box: Box) {
    box.via.Some? ==>
      box.via.value < |s.contexts|
      && var spec := s.contexts[box.via.value].spec;
         !spec.meta && box.name == s.names.strip(box.full, spec.serviceType, spec.domain)
         && box.serviceType == spec.serviceType && box.domain == spec.domain
  }

  ghost predicate Named(s: State) {
    && (forall i :: 0 <= i < |s.contexts| ==> SpecNamed(s, s.contexts[i].spec))
    && (forall b :: 0 <= b < |s.boxes| ==> BoxNamed(s, s.boxes[b]))
    && (s.point.Starting? ==> SpecNamed(s, s.point.spec))
    && (s.point.Resolving? ==> BoxNamed(s, s.point.content))
  }

  /** Contexts only grow, and keep what they were started with. */
  ghost predicate Grows(s: State, t: State) {
    && t.names == s.names && |s.contexts| <= |t.contexts|
    && forall i :: 0 <= i < |s.contexts| ==> t.contexts[i].spec == s.contexts[i].spec
  }

  lemma {:induction false} StepGrows(s: State, a: Action, t: State)
    requires Lifecycle(s) && Step(s, a) == Some(t)
    ensures Grows(s, t)
    ensures |t.contexts| == |s.contexts| ||
              (s.point.Starting? && |t.contexts| == |s.contexts| + 1 && t.contexts[|s.contexts|].spec == s.point.spec)
  {
    hide Step;
    StepKeepsNames(s, a, t);
    if BoxPoint(s.point) || s.point.Walking? || s.point.Complaining? {
      SameBrowses(s, a, t);
    } else {
      StartGrows(s, a, t);
    }
  }

  lemma {:induction false} StartGrows(s: State, a: Action, t: State)
    requires Step(s, a) == Some(t) && !BoxPoint(s.point) && !s.point.Walking? && !s.point.Complaining?
    ensures t.contexts == s.contexts
         || (s.point.Starting? && exists context :: t.contexts == s.contexts + [context] && context.spec == s.point.spec)
  {
    if s.point.Starting? {
      assert t.contexts == s.contexts || t.contexts == s.contexts + [Context(s.point.spec, {})];
    } else {
      assert t.contexts == s.contexts;
    }
  }

  /** A new box is a one-shot's, or the one due. */
  ghost predicate LeaksAtMost(s: State, t: State) {
    t.boxes == s.boxes ||
    exists box :: t.boxes == s.boxes + [box] && (box.via.None? || (s.point.Resolving? && box == s.point.content))
  }

  lemma {:induction false} StepLeaks(s: State, a: Action, t: State)
    requires BoxesOk(s) && Step(s, a) == Some(t)
    ensures LeaksAtMost(s, t)
  {
    if BoxPoint(s.point) {
      BoxRaw(s, a, t);
      assert a.Leak? ==> s.point.Resolving? && a.content == s.point.content;
    } else {
      OtherRaw(s, a, t);
      assert a.Leak? ==> a.content.via.None?;
    }
  }

  lemma {:induction false} SpecsKept(s: State, t: State)
    requires Named(s) && Grows(s, t)
    requires |t.contexts| == |s.contexts| ||
               (s.point.Starting? && |t.contexts| == |s.contexts| + 1 && t.contexts[|s.contexts|].spec == s.point.spec)
    ensures forall i :: 0 <= i < |t.contexts| ==> SpecNamed(t, t.contexts[i].spec)
  {
    forall i | 0 <= i < |t.contexts|
      ensures SpecNamed(t, t.contexts[i].spec)
    {
      if i < |s.contexts| {
        assert SpecNamed(s, s.contexts[i].spec);
      }
    }
  }

  lemma {:induction false} BoxesKept(s: State, t: State)
    requires Named(s) && Grows(s, t)
    requires LeaksAtMost(s, t)
    ensures forall b :: 0 <= b < |t.boxes| ==> BoxNamed(t, t.boxes[b])
  {
    forall b | 0 <= b < |t.boxes|
      ensures BoxNamed(t, t.boxes[b])
    {
      assert b < |s.boxes| ==> t.boxes[b] == s.boxes[b];
      assert BoxNamed(s, t.boxes[b]);
    }
  }

  lemma {:induction false} StepNamed(s: State, a: Action, t: State)
    requires Lifecycle(s) && Named(s) && Step(s, a) == Some(t)
    ensures Named(t)
  {
    hide Step;
    StepGrows(s, a, t);
    StepLeaks(s, a, t);
    SpecsKept(s, t);
    BoxesKept(s, t);
    if s.point.Walking? {
      WalkNamed(s, a, t);
    } else {
      OnlyWalksFall(s, a, t);
    }
  }

  lemma {:induction false} WalkNamed(s: State, a: Action, t: State)
    requires Lifecycle(s) && Step(s, a) == Some(t) && s.point.Walking?
    ensures t.point.Starting? ==> SpecNamed(t, t.point.spec)
    ensures t.point.Resolving? ==> BoxNamed(t, t.point.content)
  {
    var walk := s.point.walk;
    assert StepWalk(s, a, walk.id, walk.todo, walk.list) == Some(t);
  }

  lemma {:induction false} NamedHolds(names: Surgery, root: Spec, log: seq<Action>)
    requires After(names, root, log).Some? && root.via.None?
    ensures Named(After(names, root, log).value)
  {
    hide Step;
    if log != [] {
      var before := log[..|log| - 1];
      NamedHolds(names, root, before);
      LifecycleHolds(names, root, before);
      StepNamed(After(names, root, before).value, log[|log| - 1], After(names, root, log).value);
    }
  }

  /** The cascade finds labels again: for an instance `instance.target` heard by the
      browse started for `target`, the resolve is named `instance`, dots and all,
      exactly when the target had a domain to split off. */
  lemma {:induction false} CascadeFindsLabel(names: Surgery, root: Spec, log: seq<Action>, b: nat, instance: string)
    requires After(names, root, log).Some? && root.via.None? && Genuine(names)
    requires var s := After(names, root, log).value;
             && b < |s.boxes| && s.boxes[b].via.Some? && s.boxes[b].via.value < |s.contexts|
             && s.contexts[s.boxes[b].via.value].spec.via.Some?
             && s.boxes[b].full == instance + "." + s.contexts[s.boxes[b].via.value].spec.query
    ensures var s := After(names, root, log).value;
            s.boxes[b].name == instance <==> '.' in s.contexts[s.boxes[b].via.value].spec.query
  {
    SeenIsHeard(names, root, log, 0);
    NamedHolds(names, root, log);
    var s := After(names, root, log).value;
    var box := s.boxes[b];
    var spec := s.contexts[box.via.value].spec;
    assert BoxNamed(s, box) && SpecNamed(s, spec);
    LabelRecovered(instance, spec.query, s.contexts[spec.via.value].spec.domain);
  }

  // ---- The caller's own browse ----

  ghost predicate Rooted(s: State, root: Spec) {
    && (s.contexts != [] ==> s.contexts[0].spec == root)
    && (s.contexts == [] && s.point.Starting? ==> s.point.spec == root)
  }

  lemma {:induction false} FirstIsRoot(names: Surgery, root: Spec, log: seq<Action>)
    requires After(names, root, log).Some?
    ensures Rooted(After(names, root, log).value, root)
  {
    hide Step, Lifecycle;
    if log != [] {
      var before := log[..|log| - 1];
      FirstIsRoot(names, root, before);
      LifecycleHolds(names, root, before);
      StepRooted(After(names, root, before).value, log[|log| - 1], After(names, root, log).value, root);
    }
  }

  lemma {:induction false} StepRooted(s: State, a: Action, t: State, root: Spec)
    requires Lifecycle(s) && Rooted(s, root) && Step(s, a) == Some(t)
    ensures Rooted(t, root)
  {
    hide Step;
    StepGrows(s, a, t);
    if !s.point.Walking? {
      OnlyWalksFall(s, a, t);
    }
  }

  /** A browse for one given type finds labels again: for an instance announced under
      the caller's type and domain, the resolve is named `instance` exactly under the
      conditions of `RootLabelRecovered`. */
  lemma {:induction false} RootFindsLabel(
      names: Surgery, serviceType: string, domain: Option<string>, log: seq<Action>, b: nat, instance: string)
    requires After(names, RootSpec(Some(serviceType), domain), log).Some? && Genuine(names)
    requires var s := After(names, RootSpec(Some(serviceType), domain), log).value;
             && b < |s.boxes| && s.boxes[b].via == Some(0)
             && s.boxes[b].full == TrimDot(instance + "." + RootSpec(Some(serviceType), domain).query)
    ensures var name := After(names, RootSpec(Some(serviceType), domain), log).value.boxes[b].name;
            name == instance <==> LabelKept(instance, RootSpec(Some(serviceType), domain).query)
  {
    var root := RootSpec(Some(serviceType), domain);
    SeenIsHeard(names, root, log, 0);
    NamedHolds(names, root, log);
    FirstIsRoot(names, root, log);
    var s := After(names, root, log).value;
    assert BoxNamed(s, s.boxes[b]);
    RootLabelRecovered(instance, serviceType, root.domain);
  }
}
