/** What a Windows resolve is answered with, and what a browse reads, said by the OS's
    own completions and callbacks. */
module WindowsAnswers {
  import opened Seqs
  import opened Names
  import opened Events
  import opened WindowsProtocol
  import opened WindowsTheorems

  /** The status and the instance the OS completed a resolve with, if it did. */
  function Completion(log: seq<Action>, b: nat): Option<(int, Option<Service>)> {
    if log == [] then None
    else
      var a := log[|log| - 1];
      if a.Complete? && a.box == b then Some((a.status, a.instance)) else Completion(log[..|log| - 1], b)
  }

  /** Found exactly for status 0 with an instance, and then the instance's data, its
      host name trimmed, under the box's name, type and domain. */
  ghost predicate RightAnswer(names: Surgery, box: Box, completion: Option<(int, Option<Service>)>, event: Event) {
    if completion.Some? && completion.value.0 == 0 && completion.value.1.Some? then
      var instance := completion.value.1.value;
      event == Found(Service(
        box.name, box.serviceType, box.domain, names.trim(instance.hostName), instance.port,
        instance.addresses, instance.txt, instance.interface))
    else event == Failed(ResolveFailed(box.name))
  }

  /** A resolve being started, or refused. */
  predicate Uncompleted(point: Point, b: nat) {
    (point.Querying? || point.Refusing? || point.Refused?) && point.box == b
  }

  ghost predicate Known(s: State, b: nat, completion: Option<(int, Option<Service>)>) {
    && (b >= |s.boxes| || b in s.waiting || Uncompleted(s.point, b) ==> completion == None)
    && (s.point.Completing? && s.point.box == b ==> completion == Some((s.point.status, s.point.instance)))
    && (Coming(s.point).Some? && s.point.box == b ==>
          b < |s.boxes| && RightAnswer(s.names, s.boxes[b], completion, Coming(s.point).value))
  }

  lemma {:induction false} StepKnown(s: State, a: Action, t: State, b: nat, completion: Option<(int, Option<Service>)>)
    requires Lifecycle(s) && Known(s, b, completion) && Step(s, a) == Some(t)
    ensures Known(t, b, if Completes(a, b) then Some((a.status, a.instance)) else completion)
    ensures Answers(a, b) ==> b < |s.boxes| && RightAnswer(s.names, s.boxes[b], completion, a.event)
  {
    hide Step, Lifecycle, RightAnswer;
    StepKeepsNames(s, a, t);
    BoxesHold(s);
    if s.point.Completing? {
      CompletingKnown(s, a, t, b, completion);
    } else if BoxPoint(s.point) {
      StartingKnown(s, a, t, b, completion);
    } else {
      OtherNext(s, a, t);
      OtherRaw(s, a, t);
      IdleWaiting(s, a, t);
      OtherQuery(s, a, t);
    }
  }

  lemma {:induction false} CompletingKnown(s: State, a: Action, t: State, b: nat, completion: Option<(int, Option<Service>)>)
    requires Known(s, b, completion) && Step(s, a) == Some(t) && s.point.Completing?
    ensures Known(t, b, completion) && !a.Complete? && !a.Answer?
  {
    assert t.boxes == s.boxes && t.waiting == s.waiting && t.names == s.names;
    assert Coming(t.point) == Some(Outcome(s, s.boxes[s.point.box], s.point.status, s.point.instance));
  }

  lemma {:induction false} StartingKnown(s: State, a: Action, t: State, b: nat, completion: Option<(int, Option<Service>)>)
    requires BoxesOk(s) && Known(s, b, completion) && Step(s, a) == Some(t) && BoxPoint(s.point) && !s.point.Completing?
    ensures Known(t, b, completion) && !a.Complete?
    ensures Answers(a, b) ==> b < |s.boxes| && RightAnswer(s.names, s.boxes[b], completion, a.event)
  {
    hide Step;
    StepKeepsNames(s, a, t);
    BoxNext(s, a, t);
    BoxRaw(s, a, t);
    if s.point.Querying? {
      QueryWaiting(s, a, t);
    } else {
      IdleWaiting(s, a, t);
    }
    BoxTurns(s, a, t);
  }

  /** The events and boxes the points that deal with one resolve hand on. */
  lemma {:induction false} BoxTurns(s: State, a: Action, t: State)
    requires Step(s, a) == Some(t) && BoxPoint(s.point)
    ensures s.point.Refused? ==> s.point.box < |s.boxes| && a == Answer(s.point.box, Failed(ResolveFailed(s.boxes[s.point.box].name)))
    ensures s.point.Answering? ==> a == Answer(s.point.box, s.point.event)
    ensures s.point.Resolving? && t.point.Querying? ==> t.point.box == |s.boxes|
    ensures s.point.Querying? && t.point.Refusing? ==> t.point.box == s.point.box
    ensures a.Leak? ==> s.point.Resolving? && t.point.Querying?
  {
  }

  /** Elsewhere a box comes into hand only as it is leaked. */
  lemma {:induction false} OtherQuery(s: State, a: Action, t: State)
    requires Step(s, a) == Some(t) && !BoxPoint(s.point)
    ensures !t.point.Refusing? && !t.point.Refused?
    ensures t.point.Querying? ==> a.Leak? && t.point.box == |s.boxes|
  {
    if s.point.Walking? {
      var walk := s.point.walk;
      assert StepWalk(s, a, walk.id, walk.todo, walk.list) == Some(t);
      assert t.point.Walking? || t.point.Starting? || t.point.Resolving? || t.point.Idle?;
    }
  }

  /** Every answer is the right one for the OS's completion of its resolve; a resolve
      the OS refused is answered with a failure. */
  lemma {:induction false} AnswersAreRight(names: Surgery, root: Spec, log: seq<Action>, b: nat)
    requires After(names, root, log).Some?
    ensures var s := After(names, root, log).value;
            && Known(s, b, Completion(log, b))
            && forall e :: e in AnswersTo(log, b) ==>
                 b < |s.boxes| && RightAnswer(names, s.boxes[b], Completion(log, b), e)
  {
    hide Step, Lifecycle, RightAnswer, Known;
    if log != [] {
      var before := log[..|log| - 1];
      AnswersAreRight(names, root, before, b);
      LifecycleHolds(names, root, before);
      SeenIsHeard(names, root, before, 0);
      var s, a, t := After(names, root, before).value, log[|log| - 1], After(names, root, log).value;
      StepKnown(s, a, t, b, Completion(before, b));
      BoxesHold(s);
      BoxesStay(s, a, t);
      if Completes(a, b) {
        StepTarget(s, a);
        BoxOnce(names, root, before, b);
        AnswersCollected(names, root, before, b);
      }
    } else {
      NothingKnown(names, root, b);
    }
  }

  lemma {:induction false} NothingKnown(names: Surgery, root: Spec, b: nat)
    ensures Known(Initial(names, root), b, None)
  {
  }

  /** Between callbacks, a resolve the OS still owes is unanswered; any other has the
      one right answer. */
  lemma {:induction false} OneRightAnswer(names: Surgery, root: Spec, log: seq<Action>, b: nat)
    requires After(names, root, log).Some?
    requires var s := After(names, root, log).value; s.point.Idle? && b < |s.boxes|
    ensures var s := After(names, root, log).value;
            if b in s.waiting then AnswersTo(log, b) == []
            else |AnswersTo(log, b)| == 1 && RightAnswer(names, s.boxes[b], Completion(log, b), AnswersTo(log, b)[0])
  {
    hide RightAnswer, Known;
    EachBoxAnswered(names, root, log, b);
    AnswersAreRight(names, root, log, b);
  }

  // ---- Every record is read ----

  /** The records the OS passed to a browse's callbacks, in order. */
  function Delivered(log: seq<Action>, id: nat): seq<Record> {
    if log == [] then []
    else
      var a := log[|log| - 1];
      Delivered(log[..|log| - 1], id) + if a.Callback? && a.id == id then a.records else []
  }

  function Visited(log: seq<Action>, id: nat): seq<Record> {
    if log == [] then []
    else
      var a := log[|log| - 1];
      Visited(log[..|log| - 1], id) + if a.Visit? && a.id == id then [a.record] else []
  }

  /** The records of a browse still to be read. */
  function Unread(point: Point, id: nat): seq<Record> {
    if BackOf(point).Walk? && BackOf(point).id == id then BackOf(point).todo else []
  }

  /** Whatever its status, a callback's records are all read, in order. */
  lemma {:induction false} AllRecordsRead(names: Surgery, root: Spec, log: seq<Action>, id: nat)
    requires After(names, root, log).Some?
    ensures Visited(log, id) + Unread(After(names, root, log).value.point, id) == Delivered(log, id)
  {
    hide Step, Lifecycle, Unread;
    if log != [] {
      var before := log[..|log| - 1];
      AllRecordsRead(names, root, before, id);
      LifecycleHolds(names, root, before);
      var s, a, t := After(names, root, before).value, log[|log| - 1], After(names, root, log).value;
      PointHolds(s);
      StepUnread(s, a, t, id);
      if a.Visit? && a.id == id {
        Regroup(Visited(before, id), [a.record], Unread(t.point, id));
      }
    } else {
      NothingUnread(names, root, id);
    }
  }

  lemma {:induction false} NothingUnread(names: Surgery, root: Spec, id: nat)
    ensures Unread(Initial(names, root).point, id) == []
  {
  }

  lemma {:induction false} StepUnread(s: State, a: Action, t: State, id: nat)
    requires PointOk(s) && Step(s, a) == Some(t)
    ensures if a.Callback? && a.id == id then Unread(s.point, id) == [] && Unread(t.point, id) == a.records
            else if a.Visit? && a.id == id then Unread(s.point, id) == [a.record] + Unread(t.point, id)
            else Unread(t.point, id) == Unread(s.point, id)
  {
    if s.point.Walking? {
      var walk := s.point.walk;
      assert StepWalk(s, a, walk.id, walk.todo, walk.list) == Some(t);
      if walk.todo != [] {
        assert BackOf(t.point) == Walk(walk.id, walk.todo[1..], walk.list);
      }
    } else if s.point.Idle? {
      assert StepIdle(s, a) == Some(t);
    } else if BoxPoint(s.point) {
      BoxBack(s, a, t);
      assert !a.Visit?;
    } else {
      OtherBack(s, a, t);
      assert !a.Visit?;
    }
  }

  // ---- What a request turns into ----

  /** The caller's own browse is started as asked for. */
  ghost predicate RootAsRequested(spec: Spec, serviceType: Option<string>, domain: Option<string>) {
    && spec.domain == (if domain.Some? then domain.value else "local")
    && (serviceType.Some? ==>
          spec.query == serviceType.value + "." + spec.domain && spec.serviceType == serviceType.value && !spec.meta)
    && (serviceType.None? ==>
          spec.query == spec.serviceType == "_services._dns-sd._udp.local" && spec.meta)
  }

  /** The first context is the caller's; every other was heard of by it, and only if no
      service type was asked for. */
  lemma {:induction false} ContextsAsRequested(
      names: Surgery, serviceType: Option<string>, domain: Option<string>, log: seq<Action>, i: nat)
    requires After(names, RootSpec(serviceType, domain), log).Some?
    requires i < |After(names, RootSpec(serviceType, domain), log).value.contexts|
    ensures SpecRequested(After(names, RootSpec(serviceType, domain), log).value.contexts[i].spec, i, serviceType, domain)
  {
    hide Step;
    var root := RootSpec(serviceType, domain);
    FirstIsRoot(names, root, log);
    NamedHolds(names, root, log);
    LifecycleHolds(names, root, log);
    LaterAreChildren(names, root, log);
    var s := After(names, root, log).value;
    assert SpecNamed(s, s.contexts[i].spec);
  }

  ghost predicate ContextsRequested(contexts: seq<Context>, serviceType: Option<string>, domain: Option<string>) {
    forall i :: 0 <= i < |contexts| ==> SpecRequested(contexts[i].spec, i, serviceType, domain)
  }

  ghost predicate SpecRequested(spec: Spec, i: nat, serviceType: Option<string>, domain: Option<string>) {
    if i == 0 then spec.via == None && RootAsRequested(spec, serviceType, domain)
    else spec.via == Some(0) && serviceType == None
  }

  lemma {:induction false} AllAsRequested(
      names: Surgery, serviceType: Option<string>, domain: Option<string>, log: seq<Action>)
    requires After(names, RootSpec(serviceType, domain), log).Some?
    ensures ContextsRequested(After(names, RootSpec(serviceType, domain), log).value.contexts, serviceType, domain)
  {
    var contexts := After(names, RootSpec(serviceType, domain), log).value.contexts;
    forall i | 0 <= i < |contexts|
      ensures SpecRequested(contexts[i].spec, i, serviceType, domain)
    {
      ContextsAsRequested(names, serviceType, domain, log, i);
    }
  }

  ghost predicate Fathered(s: State) {
    && (forall i :: 0 < i < |s.contexts| ==> s.contexts[i].spec.via.Some?)
    && (s.point.Starting? && s.contexts != [] ==> s.point.spec.via.Some?)
  }

  lemma {:induction false} LaterAreChildren(names: Surgery, root: Spec, log: seq<Action>)
    requires After(names, root, log).Some?
    ensures Fathered(After(names, root, log).value)
  {
    hide Step, Lifecycle;
    if log != [] {
      var before := log[..|log| - 1];
      LaterAreChildren(names, root, before);
      LifecycleHolds(names, root, before);
      StepFathered(After(names, root, before).value, log[|log| - 1], After(names, root, log).value);
    }
  }

  lemma {:induction false} StepFathered(s: State, a: Action, t: State)
    requires Lifecycle(s) && Fathered(s) && Step(s, a) == Some(t)
    ensures Fathered(t)
  {
    hide Step;
    StepGrows(s, a, t);
    if s.point.Walking? {
      WalkFathered(s, a, t);
    } else {
      OnlyWalksFall(s, a, t);
    }
  }

  lemma {:induction false} WalkFathered(s: State, a: Action, t: State)
    requires PointOk(s) && Step(s, a) == Some(t) && s.point.Walking?
    ensures t.point.Starting? ==> t.point.spec.via.Some?
  {
    var walk := s.point.walk;
    assert StepWalk(s, a, walk.id, walk.todo, walk.list) == Some(t);
  }
}
