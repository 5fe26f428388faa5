/** The Windows back-end: browse contexts the OS holds raw pointers to, the registry
    that owns them, and the resolve contexts leaked to the OS until it completes
    them. The `Os` decides what happens next; its methods demand what the API and
    the pointers demand of the code. */
module Windows {
  import opened Seqs
  import opened Names
  import opened Events
  import opened WindowsProtocol
  import opened WindowsTheorems
  import opened WindowsAnswers

  /** Everything native; `log` is everything that happened. */
  class Os {
    const names: Surgery
    const root: Spec
    var log: seq<Action>
    var active: set<nat>
    var waiting: set<nat>
    ghost var state: State

    ghost predicate Valid()
      reads this
    {
      && After(names, root, log) == Some(state) && state.names == names
      && active == state.active && waiting == state.waiting
    }

    constructor (names: Surgery, root: Spec)
      ensures Valid() && this.names == names && this.root == root && log == [] && state == Initial(names, root)
    {
      this.names, this.root := names, root;
      log, active, waiting, state := [], {}, {}, Initial(names, root);
    }

    method Record(a: Action)
      requires Valid() && Step(state, a).Some?
      modifies this
      ensures Valid() && Some(state) == Step(old(state), a) && log == old(log) + [a]
    {
      hide After, Step;
      ghost var next := Step(state, a).value;
      AfterSnoc(names, root, log, a);
      StepKeepsNames(state, a, next);
      StepActive(state, a, next);
      StepWaits(state, a, next);
      log, state := log + [a], next;
      active := NowActive(active, a);
      waiting := NowWaiting(waiting, a);
    }
  }

  /** What the OS may call back for, and complete, after an action. */
  function NowActive(active: set<nat>, a: Action): set<nat> {
    if a.OsBrowse? && a.status == DNS_REQUEST_PENDING then active + {a.id}
    else if a.Cancel? then active - {a.id} else active
  }

  function NowWaiting(waiting: set<nat>, a: Action): set<nat> {
    if a.OsResolve? && a.status == DNS_REQUEST_PENDING then waiting + {a.box}
    else if a.Complete? then waiting - {a.box} else waiting
  }

  lemma {:induction false} StepActive(s: State, a: Action, t: State)
    requires Step(s, a) == Some(t)
    ensures t.active == NowActive(s.active, a)
  {
    if !s.point.Asking? && !s.point.Closing? {
      assert t.active == s.active && !a.OsBrowse? && !a.Cancel?;
    }
  }

  lemma {:induction false} StepWaits(s: State, a: Action, t: State)
    requires Step(s, a) == Some(t)
    ensures t.waiting == NowWaiting(s.waiting, a)
  {
    if !s.point.Querying? && !s.point.Idle? {
      assert t.waiting == s.waiting && !a.OsResolve? && !a.Complete?;
    }
  }

  lemma {:induction false} HandledIsRaw(names: Surgery, root: Spec, log: seq<Action>, b: nat)
    requires After(names, root, log).Some? && Handling(After(names, root, log).value.point, b)
    ensures b in After(names, root, log).value.raw && b < |After(names, root, log).value.boxes|
  {
    LifecycleHolds(names, root, log);
  }

  /** The context of a callback's browse, and that of a walk, is allocated. */
  lemma {:induction false} ActiveIsHeld(names: Surgery, root: Spec, log: seq<Action>, id: nat)
    requires After(names, root, log).Some? && id in After(names, root, log).value.active
    ensures id in After(names, root, log).value.held && id < |After(names, root, log).value.contexts|
  {
    LifecycleHolds(names, root, log);
  }

  lemma {:induction false} WalkedIsHeld(names: Surgery, root: Spec, log: seq<Action>)
    requires After(names, root, log).Some? && After(names, root, log).value.point.Walking?
    ensures After(names, root, log).value.point.walk.Walk?
    ensures After(names, root, log).value.point.walk.id in After(names, root, log).value.held
  {
    LifecycleHolds(names, root, log);
  }

  /** What the OS passes back to `browse_callback`, with its set of names handled. */
  class BrowseContext {
    const spec: Spec
    var seen: set<string>

    constructor (spec: Spec)
      ensures this.spec == spec && seen == {}
    {
      this.spec, seen := spec, {};
    }
  }

  /** How starting something went: the name was unfit for the OS, or the OS answered. */
  datatype Attempt = Unfit | Answered(status: int)
  {
    predicate Started() { this == Answered(DNS_REQUEST_PENDING) }
  }

  /** What starting a browse in context `id` amounts to. */
  function BrowseLog(spec: Spec, id: nat, attempt: Attempt): seq<Action> {
    match attempt
    case Unfit => [Reject(spec.via, spec.query)]
    case Answered(status) => [Allocate(spec), OsBrowse(id, status), if attempt.Started() then Register(id) else Free(id)]
  }

  /** What starting a resolve with box `b` amounts to. */
  function ResolveLog(content: Box, b: nat, attempt: Attempt): seq<Action> {
    match attempt
    case Unfit => [Reject(content.via, content.full)]
    case Answered(status) => [Leak(content)] + QueryLog(content, b, status)
  }

  function QueryLog(content: Box, b: nat, status: int): seq<Action> {
    [OsResolve(b, status)]
      + if status == DNS_REQUEST_PENDING then [] else [Reclaim(b), Answer(b, Failed(ResolveFailed(content.name)))]
  }

  /** The browse a meta browse starts for a type, and the resolve an instance
      browse starts for an instance. */
  function ChildSpec(names: Surgery, id: nat, spec: Spec, target: string): Spec {
    var (serviceType, domain) := names.split(target, spec.domain);
    Spec(Some(id), target, serviceType, domain, false)
  }

  function InstanceBox(names: Surgery, id: nat, spec: Spec, target: string): Box {
    Box(Some(id), target, names.strip(target, spec.serviceType, spec.domain), spec.serviceType, spec.domain)
  }

  /** The code's own memory. A context's address is its index in `contexts`, a
      leaked box's its index in `boxes`; both outlive what they point to, so a
      method that uses one, or has the OS use it, demands that it is still
      allocated: `held` for a context and its query name, `raw` for a box. */
  class Backend {
    const os: Os
    var contexts: seq<BrowseContext>
    var boxes: seq<Box>
    /** The registry's entries, and whether the guard still owns them. */
    var registry: seq<nat>
    var guarded: bool

    ghost predicate Tracks(s: State)
      reads this, contexts
    {
      && |contexts| == |s.contexts| && boxes == s.boxes && registry == s.registry
      && (forall i :: 0 <= i < |contexts| ==> Context(contexts[i].spec, contexts[i].seen) == s.contexts[i])
      && (forall i, j :: 0 <= i < j < |contexts| ==> contexts[i] != contexts[j])
    }

    /** Nothing of the code is running. */
    ghost predicate Ready()
      reads this, contexts, os
    {
      os.Valid() && Tracks(os.state) && guarded == os.state.guard && os.state.point == Idle
    }

    /** Contexts are added, never moved. */
    twostate predicate Kept()
      reads this
    {
      old(contexts) <= contexts && forall i :: |old(contexts)| <= i < |contexts| ==> fresh(contexts[i])
    }

    constructor (os: Os)
      requires os.Valid() && os.state == Initial(os.names, os.root)
      ensures this.os == os && Tracks(os.state) && guarded && contexts == []
    {
      this.os := os;
      contexts, boxes, registry, guarded := [], [], [], true;
    }

    method NewContext(spec: Spec, ghost back: Back) returns (id: nat)
      requires os.Valid() && Tracks(os.state) && os.state.point == Starting(spec, back) && !HasNul(spec.query)
      modifies this`contexts, os
      ensures os.Valid() && Tracks(os.state) && Kept()
      ensures id == |old(contexts)| == |contexts| - 1 && contexts[id].spec == spec && id in os.state.held
      ensures os.state.point == Asking(id, back) && os.state.guard == old(os.state).guard
      ensures os.log == old(os.log) + [Allocate(spec)]
    {
      id := |contexts|;
      var context := new BrowseContext(spec);
      os.Record(Allocate(spec));
      contexts := contexts + [context];
    }

    /** `DnsServiceBrowse`, and either way of going on. */
    method Launch(id: nat, ghost back: Back) returns (status: int)
      requires os.Valid() && Tracks(os.state) && os.state.point == Asking(id, back) && id in os.state.held
      modifies this`registry, os
      ensures os.Valid() && Tracks(os.state) && os.state.point == Resume(back)
      ensures os.state.guard == (old(os.state).guard && (status == DNS_REQUEST_PENDING || !back.Root?))
      ensures registry == old(registry) + if status == DNS_REQUEST_PENDING then [id] else []
      ensures os.log == old(os.log) + [OsBrowse(id, status), if status == DNS_REQUEST_PENDING then Register(id) else Free(id)]
    {
      status := *;
      os.Record(OsBrowse(id, status));
      if status == DNS_REQUEST_PENDING {
        Enroll(id, back);
      } else {
        os.Record(Free(id));
      }
    }

    method Enroll(id: nat, ghost back: Back)
      requires os.Valid() && Tracks(os.state) && os.state.point == Registering(id, back)
      modifies this`registry, os
      ensures os.Valid() && Tracks(os.state) && os.state.point == Resume(back)
      ensures os.state.guard == old(os.state).guard && registry == old(registry) + [id]
      ensures os.log == old(os.log) + [Register(id)]
    {
      registry := registry + [id];
      os.Record(Register(id));
    }

    /** Allocates the context, starts the browse, and registers it. */
    method StartBrowse(spec: Spec, ghost back: Back) returns (attempt: Attempt)
      requires os.Valid() && Tracks(os.state) && os.state.point == Starting(spec, back)
      modifies this`contexts, this`registry, os
      ensures os.Valid() && Tracks(os.state) && Kept()
      ensures os.state.point == Resume(back)
      ensures os.state.guard == (old(os.state).guard && (attempt.Started() || !back.Root?))
      ensures attempt.Unfit? <==> '\0' in spec.query
      ensures os.log == old(os.log) + BrowseLog(spec, |old(contexts)|, attempt)
      ensures |contexts| == |old(contexts)| + if attempt.Unfit? then 0 else 1
      ensures !attempt.Unfit? ==> contexts[|old(contexts)|].spec == spec
      ensures registry == old(registry) + if attempt.Started() then [|old(contexts)|] else []
    {
      if HasNul(spec.query) {
        os.Record(Reject(spec.via, spec.query));
        return Unfit;
      }
      var id := NewContext(spec, back);
      var status := Launch(id, back);
      attempt := Answered(status);
    }

    /** The context behind a pointer the OS passed in. */
    method Deref(id: nat) returns (context: BrowseContext)
      requires os.Valid() && Tracks(os.state) && id in os.state.held
      ensures id < |contexts| && context == contexts[id]
    {
      LifecycleHolds(os.names, os.root, os.log);
      context := contexts[id];
    }

    /** `Box::into_raw`. */
    method IntoRaw(content: Box) returns (b: nat)
      requires os.Valid() && Tracks(os.state) && Step(os.state, Leak(content)).Some?
      modifies this`boxes, os
      ensures os.Valid() && Tracks(os.state)
      ensures b == |old(boxes)| && boxes == old(boxes) + [content] && os.state.boxes[b] == content
      ensures Step(old(os.state), Leak(content)) == Some(os.state)
      ensures os.state.point.Querying? && os.state.point.box == b && b in os.state.raw
      ensures os.state.guard == old(os.state).guard
      ensures os.log == old(os.log) + [Leak(content)]
    {
      b := |boxes|;
      os.Record(Leak(content));
      boxes := boxes + [content];
    }

    /** `Box::from_raw`: only ever on a box still raw. */
    method FromRaw(b: nat) returns (content: Box)
      requires os.Valid() && Tracks(os.state) && b in os.state.raw && Step(os.state, Reclaim(b)).Some?
      modifies os
      ensures os.Valid() && Tracks(os.state) && Some(os.state) == Step(old(os.state), Reclaim(b))
      ensures b < |boxes| && content == boxes[b]
      ensures os.log == old(os.log) + [Reclaim(b)]
    {
      LifecycleHolds(os.names, os.root, os.log);
      content := boxes[b];
      os.Record(Reclaim(b));
    }

    method StartResolve(content: Box, ghost back: Back) returns (attempt: Attempt)
      requires os.Valid() && Tracks(os.state) && os.state.point == Resolving(content, back)
      modifies this`boxes, os
      ensures os.Valid() && Tracks(os.state) && os.state.point == Resume(back)
      ensures os.state.guard == old(os.state).guard
      ensures attempt.Unfit? <==> '\0' in content.full
      ensures os.log == old(os.log) + ResolveLog(content, |old(boxes)|, attempt)
      ensures boxes == old(boxes) + if attempt.Unfit? then [] else [content]
    {
      if HasNul(content.full) {
        os.Record(Reject(content.via, content.full));
        return Unfit;
      }
      var b := IntoRaw(content);
      var status := Resolve(b, back);
      attempt := Answered(status);
    }

    /** `DnsServiceResolve` on a box just leaked; if the OS refuses, no callback
        will fire, and the box is taken back and answered here. */
    method Resolve(b: nat, ghost back: Back) returns (status: int)
      requires os.Valid() && Tracks(os.state) && os.state.point == Querying(b, back) && b < |boxes| && b in os.state.raw
      modifies os
      ensures os.Valid() && Tracks(os.state) && os.state.point == Resume(back)
      ensures os.state.guard == old(os.state).guard
      ensures os.log == old(os.log) + QueryLog(boxes[b], b, status)
    {
      status := *;
      os.Record(OsResolve(b, status));
      if status != DNS_REQUEST_PENDING {
        Refuse(b, back);
      }
    }

    method Refuse(b: nat, ghost back: Back)
      requires os.Valid() && Tracks(os.state) && os.state.point == Refusing(b, back) && b < |boxes|
      modifies os
      ensures os.Valid() && Tracks(os.state) && os.state.point == Resume(back)
      ensures os.state.guard == old(os.state).guard
      ensures os.log == old(os.log) + [Reclaim(b), Answer(b, Failed(ResolveFailed(boxes[b].name)))]
    {
      HandledIsRaw(os.names, os.root, os.log, b);
      var content := FromRaw(b);
      os.Record(Answer(b, Failed(ResolveFailed(content.name))));
    }

    /** `handle_ptr`, `before` being the back-end just before the record was read;
        `attempt` is what was started for a new name. */
    method HandlePtr(id: nat, context: BrowseContext, record: Record, target: string, ghost rest: Back, ghost before: State)
        returns (ghost attempt: Option<Attempt>)
      requires os.Valid() && Tracks(before) && guarded == before.guard
      requires id < |contexts| && context == contexts[id] && id in os.state.held
      requires record.kind == DNS_TYPE_PTR && target == os.names.trim(record.target) && before.names == os.names
      requires before.point.Walking? && before.point.walk.Walk? && before.point.walk.id == id
      requires Step(before, Visit(id, record)) == Some(os.state)
      requires rest == Walk(id, before.point.walk.todo[1..], before.point.walk.list)
      modifies this`contexts, this`boxes, this`registry, os, context
      ensures os.Valid() && Tracks(os.state) && Kept()
      ensures os.state.point == Walking(rest) && os.state.guard == before.guard
      ensures context.seen == old(context.seen) + {target}
      ensures attempt.Some? <==> target !in old(context.seen) && (context.spec.meta ==> guarded)
      ensures os.log == old(os.log) +
              match attempt
              case None => []
              case Some(started) =>
                if context.spec.meta then BrowseLog(ChildSpec(os.names, id, context.spec, target), |old(contexts)|, started)
                else ResolveLog(InstanceBox(os.names, id, context.spec, target), |old(boxes)|, started)
    {
      hide BrowseLog, ResolveLog;
      attempt := None;
      if target in context.seen {
        return;
      }
      context.seen := context.seen + {target};
      assert Tracks(os.state);
      if context.spec.meta {
        if guarded {
          var started := StartBrowse(ChildSpec(os.names, id, context.spec, target), rest);
          attempt := Some(started);
        }
      } else {
        var started := StartResolve(InstanceBox(os.names, id, context.spec, target), rest);
        attempt := Some(started);
      }
    }

    /** One record of the list the OS passed in. */
    method ReadRecord(id: nat, context: BrowseContext, record: Record, ghost todo: seq<Record>, ghost list: bool)
      requires os.Valid() && Tracks(os.state) && guarded == os.state.guard
      requires id < |contexts| && context == contexts[id] && id in os.state.held
      requires os.state.point == Walking(Walk(id, [record] + todo, list))
      modifies this`contexts, this`boxes, this`registry, os, context
      ensures os.Valid() && Tracks(os.state) && Kept() && guarded == os.state.guard && id in os.state.held
      ensures os.state.point == Walking(Walk(id, todo, list))
      ensures old(os.log) + [Visit(id, record)] <= os.log
    {
      ghost var before := os.state;
      assert ([record] + todo)[1..] == todo;
      os.Record(Visit(id, record));
      if record.kind == DNS_TYPE_PTR {
        var _ := HandlePtr(id, context, record, os.names.trim(record.target), Walk(id, todo, list), before);
      }
      WalkedIsHeld(os.names, os.root, os.log);
    }

    /** The record list, first to last. */
    method ReadRecords(id: nat, context: BrowseContext, records: seq<Record>)
      requires os.Valid() && Tracks(os.state) && guarded == os.state.guard
      requires id < |contexts| && context == contexts[id] && id in os.state.held
      requires os.state.point == Walking(Walk(id, records, records != []))
      modifies this`contexts, this`boxes, this`registry, os, context
      ensures os.Valid() && Tracks(os.state) && Kept() && guarded == os.state.guard
      ensures os.state.point == Walking(Walk(id, [], records != []))
      ensures old(os.log) <= os.log
    {
      hide Step;
      var read := 0;
      while read < |records|
        invariant 0 <= read <= |records| && id < |contexts| && context == contexts[id] && id in os.state.held
        invariant os.Valid() && Tracks(os.state) && Kept() && guarded == os.state.guard
        invariant os.state.point == Walking(Walk(id, records[read..], records != []))
        invariant old(os.log) <= os.log
      {
        assert records[read..] == [records[read]] + records[read + 1..];
        ReadRecord(id, context, records[read], records[read + 1..], records != []);
        read := read + 1;
      }
      assert records[read..] == [];
    }

    /** A browse's status; a failed one is reported and its records still read. */
    method Announce(id: nat, status: int, records: seq<Record>)
      requires os.Valid() && Tracks(os.state) && os.state.point == Idle && id in os.state.active
      modifies os
      ensures os.Valid() && Tracks(os.state) && os.state.guard == old(os.state).guard
      ensures os.state.point == Walking(Walk(id, records, records != []))
      ensures old(os.log) + [Callback(id, status, records)] <= os.log
    {
      os.Record(Callback(id, status, records));
      if status != 0 {
        os.Record(Send(Failed(BrowseFailed(BrowseReply, status))));
      }
    }

    method BrowseCallback(id: nat, status: int, records: seq<Record>)
      requires Ready() && id in os.active
      modifies this`contexts, this`boxes, this`registry, os, contexts
      ensures Ready() && Kept()
      ensures old(os.log) + [Callback(id, status, records)] <= os.log
    {
      hide Step;
      ActiveIsHeld(os.names, os.root, os.log, id);
      var context := Deref(id);
      Announce(id, status, records);
      WalkedIsHeld(os.names, os.root, os.log);
      ReadRecords(id, context, records);
      Return(id, records != []);
    }

    /** The end of the callback: a list passed in is freed. */
    method Return(id: nat, list: bool)
      requires os.Valid() && Tracks(os.state) && os.state.point == Walking(Walk(id, [], list))
      modifies os
      ensures os.Valid() && Tracks(os.state) && os.state.point == Idle && os.state.guard == old(os.state).guard
      ensures old(os.log) <= os.log
    {
      if list {
        os.Record(FreeRecords);
      }
      os.Record(Exit(id));
    }

    /** What both completion callbacks begin with. */
    method TakeBack(b: nat, status: int, instance: Option<Service>) returns (content: Box)
      requires os.Valid() && Tracks(os.state) && os.state.point == Completing(b, status, instance)
      modifies os
      ensures os.Valid() && Tracks(os.state) && os.state.guard == old(os.state).guard
      ensures b < |boxes| && content == boxes[b]
      ensures var event := Outcome(os.state, content, status, instance);
              os.state.point == if content.via.None? && instance.Some? then Releasing(b, Some(event))
                                else Answering(b, event, instance.Some?)
      ensures os.log == old(os.log) + [Reclaim(b)]
    {
      HandledIsRaw(os.names, os.root, os.log, b);
      content := FromRaw(b);
    }

    /** `resolve_callback`, for an instance a browse heard of. */
    method ResolveCallback(b: nat, status: int, instance: Option<Service>)
      requires os.Valid() && Tracks(os.state) && guarded == os.state.guard
      requires os.state.point == Completing(b, status, instance) && b < |boxes| && boxes[b].via.Some?
      modifies os
      ensures Ready()
      ensures exists event ::
                && RightAnswer(os.names, boxes[b], Some((status, instance)), event)
                && os.log == old(os.log) + [Reclaim(b), Answer(b, event)] + if instance.Some? then [FreeInstance(b)] else []
    {
      var content := TakeBack(b, status, instance);
      if status != 0 || instance.None? {
        Deliver(b, Failed(ResolveFailed(content.name)), instance.Some?);
      } else {
        Deliver(b, Found(BuildService(os.names, instance.value, content)), true);
      }
    }

    /** Sends a resolve's event, then frees the instance it came with. */
    method Deliver(b: nat, event: Event, held: bool)
      requires os.Valid() && Tracks(os.state) && os.state.point == Answering(b, event, held)
      modifies os
      ensures os.Valid() && Tracks(os.state) && os.state.point == Idle && os.state.guard == old(os.state).guard
      ensures os.log == old(os.log) + [Answer(b, event)] + if held then [FreeInstance(b)] else []
    {
      os.Record(Answer(b, event));
      if held {
        os.Record(FreeInstance(b));
      }
    }

    /** `resolve_once_callback`: the instance is freed before the answer goes out. */
    method ResolveOnceCallback(b: nat, status: int, instance: Option<Service>)
      requires os.Valid() && Tracks(os.state) && guarded == os.state.guard
      requires os.state.point == Completing(b, status, instance) && b < |boxes| && boxes[b].via.None?
      modifies os
      ensures Ready()
      ensures exists event ::
                && RightAnswer(os.names, boxes[b], Some((status, instance)), event)
                && os.log == old(os.log) + [Reclaim(b)] + (if instance.Some? then [FreeInstance(b)] else []) + [Answer(b, event)]
    {
      var content := TakeBack(b, status, instance);
      if status != 0 || instance.None? {
        DeliverOnce(b, Failed(ResolveFailed(content.name)), instance.Some?);
      } else {
        DeliverOnce(b, Found(BuildService(os.names, instance.value, content)), true);
      }
    }

    method DeliverOnce(b: nat, result: Event, held: bool)
      requires os.Valid() && Tracks(os.state)
      requires os.state.point == if held then Releasing(b, Some(result)) else Answering(b, result, false)
      modifies os
      ensures os.Valid() && Tracks(os.state) && os.state.point == Idle && os.state.guard == old(os.state).guard
      ensures os.log == old(os.log) + (if held then [FreeInstance(b)] else []) + [Answer(b, result)]
    {
      if held {
        os.Record(FreeInstance(b));
      }
      os.Record(Answer(b, result));
    }

    /** The OS completes a resolve: it calls what the box was leaked with. */
    method Completed(b: nat, status: int, instance: Option<Service>)
      requires Ready() && b in os.waiting
      modifies os
      ensures Ready()
      ensures old(os.log) + [Complete(b, status, instance)] <= os.log
    {
      LifecycleHolds(os.names, os.root, os.log);
      os.Record(Complete(b, status, instance));
      if boxes[b].via.Some? {
        ResolveCallback(b, status, instance);
      } else {
        ResolveOnceCallback(b, status, instance);
      }
    }

    /** `resolve_once`, up to where it waits for its answer: a result at once if the
        name is unfit or the OS refuses, or else a box the OS owes a completion. */
    method ResolveOnce(name: string, serviceType: string, domain: string)
        returns (result: Option<Event>, b: nat, ghost attempt: Attempt)
      requires Ready()
      modifies this`boxes, os
      ensures Ready() && b == |old(boxes)|
      ensures var content := Box(None, name + "." + serviceType + "." + domain, name, serviceType, domain);
              && (attempt.Unfit? <==> '\0' in content.full)
              && os.log == old(os.log) + ResolveLog(content, b, attempt)
              && boxes == old(boxes) + if attempt.Unfit? then [] else [content]
      ensures result == if attempt.Started() then None else Some(Failed(ResolveFailed(name)))
      ensures result.None? ==> b in os.waiting
    {
      result, b, attempt := Query(Box(None, FullName(name, serviceType, domain), name, serviceType, domain));
    }

    method Query(content: Box) returns (result: Option<Event>, b: nat, ghost attempt: Attempt)
      requires Ready() && content.via.None?
      modifies this`boxes, os
      ensures Ready() && b == |old(boxes)|
      ensures attempt.Unfit? <==> '\0' in content.full
      ensures os.log == old(os.log) + ResolveLog(content, b, attempt)
      ensures boxes == old(boxes) + if attempt.Unfit? then [] else [content]
      ensures result == if attempt.Started() then None else Some(Failed(ResolveFailed(content.name)))
      ensures result.None? ==> b in os.waiting
    {
      b := |boxes|;
      if HasNul(content.full) {
        os.Record(Reject(None, content.full));
        return Some(Failed(ResolveFailed(content.name))), b, Unfit;
      }
      var _ := IntoRaw(content);
      var status := Resolve(b, Away);
      attempt := Answered(status);
      result := if status == DNS_REQUEST_PENDING then None else Some(Failed(ResolveFailed(content.name)));
    }

    /** The rest of `resolve_once`, its box completed: the value on its channel, of
        which there is exactly one, about what was asked. */
    method Receive(b: nat) returns (result: Event)
      requires Ready() && b < |boxes| && b !in os.waiting
      ensures AnswersTo(os.log, b) == [result]
      ensures RightAnswer(os.names, boxes[b], Completion(os.log, b), result)
    {
      OneRightAnswer(os.names, os.root, os.log, b);
      result := AnswersTo(os.log, b)[0];
    }

    /** An entry's fields go in order: cancelling its browse, after which the OS
        calls back no more, then its context and query name. */
    method DropEntry()
      requires os.Valid() && Tracks(os.state) && os.state.point == Closing(None) && registry != []
      modifies this`registry, os
      ensures os.Valid() && Tracks(os.state) && os.state.guard == old(os.state).guard
      ensures registry == old(registry)[1..] && os.state.point == if registry == [] then Idle else Closing(None)
      ensures os.log == old(os.log) + [Cancel(old(registry)[0]), Free(old(registry)[0])]
    {
      var entry := registry[0];
      os.Record(Cancel(entry));
      os.Record(Free(entry));
      registry := registry[1..];
    }

    method DropBrowseGuard()
      requires Ready() && guarded
      modifies this`guarded, this`registry, os
      ensures Ready() && !guarded
      ensures old(os.log) + [DropGuard] <= os.log
    {
      guarded := false;
      os.Record(DropGuard);
      while registry != []
        invariant os.Valid() && Tracks(os.state) && !os.state.guard && !guarded
        invariant os.state.point == if registry == [] then Idle else Closing(None)
        invariant old(os.log) + [DropGuard] <= os.log
        decreases |registry|
      {
        DropEntry();
      }
    }

    /** `browse_start`: if the browse cannot be started, the registry goes at once. */
    method Start() returns (started: bool, ghost attempt: Attempt)
      requires os.Valid() && Tracks(os.state) && os.state == Initial(os.names, os.root) && guarded
      modifies this`contexts, this`registry, this`guarded, os
      ensures Ready() && Kept() && guarded == started == attempt.Started()
      ensures os.log == old(os.log) + BrowseLog(os.root, |old(contexts)|, attempt)
    {
      hide Step, BrowseLog;
      var outcome := StartBrowse(os.root, Root);
      started, attempt := outcome.Started(), outcome;
      guarded := started;
    }

    /** Whatever happens next: a callback for a browse the OS still has, a
        completion of a resolve it still owes, a one-shot, or the guard's drop. */
    method Turn()
      requires Ready()
      modifies this`contexts, this`boxes, this`registry, this`guarded, os, contexts
      ensures Ready() && Kept() && (guarded ==> old(guarded))
      ensures old(os.log) <= os.log
    {
      var event: int := *;
      if event == 0 {
        var id: nat, status: int, records: seq<Record> := *, *, *;
        if id in os.active {
          BrowseCallback(id, status, records);
        }
      } else if event == 1 {
        var b: nat, status: int, instance: Option<Service> := *, *, *;
        if b in os.waiting {
          Completed(b, status, instance);
        }
      } else if event == 2 {
        var name: string, serviceType: string, domain: string := *, *, *;
        var _, _, _ := ResolveOnce(name, serviceType, domain);
      } else if guarded {
        DropBrowseGuard();
      }
    }

    method Serve(turns: nat)
      requires Ready()
      modifies this`contexts, this`boxes, this`registry, this`guarded, os, contexts
      ensures Ready() && Kept() && (guarded ==> old(guarded))
      ensures old(os.log) <= os.log
    {
      for i := 0 to turns
        invariant Ready() && Kept() && (guarded ==> old(guarded)) && old(os.log) <= os.log
      {
        Turn();
      }
    }
  }

  function FullName(name: string, serviceType: string, domain: string): string {
    name + "." + serviceType + "." + domain
  }

  /** `build_service`: the instance's data under the caller's identity. */
  function BuildService(names: Surgery, instance: Service, content: Box): Service {
    instance.(name := content.name, serviceType := content.serviceType, domain := content.domain,
              hostName := names.trim(instance.hostName))
  }

  /** A browse from start to after its guard's drop, the OS and the callers of the
      one-shot resolve doing what they like in between and afterwards. */
  method Browse(names: Surgery, serviceType: Option<string>, domain: Option<string>, turns: nat, later: nat)
      returns (backend: Backend)
    ensures fresh(backend) && fresh(backend.os) && backend.Ready() && !backend.guarded && backend.registry == []
    ensures backend.os.active == {} && backend.os.names == names && backend.os.root == RootSpec(serviceType, domain)
    ensures TornDown(backend.os.log, |backend.contexts|, |backend.boxes|, backend.os.waiting)
    ensures OneAttemptPerName(names, backend.os.log)
    ensures Sends(backend.os.log) == FailedCallbacks(backend.os.log)
    ensures CountAllAnswers(backend.os.log) + |backend.os.waiting| == CountLeaks(backend.os.log)
    ensures ContextsRequested(backend.os.state.contexts, serviceType, domain)
    ensures forall id :: Visited(backend.os.log, id) == Delivered(backend.os.log, id)
  {
    hide TornDown, OneAttemptPerName, ContextsRequested, After, Visited, Delivered;
    var os := new Os(names, RootSpec(serviceType, domain));
    backend := new Backend(os);
    var _, _ := backend.Start();
    backend.Serve(turns);
    if backend.guarded {
      backend.DropBrowseGuard();
    }
    backend.Serve(later);
    Finished(names, os.root, os.log);
    AllAsRequested(names, serviceType, domain, os.log);
    EverythingRead(names, os.root, os.log);
  }

  /** Every context freed once, after its browse, if accepted, was cancelled once;
      every box still with the OS, or taken back and answered once. */
  ghost predicate TornDown(log: seq<Action>, contexts: nat, boxes: nat, waiting: set<nat>) {
    && (forall id: nat :: id < contexts ==>
          Times(log, Free(id)) == 1 && Times(log, Cancel(id)) == Times(log, OsBrowse(id, DNS_REQUEST_PENDING)))
    && (forall b: nat :: b < boxes ==>
          if b in waiting then Times(log, Reclaim(b)) == 0 && CountAnswers(log, b) == 0
          else Times(log, Reclaim(b)) == 1 && CountAnswers(log, b) == 1
               && CountInstances(log, b) == Times(log, FreeInstance(b)))
  }

  ghost predicate OneAttemptPerName(names: Surgery, log: seq<Action>) {
    forall id: nat :: Attempted(log, id) == Dedup(Heard(names, log, id))
  }

  lemma {:induction false} EverythingRead(names: Surgery, root: Spec, log: seq<Action>)
    requires After(names, root, log).Some? && After(names, root, log).value.point.Idle?
    ensures forall id :: Visited(log, id) == Delivered(log, id)
  {
    forall id: nat
      ensures Visited(log, id) == Delivered(log, id)
    {
      AllRecordsRead(names, root, log, id);
      assert Visited(log, id) + [] == Visited(log, id);
    }
  }

  lemma {:induction false} EverythingSent(names: Surgery, root: Spec, log: seq<Action>)
    requires After(names, root, log).Some? && After(names, root, log).value.point.Idle?
    ensures Sends(log) == FailedCallbacks(log)
    ensures CountAllAnswers(log) + |After(names, root, log).value.waiting| == CountLeaks(log)
  {
    LifecycleHolds(names, root, log);
    SendsExplained(names, root, log);
    AnswersConserved(names, root, log);
    var s := After(names, root, log).value;
    assert s.raw == s.waiting;
    assert Sends(log) + [] == Sends(log);
  }

  lemma {:induction false} Finished(names: Surgery, root: Spec, log: seq<Action>)
    requires After(names, root, log).Some? && root.via.None?
    requires !After(names, root, log).value.guard && After(names, root, log).value.point.Idle?
    ensures var s := After(names, root, log).value;
            s.registry == [] && s.active == {} && TornDown(log, |s.contexts|, |s.boxes|, s.waiting)
    ensures OneAttemptPerName(names, log)
    ensures Sends(log) == FailedCallbacks(log)
    ensures CountAllAnswers(log) + |After(names, root, log).value.waiting| == CountLeaks(log)
  {
    EverythingSent(names, root, log);
    var s := After(names, root, log).value;
    LifecycleHolds(names, root, log);
    forall id: nat | id < |s.contexts|
      ensures Times(log, Free(id)) == 1 && Times(log, Cancel(id)) == Times(log, OsBrowse(id, DNS_REQUEST_PENDING))
    {
      BrowseOnce(names, root, log, id);
    }
    forall b: nat | b < |s.boxes|
      ensures if b in s.waiting then Times(log, Reclaim(b)) == 0 && CountAnswers(log, b) == 0
              else Times(log, Reclaim(b)) == 1 && CountAnswers(log, b) == 1
                   && CountInstances(log, b) == Times(log, FreeInstance(b))
    {
      BoxOnce(names, root, log, b);
    }
    forall id: nat
      ensures Attempted(log, id) == Dedup(Heard(names, log, id))
    {
      CascadeRefinesDedup(names, root, log, id);
    }
  }
}
