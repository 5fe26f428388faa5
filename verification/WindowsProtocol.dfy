/** The Windows back-end as a machine over its native calls, the callbacks the OS
    makes, and the memory that crosses the boundary as raw pointers. Callbacks are
    atomic: none overlaps another or the teardown of the guard. */
module WindowsProtocol {
  import opened Seqs
  import opened Names
  import opened Events

  const META_QUERY_TYPE := "_services._dns-sd._udp.local"
  const DEFAULT_DOMAIN := "local"
  const DNS_REQUEST_PENDING := 9506
  const DNS_TYPE_PTR := 12

  // ---- Vocabulary ----

  /** What a browse is started with; `via` is the meta context that heard of it. */
  datatype Spec = Spec(via: Option<nat>, query: string, serviceType: string, domain: string, meta: bool)

  /** A browse context, numbered by allocation; `seen` is its dedup set. */
  datatype Context = Context(spec: Spec, seen: set<string>)

  /** A leaked resolve context: for an instance a browse heard of, or a one-shot. */
  datatype Box = Box(via: Option<nat>, full: string, name: string, serviceType: string, domain: string)

  datatype Record = Record(kind: int, target: string)

  datatype Action =
    | Reject(via: Option<nat>, name: string)
    | Allocate(spec: Spec)
    | OsBrowse(id: nat, status: int)
    | Register(id: nat)
    | Callback(id: nat, status: int, records: seq<Record>)
    | Send(event: Event)
    | Visit(id: nat, record: Record)
    | FreeRecords
    | Exit(id: nat)
    | Leak(content: Box)
    | OsResolve(box: nat, status: int)
    | Complete(box: nat, status: int, instance: Option<Service>)
    | Reclaim(box: nat)
    | Answer(box: nat, event: Event)
    | FreeInstance(box: nat)
    | DropGuard
    | Cancel(id: nat)
    | Free(id: nat)

  /** Where to go on after starting something: back to `browse_start`, on to the
      rest of a record list, or nowhere. */
  datatype Back = Root | Walk(id: nat, todo: seq<Record>, list: bool) | Away

  datatype Point =
    | Starting(spec: Spec, back: Back)
    | Asking(id: nat, back: Back)
    | Registering(id: nat, back: Back)
    | Discarding(id: nat, back: Back)
    | Idle
    | Complaining(status: int, walk: Back)
    | Walking(walk: Back)
    | Resolving(content: Box, back: Back)
    | Querying(box: nat, back: Back)
    | Refusing(box: nat, back: Back)
    | Refused(box: nat, back: Back)
    | Completing(box: nat, status: int, instance: Option<Service>)
    | Answering(box: nat, event: Event, held: bool)
    | Releasing(box: nat, later: Option<Event>)
    | Closing(cancelled: Option<nat>)

  /** The string surgery in use; the code's is `Genuine`. */
  datatype Surgery = Surgery(
    trim: string -> string, split: (string, string) -> (string, string), strip: (string, string, string) -> string)

  ghost predicate Genuine(names: Surgery) {
    && (forall s :: names.trim(s) == TrimDot(s))
    && (forall target, fallback :: names.split(target, fallback) == PtrTypeAndDomain(target, fallback))
    && (forall full, serviceType, domain :: names.strip(full, serviceType, domain) == InstanceLabel(full, serviceType, domain))
  }

  const CODE_SURGERY := Surgery(TrimDot, PtrTypeAndDomain, InstanceLabel)

  lemma {:induction false} CodeIsGenuine()
    ensures Genuine(CODE_SURGERY)
  {
  }

  /** `held` are the contexts with their query names still allocated, `active` the
      browses the OS may call back for, `raw` the boxes passed through `into_raw`
      and not yet reclaimed, `waiting` those the OS will complete. */
  datatype State = State(
    names: Surgery, point: Point, guard: bool, contexts: seq<Context>, held: set<nat>, active: set<nat>,
    registry: seq<nat>, boxes: seq<Box>, raw: set<nat>, waiting: set<nat>)

  function RootSpec(serviceType: Option<string>, domain: Option<string>): Spec {
    var d := match domain case Some(d) => d case None => DEFAULT_DOMAIN;
    match serviceType
    case Some(t) => Spec(None, t + "." + d, t, d, false)
    case None => Spec(None, META_QUERY_TYPE, META_QUERY_TYPE, d, true)
  }

  function Initial(names: Surgery, root: Spec): State {
    State(names, Starting(root, Root), true, [], {}, {}, [], [], {}, {})
  }

  // ---- The pieces of the code a step refers to ----

  predicate HasNul(s: string) { '\0' in s }

  function Resume(back: Back): Point {
    if back.Walk? then Walking(back) else Idle
  }

  /** A browse that could not start ends the caller's, but not a cascade. */
  function Unstarted(s: State, back: Back): State {
    s.(point := Resume(back), guard := s.guard && !back.Root?)
  }

  /** `handle_ptr` on a target not seen before. */
  function Handle(s: State, id: nat, target: string, rest: Back): Point
    requires id < |s.contexts|
  {
    var spec := s.contexts[id].spec;
    if !spec.meta then
      Resolving(Box(Some(id), target, s.names.strip(target, spec.serviceType, spec.domain), spec.serviceType, spec.domain), rest)
    else if s.guard then
      var (serviceType, domain) := s.names.split(target, spec.domain);
      Starting(Spec(Some(id), target, serviceType, domain, false), rest)
    else Walking(rest)
  }

  /** What a completed resolve is answered with. */
  function Outcome(s: State, box: Box, status: int, instance: Option<Service>): Event {
    if status != 0 || instance.None? then Failed(ResolveFailed(box.name))
    else
      Found(instance.value.(name := box.name, serviceType := box.serviceType, domain := box.domain,
                            hostName := s.names.trim(instance.value.hostName)))
  }

  // ---- The machine ----

  function LeakBox(s: State, box: Box, back: Back): State {
    s.(boxes := s.boxes + [box], raw := s.raw + {|s.boxes|}, point := Querying(|s.boxes|, back))
  }

  function StepIdle(s: State, a: Action): Option<State> {
    match a
    case Callback(id, status, records) =>
      var walk := Walk(id, records, records != []);
      if id !in s.active then None
      else Some(s.(point := if status != 0 then Complaining(status, walk) else Walking(walk)))
    case Complete(b, status, instance) =>
      if b !in s.waiting then None
      else Some(s.(waiting := s.waiting - {b}, point := Completing(b, status, instance)))
    case DropGuard =>
      if !s.guard then None
      else Some(s.(guard := false, point := if s.registry == [] then Idle else Closing(None)))
    case Leak(box) => if box.via.None? && !HasNul(box.full) then Some(LeakBox(s, box, Away)) else None
    case Reject(via, name) => if via.None? && HasNul(name) then Some(s) else None
    case _ => None
  }

  function StepStart(s: State, a: Action, spec: Spec, back: Back): Option<State> {
    if HasNul(spec.query) then
      if a == Reject(spec.via, spec.query) then Some(Unstarted(s, back)) else None
    else if a == Allocate(spec) then
      var id := |s.contexts|;
      Some(s.(contexts := s.contexts + [Context(spec, {})], held := s.held + {id}, point := Asking(id, back)))
    else None
  }

  function StepWalk(s: State, a: Action, id: nat, todo: seq<Record>, list: bool): Option<State> {
    if todo != [] then
      if a != Visit(id, todo[0]) || id >= |s.contexts| then None
      else
        var rest := Walk(id, todo[1..], list);
        var target := s.names.trim(todo[0].target);
        if todo[0].kind != DNS_TYPE_PTR || target in s.contexts[id].seen then Some(s.(point := Walking(rest)))
        else
          var context := s.contexts[id];
          Some(s.(contexts := s.contexts[id := context.(seen := context.seen + {target})],
                  point := Handle(s, id, target, rest)))
    else if list then
      if a == FreeRecords then Some(s.(point := Walking(Walk(id, [], false)))) else None
    else if a == Exit(id) then Some(s.(point := Idle))
    else None
  }

  function Step(s: State, a: Action): Option<State> {
    match s.point
    case Starting(spec, back) => StepStart(s, a, spec, back)
    case Asking(id, back) =>
      if !a.OsBrowse? || a.id != id then None
      else if a.status == DNS_REQUEST_PENDING then Some(s.(active := s.active + {id}, point := Registering(id, back)))
      else Some(s.(point := Discarding(id, back)))
    case Registering(id, back) =>
      if a == Register(id) then Some(s.(registry := s.registry + [id], point := Resume(back))) else None
    case Discarding(id, back) =>
      if a == Free(id) then Some(Unstarted(s.(held := s.held - {id}), back)) else None
    case Idle => StepIdle(s, a)
    case Complaining(status, walk) =>
      if a == Send(Failed(BrowseFailed(BrowseReply, status))) then Some(s.(point := Walking(walk))) else None
    case Walking(walk) =>
      if walk.Walk? then StepWalk(s, a, walk.id, walk.todo, walk.list) else None
    case Resolving(content, back) =>
      if HasNul(content.full) then
        if a == Reject(content.via, content.full) then Some(s.(point := Resume(back))) else None
      else if a == Leak(content) then Some(LeakBox(s, content, back))
      else None
    case Querying(b, back) =>
      if !a.OsResolve? || a.box != b then None
      else if a.status == DNS_REQUEST_PENDING then Some(s.(waiting := s.waiting + {b}, point := Resume(back)))
      else Some(s.(point := Refusing(b, back)))
    case Refusing(b, back) =>
      if a == Reclaim(b) then Some(s.(raw := s.raw - {b}, point := Refused(b, back))) else None
    case Refused(b, back) =>
      if b < |s.boxes| && a == Answer(b, Failed(ResolveFailed(s.boxes[b].name))) then Some(s.(point := Resume(back)))
      else None
    case Completing(b, status, instance) =>
      if a != Reclaim(b) || b >= |s.boxes| then None
      else
        var event := Outcome(s, s.boxes[b], status, instance);
        Some(s.(raw := s.raw - {b},
                point := if s.boxes[b].via.None? && instance.Some? then Releasing(b, Some(event))
                         else Answering(b, event, instance.Some?)))
    case Answering(b, event, held) =>
      if a != Answer(b, event) then None
      else Some(s.(point := if held then Releasing(b, None) else Idle))
    case Releasing(b, later) =>
      if a != FreeInstance(b) then None
      else Some(s.(point := if later.Some? then Answering(b, later.value, false) else Idle))
    case Closing(cancelled) =>
      if s.registry == [] then None
      else
        var id := s.registry[0];
        if cancelled.None? then
          if a == Cancel(id) then Some(s.(active := s.active - {id}, point := Closing(Some(id)))) else None
        else if a == Free(id) then
          Some(s.(registry := s.registry[1..], held := s.held - {id},
                  point := if |s.registry| == 1 then Idle else Closing(None)))
        else None
  }

  ghost function After(names: Surgery, root: Spec, log: seq<Action>): Option<State> {
    if log == [] then Some(Initial(names, root))
    else
      match After(names, root, log[..|log| - 1])
      case None => None
      case Some(s) => Step(s, log[|log| - 1])
  }

  lemma {:induction false} AfterSnoc(names: Surgery, root: Spec, log: seq<Action>, a: Action)
    ensures After(names, root, log + [a]) ==
            match After(names, root, log) case None => None case Some(s) => Step(s, a)
  {
    assert (log + [a])[..|log|] == log;
  }

  lemma {:induction false} PrefixAccepted(names: Surgery, root: Spec, log: seq<Action>, n: nat)
    requires n <= |log| && After(names, root, log).Some?
    ensures After(names, root, log[..n]).Some?
  {
    if n < |log| {
      PrefixAccepted(names, root, log[..|log| - 1], n);
      assert log[..|log| - 1][..n] == log[..n];
    } else {
      assert log[..n] == log;
    }
  }
}
