/** The macOS pump seen from outside: what a request, a reply and a poll answer
    turn into, read off logs alone. Nothing here is said in terms of the machine's
    own decisions (`Configure`, `Reaction`, `AfterPoll`, `Possible`). */
module PumpReplies {
  import opened Seqs
  import opened Names
  import opened Events
  import opened PumpProtocol
  import opened PumpTheorems
  import PumpSystem

  /** The Add bit, 0x2, is set. */
  predicate AddBit(flags: nat) { flags % 4 >= 2 }

  /** Whatever the bits above and below it, the Add bit alone decides. */
  lemma {:induction false} AddBitDecides(reply: Reply, high: nat, add: bool, low: nat)
    requires low < 2 && reply.flags == 4 * high + (if add then 2 else 0) + low
    ensures IsAdd(reply) == AddBit(reply.flags) == add
  {
  }

  // ---- What a request turns into ----

  /** A browse as the caller asked for it, or for a type the meta-query reported. */
  ghost predicate AsRequested(a: Action, serviceType: Option<string>, domain: Option<string>, interface: nat)
    requires a.Browse?
  {
    && a.interface == interface
    && (!a.child ==>
          && a.key.1 == (if domain.Some? then domain.value else "")
          && (serviceType.Some? ==> a.key.0 == serviceType.value && a.context == InstanceContext)
          && (serviceType.None? ==> a.key.0 == "_services._dns-sd._udp" && a.context == MetaContext))
    && (a.child ==> serviceType.None? && a.context == InstanceContext)
  }

  lemma {:induction false} BrowsesAsRequested(
      serviceType: Option<string>, domain: Option<string>, interface: nat, log: seq<Action>, i: nat)
    requires After(Configure(serviceType, domain, interface), log).Some? && i < |log| && log[i].Browse?
    ensures AsRequested(log[i], serviceType, domain, interface)
  {
    hide Step, After;
    var config := Configure(serviceType, domain, interface);
    PrefixStep(config, log, i);
    CascadeRefinesDedup(config, log[..i]);
    BrowseStep(After(config, log[..i]).value, log[i]);
    if serviceType.Some? && log[i].child {
      NoCascadeWithoutMeta(config, log[..i]);
    }
  }

  lemma {:induction false} BrowseStep(p: Pump, a: Action)
    requires Step(p, a).Some? && a.Browse?
    ensures a.interface == p.config.interface
    ensures if a.child then p.queue != [] && a.context == InstanceContext
            else a.key == p.config.root && a.context == p.config.rootContext
  {
  }

  /** A string is refused for its first NUL, the type's before the domain's, and only
      then; nothing else is kept from the daemon. */
  lemma {:induction false} NulsAreRejected(config: Config, log: seq<Action>, i: nat)
    requires After(config, log).Some? && i < |log| && log[i].Browse?
    ensures var a := log[i];
            if '\0' in a.key.0 || '\0' in a.key.1 then
              var bad := if '\0' in a.key.0 then a.key.0 else a.key.1;
              a.outcome.Rejected? && a.outcome.param == bad && a.outcome.position < |bad|
              && bad[a.outcome.position] == '\0' && '\0' !in bad[..a.outcome.position]
            else a.outcome.Started? || (a.outcome.Refused? && a.outcome.code != 0)
  {
    PrefixStep(config, log, i);
  }

  /** With no service type asked for, an Add reply on the root is browsed: its type
      occurs exactly once among the child browses attempted and queued. */
  lemma {:induction false} RootAddsAreBrowsed(domain: Option<string>, interface: nat, log: seq<Action>, i: nat)
    requires After(Configure(None, domain, interface), log).Some? && i < |log| && log[i].Callback?
    requires log[i].ref.id == 0 && log[i].reply.code == 0 && AddBit(log[i].reply.flags)
    ensures var reply := log[i].reply;
            var due := Attempted(log) + After(Configure(None, domain, interface), log).value.queue;
            exists k :: 0 <= k < |due| && due[k] == MetaReply(reply.name, reply.regtype, reply.domain)
              && forall k' :: 0 <= k' < |due| && k' != k ==> due[k'] != due[k]
  {
    hide Step, After;
    var config := Configure(None, domain, interface);
    NativeSafety(config, log, i);
    PrefixStep(config, log, i);
    ContextsByOrder(config, log[..i]);
    RefsConserved(config, log[..i]);
    assert log[i].ref == StartedRefs(log[..i])[0];
    DueOnce(config, log, i);
  }

  // ---- What a reply turns into ----

  /** The types the meta-query announced: its error-free replies with the Add bit. */
  function TypesAnnounced(log: seq<Action>): seq<Key> {
    if log == [] then []
    else
      var rest, a := TypesAnnounced(log[..|log| - 1]), log[|log| - 1];
      if a.Callback? && a.ref.context == MetaContext && a.reply.code == 0 && AddBit(a.reply.flags)
      then rest + [MetaReply(a.reply.name, a.reply.regtype, a.reply.domain)] else rest
  }

  lemma {:induction false} AnnouncedAreMetaAdds(config: Config, log: seq<Action>)
    requires Genuine(config)
    ensures Announced(config, log) == TypesAnnounced(log)
  {
    hide MetaReply;
    if log != [] {
      AnnouncedAreMetaAdds(config, log[..|log| - 1]);
    }
  }

  /** An error-free reply on an instance browse with the Add bit announces an instance. */
  function AddedBy(a: Action): seq<Task> {
    if a.Callback? && a.ref.context == InstanceContext && a.reply.code == 0 && AddBit(a.reply.flags)
    then [Resolve(a.reply.name, a.reply.regtype, a.reply.domain, a.reply.interface)] else []
  }

  /** What there is to tell the caller: an error reply, an instance gone, a child browse
      that could not be started, or the pump's own failure. */
  function ReportOf(a: Action): seq<Event> {
    match a
    case Callback(ref, r) =>
      if r.code != 0 then [Failed(BrowseFailed(BrowseReply, r.code))]
      else if ref.context == InstanceContext && !AddBit(r.flags) then
        [Removed(r.name, TrimDot(r.regtype), TrimDot(r.domain), if r.interface == 0 then None else Some(r.interface))]
      else []
    case Browse(true, key, _, _, Refused(code)) => [Failed(BrowseFailed(StartBrowse(key.0), code))]
    case Browse(true, _, _, _, Rejected(param, position)) => [Failed(InteriorNul(param, position))]
    case Return(Some(error)) => [Failed(error)]
    case _ => []
  }

  function InstancesAdded(log: seq<Action>): seq<Task> {
    if log == [] then [] else InstancesAdded(log[..|log| - 1]) + AddedBy(log[|log| - 1])
  }

  function Told(log: seq<Action>): seq<Event> {
    if log == [] then [] else Told(log[..|log| - 1]) + ReportOf(log[|log| - 1])
  }

  /** An Add on an instance browse is resolved, in order, and nothing else is; and the
      caller is told exactly the reports, in order. The effect at hand counts as done. */
  lemma {:induction false} RepliesAnswered(config: Config, log: seq<Action>)
    requires After(config, log).Some?
    ensures var debt := Debt(After(config, log).value);
            && PumpSystem.Tasks(Effects(log) + debt) == InstancesAdded(log)
            && PumpSystem.Messages(Effects(log) + debt) == Told(log)
  {
    EffectsExplained(config, log);
    ExplainedByReplies(log);
  }

  lemma {:induction false} ExplainedByReplies(log: seq<Action>)
    ensures PumpSystem.Tasks(Explained(log)) == InstancesAdded(log)
    ensures PumpSystem.Messages(Explained(log)) == Told(log)
  {
    hide Owed, AddedBy, ReportOf;
    if log != [] {
      var before, a := log[..|log| - 1], log[|log| - 1];
      ExplainedByReplies(before);
      OwedForReply(a);
      if Owed(a).Some? {
        PumpSystem.EffectsSnoc(Explained(before), Owed(a).value);
      }
    }
  }

  lemma {:induction false} OwedForReply(a: Action)
    ensures match Owed(a)
            case None => AddedBy(a) == [] && ReportOf(a) == []
            case Some(Send(event)) => AddedBy(a) == [] && ReportOf(a) == [event]
            case Some(Spawn(task)) => AddedBy(a) == [task] && ReportOf(a) == []
  {
  }

  // ---- When the loop ends ----

  /** Actions that decide how the pump goes on; the rest is teardown and telling. */
  predicate Decides(a: Action) {
    a.Create? || a.Describe? || (a.Browse? && !a.child) || a.LoadStop? || a.Poll? || a.EndDispatch?
  }

  function LastDecision(log: seq<Action>): Option<Action> {
    if log == [] then None
    else if Decides(log[|log| - 1]) then Some(log[|log| - 1])
    else LastDecision(log[..|log| - 1])
  }

  /** A decision that ends the loop, with the result the loop then has. */
  predicate EndsLoop(a: Action, result: Option<Error>) {
    match a
    case LoadStop(stopped) => stopped && result == None
    case Poll(PollReady(readable, hungUp)) => !readable && hungUp && result == None
    case Poll(PollError(errno)) => errno != 4 && result == Some(BrowseFailed(Stage.Poll, errno))
    case EndDispatch(code) => code != 0 && result == Some(BrowseFailed(Stage.ProcessResult, code))
    case _ => false
  }

  /** A decision that ends the pump before its loop. */
  predicate EndsStart(a: Action, result: Option<Error>) {
    match a
    case Create(code) => code != 0 && result == Some(BrowseFailed(CreateConnection, code))
    case Describe(fd) => fd < 0 && result == Some(BrowseFailed(SocketDescriptor, fd))
    case Browse(false, key, _, _, Refused(code)) => result == Some(BrowseFailed(StartBrowse(key.0), code))
    case Browse(false, _, _, _, Rejected(param, position)) => result == Some(InteriorNul(param, position))
    case _ => false
  }

  ghost predicate Over(point: Point) { point.Closing? || point.Unwinding? }

  lemma {:induction false} OverForReason(config: Config, log: seq<Action>)
    requires After(config, log).Some?
    ensures var point := After(config, log).value.point;
            Over(point) ==>
              LastDecision(log).Some?
              && (EndsStart(LastDecision(log).value, point.result) || EndsLoop(LastDecision(log).value, point.result))
  {
    hide Step, EndsStart, EndsLoop;
    if log != [] {
      var before, a := log[..|log| - 1], log[|log| - 1];
      OverForReason(config, before);
      if Over(After(config, log).value.point) {
        StepOver(After(config, before).value, a, After(config, log).value);
      }
    }
  }

  lemma {:induction false} StepOver(p: Pump, a: Action, q: Pump)
    requires Step(p, a) == Some(q) && Over(q.point)
    ensures if Decides(a) then EndsStart(a, q.point.result) || EndsLoop(a, q.point.result)
            else Over(p.point) && q.point.result == p.point.result
  {
    match p.point {
      case Head => assert q.point.Closing?;
      case Waiting => assert q.point == AfterPoll(a.answer);
      case _ =>
    }
  }

  /** The pump returns only on a decision that ends it, with the result to match: for
      no reason but the stop flag and a hang-up without an error. */
  lemma {:induction false} ReturnsForReason(config: Config, log: seq<Action>, i: nat)
    requires After(config, log).Some? && i < |log| && log[i].Return?
    ensures var decision := LastDecision(log[..i]);
            decision.Some? && (EndsStart(decision.value, log[i].result) || EndsLoop(decision.value, log[i].result))
  {
    hide EndsStart, EndsLoop;
    PrefixStep(config, log, i);
    OverForReason(config, log[..i]);
  }

  /** ... and every such decision ends it. After any other poll the stop flag is
      looked at again, but a readable connection is first dispatched on, hung up or
      not. */
  lemma {:induction false} WhatFollows(config: Config, log: seq<Action>, i: nat)
    requires After(config, log).Some? && i + 1 < |log|
    ensures var a, next := log[i], log[i + 1];
            && (a == LoadStop(false) ==> next.Poll?)
            && (a.Poll? && a.answer in {PollTimeout, PollError(4), PollReady(false, false)} ==> next.LoadStop?)
            && (a.Poll? && a.answer.PollReady? && a.answer.readable ==> next == BeginDispatch)
            && (a == EndDispatch(0) ==> next.LoadStop? || (next.Browse? && next.child))
            && ((exists result :: EndsLoop(a, result)) ==> next.Deallocate? || next.DeallocateParent?)
            && (a == Create(0) ==> next.Describe?)
            && (a.Describe? && a.fd >= 0 ==> next.Browse? && !next.child)
            && (a.Browse? && !a.child && a.outcome.Started? ==> next.LoadStop? || (next.Browse? && next.child))
            && ((exists result :: EndsStart(a, result)) ==> next.DeallocateParent? || next.Deallocate? || next.Free?)
  {
    hide Step, EndsLoop, EndsStart;
    PrefixStep(config, log, i);
    PrefixStep(config, log, i + 1);
    if After(config, log[..i]).value.point.Waiting? {
      DrainedBeforePoll(config, log[..i]);
    }
    Follows(After(config, log[..i]).value, log[i], After(config, log[..i + 1]).value, log[i + 1]);
    FootingHolds(config, log[..i]);
    StartFollows(After(config, log[..i]).value, log[i], After(config, log[..i + 1]).value, log[i + 1]);
  }

  lemma {:induction false} StartFollows(p: Pump, a: Action, q: Pump, next: Action)
    requires Footing(p) && Step(p, a) == Some(q) && Step(q, next).Some?
    ensures a == Create(0) ==> next.Describe?
    ensures a.Describe? && a.fd >= 0 ==> next.Browse? && !next.child
    ensures a.Browse? && !a.child && a.outcome.Started? ==> next.LoadStop? || (next.Browse? && next.child)
    ensures (exists result :: EndsStart(a, result)) ==> next.DeallocateParent? || next.Deallocate? || next.Free?
  {
    hide Step;
    StartStep(p, a, q);
    NextStep(q, next);
    NextAtStart(q, next);
  }

  lemma {:induction false} StartStep(p: Pump, a: Action, q: Pump)
    requires Step(p, a) == Some(q)
    ensures a.Create? ==> if a.code == 0 then q.point.Describing? else q.point.Unwinding? && q.blocks == p.blocks
    ensures a.Create? ==> p.point.Opening?
    ensures a.Describe? ==> if a.fd >= 0 then q.point.Rooting? else q.point.Closing?
    ensures a.Browse? && !a.child ==> if a.outcome.Started? then q.point.Head? else q.point.Closing?
  {
  }

  lemma {:induction false} NextAtStart(p: Pump, a: Action)
    requires Step(p, a).Some?
    ensures p.point.Describing? ==> a.Describe?
    ensures p.point.Rooting? ==> a.Browse? && !a.child
    ensures p.point.Unwinding? && p.blocks != [] ==> a.Free?
  {
  }

  lemma {:induction false} DrainedBeforePoll(config: Config, log: seq<Action>)
    requires After(config, log).Some? && After(config, log).value.point.Waiting?
    ensures After(config, log).value.queue == []
  {
    var p := After(config, log[..|log| - 1]).value;
    assert p.point.Head? && p.queue == [];
  }

  lemma {:induction false} Follows(p: Pump, a: Action, q: Pump, next: Action)
    requires Step(p, a) == Some(q) && Step(q, next).Some? && (p.point.Waiting? ==> p.queue == [])
    ensures a == LoadStop(false) ==> next.Poll?
    ensures a.Poll? && a.answer in {PollTimeout, PollError(4), PollReady(false, false)} ==> next.LoadStop?
    ensures a.Poll? && a.answer.PollReady? && a.answer.readable ==> next == BeginDispatch
    ensures a == EndDispatch(0) ==> next.LoadStop? || (next.Browse? && next.child)
    ensures (exists result :: EndsLoop(a, result)) ==> next.Deallocate? || next.DeallocateParent?
  {
    hide Step;
    if a.Poll? || a.LoadStop? || a.EndDispatch? {
      DecisionStep(p, a, q);
      NextStep(q, next);
    }
  }

  lemma {:induction false} DecisionStep(p: Pump, a: Action, q: Pump)
    requires Step(p, a) == Some(q)
    ensures a.Poll? ==> p.point.Waiting? && q.queue == p.queue && q.point == AfterPoll(a.answer)
    ensures a.LoadStop? ==> q.point == if a.stopped then Closing(None) else Waiting
    ensures a.EndDispatch? ==> q.point.Head? || q.point.Closing?
    ensures a.EndDispatch? && a.code != 0 ==> q.point.Closing?
    ensures a == EndDispatch(0) ==> q.point.Head?
  {
  }

  lemma {:induction false} NextStep(p: Pump, a: Action)
    requires Step(p, a).Some?
    ensures p.point.Head? ==> if p.queue == [] then a.LoadStop? else a.Browse? && a.child
    ensures p.point.Waiting? ==> a.Poll?
    ensures p.point.Readable? ==> a == BeginDispatch
    ensures p.point.Closing? ==> a.Deallocate? || a.DeallocateParent?
  {
  }

  // ---- A whole run ----

  /** Every browse is as asked for, every return has its reason, every announced type
      is browsed or queued once, and replies are answered exactly. */
  ghost predicate Faithful(
      serviceType: Option<string>, domain: Option<string>, interface: nat, log: seq<Action>, queue: seq<Key>)
  {
    && (forall i :: 0 <= i < |log| && log[i].Browse? ==> AsRequested(log[i], serviceType, domain, interface))
    && (forall i :: 0 <= i < |log| && log[i].Return? ==>
          var decision := LastDecision(log[..i]);
          decision.Some? && (EndsStart(decision.value, log[i].result) || EndsLoop(decision.value, log[i].result)))
    && Attempted(log) + queue == Dedup(TypesAnnounced(log))
    && PumpSystem.Tasks(Effects(log)) == InstancesAdded(log)
    && PumpSystem.Messages(Effects(log)) == Told(log)
  }

  lemma {:induction false} RunsAreFaithful(serviceType: Option<string>, domain: Option<string>, interface: nat, log: seq<Action>)
    requires After(Configure(serviceType, domain, interface), log).Some?
    requires After(Configure(serviceType, domain, interface), log).value.point == Ended
    ensures Faithful(serviceType, domain, interface, log, After(Configure(serviceType, domain, interface), log).value.queue)
  {
    hide Step, After, EndsStart, EndsLoop, AsRequested, Dedup;
    var config := Configure(serviceType, domain, interface);
    forall i | 0 <= i < |log| && log[i].Browse?
      ensures AsRequested(log[i], serviceType, domain, interface)
    {
      BrowsesAsRequested(serviceType, domain, interface, log, i);
    }
    forall i | 0 <= i < |log| && log[i].Return?
      ensures var decision := LastDecision(log[..i]);
              decision.Some? && (EndsStart(decision.value, log[i].result) || EndsLoop(decision.value, log[i].result))
    {
      ReturnsForReason(config, log, i);
    }
    CascadeRefinesDedup(config, log);
    CodeIsGenuine(serviceType, domain, interface);
    AnnouncedAreMetaAdds(config, log);
    RepliesAnswered(config, log);
    assert Effects(log) + [] == Effects(log);
  }
}
