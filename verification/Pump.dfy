/** The macOS browse pump: one thread, one connection to the daemon, and the
    objects it updates in place. Everything native or outside the thread is the
    `World`, whose answers are arbitrary and whose methods demand what the API
    demands of its callers. */
module Pump {
  import opened Seqs
  import opened Names
  import opened Events
  import opened PumpProtocol
  import opened PumpTheorems
  import opened PumpReplies

  /** The daemon, the poll call, the stop flag, the event channel and the blocking
      pool, as seen from the pump thread; `log` is everything that happened. The
      guard is dropped after at most `patience` more looks at the stop flag. */
  class World {
    const config: Config
    var log: seq<Action>
    var started: nat
    var patience: nat
    ghost var pump: PumpProtocol.Pump

    ghost predicate Valid()
      reads this
    {
      After(config, log) == Some(pump) && pump.started == started && pump.config == config
    }

    /** One action happened, and nothing else. */
    twostate predicate Did(a: Action)
      reads this
    {
      && Valid() && log == old(log) + [a] && patience == old(patience)
      && Step(old(pump), a) == Some(pump)
    }

    constructor (config: Config, patience: nat)
      ensures Valid() && this.config == config && log == [] && pump == Initial(config)
    {
      this.config, this.patience := config, patience;
      log, started, pump := [], 0, Initial(config);
    }

    method Record(a: Action)
      requires Valid() && Step(pump, a).Some?
      modifies this
      ensures Did(a)
    {
      AfterSnoc(config, log, a);
      StepRefs(pump, a, Step(pump, a).value);
      StepCascade(pump, a, Step(pump, a).value);
      log := log + [a];
      pump := Step(pump, a).value;
      if a.Browse? && a.outcome.Started? {
        started := started + 1;
      }
    }

    /** `DNSServiceBrowse` on a copy of the connection's reference. */
    method StartBrowse(child: bool, key: Key, interface: nat, context: Context) returns (outcome: Outcome)
      requires Valid() && '\0' !in key.0 && '\0' !in key.1
      requires Expects(pump, child, key, interface, context)
      modifies this
      ensures Did(Browse(child, key, interface, context, outcome))
      ensures Possible(old(pump), key, context, outcome)
    {
      var code: int := *;
      outcome := if code == NO_ERROR then Started(ServiceRef(started, context)) else Refused(code);
      Record(Browse(child, key, interface, context, outcome));
    }

    method StopRequested() returns (stopped: bool)
      requires Valid() && pump.point == Head && pump.queue == []
      modifies this
      ensures Valid() && log == old(log) + [LoadStop(stopped)]
      ensures Step(old(pump), LoadStop(stopped)) == Some(pump)
      ensures !stopped ==> patience < old(patience)
    {
      stopped := *;
      if patience == 0 {
        stopped := true;
      }
      Record(LoadStop(stopped));
      if !stopped {
        patience := patience - 1;
      }
    }
  }

  /** What the callbacks and the loop both touch: the dedup set and the queue. */
  class PumpState {
    const world: World
    const interface: nat
    var seen: set<Key>
    var pending: seq<Key>

    constructor (world: World, interface: nat)
      ensures this.world == world && this.interface == interface && seen == {} && pending == []
    {
      this.world, this.interface := world, interface;
      seen, pending := {}, [];
    }

    /** The pump's dedup set and queue are the ones the daemon's replies call for. */
    ghost predicate Tracks(pump: PumpProtocol.Pump)
      reads this
    {
      seen == pump.heard && pending == pump.queue && interface == pump.config.interface
    }

    /** Runs inside a dispatch: may queue work, send and spawn, never browse.
        `before` is the pump just before the daemon made this call on `ref`. */
    method BrowseCallback(context: Context, reply: Reply, ghost ref: ServiceRef, ghost before: PumpProtocol.Pump)
      requires world.Valid() && Tracks(before)
      requires before.point == Dispatching && ref.context == context
      requires Step(before, Callback(ref, reply)) == Some(world.pump)
      modifies this, world
      ensures world.Valid() && Tracks(world.pump) && world.patience == old(world.patience)
      ensures world.pump == old(world.pump).(point := Dispatching)
      ensures world.log == old(world.log) + (
                if reply.code != 0 then [Emit(Send(Failed(BrowseFailed(BrowseReply, reply.code))))]
                else if context == MetaContext then []
                else if AddBit(reply.flags) then
                  [Emit(Spawn(Resolve(reply.name, reply.regtype, reply.domain, reply.interface)))]
                else
                  [Emit(Send(Removed(reply.name, TrimDot(reply.regtype), TrimDot(reply.domain),
                                     if reply.interface == 0 then None else Some(reply.interface))))])
      ensures var key := world.config.rebuild(reply.name, reply.regtype, reply.domain);
              if reply.code == 0 && context == MetaContext && AddBit(reply.flags) && key !in old(seen)
              then seen == old(seen) + {key} && pending == old(pending) + [key]
              else seen == old(seen) && pending == old(pending)
    {
      hide After;
      if reply.code != NO_ERROR {
        world.Record(Emit(Send(Failed(BrowseFailed(BrowseReply, reply.code)))));
        return;
      }
      var isAdd := IsAdd(reply);
      if context == MetaContext {
        if !isAdd {
          return;
        }
        var key := world.config.rebuild(reply.name, reply.regtype, reply.domain);
        if key !in seen {
          seen := seen + {key};
          pending := pending + [key];
        }
      } else if isAdd {
        world.Record(Emit(Spawn(Resolve(reply.name, reply.regtype, reply.domain, reply.interface))));
      } else {
        world.Record(Emit(Send(
          Removed(reply.name, TrimDot(reply.regtype), TrimDot(reply.domain), NonZero(reply.interface)))));
      }
    }
  }

  /** The conversion every native string argument goes through. */
  method CString(s: string) returns (error: Option<Error>)
    ensures error.None? <==> '\0' !in s
    ensures error.Some? ==>
              && error.value.InteriorNul? && error.value.param == s && error.value.position < |s|
              && s[error.value.position] == '\0' && '\0' !in s[..error.value.position]
  {
    match Position(s, '\0')
    case None => error := None;
    case Some(i) => error := Some(InteriorNul(s, i));
  }

  /** The native connection; `ops` are the references it still has to give back. */
  class SharedConnection {
    const world: World
    var ops: seq<ServiceRef>

    constructor (world: World)
      ensures this.world == world && ops == []
    {
      this.world := world;
      ops := [];
    }

    method SocketFd() returns (error: Option<Error>)
      requires world.Valid() && world.pump.point == Describing
      modifies world
      ensures exists fd :: world.Did(Describe(fd)) && (error.None? <==> fd >= 0)
      ensures world.pump.point == match error case None => Rooting case Some(_) => Closing(error)
    {
      var fd: int := *;
      world.Record(Describe(fd));
      error := if fd < 0 then Some(BrowseFailed(SocketDescriptor, fd)) else None;
    }

    method Browse(child: bool, key: Key, interface: nat, context: Context) returns (error: Option<Error>)
      requires world.Valid() && ops == world.pump.live
      requires Expects(world.pump, child, key, interface, context)
      modifies this, world
      ensures ops == world.pump.live
      ensures exists o :: world.Did(Action.Browse(child, key, interface, context, o))
                && Possible(old(world.pump), key, context, o)
                && error == match o
                            case Started(_) => None
                            case Refused(code) => Some(BrowseFailed(StartBrowse(key.0), code))
                            case Rejected(param, position) => Some(InteriorNul(param, position))
    {
      error := CString(key.0);
      if error.None? && key.1 != "" {
        error := CString(key.1);
      }
      if error.Some? {
        ghost var rejected := Action.Browse(child, key, interface, context, Rejected(error.value.param, error.value.position));
        StepRefs(world.pump, rejected, Step(world.pump, rejected).value);
        world.Record(Action.Browse(child, key, interface, context, Rejected(error.value.param, error.value.position)));
        return;
      }
      var outcome := world.StartBrowse(child, key, interface, context);
      StepRefs(old(world.pump), Action.Browse(child, key, interface, context, outcome), world.pump);
      if outcome.Refused? {
        return Some(BrowseFailed(StartBrowse(key.0), outcome.code));
      }
      ops := ops + [outcome.ref];
      error := None;
    }

    /** `DNSServiceProcessResult`: any number of callbacks, each on a live
        operation and with the context it was started with, then a status. */
    method ProcessResult(state: PumpState) returns (error: Option<Error>)
      requires state.world == world && world.Valid()
      requires world.pump.point == Readable && ops == world.pump.live && state.Tracks(world.pump)
      modifies state, world
      ensures world.Valid() && ops == world.pump.live && state.Tracks(world.pump)
      ensures world.patience == old(world.patience)
      ensures world.pump.point == match error case None => Head case Some(_) => Closing(error)
      ensures exists code :: LastDecision(world.log) == Some(EndDispatch(code))
                && error == if code == 0 then None else Some(BrowseFailed(Stage.ProcessResult, code))
    {
      world.Record(BeginDispatch);
      var replies: nat := *;
      while replies > 0
        invariant world.Valid() && world.pump.point == Dispatching && world.patience == old(world.patience)
        invariant ops == world.pump.live && state.Tracks(world.pump)
      {
        replies := replies - 1;
        var k: int := *;
        if 0 <= k < |ops| {
          var ref := ops[k];
          var reply: Reply := *;
          ghost var before := world.pump;
          world.Record(Callback(ref, reply));
          StepRefs(before, Callback(ref, reply), world.pump);
          state.BrowseCallback(ref.context, reply, ref, before);
        }
      }
      var code: int := *;
      world.Record(EndDispatch(code));
      error := if code != NO_ERROR then Some(BrowseFailed(Stage.ProcessResult, code)) else None;
    }

    /** `Drop`: the operations first, then the connection they share. */
    method Drop()
      requires world.Valid() && world.pump.point.Closing? && ops == world.pump.live
      modifies this, world
      ensures world.Valid() && ops == []
      ensures world.pump == old(world.pump).(live := [], point := Unwinding(old(world.pump).point.result))
    {
      while ops != []
        invariant world.Valid() && ops == world.pump.live
        invariant world.pump == old(world.pump).(live := ops)
        decreases |ops|
      {
        var op := ops[0];
        ops := ops[1..];
        world.Record(Deallocate(op));
      }
      world.Record(DeallocateParent);
    }
  }

  /** Drains the queue, with one attempt and at most one report for each entry. */
  method StartPendingBrowses(conn: SharedConnection, state: PumpState)
    requires state.world == conn.world && conn.world.Valid()
    requires conn.world.pump.point == Head && conn.ops == conn.world.pump.live && state.Tracks(conn.world.pump)
    modifies conn, state, conn.world
    ensures conn.world.Valid() && conn.world.patience == old(conn.world.patience)
    ensures conn.world.pump.point == Head && conn.ops == conn.world.pump.live && state.Tracks(conn.world.pump)
    ensures state.pending == [] && state.seen == old(state.seen)
  {
    var world := conn.world;
    var pending := state.pending;
    state.pending := [];
    for i := 0 to |pending|
      invariant world.Valid() && world.patience == old(conn.world.patience)
      invariant world.pump.point == Head && conn.ops == world.pump.live
      invariant world.pump.queue == pending[i..] && world.pump.heard == state.seen == old(state.seen)
      invariant state.pending == []
    {
      ghost var before := world.pump;
      var error := conn.Browse(true, pending[i], state.interface, InstanceContext);
      if error.Some? {
        world.Record(Emit(Send(Failed(error.value))));
      }
    }
  }

  /** The loop, entered and left with an empty queue, and left only on a decision that
      ends it, with the result to match. */
  method PumpLoop(conn: SharedConnection, state: PumpState) returns (result: Option<Error>)
    requires state.world == conn.world && conn.world.Valid()
    requires conn.world.pump.point == Head && conn.ops == conn.world.pump.live
    requires state.Tracks(conn.world.pump) && state.pending == []
    modifies conn, state, conn.world
    ensures conn.world.Valid() && conn.world.pump.point == Closing(result) && conn.ops == conn.world.pump.live
    ensures LastDecision(conn.world.log).Some? && EndsLoop(LastDecision(conn.world.log).value, result)
  {
    var world := conn.world;
    var stopped := world.StopRequested();
    while !stopped
      invariant world.Valid() && conn.ops == world.pump.live && state.Tracks(world.pump) && state.pending == []
      invariant world.pump.point == if stopped then Closing(None) else Waiting
      invariant LastDecision(world.log) == Some(LoadStop(stopped))
      decreases if stopped then 0 else world.patience + 1
    {
      var answer: PollAnswer := *;
      world.Record(Action.Poll(answer));
      match answer {
        case PollError(errno) =>
          if errno != EINTR {
            return Some(BrowseFailed(Stage.Poll, errno));
          }
        case PollTimeout =>
        case PollReady(readable, hungUp) =>
          if readable {
            result := conn.ProcessResult(state);
            if result.Some? {
              return;
            }
            StartPendingBrowses(conn, state);
          } else if hungUp {
            break;
          }
      }
      stopped := world.StopRequested();
    }
    result := None;
  }

  /** The state and the two contexts borrowing it, boxed before the connection. */
  method AllocateContexts(world: World) returns (state: PumpState)
    requires world.Valid() && world.pump == Initial(world.config)
    modifies world
    ensures world.Valid() && world.pump == Initial(world.config).(blocks := BLOCKS, point := Opening)
    ensures fresh(state) && state.world == world && state.Tracks(world.pump)
  {
    world.Record(Allocate(StateBlock));
    state := new PumpState(world, world.config.interface);
    world.Record(Allocate(MetaBlock));
    world.Record(Allocate(InstanceBlock));
  }

  method FreeContexts(world: World)
    requires world.Valid() && world.pump.point.Unwinding? && world.pump.blocks == BLOCKS
    modifies world
    ensures world.Valid() && world.pump == old(world.pump).(blocks := [])
  {
    world.Record(Free(InstanceBlock));
    world.Record(Free(MetaBlock));
    world.Record(Free(StateBlock));
  }

  /** The connection's life: every exit drops it before the contexts and state. */
  method RunPump(world: World) returns (result: Option<Error>)
    requires world.Valid() && world.pump == Initial(world.config)
    modifies world
    ensures world.Valid() && world.pump.point == Unwinding(result) && world.pump.blocks == []
  {
    var state := AllocateContexts(world);
    var code: int := *;
    world.Record(Create(code));
    if code != NO_ERROR {
      result := Some(BrowseFailed(CreateConnection, code));
    } else {
      var conn := new SharedConnection(world);
      result := Serve(conn, state);
      FootingHolds(world.config, world.log);
      conn.Drop();
    }
    FreeContexts(world);
  }

  /** From a fresh connection to the error or the end of its use. */
  method Serve(conn: SharedConnection, state: PumpState) returns (result: Option<Error>)
    requires state.world == conn.world && conn.world.Valid() && conn.world.pump.point == Describing
    requires conn.ops == conn.world.pump.live && state.Tracks(conn.world.pump) && state.pending == []
    modifies conn, state, conn.world
    ensures conn.world.Valid() && conn.world.pump.point == Closing(result) && conn.ops == conn.world.pump.live
  {
    var world := conn.world;
    result := conn.SocketFd();
    if result.Some? {
      return;
    }
    result := conn.Browse(false, world.config.root, world.config.interface, world.config.rootContext);
    if result.Some? {
      return;
    }
    result := PumpLoop(conn, state);
  }

  /** The rest of the thread: a fatal error is the last thing it sends. */
  method Conclude(world: World, result: Option<Error>)
    requires world.Valid() && world.pump.point == Unwinding(result) && world.pump.blocks == []
    modifies world
    ensures world.Valid() && world.pump.point == Ended
  {
    world.Record(Return(result));
    if result.Some? {
      world.Record(Emit(Send(Failed(result.value))));
    }
    world.Record(End);
  }

  /** The thread `browse_start` spawns. Whatever the daemon, the poll call and the
      guard do, it ends with a log the machine accepts and everything torn down. */
  method PumpThread(serviceType: Option<string>, domain: Option<string>, interface: nat, patience: nat)
      returns (world: World)
    ensures fresh(world) && world.Valid() && world.pump.point == Ended
    ensures world.config == Configure(serviceType, domain, interface)
    ensures FreedRefs(world.log) == StartedRefs(world.log) && !Connected(world.log) && Held(world.log) == {}
    ensures Attempted(world.log) + world.pump.queue == Dedup(Announced(world.config, world.log))
    ensures Effects(world.log) == Explained(world.log)
    ensures Faithful(serviceType, domain, interface, world.log, world.pump.queue)
  {
    hide After, Faithful, Attempted, Announced, Dedup, Effects, Explained, StartedRefs, FreedRefs, Connected, Held;
    world := new World(Configure(serviceType, domain, interface), patience);
    var result := RunPump(world);
    Conclude(world, result);
    TornDown(world.config, world.log);
    RunsAreFaithful(serviceType, domain, interface, world.log);
    CascadeRefinesDedup(world.config, world.log);
  }
}
