/** The macOS browse pump as a machine over its observable actions: native calls
    and their answers, callbacks, messages sent, tasks spawned, memory released.
    `Step` says what the pump thread may do next; the theorems are about every
    log the machine accepts, hence about every moment of every run. */
module PumpProtocol {
  import opened Seqs
  import opened Names
  import opened Events

  type Key = (string, string)

  const META_QUERY_TYPE := "_services._dns-sd._udp"
  const NO_ERROR := 0
  const EINTR := 4

  // ---- Vocabulary ----

  /** The root browse, the caller's interface scope, and how meta-query replies
      are put together again. The code uses `Names.MetaReply`; only theorems about
      names need that. */
  datatype Config = Config(
    root: Key, rootContext: Context, interface: nat, rebuild: (string, string, string) -> Key)

  /** `browse_start`: no service type means the meta-query, no domain the defaults. */
  function Configure(serviceType: Option<string>, domain: Option<string>, interface: nat): Config {
    var root := match domain case Some(d) => d case None => "";
    match serviceType
    case Some(t) => Config((t, root), InstanceContext, interface, MetaReply)
    case None => Config((META_QUERY_TYPE, root), MetaContext, interface, MetaReply)
  }

  /** The two callback contexts; every per-type browse shares the second. */
  datatype Context = MetaContext | InstanceContext

  /** What the daemon keeps behind a reference: which start it came from and the
      context its replies are reported to. */
  datatype ServiceRef = ServiceRef(id: nat, context: Context)

  datatype Reply = Reply(
    flags: nat, interface: nat, code: int, name: string, regtype: string, domain: string)

  datatype Task = Resolve(name: string, regtype: string, domain: string, interface: nat)

  datatype Outcome = Started(ref: ServiceRef) | Refused(code: int) | Rejected(param: string, position: nat)

  datatype PollAnswer = PollError(errno: int) | PollTimeout | PollReady(readable: bool, hungUp: bool)

  datatype Block = StateBlock | MetaBlock | InstanceBlock

  /** What the pump thread does to the outside world: publish an event, or hand
      a resolve to the blocking pool. */
  datatype Effect = Send(event: Event) | Spawn(task: Task)

  datatype Action =
    | Allocate(block: Block)
    | Create(code: int)
    | Describe(fd: int)
    | Browse(child: bool, key: Key, interface: nat, context: Context, outcome: Outcome)
    | LoadStop(stopped: bool)
    | Poll(answer: PollAnswer)
    | BeginDispatch
    | Callback(ref: ServiceRef, reply: Reply)
    | EndDispatch(code: int)
    | Emit(effect: Effect)
    | Deallocate(ref: ServiceRef)
    | DeallocateParent
    | Free(block: Block)
    | Return(result: Option<Error>)
    | End

  /** Where the pump thread stands. `Head` is the loop head and the drain before
      it. `Replying`, `Reporting` and `Confessing` have exactly one effect to
      produce: for a callback, a failed child browse, and the fatal error. */
  datatype Point =
    | Booting
    | Opening
    | Describing
    | Rooting
    | Head
    | Reporting(effect: Effect)
    | Waiting
    | Readable
    | Dispatching
    | Replying(effect: Effect)
    | Closing(result: Option<Error>)
    | Unwinding(result: Option<Error>)
    | Confessing(effect: Effect)
    | Leaving
    | Ended

  datatype Pump = Pump(
    config: Config, point: Point, blocks: seq<Block>,
    live: seq<ServiceRef>, started: nat, heard: set<Key>, queue: seq<Key>)

  // ---- The pieces of the code a step refers to ----

  /** `flags & FLAGS_ADD != 0`, the flag being 0x2. */
  predicate IsAdd(reply: Reply) { reply.flags / 2 % 2 == 1 }

  /** `CString::new` stops at the first NUL. */
  ghost predicate FirstNul(s: string, position: nat) {
    position < |s| && s[position] == '\0' && forall i :: 0 <= i < position ==> s[i] != '\0'
  }

  function StartError(key: Key, outcome: Outcome): Error
    requires !outcome.Started?
  {
    match outcome
    case Refused(code) => BrowseFailed(StartBrowse(key.0), code)
    case Rejected(param, position) => InteriorNul(param, position)
  }

  /** The meta-query reported a service type. */
  predicate Announces(a: Action) {
    a.Callback? && a.ref.context == MetaContext && a.reply.code == NO_ERROR && IsAdd(a.reply)
  }

  function Rebuild(config: Config, reply: Reply): Key {
    config.rebuild(reply.name, reply.regtype, reply.domain)
  }

  /** Replies are rebuilt the way the code does it. */
  ghost predicate Genuine(config: Config) {
    forall name, regtype, domain :: config.rebuild(name, regtype, domain) == MetaReply(name, regtype, domain)
  }

  lemma {:induction false} CodeIsGenuine(serviceType: Option<string>, domain: Option<string>, interface: nat)
    ensures Genuine(Configure(serviceType, domain, interface))
  {
  }

  /** The one effect an action calls for, if any. */
  function Owed(a: Action): Option<Effect> {
    match a
    case Callback(ref, r) => Reaction(ref.context, r)
    case Browse(true, key, _, _, outcome) =>
      if outcome.Started? then None else Some(Send(Failed(StartError(key, outcome))))
    case Return(Some(error)) => Some(Send(Failed(error)))
    case _ => None
  }

  function Reaction(context: Context, r: Reply): Option<Effect> {
    if r.code != NO_ERROR then Some(Send(Failed(BrowseFailed(BrowseReply, r.code))))
    else if context == MetaContext then None
    else if IsAdd(r) then Some(Spawn(Resolve(r.name, r.regtype, r.domain, r.interface)))
    else Some(Send(Removed(r.name, TrimDot(r.regtype), TrimDot(r.domain), NonZero(r.interface))))
  }

  // ---- The machine ----

  const BLOCKS := [StateBlock, MetaBlock, InstanceBlock]

  function Initial(config: Config): Pump {
    Pump(config, Booting, [], [], 0, {}, [])
  }

  /** How a browse may turn out: rejected for the first NUL in the type, else in
      the domain; otherwise as the daemon likes. */
  ghost predicate Possible(p: Pump, key: Key, context: Context, outcome: Outcome) {
    match outcome
    case Rejected(param, position) =>
      (param == key.0 && FirstNul(key.0, position))
      || (param == key.1 && FirstNul(key.1, position) && '\0' !in key.0)
    case Started(ref) => '\0' !in key.0 && '\0' !in key.1 && ref == ServiceRef(p.started, context)
    case Refused(code) => '\0' !in key.0 && '\0' !in key.1 && code != NO_ERROR
  }

  /** The browse the pump has to make next: the caller's, then the queue's. */
  predicate Expects(p: Pump, child: bool, key: Key, interface: nat, context: Context) {
    && interface == p.config.interface
    && (if child then p.point == Head && p.queue != [] && key == p.queue[0] && context == InstanceContext
        else p.point == Rooting && key == p.config.root && context == p.config.rootContext)
  }

  function AfterPoll(answer: PollAnswer): Point {
    match answer
    case PollError(errno) => if errno == EINTR then Head else Closing(Some(BrowseFailed(Stage.Poll, errno)))
    case PollTimeout => Head
    case PollReady(readable, hungUp) => if readable then Readable else if hungUp then Closing(None) else Head
  }

  function Start(p: Pump, outcome: Outcome): Pump {
    if outcome.Started? then p.(live := p.live + [outcome.ref], started := p.started + 1) else p
  }

  /** What the pump thread may do next, and where that leaves it. */
  ghost function Step(p: Pump, a: Action): Option<Pump> {
    match p.point
    case Booting =>
      if a.Allocate? && |p.blocks| < |BLOCKS| && a.block == BLOCKS[|p.blocks|]
      then Some(p.(blocks := p.blocks + [a.block],
                   point := if |p.blocks| + 1 == |BLOCKS| then Opening else Booting))
      else None
    case Opening =>
      if !a.Create? then None
      else if a.code == NO_ERROR then Some(p.(point := Describing))
      else Some(p.(point := Unwinding(Some(BrowseFailed(CreateConnection, a.code)))))
    case Describing =>
      if !a.Describe? then None
      else if a.fd >= 0 then Some(p.(point := Rooting))
      else Some(p.(point := Closing(Some(BrowseFailed(SocketDescriptor, a.fd)))))
    case Rooting =>
      if a.Browse? && !a.child && Expects(p, false, a.key, a.interface, a.context)
         && Possible(p, a.key, a.context, a.outcome)
      then
        if a.outcome.Started? then Some(Start(p, a.outcome).(point := Head))
        else Some(p.(point := Closing(Some(StartError(a.key, a.outcome)))))
      else None
    case Head =>
      if p.queue == [] then
        if !a.LoadStop? then None
        else Some(p.(point := if a.stopped then Closing(None) else Waiting))
      else if a.Browse? && a.child && Expects(p, true, a.key, a.interface, a.context)
              && Possible(p, a.key, a.context, a.outcome)
      then
        Some(Start(p, a.outcome).(
          queue := p.queue[1..],
          point := match Owed(a) case Some(effect) => Reporting(effect) case None => Head))
      else None
    case Reporting(effect) =>
      if a == Emit(effect) then Some(p.(point := Head)) else None
    case Waiting =>
      if a.Poll? then Some(p.(point := AfterPoll(a.answer))) else None
    case Readable =>
      if a.BeginDispatch? then Some(p.(point := Dispatching)) else None
    case Dispatching =>
      if a.Callback? && a.ref in p.live then
        if Announces(a) then
          var key := Rebuild(p.config, a.reply);
          if key in p.heard then Some(p)
          else Some(p.(heard := p.heard + {key}, queue := p.queue + [key]))
        else
          match Owed(a)
          case Some(effect) => Some(p.(point := Replying(effect)))
          case None => Some(p)
      else if a.EndDispatch? then
        if a.code == NO_ERROR then Some(p.(point := Head))
        else Some(p.(point := Closing(Some(BrowseFailed(ProcessResult, a.code)))))
      else None
    case Replying(effect) =>
      if a == Emit(effect) then Some(p.(point := Dispatching)) else None
    case Closing(result) =>
      if p.live == [] then
        if a.DeallocateParent? then Some(p.(point := Unwinding(result))) else None
      else if a == Deallocate(p.live[0]) then Some(p.(live := p.live[1..]))
      else None
    case Unwinding(result) =>
      if p.blocks == [] then
        if a != Return(result) then None
        else
          match Owed(a)
          case Some(effect) => Some(p.(point := Confessing(effect)))
          case None => Some(p.(point := Leaving))
      else if a == Free(p.blocks[|p.blocks| - 1]) then Some(p.(blocks := p.blocks[..|p.blocks| - 1]))
      else None
    case Confessing(effect) =>
      if a == Emit(effect) then Some(p.(point := Leaving)) else None
    case Leaving =>
      if a.End? then Some(p.(point := Ended)) else None
    case Ended => None
  }

  /** The pump after a whole log, if the log is one it may produce. */
  ghost function After(config: Config, log: seq<Action>): Option<Pump> {
    if log == [] then Some(Initial(config))
    else
      match After(config, log[..|log| - 1])
      case None => None
      case Some(p) => Step(p, log[|log| - 1])
  }

  lemma {:induction false} AfterSnoc(config: Config, log: seq<Action>, a: Action)
    ensures After(config, log + [a]) ==
            match After(config, log) case None => None case Some(p) => Step(p, a)
  {
    assert (log + [a])[..|log|] == log;
  }

  lemma {:induction false} PrefixAccepted(config: Config, log: seq<Action>, n: nat)
    requires n <= |log| && After(config, log).Some?
    ensures After(config, log[..n]).Some?
  {
    if n < |log| {
      PrefixAccepted(config, log[..|log| - 1], n);
      assert log[..|log| - 1][..n] == log[..n];
    } else {
      assert log[..n] == log;
    }
  }
}
