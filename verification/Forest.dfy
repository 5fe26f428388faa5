/** The Linux back-end as a forest of asynchronous tasks. A browse task owns the
    handles of the tasks it spawned; dropping a handle aborts its task, and an
    aborted task is dropped by the runtime at some later await. Between two awaits
    a task runs undisturbed, so one message is one move. */
module Forest {
  import opened Seqs
  import opened Events

  type Key = (string, string)
  type TaskId = nat

  datatype Kind = AllTypes | OneType(key: Key) | Resolver(name: string)

  /** `Starting` is before the browser object exists, and a resolver stays there;
      `Freeing` is after the message loop, with the browser object being freed. */
  datatype Phase = Starting | Looping | Freeing | Finished | Cancelled

  /** A signal as the loops see it; bodies that fail to deserialize are malformed. */
  datatype Message =
    | Unreadable
    | MalformedNew
    | MalformedRemove
    | NewType(key: Key)
    | NewInstance(name: string, serviceType: string, domain: string, interface: int)
    | RemovedInstance(name: string, serviceType: string, domain: string, interface: int)
    | Failure
    | Other

  /** `owned` is the task's vector of abort-on-drop handles; `received` the
      messages it has handled. */
  datatype Task = Task(
    kind: Kind, parent: TaskId, phase: Phase, aborted: bool, owned: seq<TaskId>, received: seq<Message>)
  {
    predicate Done() { phase.Finished? || phase.Cancelled? }
  }

  /** Task 0 is the root the guard holds. `seen` is the root's dedup set. `sent` is
      every event handed to the channel, delivered or not: once the receiver is
      gone, sending fails and the event is lost. */
  datatype Forest = Forest(
    tasks: seq<Task>, guard: bool, receiver: bool, seen: set<Key>, sent: seq<(TaskId, Event)>)

  /** What a task does, or has done to it, between two awaits. */
  datatype Turn =
    | StartFails(error: Error)
    | Starts
    | Receives(message: Message)
    | StreamEnds
    | Returns
    | Resolves(event: Event)
    | Reap

  datatype Move = By(task: TaskId, turn: Turn) | DropGuard | CloseReceiver

  function Plant(kind: Kind): Forest {
    Forest([Task(kind, 0, Starting, false, [], [])], true, true, {}, [])
  }

  // ---- The pieces of a move ----

  /** `avahi_interface_to_index`. */
  function InterfaceIndex(interface: int): Option<nat> {
    if interface <= 0 then None else Some(interface)
  }

  /** Dropping handles aborts their tasks. */
  function AbortAll(tasks: seq<Task>, ids: seq<TaskId>): (r: seq<Task>)
    ensures |r| == |tasks|
    ensures forall i :: 0 <= i < |r| ==> r[i] == if i in ids then tasks[i].(aborted := true) else tasks[i]
  {
    seq(|tasks|, i requires 0 <= i < |tasks| => if i in ids then tasks[i].(aborted := true) else tasks[i])
  }

  /** A task's future goes away, with everything it owns. */
  function End(f: Forest, t: TaskId, phase: Phase): Forest
    requires t < |f.tasks|
  {
    f.(tasks := AbortAll(f.tasks, f.tasks[t].owned)[t := f.tasks[t].(phase := phase, owned := [])])
  }

  function Emit(f: Forest, t: TaskId, event: Event): Forest {
    f.(sent := f.sent + [(t, event)])
  }

  /** `retain(|r| !r.is_finished())`. */
  function Unfinished(tasks: seq<Task>, ids: seq<TaskId>): (r: seq<TaskId>)
    ensures forall c :: c in r <==> c in ids && c < |tasks| && !tasks[c].Done()
    ensures (forall i, j :: 0 <= i < j < |ids| ==> ids[i] != ids[j]) ==>
              forall i, j :: 0 <= i < j < |r| ==> r[i] != r[j]
  {
    if ids == [] then []
    else
      var rest := Unfinished(tasks, ids[..|ids| - 1]);
      var c := ids[|ids| - 1];
      assert ids == ids[..|ids| - 1] + [c];
      if c < |tasks| && !tasks[c].Done() then rest + [c] else rest
  }

  /** Spawns a task and keeps its handle behind those in `kept`. */
  function Spawn(f: Forest, t: TaskId, kind: Kind, kept: seq<TaskId>): Forest
    requires t < |f.tasks|
  {
    var c := |f.tasks|;
    f.(tasks := f.tasks[t := f.tasks[t].(owned := kept + [c])] + [Task(kind, t, Starting, false, [], [])])
  }

  /** Out of the message loop, handles still held. */
  function Leave(f: Forest, t: TaskId): Forest
    requires t < |f.tasks|
  {
    f.(tasks := f.tasks[t := f.tasks[t].(phase := Freeing)])
  }

  function OnTypeMessage(f: Forest, t: TaskId, m: Message): Forest
    requires t < |f.tasks|
  {
    match m
    case NewType(key) =>
      if key in f.seen then f
      else Spawn(f.(seen := f.seen + {key}), t, OneType(key), f.tasks[t].owned)
    case Failure => Emit(f, t, Failed(BrowseFailed(TypeBrowserSignal, 0)))
    case _ => f
  }

  function OnInstanceMessage(f: Forest, t: TaskId, m: Message): Forest
    requires t < |f.tasks| && f.tasks[t].kind.OneType?
  {
    match m
    case NewInstance(name, _, _, _) => Spawn(f, t, Resolver(name), Unfinished(f.tasks, f.tasks[t].owned))
    case RemovedInstance(name, serviceType, domain, interface) =>
      var g := Emit(f, t, Removed(name, serviceType, domain, InterfaceIndex(interface)));
      if f.receiver then g else Leave(g, t)
    case Failure => Emit(f, t, Failed(BrowseFailed(InstanceBrowserSignal(f.tasks[t].kind.key.0), 0)))
    case _ => f
  }

  /** The messages each kind of browser can be sent. */
  predicate Understands(kind: Kind, m: Message) {
    match kind
    case AllTypes => m.Unreadable? || m.MalformedNew? || m.NewType? || m.Failure? || m.Other?
    case OneType(_) => !m.NewType?
    case Resolver(_) => false
  }

  predicate Answer(kind: Kind, event: Event) {
    kind.Resolver? && (event == Failed(ResolveFailed(kind.name)) || event.Found?)
  }

  // ---- The machine ----

  function Note(f: Forest, t: TaskId, m: Message): Forest
    requires t < |f.tasks|
  {
    f.(tasks := f.tasks[t := f.tasks[t].(received := f.tasks[t].received + [m])])
  }

  function TakeTurn(f: Forest, t: TaskId, turn: Turn): Option<Forest>
    requires t < |f.tasks|
  {
    var task := f.tasks[t];
    match turn
    case Reap => if task.aborted then Some(End(f, t, Cancelled)) else None
    case StartFails(error) =>
      if task.kind.Resolver? || task.phase != Starting then None
      else Some(End(Emit(f, t, Failed(error)), t, Finished))
    case Starts =>
      if task.kind.Resolver? || task.phase != Starting then None
      else Some(f.(tasks := f.tasks[t := task.(phase := Looping)]))
    case StreamEnds => if task.phase != Looping then None else Some(Leave(f, t))
    case Returns => if task.phase != Freeing then None else Some(End(f, t, Finished))
    case Receives(m) =>
      if task.phase != Looping || !Understands(task.kind, m) then None
      else if task.kind.AllTypes? then Some(OnTypeMessage(Note(f, t, m), t, m))
      else Some(OnInstanceMessage(Note(f, t, m), t, m))
    case Resolves(event) =>
      if !Answer(task.kind, event) then None
      else Some(End(Emit(f, t, event), t, Finished))
  }

  /** An aborted task keeps taking turns until the runtime reaps it. */
  function Next(f: Forest, move: Move): Option<Forest> {
    match move
    case DropGuard =>
      if f.tasks == [] then None
      else Some(f.(guard := false, tasks := f.tasks[0 := f.tasks[0].(aborted := true)]))
    case CloseReceiver => Some(f.(receiver := false))
    case By(t, turn) =>
      if t < |f.tasks| && !f.tasks[t].Done() then TakeTurn(f, t, turn) else None
  }

  function RunFrom(f: Forest, moves: seq<Move>): Option<Forest> {
    if moves == [] then Some(f)
    else
      match RunFrom(f, moves[..|moves| - 1])
      case None => None
      case Some(g) => Next(g, moves[|moves| - 1])
  }

  lemma {:induction false} RunSnoc(f: Forest, moves: seq<Move>, move: Move)
    ensures RunFrom(f, moves + [move]) ==
            match RunFrom(f, moves) case None => None case Some(g) => Next(g, move)
  {
    assert (moves + [move])[..|moves|] == moves;
  }

  // ---- Ownership ----

  /** Every handle has one place and leads to the holder's own child; an
      unfinished task is held by its unfinished parent, or is being aborted; and
      a running parent's children are not. */
  ghost predicate Sound(f: Forest) {
    && 1 <= |f.tasks|
    && (!f.tasks[0].Done() ==> f.guard || f.tasks[0].aborted)
    && (forall c :: 1 <= c < |f.tasks| ==> SoundTask(f, c))
    && (forall t :: 0 <= t < |f.tasks| ==> SoundOwner(f, t))
    && !f.tasks[0].kind.Resolver?
  }

  ghost predicate SoundTask(f: Forest, c: TaskId)
    requires 1 <= c < |f.tasks|
  {
    var task := f.tasks[c];
    && task.parent < c
    && (!task.Done() && !f.tasks[task.parent].Done() ==> c in f.tasks[task.parent].owned && !task.aborted)
    && (!task.Done() && f.tasks[task.parent].Done() ==> task.aborted)
    && (task.phase.Cancelled? ==> f.tasks[task.parent].Done())
    && (task.kind.Resolver? ==> f.tasks[task.parent].kind.OneType?)
    && (task.kind.OneType? ==> task.parent == 0 && f.tasks[0].kind.AllTypes?)
    && !task.kind.AllTypes?
  }

  ghost predicate SoundOwner(f: Forest, t: TaskId)
    requires t < |f.tasks|
  {
    var task := f.tasks[t];
    && (forall c :: c in task.owned ==> t < c < |f.tasks| && f.tasks[c].parent == t)
    && (forall i, j :: 0 <= i < j < |task.owned| ==> task.owned[i] != task.owned[j])
    && (task.Done() || task.phase == Starting ==> task.owned == [])
    && (task.kind.Resolver? ==> task.phase != Looping && task.phase != Freeing)
  }

  lemma {:induction false} EndSound(f: Forest, t: TaskId, phase: Phase)
    requires Sound(f) && t < |f.tasks| && !f.tasks[t].Done() && phase in {Finished, Cancelled}
    requires phase == Cancelled ==> f.tasks[t].aborted
    ensures Sound(End(f, t, phase))
  {
    var g := End(f, t, phase);
    forall c | 1 <= c < |g.tasks|
      ensures SoundTask(g, c)
    {
      assert SoundTask(f, c);
      assert SoundOwner(f, t);
      if f.tasks[c].parent != t && c in f.tasks[t].owned {
        assert false;
      }
    }
    forall i | 0 <= i < |g.tasks|
      ensures SoundOwner(g, i)
    {
      assert SoundOwner(f, i);
    }
  }

  lemma {:induction false} SpawnSound(f: Forest, t: TaskId, kind: Kind, kept: seq<TaskId>)
    requires Sound(f) && t < |f.tasks| && f.tasks[t].phase == Looping
    requires kept == f.tasks[t].owned || kept == Unfinished(f.tasks, f.tasks[t].owned)
    requires (kind.OneType? && t == 0 && f.tasks[0].kind.AllTypes?)
          || (kind.Resolver? && f.tasks[t].kind.OneType?)
    ensures Sound(Spawn(f, t, kind, kept))
  {
    hide Unfinished;
    assert SoundOwner(f, t);
    KeptHandles(f, t, kept);
    var g := Spawn(f, t, kind, kept);
    forall c | 1 <= c < |g.tasks|
      ensures SoundTask(g, c)
    {
      SpawnTask(f, t, kind, kept, c);
    }
    forall i | 0 <= i < |g.tasks|
      ensures SoundOwner(g, i)
    {
      SpawnOwner(f, t, kind, kept, i);
    }
  }

  /** `kept` are handles of `t`'s, each once, with those of all unfinished children. */
  ghost predicate Keeps(f: Forest, t: TaskId, kept: seq<TaskId>)
    requires t < |f.tasks|
  {
    && (forall c :: c in kept ==> c in f.tasks[t].owned && t < c < |f.tasks| && f.tasks[c].parent == t)
    && (forall c :: c in f.tasks[t].owned && c < |f.tasks| && !f.tasks[c].Done() ==> c in kept)
    && (forall i, j :: 0 <= i < j < |kept| ==> kept[i] != kept[j])
  }

  lemma {:induction false} SpawnTask(f: Forest, t: TaskId, kind: Kind, kept: seq<TaskId>, c: TaskId)
    requires Sound(f) && t < |f.tasks| && f.tasks[t].phase == Looping && Keeps(f, t, kept)
    requires (kind.OneType? && t == 0 && f.tasks[0].kind.AllTypes?)
          || (kind.Resolver? && f.tasks[t].kind.OneType?)
    requires 1 <= c <= |f.tasks|
    ensures SoundTask(Spawn(f, t, kind, kept), c)
  {
    if c < |f.tasks| {
      assert SoundTask(f, c);
    } else {
      assert (kept + [c])[|kept|] == c;
    }
  }

  lemma {:induction false} SpawnOwner(f: Forest, t: TaskId, kind: Kind, kept: seq<TaskId>, i: TaskId)
    requires Sound(f) && t < |f.tasks| && f.tasks[t].phase == Looping && Keeps(f, t, kept)
    requires (kind.OneType? && t == 0 && f.tasks[0].kind.AllTypes?)
          || (kind.Resolver? && f.tasks[t].kind.OneType?)
    requires i <= |f.tasks|
    ensures SoundOwner(Spawn(f, t, kind, kept), i)
  {
    if i < |f.tasks| {
      assert SoundOwner(f, i);
    }
    forall k | 0 <= k < |kept|
      ensures kept[k] < |f.tasks|
    {
      assert kept[k] in kept;
    }
  }

  lemma {:induction false} KeptHandles(f: Forest, t: TaskId, kept: seq<TaskId>)
    requires t < |f.tasks| && SoundOwner(f, t)
    requires kept == f.tasks[t].owned || kept == Unfinished(f.tasks, f.tasks[t].owned)
    ensures Keeps(f, t, kept)
  {
  }

  lemma {:induction false} NoteSound(f: Forest, t: TaskId, m: Message)
    requires Sound(f) && t < |f.tasks|
    ensures Sound(Note(f, t, m))
  {
    SameShape(f, Note(f, t, m));
  }

  /** Every move keeps the forest sound. */
  lemma {:induction false} NextSound(f: Forest, move: Move)
    requires Sound(f) && Next(f, move).Some?
    ensures Sound(Next(f, move).value)
  {
    var g := Next(f, move).value;
    match move {
      case CloseReceiver => SameTasks(f, g);
      case By(t, Reap) => EndSound(f, t, Cancelled);
      case By(t, Returns) => EndSound(f, t, Finished);
      case By(t, StreamEnds) => SameShape(f, g);
      case By(t, StartFails(error)) =>
        SameTasks(f, Emit(f, t, Failed(error)));
        EndSound(Emit(f, t, Failed(error)), t, Finished);
      case By(t, Resolves(event)) =>
        SameTasks(f, Emit(f, t, event));
        EndSound(Emit(f, t, event), t, Finished);
      case By(t, Receives(m)) => ReceivesSound(f, t, m);
      case By(_, Starts) => SameShape(f, g);
      case DropGuard => SameShape(f, g);
    }
  }

  /** A change that leaves handles, parents and completion alone. */
  lemma {:induction false} SameShape(f: Forest, g: Forest)
    requires Sound(f) && |g.tasks| == |f.tasks| && (g.guard == f.guard || g.tasks[0].aborted)
    requires forall i :: 0 <= i < |f.tasks| ==>
               && g.tasks[i].kind == f.tasks[i].kind && g.tasks[i].parent == f.tasks[i].parent
               && g.tasks[i].owned == f.tasks[i].owned && g.tasks[i].Done() == f.tasks[i].Done()
               && (g.tasks[i].phase.Cancelled? <==> f.tasks[i].phase.Cancelled?)
               && (g.tasks[i].aborted == f.tasks[i].aborted || (i == 0 && g.tasks[i].aborted))
               && (g.tasks[i].phase == Starting ==> f.tasks[i].phase == Starting)
               && (g.tasks[i].phase in {Looping, Freeing} ==>
                     f.tasks[i].phase in {Looping, Freeing} || !f.tasks[i].kind.Resolver?)
    ensures Sound(g)
  {
    forall c | 1 <= c < |g.tasks|
      ensures SoundTask(g, c)
    {
      assert SoundTask(f, c);
    }
    forall i | 0 <= i < |g.tasks|
      ensures SoundOwner(g, i)
    {
      assert SoundOwner(f, i);
    }
  }

  lemma {:induction false} SameTasks(f: Forest, g: Forest)
    requires Sound(f) && g.tasks == f.tasks && g.guard == f.guard
    ensures Sound(g)
  {
    SameShape(f, g);
  }

  lemma {:induction false} ReceivesSound(f: Forest, t: TaskId, m: Message)
    requires Sound(f) && Next(f, By(t, Receives(m))).Some?
    ensures Sound(Next(f, By(t, Receives(m))).value)
  {
    var n := Note(f, t, m);
    NoteSound(f, t, m);
    assert t > 0 ==> SoundTask(f, t);
    match m {
      case NewType(key) =>
        if key !in n.seen {
          SameTasks(n, n.(seen := n.seen + {key}));
          SpawnSound(n.(seen := n.seen + {key}), t, OneType(key), n.tasks[t].owned);
        }
      case NewInstance(name, _, _, _) =>
        SpawnSound(n, t, Resolver(name), Unfinished(n.tasks, n.tasks[t].owned));
      case RemovedInstance(name, serviceType, domain, interface) =>
        var e := Emit(n, t, Removed(name, serviceType, domain, InterfaceIndex(interface)));
        SameTasks(n, e);
        if !f.receiver {
          SameShape(e, Leave(e, t));
        }
      case Failure =>
        SameTasks(n, Next(f, By(t, Receives(m))).value);
      case _ =>
    }
  }

  lemma {:induction false} AlwaysSound(kind: Kind, moves: seq<Move>)
    requires !kind.Resolver? && RunFrom(Plant(kind), moves).Some?
    ensures Sound(RunFrom(Plant(kind), moves).value)
  {
    if moves != [] {
      AlwaysSound(kind, moves[..|moves| - 1]);
      NextSound(RunFrom(Plant(kind), moves[..|moves| - 1]).value, moves[|moves| - 1]);
    }
  }
}
