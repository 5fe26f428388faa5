/** The Linux browse tasks as code: message loops that update their own sets and
    vectors while every other task runs at each await. One turn of a loop is one
    move of the forest. */
module Tasks {
  import opened Seqs
  import opened Events
  import opened Forest
  import ForestMessages
  import ForestTheorems

  /** The runtime, the D-Bus connection and the event channel. `forest` is the
      state of all tasks; while a message is being handled, `turn` holds it and
      `forest` runs ahead of `moves`. At most `patience` more messages arrive. */
  class Runtime {
    const kind: Kind
    var forest: Forest
    var patience: nat
    ghost var turn: Option<Message>
    ghost var moves: seq<Move>

    /** Everything that happened is a run of the machine, every message handled. */
    ghost predicate Valid()
      reads this
    {
      Ran(forest) && turn == None
    }

    ghost predicate Ran(f: Forest)
      reads this
    {
      !kind.Resolver? && RunFrom(Plant(kind), moves) == Some(f)
    }

    /** `browse_start`: the root task is spawned and its handle is in the guard. */
    constructor (kind: Kind, patience: nat)
      requires !kind.Resolver?
      ensures Valid() && this.kind == kind && forest == Plant(kind)
    {
      this.kind, this.patience := kind, patience;
      forest, moves, turn := Plant(kind), [], None;
    }

    method Record(move: Move)
      requires Valid() && Next(forest, move).Some?
      modifies this
      ensures Valid() && Some(forest) == Next(old(forest), move) && patience == old(patience)
    {
      RunSnoc(Plant(kind), moves, move);
      forest := Next(forest, move).value;
      moves := moves + [move];
    }

    /** What a suspended task still finds as it left it. */
    ghost predicate Keeps(before: Forest, self: TaskId)
      reads this
    {
      && |before.tasks| <= |forest.tasks| && self < |before.tasks|
      && forest.tasks[self].kind == before.tasks[self].kind
      && (forest.tasks[self].Done() ==> forest.tasks[self].phase == Cancelled)
      && (!forest.tasks[self].Done() ==>
            forest.tasks[self].(aborted := false) == before.tasks[self].(aborted := false)
            && (self == 0 ==> forest.seen == before.seen))
    }

    /** An await: any moves of anyone else, the guard and the receiver included;
        `alive` is false if this task was aborted and dropped here. */
    method Await(self: TaskId) returns (alive: bool)
      requires Valid() && self < |forest.tasks| && !forest.tasks[self].Done()
      modifies this
      ensures Valid() && Keeps(old(forest), self) && patience == old(patience)
      ensures alive <==> !forest.tasks[self].Done()
    {
      var others: int := *;
      while others > 0 && !forest.tasks[self].Done()
        invariant Valid() && Keeps(old(forest), self) && patience == old(patience)
      {
        others := others - 1;
        var move: Move := *;
        if Next(forest, move).Some? && !(move.By? && move.task == self && move.turn != Reap) {
          AlwaysSound(kind, moves);
          MovesOfOthers(forest, move, self);
          Record(move);
        }
      }
      alive := !forest.tasks[self].Done();
    }

    /** `messages.next().await`: a message this kind of browser can be sent, or the
        end of the stream. A message received is a turn to be taken. */
    method NextMessage(self: TaskId) returns (alive: bool, message: Option<Message>)
      requires Valid() && self < |forest.tasks| && !forest.tasks[self].Done()
      modifies this
      ensures Ran(forest) && Keeps(old(forest), self) && turn == message
      ensures alive <==> !forest.tasks[self].Done()
      ensures message.Some? ==> alive && patience < old(patience) && Understands(forest.tasks[self].kind, message.value)
    {
      message := None;
      alive := Await(self);
      if alive && patience > 0 {
        var m: Message := *;
        if Understands(forest.tasks[self].kind, m) {
          patience := patience - 1;
          message, turn := Some(m), Some(m);
        }
      }
    }

    method Spawn(self: TaskId, kind: Kind) returns (handle: TaskId)
      modifies this`forest
      ensures handle == |old(forest).tasks|
      ensures forest == old(forest).(tasks := old(forest).tasks + [Task(kind, self, Starting, false, [], [])])
    {
      handle := |forest.tasks|;
      forest := forest.(tasks := forest.tasks + [Task(kind, self, Starting, false, [], [])]);
    }

    method Send(self: TaskId, event: Event) returns (delivered: bool)
      modifies this`forest
      ensures forest == Emit(old(forest), self, event) && delivered == forest.receiver
    {
      forest := Emit(forest, self, event);
      delivered := forest.receiver;
    }

    /** The turn that began at `start` reaches its next await, holding `owned`. */
    method EndTurn(self: TaskId, m: Message, owned: seq<TaskId>, seen: set<Key>, phase: Phase, ghost start: Forest)
      requires Ran(start) && turn == Some(m) && self < |forest.tasks|
      requires Next(start, By(self, Receives(m))) == Some(Held(forest, self, m, owned, seen, phase))
      modifies this
      ensures Valid() && forest == Held(old(forest), self, m, owned, seen, phase) && patience == old(patience)
    {
      RunSnoc(Plant(kind), moves, By(self, Receives(m)));
      forest := Held(forest, self, m, owned, seen, phase);
      moves, turn := moves + [By(self, Receives(m))], None;
    }
  }

  /** `f` with a suspended task's locals filled in. */
  function Held(f: Forest, t: TaskId, m: Message, owned: seq<TaskId>, seen: set<Key>, phase: Phase): Forest
    requires t < |f.tasks|
  {
    var task := f.tasks[t];
    f.(seen := seen,
       tasks := f.tasks[t := task.(phase := phase, owned := owned, received := task.received + [m])])
  }

  /** Other tasks cannot touch this one's locals; only reaping ends it. */
  lemma {:induction false} MovesOfOthers(f: Forest, move: Move, self: TaskId)
    requires Sound(f) && self < |f.tasks| && !f.tasks[self].Done()
    requires Next(f, move).Some? && !(move.By? && move.task == self && move.turn != Reap)
    ensures var g := Next(f, move).value;
            && |f.tasks| <= |g.tasks|
            && g.tasks[self].kind == f.tasks[self].kind
            && (g.tasks[self].Done() ==> g.tasks[self].phase == Cancelled)
            && (!g.tasks[self].Done() ==>
                  g.tasks[self].(aborted := false) == f.tasks[self].(aborted := false)
                  && (self == 0 ==> g.seen == f.seen))
  {
    if move.By? && move.turn.Receives? {
      var m := move.turn.message;
      if ForestTheorems.Spawns(f, m) {
        ForestTheorems.MessageIsSpawn(f, move.task, m);
      } else {
        ForestTheorems.MessageIsTurn(f, move.task, m);
      }
      assert move.task > 0 ==> SoundTask(f, move.task);
    } else if move.By? {
      ForestTheorems.QuietIsTurn(f, move.task, move.turn);
    }
  }

  /** `browse_all_types`: one instance browse per newly announced type, kept alive
      as long as this task. */
  method BrowseAllTypes(rt: Runtime)
    requires rt.Valid() && rt.kind == AllTypes && rt.forest == Plant(AllTypes)
    modifies rt
    ensures rt.Valid() && ForestTheorems.Cascades(rt.forest) && rt.forest.tasks[0].Done()
    ensures ForestTheorems.Says(rt.forest, 0, ForestTheorems.StartFailures(rt.moves, 0))
    ensures ForestMessages.Handled(rt.forest, 0, ForestMessages.Delivered(rt.moves, 0))
  {
    BrowseAllTypesTask(rt);
    ForestTheorems.BrowserSays(rt.kind, rt.moves, 0);
    ForestMessages.MessagesHandled(rt.kind, rt.moves, 0);
    ForestTheorems.OneBrowsePerType(rt.moves);
  }

  /** What a turn of the type loop amounts to, handle by handle. */
  lemma {:induction false} TypeTurn(start: Forest, m: Message)
    requires start.tasks != [] && start.tasks[0].kind == AllTypes && start.tasks[0].phase == Looping
    requires Understands(AllTypes, m)
    ensures m.NewType? && m.key !in start.seen ==>
              var spawned := start.(tasks := start.tasks + [Task(OneType(m.key), 0, Starting, false, [], [])]);
              Next(start, By(0, Receives(m)))
              == Some(Held(spawned, 0, m, start.tasks[0].owned + [|start.tasks|], start.seen + {m.key}, Looping))
    ensures m.Failure? ==>
              Next(start, By(0, Receives(m)))
              == Some(Held(Emit(start, 0, Failed(BrowseFailed(TypeBrowserSignal, 0))), 0, m,
                           start.tasks[0].owned, start.seen, Looping))
    ensures !m.Failure? && !(m.NewType? && m.key !in start.seen) ==>
              Next(start, By(0, Receives(m))) == Some(Held(start, 0, m, start.tasks[0].owned, start.seen, Looping))
  {
    if m.NewType? && m.key !in start.seen {
      var spawned := start.(tasks := start.tasks + [Task(OneType(m.key), 0, Starting, false, [], [])]);
      assert Next(start, By(0, Receives(m))).value.tasks
          == Held(spawned, 0, m, start.tasks[0].owned + [|start.tasks|], start.seen + {m.key}, Looping).tasks;
    }
  }

  method BrowseAllTypesTask(rt: Runtime)
    requires rt.Valid() && rt.kind == AllTypes && rt.forest == Plant(AllTypes)
    modifies rt
    ensures rt.Valid() && |rt.forest.tasks| > 0 && rt.forest.tasks[0].Done()
  {
    var alive := rt.Await(0);
    if !alive {
      return;
    }
    var failed: Option<Error> := *;
    if failed.Some? {
      rt.Record(By(0, StartFails(failed.value)));
      return;
    }
    rt.Record(By(0, Starts));
    var seen: set<Key> := {};
    var childBrowsers: seq<TaskId> := [];
    var message: Option<Message>;
    alive, message := rt.NextMessage(0);
    while message.Some?
      invariant rt.Ran(rt.forest) && rt.turn == message && |rt.forest.tasks| > 0 && rt.kind == AllTypes
      invariant alive <==> !rt.forest.tasks[0].Done()
      invariant message.Some? ==> alive && Understands(AllTypes, message.value)
      invariant alive ==>
                  var root := rt.forest.tasks[0];
                  root.kind == AllTypes && root.phase == Looping && root.owned == childBrowsers && rt.forest.seen == seen
      decreases if message.Some? then rt.patience + 1 else 0
    {
      seen, childBrowsers := HandleTypeMessage(rt, seen, childBrowsers, message.value);
      alive, message := rt.NextMessage(0);
    }
    if !alive {
      return;
    }
    rt.Record(By(0, StreamEnds));
    alive := rt.Await(0);
    if alive {
      rt.Record(By(0, Returns));
    }
  }

  /** The body of the loop. */
  method HandleTypeMessage(rt: Runtime, seen: set<Key>, childBrowsers: seq<TaskId>, message: Message)
      returns (seen': set<Key>, childBrowsers': seq<TaskId>)
    requires rt.Ran(rt.forest) && rt.turn == Some(message) && |rt.forest.tasks| > 0 && rt.forest.seen == seen
    requires var root := rt.forest.tasks[0];
             root.kind == AllTypes && root.phase == Looping && root.owned == childBrowsers
    requires Understands(AllTypes, message)
    modifies rt
    ensures rt.Valid() && Some(rt.forest) == Next(old(rt.forest), By(0, Receives(message)))
    ensures rt.patience == old(rt.patience) && |rt.forest.tasks| > 0 && rt.forest.seen == seen'
    ensures var root := rt.forest.tasks[0];
            root.kind == AllTypes && root.phase == Looping && root.owned == childBrowsers'
  {
    ghost var start := rt.forest;
    TypeTurn(start, message);
    seen', childBrowsers' := seen, childBrowsers;
    match message {
      case NewType(key) =>
        if key !in seen {
          seen' := seen + {key};
          var handle := rt.Spawn(0, OneType(key));
          childBrowsers' := childBrowsers + [handle];
        }
      case Failure =>
        var _ := rt.Send(0, Failed(BrowseFailed(TypeBrowserSignal, 0)));
      case _ =>
    }
    rt.EndTurn(0, message, childBrowsers', seen', Looping, start);
  }

  /** `retain(|r| !r.is_finished())`. */
  method RetainUnfinished(rt: Runtime, resolvers: seq<TaskId>) returns (kept: seq<TaskId>)
    ensures kept == Unfinished(rt.forest.tasks, resolvers)
  {
    kept := [];
    for i := 0 to |resolvers|
      invariant kept == Unfinished(rt.forest.tasks, resolvers[..i])
    {
      assert resolvers[..i + 1][..i] == resolvers[..i];
      if resolvers[i] < |rt.forest.tasks| && !rt.forest.tasks[resolvers[i]].Done() {
        kept := kept + [resolvers[i]];
      }
    }
    assert resolvers[..|resolvers|] == resolvers;
  }

  lemma {:induction false} InstanceTurn(start: Forest, self: TaskId, m: Message)
    requires self < |start.tasks| && start.tasks[self].kind.OneType? && start.tasks[self].phase == Looping
    requires Understands(start.tasks[self].kind, m)
    ensures var owned := start.tasks[self].owned;
            && (m.NewInstance? ==>
                  var spawned := start.(tasks := start.tasks + [Task(Resolver(m.name), self, Starting, false, [], [])]);
                  Next(start, By(self, Receives(m)))
                  == Some(Held(spawned, self, m, Unfinished(start.tasks, owned) + [|start.tasks|], start.seen, Looping)))
            && (m.RemovedInstance? ==>
                  Next(start, By(self, Receives(m)))
                  == Some(Held(Emit(start, self, Removed(m.name, m.serviceType, m.domain, InterfaceIndex(m.interface))),
                               self, m, owned, start.seen, if start.receiver then Looping else Freeing)))
            && (m.Failure? ==>
                  Next(start, By(self, Receives(m)))
                  == Some(Held(Emit(start, self, Failed(BrowseFailed(
                                 InstanceBrowserSignal(start.tasks[self].kind.key.0), 0))),
                               self, m, owned, start.seen, Looping)))
            && (!ForestTheorems.WellFormed(m) ==>
                  Next(start, By(self, Receives(m))) == Some(Held(start, self, m, owned, start.seen, Looping)))
  {
    if m.NewInstance? {
      var n := Note(start, self, m);
      UnfinishedSame(start.tasks, n.tasks, n.tasks[self].owned);
      var spawned := start.(tasks := start.tasks + [Task(Resolver(m.name), self, Starting, false, [], [])]);
      assert Next(start, By(self, Receives(m))).value.tasks
          == Held(spawned, self, m, Unfinished(start.tasks, start.tasks[self].owned) + [|start.tasks|], start.seen, Looping).tasks;
    } else if m.RemovedInstance? {
      var phase := if start.receiver then Looping else Freeing;
      assert Next(start, By(self, Receives(m))).value.tasks
          == Held(start, self, m, start.tasks[self].owned, start.seen, phase).tasks;
    }
  }

  lemma {:induction false} UnfinishedSame(a: seq<Task>, b: seq<Task>, ids: seq<TaskId>)
    requires |a| == |b| && forall i :: 0 <= i < |a| ==> a[i].Done() == b[i].Done()
    ensures Unfinished(a, ids) == Unfinished(b, ids)
  {
    if ids != [] {
      UnfinishedSame(a, b, ids[..|ids| - 1]);
    }
  }

  /** `browse_one_type`: one resolver task per instance announced, its handle kept in
      the vector until it has finished. When the browse is over, whatever ended it,
      every message it handled is accounted for. */
  method BrowseOneType(rt: Runtime, self: TaskId, serviceType: string)
    requires rt.Valid() && self < |rt.forest.tasks| && rt.forest.tasks[self].kind.OneType?
    requires rt.forest.tasks[self].phase == Starting && rt.forest.tasks[self].kind.key.0 == serviceType
    modifies rt
    ensures rt.Valid() && self < |rt.forest.tasks| && rt.forest.tasks[self].Done()
    ensures ForestTheorems.Conserves(rt.forest, self, |ForestTheorems.StartFailures(rt.moves, self)|)
    ensures ForestTheorems.Says(rt.forest, self, ForestTheorems.StartFailures(rt.moves, self))
    ensures ForestMessages.Handled(rt.forest, self, ForestMessages.Delivered(rt.moves, self))
  {
    BrowseOneTypeTask(rt, self, serviceType);
    ForestTheorems.AlwaysConserves(rt.kind, rt.moves, self);
    ForestTheorems.BrowserSays(rt.kind, rt.moves, self);
    ForestMessages.MessagesHandled(rt.kind, rt.moves, self);
  }

  method BrowseOneTypeTask(rt: Runtime, self: TaskId, serviceType: string)
    requires rt.Valid() && self < |rt.forest.tasks| && rt.forest.tasks[self].kind.OneType?
    requires rt.forest.tasks[self].phase == Starting && rt.forest.tasks[self].kind.key.0 == serviceType
    modifies rt
    ensures rt.Valid() && self < |rt.forest.tasks| && rt.forest.tasks[self].Done()
  {
    AlwaysSound(rt.kind, rt.moves);
    assert SoundOwner(rt.forest, self);
    var alive := rt.Await(self);
    if !alive {
      return;
    }
    var failed: Option<Error> := *;
    if failed.Some? {
      rt.Record(By(self, StartFails(failed.value)));
      return;
    }
    rt.Record(By(self, Starts));
    alive := InstanceLoop(rt, self, serviceType);
    if alive {
      rt.Record(By(self, Returns));
    }
  }

  /** The message loop and the final `browser.free().await`; false if the task was
      dropped on the way. */
  method InstanceLoop(rt: Runtime, self: TaskId, serviceType: string) returns (alive: bool)
    requires rt.Valid() && self < |rt.forest.tasks|
    requires var task := rt.forest.tasks[self];
             task.kind.OneType? && task.kind.key.0 == serviceType && task.phase == Looping && task.owned == []
    modifies rt
    ensures rt.Valid() && self < |rt.forest.tasks| && (!alive <==> rt.forest.tasks[self].Done())
    ensures alive ==> rt.forest.tasks[self].phase == Freeing
  {
    var resolvers: seq<TaskId> := [];
    var open := true;
    var message: Option<Message>;
    alive, message := rt.NextMessage(self);
    while message.Some? && open
      invariant rt.Ran(rt.forest) && self < |rt.forest.tasks|
      invariant rt.turn == if open then message else None
      invariant alive <==> !rt.forest.tasks[self].Done()
      invariant open && message.Some? ==> alive && Understands(rt.forest.tasks[self].kind, message.value)
      invariant alive ==>
                  var task := rt.forest.tasks[self];
                  task.kind.OneType? && task.kind.key.0 == serviceType && task.owned == resolvers
                  && task.phase == if open then Looping else Freeing
      decreases if message.Some? && open then rt.patience + 1 else 0
    {
      resolvers, open := HandleInstanceMessage(rt, self, serviceType, resolvers, message.value);
      if open {
        alive, message := rt.NextMessage(self);
      }
    }
    if alive {
      if open {
        rt.Record(By(self, StreamEnds));
      }
      alive := rt.Await(self);
    }
  }

  /** The body of the loop; `open` is false once the receiver is found to be gone. */
  method HandleInstanceMessage(rt: Runtime, self: TaskId, serviceType: string, resolvers: seq<TaskId>, message: Message)
      returns (kept: seq<TaskId>, open: bool)
    requires rt.Ran(rt.forest) && rt.turn == Some(message) && self < |rt.forest.tasks|
    requires var task := rt.forest.tasks[self];
             task.kind.OneType? && task.kind.key.0 == serviceType && task.phase == Looping && task.owned == resolvers
             && Understands(task.kind, message)
    modifies rt
    ensures rt.Valid() && Some(rt.forest) == Next(old(rt.forest), By(self, Receives(message)))
    ensures rt.patience == old(rt.patience) && self < |rt.forest.tasks|
    ensures rt.forest.tasks[self].kind == old(rt.forest).tasks[self].kind && rt.forest.tasks[self].owned == kept
    ensures rt.forest.tasks[self].phase == if open then Looping else Freeing
    ensures !open <==> message.RemovedInstance? && !old(rt.forest).receiver
  {
    ghost var start := rt.forest;
    InstanceTurn(start, self, message);
    kept, open := resolvers, true;
    match message {
      case NewInstance(name, _, _, _) =>
        kept := RetainUnfinished(rt, resolvers);
        var handle := rt.Spawn(self, Resolver(name));
        kept := kept + [handle];
      case RemovedInstance(name, itemType, domain, interface) =>
        open := rt.Send(self, Removed(name, itemType, domain, InterfaceIndex(interface)));
      case Failure =>
        var _ := rt.Send(self, Failed(BrowseFailed(InstanceBrowserSignal(serviceType), 0)));
      case _ =>
    }
    rt.EndTurn(self, message, kept, rt.forest.seen, if open then Looping else Freeing, start);
  }

  /** `resolve_and_emit`, given what the proxy and the resolve call will say: one
      event, telling which, unless the task is dropped at an await. */
  method ResolveAndEmit(rt: Runtime, self: TaskId, name: string, connected: bool, resolved: Option<Service>)
    requires rt.Valid() && self < |rt.forest.tasks| && rt.forest.tasks[self].kind == Resolver(name)
    requires rt.forest.tasks[self].phase == Starting
    modifies rt
    ensures rt.Valid() && self < |rt.forest.tasks| && rt.forest.tasks[self].Done()
    ensures ForestTheorems.SentBy(rt.forest.sent, self) ==
            if rt.forest.tasks[self].phase.Cancelled? then []
            else if connected && resolved.Some? then [Found(resolved.value)]
            else [Failed(ResolveFailed(name))]
  {
    var event := Failed(ResolveFailed(name));
    var alive := rt.Await(self);
    if alive && connected {
      alive := rt.Await(self);
      if resolved.Some? {
        event := Found(resolved.value);
      }
    }
    ForestTheorems.OneEventPerResolver(rt.kind, rt.moves, self);
    if alive {
      ForestTheorems.SentBySnoc(rt.forest.sent, (self, event), self);
      rt.Record(By(self, Resolves(event)));
    }
  }
}
