/** What the messages a Linux browse received have led to, said by the moves alone. */
module ForestMessages {
  import opened Seqs
  import opened Events
  import opened Forest
  import opened ForestTheorems

  /** The messages delivered to a task, in order. */
  function Delivered(moves: seq<Move>, t: TaskId): seq<Message> {
    if moves == [] then []
    else
      var rest, move := Delivered(moves[..|moves| - 1], t), moves[|moves| - 1];
      if move.By? && move.task == t && move.turn.Receives? then rest + [move.turn.message] else rest
  }

  /** The names of the instances announced, in order, repeats included. */
  function InstancesHeard(received: seq<Message>): seq<string> {
    if received == [] then []
    else
      var rest, m := InstancesHeard(received[..|received| - 1]), received[|received| - 1];
      if m.NewInstance? then rest + [m.name] else rest
  }

  /** The names of the resolvers a browse has spawned, in order. */
  function ResolversSpawned(tasks: seq<Task>, t: TaskId): seq<string> {
    if tasks == [] then []
    else
      var rest, last := ResolversSpawned(tasks[..|tasks| - 1], t), tasks[|tasks| - 1];
      if last.kind.Resolver? && last.parent == t then rest + [last.kind.name] else rest
  }

  lemma {:induction false} HeardSnoc(received: seq<Message>, m: Message)
    ensures InstancesHeard(received + [m]) == InstancesHeard(received) + if m.NewInstance? then [m.name] else []
  {
    assert (received + [m])[..|received|] == received;
  }

  lemma {:induction false} SpawnedSnoc(tasks: seq<Task>, task: Task, t: TaskId)
    ensures ResolversSpawned(tasks + [task], t)
         == ResolversSpawned(tasks, t) + if task.kind.Resolver? && task.parent == t then [task.kind.name] else []
  {
    assert (tasks + [task])[..|tasks|] == tasks;
  }

  lemma {:induction false} SpawnedSame(a: seq<Task>, b: seq<Task>, t: TaskId)
    requires |a| == |b| && forall i :: 0 <= i < |a| ==> a[i].kind == b[i].kind && a[i].parent == b[i].parent
    ensures ResolversSpawned(a, t) == ResolversSpawned(b, t)
  {
    if a != [] {
      SpawnedSame(a[..|a| - 1], b[..|b| - 1], t);
    }
  }

  /** A task has handled exactly the messages delivered to it, and a browse has spawned
      one resolver per instance announced, by name and in order, repeats included. */
  ghost predicate Handled(f: Forest, t: TaskId, delivered: seq<Message>) {
    && (t < |f.tasks| ==> f.tasks[t].received == delivered)
    && (t < |f.tasks| && f.tasks[t].kind.OneType? ==>
          ResolversSpawned(f.tasks, t) == InstancesHeard(f.tasks[t].received))
    && (t >= |f.tasks| ==> delivered == [] && ResolversSpawned(f.tasks, t) == [])
  }

  lemma {:induction false} MessagesHandled(kind: Kind, moves: seq<Move>, t: TaskId)
    requires !kind.Resolver? && RunFrom(Plant(kind), moves).Some?
    ensures Handled(RunFrom(Plant(kind), moves).value, t, Delivered(moves, t))
  {
    hide Next, Handled;
    if moves != [] {
      var before, move := moves[..|moves| - 1], moves[|moves| - 1];
      MessagesHandled(kind, before, t);
      var f := RunFrom(Plant(kind), before).value;
      if move.By? && move.turn.Receives? {
        MessageHandled(f, move.task, move.turn.message, t, Delivered(before, t));
      } else {
        QuietHandled(f, move, t, Delivered(before, t));
      }
    } else {
      NothingHandled(kind, t);
    }
  }

  lemma {:induction false} NothingHandled(kind: Kind, t: TaskId)
    requires !kind.Resolver?
    ensures Handled(Plant(kind), t, [])
  {
    assert Plant(kind).tasks[..0] == [];
  }

  lemma {:induction false} QuietHandled(f: Forest, move: Move, t: TaskId, delivered: seq<Message>)
    requires Handled(f, t, delivered) && Next(f, move).Some? && !(move.By? && move.turn.Receives?)
    ensures Handled(Next(f, move).value, t, delivered)
  {
    var g := Next(f, move).value;
    if move.By? {
      QuietIsTurn(f, move.task, move.turn);
    }
    SpawnedSame(f.tasks, g.tasks, t);
  }

  lemma {:induction false} MessageHandled(f: Forest, x: TaskId, m: Message, t: TaskId, delivered: seq<Message>)
    requires Handled(f, t, delivered) && Next(f, By(x, Receives(m))).Some?
    ensures Handled(Next(f, By(x, Receives(m))).value, t, if x == t then delivered + [m] else delivered)
  {
    hide Next, InstancesHeard, ResolversSpawned;
    var g := Next(f, By(x, Receives(m))).value;
    if Spawns(f, m) {
      MessageIsSpawn(f, x, m);
      SpawnHandled(f, g, x, m, t, delivered);
    } else {
      MessageIsTurn(f, x, m);
      HeardSnoc(f.tasks[x].received, m);
      SpawnedSame(f.tasks, g.tasks, t);
      NotAnInstance(f, m);
    }
  }

  lemma {:induction false} NotAnInstance(f: Forest, m: Message)
    requires !Spawns(f, m)
    ensures !m.NewInstance?
  {
  }

  lemma {:induction false} SpawnHandled(f: Forest, g: Forest, x: TaskId, m: Message, t: TaskId, delivered: seq<Message>)
    requires Handled(f, t, delivered) && Spawns(f, m) && SpawnOf(f, g, x, Spawned(m), m)
    ensures Handled(g, t, if x == t then delivered + [m] else delivered)
  {
    hide InstancesHeard, ResolversSpawned;
    var kept := g.tasks[..|f.tasks|];
    SpawnedSame(f.tasks, kept, t);
    SpawnedSnoc(kept, g.tasks[|f.tasks|], t);
    assert g.tasks == kept + [g.tasks[|f.tasks|]];
    if t == x {
      HeardSnoc(f.tasks[x].received, m);
    } else if t < |f.tasks| {
      assert f.tasks[t].received + [] == f.tasks[t].received;
    } else if t == |f.tasks| {
      NoneHeard();
    }
  }

  lemma {:induction false} NoneHeard()
    ensures InstancesHeard([]) == []
  {
  }
}
