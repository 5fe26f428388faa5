/** What holds of the Linux task forest at every moment of every interleaving. */
module ForestTheorems {
  import opened Seqs
  import opened Events
  import opened Forest

  // ---- Cancellation ----

  /** Every unfinished task but the root has exactly one live owner, or is being
      aborted and has none. */
  lemma {:induction false} OwnedOrAborted(kind: Kind, moves: seq<Move>, c: TaskId)
    requires !kind.Resolver? && RunFrom(Plant(kind), moves).Some?
    requires var f := RunFrom(Plant(kind), moves).value; 1 <= c < |f.tasks| && !f.tasks[c].Done()
    ensures var f := RunFrom(Plant(kind), moves).value;
            if f.tasks[c].aborted then forall t :: 0 <= t < |f.tasks| && c in f.tasks[t].owned ==> f.tasks[t].Done()
            else exists t :: 0 <= t < |f.tasks| && !f.tasks[t].Done() && c in f.tasks[t].owned
                   && forall t' :: 0 <= t' < |f.tasks| && c in f.tasks[t'].owned ==> t' == t
  {
    AlwaysSound(kind, moves);
    var f := RunFrom(Plant(kind), moves).value;
    assert SoundTask(f, c);
    forall t | 0 <= t < |f.tasks| && c in f.tasks[t].owned
      ensures t == f.tasks[c].parent && !f.tasks[t].Done()
    {
      assert SoundOwner(f, t);
    }
  }

  /** Nothing is left for the runtime to reap. */
  ghost predicate Quiescent(f: Forest) {
    forall t :: 0 <= t < |f.tasks| && f.tasks[t].aborted ==> f.tasks[t].Done()
  }

  /** Once the guard is gone, or the root has ended by itself, and the runtime has
      nothing left to reap, no browse or resolver task remains. */
  lemma {:induction false} QuiescentMeansGone(f: Forest, t: TaskId)
    requires Sound(f) && (!f.guard || f.tasks[0].Done()) && Quiescent(f) && t < |f.tasks|
    ensures f.tasks[t].Done()
  {
    if t > 0 {
      assert SoundTask(f, t);
      QuiescentMeansGone(f, f.tasks[t].parent);
    }
  }

  function Live(tasks: seq<Task>): nat {
    if tasks == [] then 0 else Live(tasks[..|tasks| - 1]) + if tasks[|tasks| - 1].Done() then 0 else 1
  }

  lemma {:induction false} LiveChange(a: seq<Task>, b: seq<Task>, t: TaskId)
    requires |a| == |b| && t < |a| && !a[t].Done() && b[t].Done()
    requires forall i :: 0 <= i < |a| && i != t ==> a[i].Done() == b[i].Done()
    ensures Live(a) == Live(b) + 1
  {
    if t == |a| - 1 {
      LiveSame(a[..t], b[..t]);
    } else {
      LiveChange(a[..|a| - 1], b[..|b| - 1], t);
    }
  }

  lemma {:induction false} LiveSame(a: seq<Task>, b: seq<Task>)
    requires |a| == |b| && forall i :: 0 <= i < |a| ==> a[i].Done() == b[i].Done()
    ensures Live(a) == Live(b)
  {
    if a != [] {
      LiveSame(a[..|a| - 1], b[..|b| - 1]);
    }
  }

  lemma {:induction false} LiveZero(tasks: seq<Task>)
    requires forall i :: 0 <= i < |tasks| ==> tasks[i].Done()
    ensures Live(tasks) == 0
  {
    if tasks != [] {
      LiveZero(tasks[..|tasks| - 1]);
    }
  }

  ghost predicate AllReaps(moves: seq<Move>) {
    forall i :: 0 <= i < |moves| ==> moves[i].By? && moves[i].turn == Reap
  }

  lemma {:induction false} ReapOne(f: Forest, t: TaskId)
    requires Sound(f) && Next(f, By(t, Reap)).Some?
    ensures var g := Next(f, By(t, Reap)).value;
            Sound(g) && g.guard == f.guard && |g.tasks| == |f.tasks| && 1 + Live(g.tasks) == Live(f.tasks)
  {
    hide Sound, Live;
    NextSound(f, By(t, Reap));
    var g := End(f, t, Cancelled);
    assert forall i :: 0 <= i < |f.tasks| ==> i == t || f.tasks[i].Done() == g.tasks[i].Done();
    LiveChange(f.tasks, g.tasks, t);
  }

  lemma {:induction false} QuiescentIsEmpty(f: Forest)
    requires Sound(f) && (!f.guard || f.tasks[0].Done()) && Quiescent(f)
    ensures Live(f.tasks) == 0
  {
    forall i | 0 <= i < |f.tasks|
      ensures f.tasks[i].Done()
    {
      QuiescentMeansGone(f, i);
    }
    LiveZero(f.tasks);
  }

  /** The number of live tasks is an exact measure for the runtime's drops: each
      takes one away, so any run of drops is at most that long, and one that has
      run out, the guard or the root being gone, has taken them all. */
  lemma {:induction false} ReapingMeasure(f: Forest, reaps: seq<Move>)
    requires Sound(f) && AllReaps(reaps) && RunFrom(f, reaps).Some?
    ensures var g := RunFrom(f, reaps).value;
            && Sound(g) && g.guard == f.guard && |g.tasks| == |f.tasks|
            && |reaps| + Live(g.tasks) == Live(f.tasks)
            && ((!g.guard || g.tasks[0].Done()) && Quiescent(g) ==> |reaps| == Live(f.tasks))
  {
    hide Live, Next;
    if reaps != [] {
      var before, t := reaps[..|reaps| - 1], reaps[|reaps| - 1].task;
      ReapingMeasure(f, before);
      ReapOne(RunFrom(f, before).value, t);
    }
    var g := RunFrom(f, reaps).value;
    if (!g.guard || g.tasks[0].Done()) && Quiescent(g) {
      QuiescentIsEmpty(g);
    }
  }

  // ---- Turns that spawn nothing ----

  /** `g` is `f` after a turn of `x` that spawned nothing and sent `events`. */
  ghost predicate TurnOf(f: Forest, g: Forest, x: TaskId, events: seq<Event>) {
    && |g.tasks| == |f.tasks| && x < |f.tasks| && |events| <= 1
    && (forall i :: 0 <= i < |f.tasks| ==>
          g.tasks[i].kind == f.tasks[i].kind && g.tasks[i].parent == f.tasks[i].parent
          && (i != x ==>
                g.tasks[i].phase == f.tasks[i].phase && g.tasks[i].received == f.tasks[i].received
                && g.tasks[i].owned == f.tasks[i].owned))
    && g.seen == f.seen
    && g.sent == f.sent + (if events == [] then [] else [(x, events[0])])
  }

  function EventsOf(turn: Turn): seq<Event> {
    match turn
    case StartFails(error) => [Failed(error)]
    case Resolves(event) => [event]
    case _ => []
  }

  lemma {:induction false} QuietIsTurn(f: Forest, x: TaskId, turn: Turn)
    requires Next(f, By(x, turn)).Some? && !turn.Receives?
    ensures var g := Next(f, By(x, turn)).value;
            && TurnOf(f, g, x, EventsOf(turn))
            && g.tasks[x].received == f.tasks[x].received && !f.tasks[x].Done()
            && (!g.tasks[x].Done() ==> (turn.Starts? || turn.StreamEnds?) && g.tasks[x].owned == f.tasks[x].owned)
            && (f.tasks[x].kind.Resolver? && !f.tasks[x].aborted && f.tasks[x].phase == Starting ==> turn.Resolves?)
            && (f.tasks[x].kind.Resolver? && f.tasks[x].phase == Starting ==>
                  if turn.Resolves? then g.tasks[x].phase == Finished && Answer(f.tasks[x].kind, turn.event)
                  else g.tasks[x].phase == Cancelled)
  {
    match turn {
      case Starts =>
      case Reap =>
      case StreamEnds =>
      case Returns =>
      case StartFails(error) => assert |End(Emit(f, x, Failed(error)), x, Finished).tasks| == |f.tasks|;
      case Resolves(event) => assert |End(Emit(f, x, event), x, Finished).tasks| == |f.tasks|;
    }
  }

  // ---- One browse per type ----

  function TypesHeard(received: seq<Message>): seq<Key> {
    if received == [] then []
    else
      var rest, m := TypesHeard(received[..|received| - 1]), received[|received| - 1];
      if m.NewType? then rest + [m.key] else rest
  }

  /** The types browsed, in the order their tasks were spawned. */
  function TypesBrowsed(tasks: seq<Task>): seq<Key> {
    if tasks == [] then []
    else
      var rest, last := TypesBrowsed(tasks[..|tasks| - 1]), tasks[|tasks| - 1];
      if last.kind.OneType? then rest + [last.kind.key] else rest
  }

  lemma {:induction false} TypesBrowsedSame(a: seq<Task>, b: seq<Task>)
    requires |a| == |b| && forall i :: 0 <= i < |a| ==> a[i].kind == b[i].kind
    ensures TypesBrowsed(a) == TypesBrowsed(b)
  {
    if a != [] {
      TypesBrowsedSame(a[..|a| - 1], b[..|b| - 1]);
    }
  }

  lemma {:induction false} TypesBrowsedSnoc(tasks: seq<Task>, task: Task)
    ensures TypesBrowsed(tasks + [task]) == TypesBrowsed(tasks) + if task.kind.OneType? then [task.kind.key] else []
  {
    assert (tasks + [task])[..|tasks|] == tasks;
  }

  lemma {:induction false} TypesHeardSnoc(received: seq<Message>, m: Message)
    ensures TypesHeard(received + [m]) == TypesHeard(received) + if m.NewType? then [m.key] else []
  {
    assert (received + [m])[..|received|] == received;
  }

  ghost predicate Cascades(f: Forest) {
    && f.tasks != [] && f.tasks[0].kind.AllTypes?
    && var heard := TypesHeard(f.tasks[0].received);
    && TypesBrowsed(f.tasks) == Dedup(heard)
    && f.seen == (set key | key in heard)
    && (!f.tasks[0].Done() ==> |f.tasks[0].owned| == |f.seen| == |TypesBrowsed(f.tasks)|)
  }

  /** Nothing the cascade depends on has changed. */
  ghost predicate Undisturbed(f: Forest, g: Forest)
    requires f.tasks != []
  {
    && |g.tasks| == |f.tasks| && g.seen == f.seen
    && (forall i :: 0 <= i < |f.tasks| ==> g.tasks[i].kind == f.tasks[i].kind)
    && g.tasks[0].received == f.tasks[0].received
    && (!g.tasks[0].Done() ==> !f.tasks[0].Done() && g.tasks[0].owned == f.tasks[0].owned)
  }

  lemma {:induction false} CascadesStill(f: Forest, g: Forest)
    requires Cascades(f) && Undisturbed(f, g)
    ensures Cascades(g)
  {
    TypesBrowsedSame(f.tasks, g.tasks);
  }

  lemma {:induction false} QuietTurn(f: Forest, move: Move)
    requires f.tasks != [] && Next(f, move).Some? && !(move.By? && move.turn.Receives?)
    ensures Undisturbed(f, Next(f, move).value)
  {
    if move.By? {
      QuietIsTurn(f, move.task, move.turn);
    }
  }

  lemma {:induction false} QuietMessage(f: Forest, t: TaskId, m: Message)
    requires 0 < t < |f.tasks| && f.tasks[t].kind.OneType? && !m.NewInstance?
    ensures Undisturbed(f, OnInstanceMessage(Note(f, t, m), t, m))
  {
  }

  lemma {:induction false} SpawnCascades(f: Forest, t: TaskId, kind: Kind, kept: seq<TaskId>)
    requires f.tasks != [] && t < |f.tasks|
    ensures TypesBrowsed(Spawn(f, t, kind, kept).tasks)
         == TypesBrowsed(f.tasks) + if kind.OneType? then [kind.key] else []
  {
    var c := |f.tasks|;
    var updated := f.tasks[t := f.tasks[t].(owned := kept + [c])];
    TypesBrowsedSame(f.tasks, updated);
    TypesBrowsedSnoc(updated, Task(kind, t, Starting, false, [], []));
  }

  lemma {:induction false} TypeMessageCascades(f: Forest, m: Message)
    requires Cascades(f) && f.tasks[0].phase == Looping && Understands(AllTypes, m)
    ensures Cascades(OnTypeMessage(Note(f, 0, m), 0, m))
  {
    var n := Note(f, 0, m);
    TypesHeardSnoc(f.tasks[0].received, m);
    TypesBrowsedSame(f.tasks, n.tasks);
    if m.NewType? {
      NewTypeCascades(f, m.key);
    }
  }

  lemma {:induction false} NewTypeCascades(f: Forest, key: Key)
    requires Cascades(f) && f.tasks[0].phase == Looping
    ensures Cascades(OnTypeMessage(Note(f, 0, NewType(key)), 0, NewType(key)))
  {
    hide TypesHeard, TypesBrowsed, Dedup, Cascades;
    FirstTask(f);
    var n := Note(f, 0, NewType(key));
    var g := OnTypeMessage(n, 0, NewType(key));
    TypesBrowsedSame(f.tasks, n.tasks);
    if key in f.seen {
      TypeHeardAgain(f, n, key);
    } else {
      SpawnCascades(n, 0, OneType(key), n.tasks[0].owned);
      assert g == Spawn(n, 0, OneType(key), n.tasks[0].owned).(seen := f.seen + {key});
      TypeHeardFirst(f, g, key);
    }
  }

  lemma {:induction false} FirstTask(f: Forest)
    requires Cascades(f)
    ensures f.tasks != [] && f.tasks[0].kind.AllTypes?
  {
  }

  lemma {:induction false} TypeHeardAgain(f: Forest, n: Forest, key: Key)
    requires Cascades(f) && key in f.seen && n.seen == f.seen && TypesBrowsed(n.tasks) == TypesBrowsed(f.tasks)
    requires n.tasks != [] && n.tasks[0] == f.tasks[0].(received := f.tasks[0].received + [NewType(key)])
    ensures Cascades(n)
  {
    hide TypesHeard, TypesBrowsed, Dedup;
    TypesHeardSnoc(f.tasks[0].received, NewType(key));
    DedupSnoc(TypesHeard(f.tasks[0].received), key);
  }

  lemma {:induction false} TypeHeardFirst(f: Forest, g: Forest, key: Key)
    requires Cascades(f) && !f.tasks[0].Done() && key !in f.seen && g.seen == f.seen + {key}
    requires TypesBrowsed(g.tasks) == TypesBrowsed(f.tasks) + [key]
    requires g.tasks != [] && g.tasks[0].kind.AllTypes? && g.tasks[0].received == f.tasks[0].received + [NewType(key)]
    requires |g.tasks[0].owned| == |f.tasks[0].owned| + 1
    ensures Cascades(g)
  {
    hide TypesHeard, TypesBrowsed, Dedup;
    TypesHeardSnoc(f.tasks[0].received, NewType(key));
    DedupSnoc(TypesHeard(f.tasks[0].received), key);
  }

  lemma {:induction false} InstanceMessageCascades(f: Forest, t: TaskId, m: Message)
    requires Cascades(f) && 0 < t < |f.tasks| && f.tasks[t].kind.OneType?
    ensures Cascades(OnInstanceMessage(Note(f, t, m), t, m))
  {
    if m.NewInstance? {
      var n := Note(f, t, m);
      TypesBrowsedSame(f.tasks, n.tasks);
      SpawnCascades(n, t, Resolver(m.name), Unfinished(n.tasks, n.tasks[t].owned));
    } else {
      QuietMessage(f, t, m);
      CascadesStill(f, OnInstanceMessage(Note(f, t, m), t, m));
    }
  }

  lemma {:induction false} NextCascades(f: Forest, move: Move)
    requires Sound(f) && Cascades(f) && Next(f, move).Some?
    ensures Cascades(Next(f, move).value)
  {
    if move.By? && move.turn.Receives? {
      var t, m := move.task, move.turn.message;
      if t == 0 {
        TypeMessageCascades(f, m);
      } else {
        assert SoundTask(f, t);
        InstanceMessageCascades(f, t, m);
      }
    } else {
      QuietTurn(f, move);
      CascadesStill(f, Next(f, move).value);
    }
  }

  /** However failures, repeats and malformed messages are mixed in, the per-type
      browses spawned are the well-formed announcements with repeats dropped, in
      order, and the root holds one handle for each. */
  lemma {:induction false} OneBrowsePerType(moves: seq<Move>)
    requires RunFrom(Plant(AllTypes), moves).Some?
    ensures Cascades(RunFrom(Plant(AllTypes), moves).value)
  {
    if moves != [] {
      var before := moves[..|moves| - 1];
      OneBrowsePerType(before);
      AlwaysSound(AllTypes, before);
      NextCascades(RunFrom(Plant(AllTypes), before).value, moves[|moves| - 1]);
    } else {
      assert Plant(AllTypes).tasks[..0] == [];
    }
  }

  // ---- Every well-formed message is accounted for ----

  predicate WellFormed(m: Message) { m.NewInstance? || m.RemovedInstance? || m.Failure? }

  function CountWellFormed(received: seq<Message>): nat {
    if received == [] then 0
    else CountWellFormed(received[..|received| - 1]) + if WellFormed(received[|received| - 1]) then 1 else 0
  }

  /** What a browser sends for a message. */
  function Call(kind: Kind, m: Message): seq<Event> {
    match m
    case RemovedInstance(name, serviceType, domain, interface) =>
      [Removed(name, serviceType, domain, if interface <= 0 then None else Some(interface))]
    case Failure =>
      [Failed(BrowseFailed(if kind.OneType? then InstanceBrowserSignal(kind.key.0) else TypeBrowserSignal, 0))]
    case _ => []
  }

  /** The failure to start that a task reported, if any. */
  function StartFailures(moves: seq<Move>, t: TaskId): seq<Event> {
    if moves == [] then []
    else
      var rest, move := StartFailures(moves[..|moves| - 1], t), moves[|moves| - 1];
      if move.By? && move.task == t && move.turn.StartFails? then rest + [Failed(move.turn.error)] else rest
  }

  predicate InFamily(tasks: seq<Task>, t: TaskId, c: TaskId) {
    c == t || (c < |tasks| && tasks[c].kind.Resolver? && tasks[c].parent == t)
  }

  /** Events sent by a browser and its resolvers. */
  function FamilySent(sent: seq<(TaskId, Event)>, tasks: seq<Task>, t: TaskId): nat {
    if sent == [] then 0
    else
      FamilySent(sent[..|sent| - 1], tasks, t) + if InFamily(tasks, t, sent[|sent| - 1].0) then 1 else 0
  }

  predicate Unanswered(task: Task, t: TaskId) { task.kind.Resolver? && task.parent == t && !task.phase.Finished? }

  /** A browser's resolvers that have not finished, and of these the running and
      the dropped ones. */
  function CountUnanswered(tasks: seq<Task>, t: TaskId): nat {
    if tasks == [] then 0
    else CountUnanswered(tasks[..|tasks| - 1], t) + if Unanswered(tasks[|tasks| - 1], t) then 1 else 0
  }

  function CountInFlight(tasks: seq<Task>, t: TaskId): nat {
    if tasks == [] then 0
    else
      var last := tasks[|tasks| - 1];
      CountInFlight(tasks[..|tasks| - 1], t) + if Unanswered(last, t) && !last.Done() then 1 else 0
  }

  function CountDropped(tasks: seq<Task>, t: TaskId): nat {
    if tasks == [] then 0
    else
      var last := tasks[|tasks| - 1];
      CountDropped(tasks[..|tasks| - 1], t) + if Unanswered(last, t) && last.phase.Cancelled? then 1 else 0
  }

  lemma {:induction false} InFlightOrDropped(tasks: seq<Task>, t: TaskId)
    ensures CountUnanswered(tasks, t) == CountInFlight(tasks, t) + CountDropped(tasks, t)
  {
    if tasks != [] {
      InFlightOrDropped(tasks[..|tasks| - 1], t);
    }
  }

  lemma {:induction false} NoneDropped(tasks: seq<Task>, t: TaskId)
    requires forall c :: 0 <= c < |tasks| && Unanswered(tasks[c], t) ==> !tasks[c].phase.Cancelled?
    ensures CountDropped(tasks, t) == 0
  {
    if tasks != [] {
      NoneDropped(tasks[..|tasks| - 1], t);
    }
  }

  lemma {:induction false} UnansweredChange(a: seq<Task>, b: seq<Task>, t: TaskId, x: TaskId)
    requires |a| == |b| && x < |a|
    requires forall i :: 0 <= i < |a| && i != x ==> Unanswered(a[i], t) == Unanswered(b[i], t)
    ensures CountUnanswered(b, t) + (if Unanswered(a[x], t) then 1 else 0)
         == CountUnanswered(a, t) + (if Unanswered(b[x], t) then 1 else 0)
  {
    if x == |a| - 1 {
      UnansweredSame(a[..x], b[..x], t);
    } else {
      UnansweredChange(a[..|a| - 1], b[..|b| - 1], t, x);
    }
  }

  lemma {:induction false} UnansweredSame(a: seq<Task>, b: seq<Task>, t: TaskId)
    requires |a| == |b|
    requires forall i :: 0 <= i < |a| ==> Unanswered(a[i], t) == Unanswered(b[i], t)
    ensures CountUnanswered(a, t) == CountUnanswered(b, t)
  {
    if a != [] {
      UnansweredSame(a[..|a| - 1], b[..|b| - 1], t);
    }
  }

  lemma {:induction false} UnansweredSnoc(tasks: seq<Task>, task: Task, t: TaskId)
    ensures CountUnanswered(tasks + [task], t) == CountUnanswered(tasks, t) + if Unanswered(task, t) then 1 else 0
  {
    assert (tasks + [task])[..|tasks|] == tasks;
  }

  lemma {:induction false} FamilySentSame(sent: seq<(TaskId, Event)>, a: seq<Task>, b: seq<Task>, t: TaskId)
    requires |a| <= |b| && forall i :: 0 <= i < |sent| ==> sent[i].0 < |a|
    requires forall i :: 0 <= i < |a| ==> a[i].kind == b[i].kind && a[i].parent == b[i].parent
    ensures FamilySent(sent, a, t) == FamilySent(sent, b, t)
  {
    if sent != [] {
      FamilySentSame(sent[..|sent| - 1], a, b, t);
    }
  }

  lemma {:induction false} FamilySentSnoc(sent: seq<(TaskId, Event)>, x: (TaskId, Event), tasks: seq<Task>, t: TaskId)
    ensures FamilySent(sent + [x], tasks, t) == FamilySent(sent, tasks, t) + if InFamily(tasks, t, x.0) then 1 else 0
  {
    assert (sent + [x])[..|sent|] == sent;
  }

  ghost predicate KnownSenders(f: Forest) {
    forall i :: 0 <= i < |f.sent| ==> f.sent[i].0 < |f.tasks|
  }

  /** Running or not: the events a browser and its resolvers sent, with the
      resolvers that have not answered, are the well-formed messages it handled and
      its `failures` to start. */
  ghost predicate Balances(f: Forest, t: TaskId, failures: nat) {
    && (t < |f.tasks| && !f.tasks[t].kind.Resolver? ==>
          FamilySent(f.sent, f.tasks, t) + CountUnanswered(f.tasks, t)
          == CountWellFormed(f.tasks[t].received) + failures)
    && (t >= |f.tasks| ==> FamilySent(f.sent, f.tasks, t) == CountUnanswered(f.tasks, t) == failures == 0)
  }

  lemma {:induction false} TurnCounts(f: Forest, g: Forest, x: TaskId, events: seq<Event>, t: TaskId)
    requires TurnOf(f, g, x, events) && KnownSenders(f)
    ensures FamilySent(g.sent, g.tasks, t)
         == FamilySent(f.sent, f.tasks, t) + (if InFamily(f.tasks, t, x) then |events| else 0)
    ensures CountUnanswered(g.tasks, t) + (if Unanswered(f.tasks[x], t) then 1 else 0)
         == CountUnanswered(f.tasks, t) + (if Unanswered(g.tasks[x], t) then 1 else 0)
    ensures KnownSenders(g)
  {
    hide FamilySent, CountUnanswered;
    FamilySentSame(f.sent, f.tasks, g.tasks, t);
    if events != [] {
      FamilySentSnoc(f.sent, (x, events[0]), g.tasks, t);
    } else {
      assert g.sent == f.sent;
    }
    UnansweredChange(f.tasks, g.tasks, t, x);
  }

  /** A turn that spawns nothing, `failures` of `t` being counted before and after. */
  lemma {:induction false} TurnBalances(
      f: Forest, g: Forest, x: TaskId, events: seq<Event>, t: TaskId, failures: nat, failures': nat)
    requires KnownSenders(f) && Balances(f, t, failures) && TurnOf(f, g, x, events)
    requires x != t ==> failures' == failures
    requires x == t && !f.tasks[t].kind.Resolver? ==>
               CountWellFormed(g.tasks[t].received) + failures'
               == CountWellFormed(f.tasks[t].received) + failures + |events|
    requires f.tasks[x].kind.Resolver? ==> !f.tasks[x].phase.Finished? && (|events| == 1 <==> g.tasks[x].phase.Finished?)
    ensures KnownSenders(g) && Balances(g, t, failures')
  {
    hide FamilySent, CountUnanswered, CountWellFormed;
    TurnCounts(f, g, x, events, t);
  }

  lemma {:induction false} QuietBalances(f: Forest, move: Move, t: TaskId, failures: nat)
    requires Sound(f) && KnownSenders(f) && Balances(f, t, failures)
    requires Next(f, move).Some? && !(move.By? && move.turn.Receives?)
    ensures KnownSenders(Next(f, move).value)
    ensures Balances(Next(f, move).value, t,
                     failures + if move.By? && move.task == t && move.turn.StartFails? then 1 else 0)
  {
    hide FamilySent, CountUnanswered, CountWellFormed;
    var g := Next(f, move).value;
    if move.By? {
      var x := move.task;
      assert SoundOwner(f, x);
      QuietIsTurn(f, x, move.turn);
      TurnBalances(f, g, x, EventsOf(move.turn), t, failures,
                   failures + if x == t && move.turn.StartFails? then 1 else 0);
    } else {
      assert f.tasks[0].kind == g.tasks[0].kind && f.tasks[0].phase == g.tasks[0].phase;
      TurnBalances(f, g, 0, [], t, failures, failures);
    }
  }

  lemma {:induction false} CountWellFormedSnoc(received: seq<Message>, m: Message)
    ensures CountWellFormed(received + [m]) == CountWellFormed(received) + if WellFormed(m) then 1 else 0
  {
    assert (received + [m])[..|received|] == received;
  }

  /** `g` is `f` after a turn of `x` that spawned one child and sent nothing. */
  ghost predicate SpawnOf(f: Forest, g: Forest, x: TaskId, kind: Kind, m: Message) {
    && x < |f.tasks| && |g.tasks| == |f.tasks| + 1 && g.sent == f.sent
    && g.tasks[|f.tasks|] == Task(kind, x, Starting, false, [], [])
    && forall i :: 0 <= i < |f.tasks| ==>
         && g.tasks[i].kind == f.tasks[i].kind && g.tasks[i].parent == f.tasks[i].parent
         && g.tasks[i].phase == f.tasks[i].phase
         && g.tasks[i].received == f.tasks[i].received + if i == x then [m] else []
  }

  /** Messages that make their browser spawn. */
  predicate Spawns(f: Forest, m: Message) { m.NewInstance? || (m.NewType? && m.key !in f.seen) }

  function Spawned(m: Message): Kind
    requires m.NewInstance? || m.NewType?
  {
    if m.NewInstance? then Resolver(m.name) else OneType(m.key)
  }

  lemma {:induction false} MessageIsSpawn(f: Forest, x: TaskId, m: Message)
    requires Next(f, By(x, Receives(m))).Some? && Spawns(f, m)
    ensures SpawnOf(f, Next(f, By(x, Receives(m))).value, x, Spawned(m), m)
  {
    var n := Note(f, x, m);
    if m.NewInstance? {
      assert Next(f, By(x, Receives(m))).value == Spawn(n, x, Resolver(m.name), Unfinished(n.tasks, n.tasks[x].owned));
    } else {
      assert Next(f, By(x, Receives(m))).value == Spawn(n.(seen := n.seen + {m.key}), x, OneType(m.key), n.tasks[x].owned);
    }
  }

  lemma {:induction false} SpawnBalances(f: Forest, g: Forest, x: TaskId, kind: Kind, m: Message, t: TaskId, failures: nat)
    requires KnownSenders(f) && Balances(f, t, failures) && SpawnOf(f, g, x, kind, m) && (WellFormed(m) <==> kind.Resolver?)
    ensures KnownSenders(g) && Balances(g, t, failures)
  {
    hide CountUnanswered, FamilySent;
    var kept := g.tasks[..|f.tasks|];
    FamilySentSame(f.sent, f.tasks, g.tasks, t);
    UnansweredSame(f.tasks, kept, t);
    UnansweredSnoc(kept, g.tasks[|f.tasks|], t);
    assert g.tasks == kept + [g.tasks[|f.tasks|]];
    if t < |f.tasks| {
      CountWellFormedSnoc(f.tasks[t].received, m);
      assert f.tasks[t].received + [] == f.tasks[t].received;
    }
  }

  /** A message that makes its browser spawn nothing is handled by sending what it
      calls for. */
  lemma {:induction false} MessageIsTurn(f: Forest, x: TaskId, m: Message)
    requires Next(f, By(x, Receives(m))).Some? && !Spawns(f, m)
    ensures var g := Next(f, By(x, Receives(m))).value;
            && TurnOf(f, g, x, Call(f.tasks[x].kind, m))
            && |Call(f.tasks[x].kind, m)| == (if WellFormed(m) then 1 else 0)
            && g.tasks[x].received == f.tasks[x].received + [m]
            && f.tasks[x].phase == Looping && g.tasks[x].phase in {Looping, Freeing} && !f.tasks[x].kind.Resolver?
  {
    var n := Note(f, x, m);
    var g := Next(f, By(x, Receives(m))).value;
    assert g == if f.tasks[x].kind.AllTypes? then OnTypeMessage(n, x, m) else OnInstanceMessage(n, x, m);
  }

  lemma {:induction false} MessageBalances(f: Forest, x: TaskId, m: Message, t: TaskId, failures: nat)
    requires KnownSenders(f) && Balances(f, t, failures) && Next(f, By(x, Receives(m))).Some?
    ensures KnownSenders(Next(f, By(x, Receives(m))).value)
    ensures Balances(Next(f, By(x, Receives(m))).value, t, failures)
  {
    hide FamilySent, CountUnanswered, CountWellFormed, Next, Balances;
    var g := Next(f, By(x, Receives(m))).value;
    if Spawns(f, m) {
      MessageIsSpawn(f, x, m);
      SpawnBalances(f, g, x, Spawned(m), m, t, failures);
    } else {
      MessageIsTurn(f, x, m);
      CountWellFormedSnoc(f.tasks[x].received, m);
      TurnBalances(f, g, x, Call(f.tasks[x].kind, m), t, failures, failures);
    }
  }

  lemma {:induction false} AlwaysBalances(kind: Kind, moves: seq<Move>, t: TaskId)
    requires !kind.Resolver? && RunFrom(Plant(kind), moves).Some?
    ensures KnownSenders(RunFrom(Plant(kind), moves).value)
    ensures Balances(RunFrom(Plant(kind), moves).value, t, |StartFailures(moves, t)|)
  {
    if moves != [] {
      var before, move := moves[..|moves| - 1], moves[|moves| - 1];
      AlwaysBalances(kind, before, t);
      AlwaysSound(kind, before);
      var f := RunFrom(Plant(kind), before).value;
      if move.By? && move.turn.Receives? {
        MessageBalances(f, move.task, move.turn.message, t, |StartFailures(before, t)|);
      } else {
        QuietBalances(f, move, t, |StartFailures(before, t)|);
      }
    } else {
      assert Plant(kind).tasks[..0] == [];
    }
  }

  /** Nothing a browser handled is lost, whether it runs, has finished or was
      dropped: its and its resolvers' events, resolvers in flight and resolvers
      dropped are the well-formed messages it handled and its failure to start.
      Messages whose delivery failed count as sent. */
  lemma {:induction false} AlwaysConserves(kind: Kind, moves: seq<Move>, t: TaskId)
    requires !kind.Resolver? && RunFrom(Plant(kind), moves).Some?
    ensures Conserves(RunFrom(Plant(kind), moves).value, t, |StartFailures(moves, t)|)
  {
    AlwaysBalances(kind, moves, t);
    InFlightOrDropped(RunFrom(Plant(kind), moves).value.tasks, t);
  }

  ghost predicate Conserves(f: Forest, t: TaskId, failures: nat) {
    t < |f.tasks| && !f.tasks[t].kind.Resolver? ==>
      FamilySent(f.sent, f.tasks, t) + CountInFlight(f.tasks, t) + CountDropped(f.tasks, t)
      == CountWellFormed(f.tasks[t].received) + failures
  }

  /** While a browse runs, none of its resolvers is aborted or dropped, and the
      unfinished ones are all in its vector. */
  lemma {:induction false} ResolversNeverLost(kind: Kind, moves: seq<Move>, t: TaskId)
    requires !kind.Resolver? && RunFrom(Plant(kind), moves).Some?
    requires var f := RunFrom(Plant(kind), moves).value; t < |f.tasks| && !f.tasks[t].Done()
    ensures var f := RunFrom(Plant(kind), moves).value;
            && CountDropped(f.tasks, t) == 0
            && forall c :: 1 <= c < |f.tasks| && f.tasks[c].parent == t ==>
                 !f.tasks[c].phase.Cancelled? && (!f.tasks[c].Done() ==> c in f.tasks[t].owned && !f.tasks[c].aborted)
  {
    AlwaysSound(kind, moves);
    var f := RunFrom(Plant(kind), moves).value;
    forall c | 1 <= c < |f.tasks| && f.tasks[c].parent == t
      ensures !f.tasks[c].phase.Cancelled? && (!f.tasks[c].Done() ==> c in f.tasks[t].owned && !f.tasks[c].aborted)
    {
      assert SoundTask(f, c);
    }
    NoneDropped(f.tasks, t);
  }

  // ---- What each task says ----

  /** A resolver sends one event, its answer, if it finishes, and none if it is
      still running or was dropped. */
  function SentBy(sent: seq<(TaskId, Event)>, c: TaskId): seq<Event> {
    if sent == [] then []
    else
      var rest, last := SentBy(sent[..|sent| - 1], c), sent[|sent| - 1];
      if last.0 == c then rest + [last.1] else rest
  }

  lemma {:induction false} SentBySnoc(sent: seq<(TaskId, Event)>, x: (TaskId, Event), c: TaskId)
    ensures SentBy(sent + [x], c) == SentBy(sent, c) + if x.0 == c then [x.1] else []
  {
    assert (sent + [x])[..|sent|] == sent;
  }

  ghost predicate Answered(f: Forest, c: TaskId) {
    && (c >= |f.tasks| ==> SentBy(f.sent, c) == [])
    && (c < |f.tasks| && f.tasks[c].kind.Resolver? ==>
          var events := SentBy(f.sent, c);
          if f.tasks[c].phase.Finished? then |events| == 1 && Answer(f.tasks[c].kind, events[0]) else events == [])
  }

  lemma {:induction false} OneEventPerResolver(kind: Kind, moves: seq<Move>, c: TaskId)
    requires !kind.Resolver? && RunFrom(Plant(kind), moves).Some?
    ensures Answered(RunFrom(Plant(kind), moves).value, c)
  {
    hide Next, Sound;
    if moves != [] {
      var before, move := moves[..|moves| - 1], moves[|moves| - 1];
      OneEventPerResolver(kind, before, c);
      AlwaysSound(kind, before);
      MoveAnswered(RunFrom(Plant(kind), before).value, move, c);
    }
  }

  lemma {:induction false} MoveAnswered(f: Forest, move: Move, c: TaskId)
    requires Sound(f) && Answered(f, c) && Next(f, move).Some?
    ensures Answered(Next(f, move).value, c)
  {
    hide SentBy;
    if move.By? && move.turn.Receives? {
      if Spawns(f, move.turn.message) {
        MessageIsSpawn(f, move.task, move.turn.message);
      } else {
        MessageAnswered(f, move.task, move.turn.message, c);
      }
    } else if move.By? {
      QuietAnswered(f, move.task, move.turn, c);
    }
  }

  lemma {:induction false} QuietAnswered(f: Forest, x: TaskId, turn: Turn, c: TaskId)
    requires Sound(f) && Answered(f, c) && Next(f, By(x, turn)).Some? && !turn.Receives?
    ensures Answered(Next(f, By(x, turn)).value, c)
  {
    hide SentBy;
    assert SoundOwner(f, x);
    QuietIsTurn(f, x, turn);
    TurnAnswered(f, Next(f, By(x, turn)).value, x, EventsOf(turn), c);
  }

  lemma {:induction false} TurnAnswered(f: Forest, g: Forest, x: TaskId, events: seq<Event>, c: TaskId)
    requires Answered(f, c) && TurnOf(f, g, x, events) && !f.tasks[x].Done()
    requires f.tasks[x].kind.Resolver? ==>
               if g.tasks[x].phase.Finished? then |events| == 1 && Answer(f.tasks[x].kind, events[0]) else events == []
    ensures Answered(g, c)
  {
    if events != [] {
      SentBySnoc(f.sent, (x, events[0]), c);
    } else {
      assert g.sent == f.sent;
    }
  }

  lemma {:induction false} MessageAnswered(f: Forest, x: TaskId, m: Message, c: TaskId)
    requires Answered(f, c) && Next(f, By(x, Receives(m))).Some?
    requires !Spawns(f, m)
    ensures Answered(Next(f, By(x, Receives(m))).value, c)
  {
    var g := Next(f, By(x, Receives(m))).value;
    MessageIsTurn(f, x, m);
    TurnAnswered(f, g, x, Call(f.tasks[x].kind, m), c);
  }

  /** Everything a browser sends for the messages it handled, in order. */
  function Calls(kind: Kind, received: seq<Message>): seq<Event> {
    if received == [] then []
    else Calls(kind, received[..|received| - 1]) + Call(kind, received[|received| - 1])
  }

  lemma {:induction false} CallsSnoc(kind: Kind, received: seq<Message>, m: Message)
    ensures Calls(kind, received + [m]) == Calls(kind, received) + Call(kind, m)
  {
    assert (received + [m])[..|received|] == received;
  }

  ghost predicate Says(f: Forest, t: TaskId, failures: seq<Event>) {
    && (t >= |f.tasks| ==> SentBy(f.sent, t) == [] && failures == [])
    && (t < |f.tasks| && !f.tasks[t].kind.Resolver? ==>
          && SentBy(f.sent, t) == failures + Calls(f.tasks[t].kind, f.tasks[t].received)
          && (f.tasks[t].phase == Starting ==> f.tasks[t].received == [])
          && |failures| <= 1 && (failures != [] ==> f.tasks[t].Done() && f.tasks[t].received == []))
  }

  lemma {:induction false} QuietSays(f: Forest, move: Move, t: TaskId, failures: seq<Event>)
    requires Says(f, t, failures) && Next(f, move).Some? && !(move.By? && move.turn.Receives?)
    ensures Says(Next(f, move).value, t,
                 if move.By? && move.task == t && move.turn.StartFails? then failures + [Failed(move.turn.error)]
                 else failures)
  {
    hide SentBy, Calls;
    var g := Next(f, move).value;
    if move.By? {
      var x := move.task;
      QuietIsTurn(f, x, move.turn);
      TurnSentBy(f, g, x, EventsOf(move.turn), t);
      if x == t && move.turn.StartFails? {
        CallsNone(f.tasks[t].kind);
        assert g.tasks[t].phase == Finished;
      } else if x == t && (move.turn.Starts? || move.turn.StreamEnds?) {
        assert g.tasks[t].phase != Starting;
      } else if x == t {
        assert g.tasks[t].Done();
      }
    } else {
      assert g.sent == f.sent;
    }
  }

  lemma {:induction false} CallsNone(kind: Kind)
    ensures Calls(kind, []) == []
  {
  }

  lemma {:induction false} TurnSentBy(f: Forest, g: Forest, x: TaskId, events: seq<Event>, t: TaskId)
    requires TurnOf(f, g, x, events)
    ensures SentBy(g.sent, t) == SentBy(f.sent, t) + if x == t then events else []
  {
    if events != [] {
      SentBySnoc(f.sent, (x, events[0]), t);
      assert events == [events[0]];
    } else {
      assert g.sent == f.sent;
    }
  }

  lemma {:induction false} MessageSays(f: Forest, x: TaskId, m: Message, t: TaskId, failures: seq<Event>)
    requires Says(f, t, failures) && Next(f, By(x, Receives(m))).Some?
    ensures Says(Next(f, By(x, Receives(m))).value, t, failures)
  {
    hide SentBy, Calls, Next;
    var g := Next(f, By(x, Receives(m))).value;
    if Spawns(f, m) {
      MessageIsSpawn(f, x, m);
      SpawnSays(f, g, x, m, t, failures);
    } else {
      MessageIsTurn(f, x, m);
      TurnSentBy(f, g, x, Call(f.tasks[x].kind, m), t);
      CallsSnoc(f.tasks[x].kind, f.tasks[x].received, m);
    }
  }

  lemma {:induction false} SpawnSays(f: Forest, g: Forest, x: TaskId, m: Message, t: TaskId, failures: seq<Event>)
    requires Says(f, t, failures) && Next(f, By(x, Receives(m))) == Some(g)
    requires Spawns(f, m) && SpawnOf(f, g, x, Spawned(m), m)
    ensures Says(g, t, failures)
  {
    hide SentBy, Calls;
    if t == x {
      CallsSnoc(f.tasks[x].kind, f.tasks[x].received, m);
      assert Call(f.tasks[x].kind, m) == [];
      assert f.tasks[x].phase == Looping;
    } else if t < |f.tasks| {
      assert f.tasks[t].received + [] == f.tasks[t].received;
    } else if t == |f.tasks| {
      CallsNone(g.tasks[t].kind);
    }
  }

  /** At every moment: a browser has sent its failure to start, if that failed, and
      otherwise exactly the removals and failures its messages call for, in order. */
  lemma {:induction false} BrowserSays(kind: Kind, moves: seq<Move>, t: TaskId)
    requires !kind.Resolver? && RunFrom(Plant(kind), moves).Some?
    ensures Says(RunFrom(Plant(kind), moves).value, t, StartFailures(moves, t))
  {
    if moves != [] {
      var before, move := moves[..|moves| - 1], moves[|moves| - 1];
      BrowserSays(kind, before, t);
      var f := RunFrom(Plant(kind), before).value;
      if move.By? && move.turn.Receives? {
        MessageSays(f, move.task, move.turn.message, t, StartFailures(before, t));
      } else {
        QuietSays(f, move, t, StartFailures(before, t));
      }
    }
  }
}
