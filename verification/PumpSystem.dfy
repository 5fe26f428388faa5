/** The macOS pump among the other threads: resolve tasks finish, the guard is
    dropped and events are received at any moment between two pump actions. */
module PumpSystem {
  import opened Seqs
  import opened Names
  import opened Events
  import opened PumpProtocol
  import opened PumpTheorems

  /** `sent` pairs every event with its sender: the pump, or the k-th task;
      `senders` is the channel's count of sender handles. */
  datatype System = System(
    log: seq<Action>, stop: bool, spawned: seq<Task>, finished: set<nat>,
    sent: seq<(Option<nat>, Event)>, received: nat, senders: int)

  /** `ReceiveNone` is `recv` yielding `None`. */
  datatype Act = ByPump(action: Action) | Finish(task: nat, event: Event) | DropGuard | Receive | ReceiveNone

  /** The thread owns one handle from the start. */
  const FRESH := System([], false, [], {}, [], 0, 1)

  /** Handles made and dropped: the shared state holds a clone as long as it lives,
      each resolve task one until it finishes, and the thread its own to its end. */
  function Clones(act: Act): int {
    match act
    case ByPump(a) =>
      if a == Allocate(StateBlock) || (a.Emit? && a.effect.Spawn?) then 1
      else if a == Free(StateBlock) || a == End then -1
      else 0
    case Finish(_, _) => -1
    case _ => 0
  }

  /** The one event a resolve may end with. */
  ghost predicate Answers(task: Task, event: Event) {
    event == Failed(ResolveFailed(task.name))
    || (event.Found? && event.service.name == task.name
        && event.service.serviceType == TrimDot(task.regtype) && event.service.domain == TrimDot(task.domain)
        && event.service.interface == NonZero(task.interface))
  }

  function Perform(s: System, effect: Effect): System {
    match effect
    case Send(event) => s.(sent := s.sent + [(None, event)])
    case Spawn(task) => s.(spawned := s.spawned + [task])
  }

  /** `recv` yields `None` only once the queue is drained and no sender is left. */
  ghost function Next(config: Config, s: System, act: Act): Option<System> {
    match act
    case ByPump(a) =>
      if After(config, s.log + [a]).Some? && (a.LoadStop? ==> a.stopped == s.stop) then
        var t := s.(log := s.log + [a], senders := s.senders + Clones(act));
        Some(if a.Emit? then Perform(t, a.effect) else t)
      else None
    case Finish(k, event) =>
      if k < |s.spawned| && k !in s.finished && Answers(s.spawned[k], event)
      then Some(s.(finished := s.finished + {k}, sent := s.sent + [(Some(k), event)], senders := s.senders + Clones(act)))
      else None
    case DropGuard => Some(s.(stop := true))
    case Receive => if s.received < |s.sent| then Some(s.(received := s.received + 1)) else None
    case ReceiveNone => if s.received == |s.sent| && s.senders == 0 then Some(s) else None
  }

  ghost function RunFrom(config: Config, s: System, acts: seq<Act>): Option<System> {
    if acts == [] then Some(s)
    else
      match RunFrom(config, s, acts[..|acts| - 1])
      case None => None
      case Some(t) => Next(config, t, acts[|acts| - 1])
  }

  ghost function Run(config: Config, acts: seq<Act>): Option<System> {
    RunFrom(config, FRESH, acts)
  }

  // ---- Who sent what ----

  function From(sent: seq<(Option<nat>, Event)>, sender: Option<nat>): seq<Event> {
    if sent == [] then []
    else
      var rest, last := From(sent[..|sent| - 1], sender), sent[|sent| - 1];
      if last.0 == sender then rest + [last.1] else rest
  }

  lemma {:induction false} FromSnoc(sent: seq<(Option<nat>, Event)>, x: (Option<nat>, Event), sender: Option<nat>)
    ensures From(sent + [x], sender) == From(sent, sender) + if x.0 == sender then [x.1] else []
  {
    assert (sent + [x])[..|sent|] == sent;
  }

  function Tasks(effects: seq<Effect>): seq<Task> {
    if effects == [] then []
    else
      var rest, last := Tasks(effects[..|effects| - 1]), effects[|effects| - 1];
      if last.Spawn? then rest + [last.task] else rest
  }

  function Messages(effects: seq<Effect>): seq<Event> {
    if effects == [] then []
    else
      var rest, last := Messages(effects[..|effects| - 1]), effects[|effects| - 1];
      if last.Send? then rest + [last.event] else rest
  }

  lemma {:induction false} EffectsSnoc(effects: seq<Effect>, x: Effect)
    ensures Tasks(effects + [x]) == Tasks(effects) + if x.Spawn? then [x.task] else []
    ensures Messages(effects + [x]) == Messages(effects) + if x.Send? then [x.event] else []
  {
    assert (effects + [x])[..|effects|] == effects;
  }

  lemma {:induction false} EffectsSplit(effects: seq<Effect>)
    ensures |effects| == |Tasks(effects)| + |Messages(effects)|
  {
    if effects != [] {
      EffectsSplit(effects[..|effects| - 1]);
    }
  }

  ghost predicate Accounted(config: Config, s: System) {
    && After(config, s.log).Some?
    && s.spawned == Tasks(Effects(s.log))
    && From(s.sent, None) == Messages(Effects(s.log))
    && |s.sent| == |Messages(Effects(s.log))| + |s.finished|
    && s.received <= |s.sent|
    && forall k :: k in s.finished ==> k < |s.spawned|
  }

  lemma {:induction false} NextAccounted(config: Config, s: System, act: Act)
    requires Accounted(config, s) && Next(config, s, act).Some?
    ensures Accounted(config, Next(config, s, act).value)
  {
    hide After, Effects, Tasks, Messages, From;
    match act
    case ByPump(a) =>
      LastEffect(s.log, a);
      if a.Emit? {
        EffectsSnoc(Effects(s.log), a.effect);
        if a.effect.Send? {
          FromSnoc(s.sent, (None, a.effect.event), None);
        }
      }
    case Finish(k, event) =>
      FromSnoc(s.sent, (Some(k), event), None);
    case _ =>
  }

  lemma {:induction false} LastEffect(log: seq<Action>, a: Action)
    ensures Effects(log + [a]) == if a.Emit? then Effects(log) + [a.effect] else Effects(log)
  {
    assert (log + [a])[..|log|] == log;
  }

  lemma {:induction false} AlwaysAccounted(config: Config, acts: seq<Act>)
    requires Run(config, acts).Some?
    ensures Accounted(config, Run(config, acts).value)
  {
    if acts != [] {
      AlwaysAccounted(config, acts[..|acts| - 1]);
      NextAccounted(config, Run(config, acts[..|acts| - 1]).value, acts[|acts| - 1]);
    }
  }

  /** Event conservation, at every moment of every interleaving: events sent, plus
      resolves in flight, plus the one effect the pump thread may be about to
      produce, are the error replies, instance adds, instance removals, failed
      child starts and the fatal error so far. */
  lemma {:induction false} EventConservation(config: Config, acts: seq<Act>)
    requires Run(config, acts).Some?
    ensures var s := Run(config, acts).value;
            After(config, s.log).Some? && |s.finished| <= |s.spawned|
            && |s.sent| + (|s.spawned| - |s.finished|) + |Debt(After(config, s.log).value)|
            == Count(ErrorReply, s.log) + Count(InstanceAdd, s.log) + Count(InstanceRemove, s.log)
               + Count(FailedStart, s.log) + Count(Fatal, s.log)
  {
    AlwaysAccounted(config, acts);
    var s := Run(config, acts).value;
    EffectsExplained(config, s.log);
    ExplainedByCause(s.log);
    EffectsSplit(Effects(s.log));
    SubsetOfRange(s.finished, |s.spawned|);
  }

  lemma {:induction false} SubsetOfRange(s: set<nat>, n: nat)
    requires forall k :: k in s ==> k < n
    ensures |s| <= n
  {
    if n == 0 {
      assert s == {};
    } else {
      SubsetOfRange(s - {n - 1}, n - 1);
      assert s <= (s - {n - 1}) + {n - 1};
      if n - 1 in s {
        assert |s| == |s - {n - 1}| + 1;
      } else {
        assert s - {n - 1} == s;
      }
    }
  }

  /** A resolve task sends one event when it finishes, and nothing before or after. */
  lemma {:induction false} OneEventPerResolve(config: Config, acts: seq<Act>, k: nat)
    requires Run(config, acts).Some?
    ensures var s := Run(config, acts).value;
            var events := From(s.sent, Some(k));
            if k in s.finished then
              && k < |s.spawned| && |events| == 1
              && var task := s.spawned[k];
                 events[0] == Failed(ResolveFailed(task.name))
                 || (events[0].Found? && events[0].service.name == task.name
                     && events[0].service.serviceType == TrimDot(task.regtype)
                     && events[0].service.domain == TrimDot(task.domain)
                     && events[0].service.interface == if task.interface == 0 then None else Some(task.interface))
            else events == []
  {
    if acts != [] {
      var before, act := acts[..|acts| - 1], acts[|acts| - 1];
      OneEventPerResolve(config, before, k);
      var s := Run(config, before).value;
      match act
      case ByPump(a) =>
        if a.Emit? && a.effect.Send? {
          FromSnoc(s.sent, (None, a.effect.event), Some(k));
        }
      case Finish(j, event) =>
        FromSnoc(s.sent, (Some(j), event), Some(k));
      case _ =>
    }
  }

  // ---- The end of the stream ----

  /** The handles that are out, one by one. */
  ghost predicate SendersCounted(config: Config, s: System)
    requires After(config, s.log).Some?
  {
    s.senders == (if After(config, s.log).value.point == Ended then 0 else 1)
               + (if StateBlock in Held(s.log) then 1 else 0)
               + |s.spawned| - |s.finished|
  }

  lemma {:induction false} StepSenders(config: Config, log: seq<Action>, a: Action)
    requires After(config, log + [a]).Some?
    ensures After(config, log).Some? && After(config, log).value.point != Ended
    ensures After(config, log + [a]).value.point == Ended <==> a == End
    ensures a == Allocate(StateBlock) ==> StateBlock !in Held(log)
    ensures a == Free(StateBlock) ==> StateBlock in Held(log)
    ensures Held(log + [a]) == if a.Allocate? then Held(log) + {a.block} else if a.Free? then Held(log) - {a.block} else Held(log)
  {
    hide After, Held, Step, Footing;
    AfterSnoc(config, log, a);
    HeldSnoc(log, a);
    var p, q := After(config, log).value, After(config, log + [a]).value;
    StepEnds(p, a, q);
    FootingHolds(config, log);
    FootingHolds(config, log + [a]);
    HeldBlocks(config, log);
    StepState(p, a, q);
  }

  lemma {:induction false} HeldSnoc(log: seq<Action>, a: Action)
    ensures Held(log + [a]) ==
            if a.Allocate? then Held(log) + {a.block} else if a.Free? then Held(log) - {a.block} else Held(log)
  {
    assert (log + [a])[..|log|] == log;
  }

  /** The state block is allocated once and freed once. */
  lemma {:induction false} StepState(p: Pump, a: Action, q: Pump)
    requires Footing(p) && Footing(q) && Step(p, a) == Some(q)
    ensures a == Allocate(StateBlock) ==> StateBlock !in p.blocks
    ensures a == Free(StateBlock) ==> StateBlock in p.blocks
  {
    hide Step;
    StepBlocks(p, a, q);
    if a.Allocate? {
      assert q.blocks[|p.blocks|] == BLOCKS[|p.blocks|];
      assert forall k :: 0 <= k < |p.blocks| ==> p.blocks[k] == q.blocks[k] == BLOCKS[k];
    } else if a.Free? {
      InSnoc(q.blocks, a.block);
    }
  }

  lemma {:induction false} StepEnds(p: Pump, a: Action, q: Pump)
    requires Step(p, a) == Some(q)
    ensures p.point != Ended && (q.point == Ended <==> a == End)
  {
  }

  lemma {:induction false} AlwaysCounted(config: Config, acts: seq<Act>)
    requires Run(config, acts).Some?
    ensures Accounted(config, Run(config, acts).value) && SendersCounted(config, Run(config, acts).value)
  {
    hide After, Held;
    AlwaysAccounted(config, acts);
    if acts != [] {
      AlwaysCounted(config, acts[..|acts| - 1]);
      NextCounted(config, Run(config, acts[..|acts| - 1]).value, acts[|acts| - 1]);
    } else {
      FreshCounted(config);
    }
  }

  lemma {:induction false} FreshCounted(config: Config)
    ensures After(config, []).Some? && After(config, []).value.point != Ended && Held([]) == {}
  {
  }

  lemma {:induction false} NextCounted(config: Config, s: System, act: Act)
    requires Accounted(config, s) && SendersCounted(config, s) && Next(config, s, act).Some?
    ensures After(config, Next(config, s, act).value.log).Some?
    ensures SendersCounted(config, Next(config, s, act).value)
  {
    hide After, Held, Accounted;
    if act.ByPump? {
      StepSenders(config, s.log, act.action);
    } else {
      LogKept(config, s);
    }
  }

  lemma {:induction false} LogKept(config: Config, s: System)
    requires Accounted(config, s)
    ensures After(config, s.log).Some?
  {
  }

  /** `recv` yields `None` exactly when the pump thread has ended, no resolve is in
      flight and every event sent has been received. */
  lemma {:induction false} StreamEnds(config: Config, acts: seq<Act>)
    requires Run(config, acts).Some?
    ensures var s := Run(config, acts).value;
            && s.senders >= 0
            && (s.senders == 0 <==> s.log != [] && s.log[|s.log| - 1] == End && |s.finished| == |s.spawned|)
            && (Next(config, s, ReceiveNone).Some? <==> s.senders == 0 && s.received == |s.sent|)
  {
    AlwaysCounted(config, acts);
    var s := Run(config, acts).value;
    SubsetOfRange(s.finished, |s.spawned|);
    if s.log != [] {
      StepEnds(After(config, s.log[..|s.log| - 1]).value, s.log[|s.log| - 1], After(config, s.log).value);
    }
    HeldBlocks(config, s.log);
    FootingHolds(config, s.log);
  }

  /** Without senders nothing can be sent: only receiving and dropping the guard
      remain, and the senders do not come back. */
  lemma {:induction false} ClosedForGood(config: Config, acts: seq<Act>, act: Act)
    requires Run(config, acts).Some? && Run(config, acts).value.senders == 0
    requires Next(config, Run(config, acts).value, act).Some?
    ensures act in {DropGuard, Receive, ReceiveNone}
    ensures var s, t := Run(config, acts).value, Next(config, Run(config, acts).value, act).value;
            t.senders == 0 && t.sent == s.sent
  {
    StreamEnds(config, acts);
    AlwaysCounted(config, acts);
    var s := Run(config, acts).value;
    if act.ByPump? {
      StepSenders(config, s.log, act.action);
    } else if act.Finish? {
      AllFinished(s.finished, |s.spawned|);
    }
  }

  lemma {:induction false} AllFinished(s: set<nat>, n: nat)
    requires forall k :: k in s ==> k < n
    ensures |s| == n <==> forall k :: 0 <= k < n ==> k in s
  {
    if n == 0 {
      assert s == {};
    } else {
      var t := s - {n - 1};
      AllFinished(t, n - 1);
      if n - 1 in s {
        assert |s| == |t| + 1;
      } else {
        assert t == s;
        SubsetOfRange(s, n - 1);
      }
    }
  }

  /** `None` is the last word: every event sent was received before it, none is
      sent or received after it, and `recv` yields nothing else again. */
  lemma {:induction false} NoneIsFinal(config: Config, acts: seq<Act>, n: nat)
    requires Run(config, acts).Some? && n < |acts| && acts[n] == ReceiveNone
    ensures Run(config, acts[..n]).Some?
    ensures var s, t := Run(config, acts[..n]).value, Run(config, acts).value;
            && t.senders == 0 && t.sent == s.sent && t.received == s.received == |s.sent|
            && forall k :: n < k < |acts| ==> acts[k] in {DropGuard, ReceiveNone}
  {
    var before := acts[..|acts| - 1];
    assert acts[..n] == before[..n];
    if n == |acts| - 1 {
      assert before[..n] == before;
    } else {
      NoneIsFinal(config, before, n);
      ClosedForGood(config, before, acts[|acts| - 1]);
    }
  }

  // ---- Stopping ----

  function CountPolls(acts: seq<Act>): nat {
    if acts == [] then 0
    else CountPolls(acts[..|acts| - 1]) + if acts[|acts| - 1].ByPump? && acts[|acts| - 1].action.Poll? then 1 else 0
  }

  function CountDispatches(acts: seq<Act>): nat {
    if acts == [] then 0
    else
      CountDispatches(acts[..|acts| - 1])
      + if acts[|acts| - 1].ByPump? && acts[|acts| - 1].action.BeginDispatch? then 1 else 0
  }

  function CountCallbacks(acts: seq<Act>): nat {
    if acts == [] then 0
    else
      CountCallbacks(acts[..|acts| - 1])
      + if acts[|acts| - 1].ByPump? && acts[|acts| - 1].action.Callback? then 1 else 0
  }

  function CountOtherSteps(acts: seq<Act>): nat {
    if acts == [] then 0
    else
      CountOtherSteps(acts[..|acts| - 1])
      + if acts[|acts| - 1].ByPump? && !acts[|acts| - 1].action.Callback? then 1 else 0
  }

  /** An upper bound on the steps, callbacks apart, that a pump told to stop still
      takes: the drain, the replies, the teardown. */
  function Work(p: Pump): nat {
    var teardown := 7 + |p.live|;
    var atHead := 1 + teardown + 2 * |p.queue|;
    match p.point
    case Booting => atHead + 4 + if |p.blocks| < |BLOCKS| then |BLOCKS| - |p.blocks| else 0
    case Opening => atHead + 4
    case Describing => atHead + 3
    case Rooting => atHead + 2
    case Head => atHead
    case Reporting(_) => atHead + 1
    case Waiting => atHead + 3
    case Readable => atHead + 2
    case Dispatching => atHead + 1
    case Replying(_) => atHead + 2
    case Closing(_) => teardown
    case Unwinding(_) => 3 + |p.blocks|
    case Confessing(_) => 2
    case Leaving => 1
    case Ended => 0
  }

  lemma {:induction false} StepWork(p: Pump, a: Action, q: Pump)
    requires Footing(p) && Step(p, a) == Some(q) && a != LoadStop(false)
    ensures a.Callback? ==> Work(q) <= Work(p) + 2
    ensures !a.Callback? ==> Work(q) < Work(p)
  {
    if Beginning(p.point) {
      BeginningWork(p, a, q);
    } else if p.point.Dispatching? || p.point.Replying? || p.point.Readable? || p.point.Waiting? {
      DispatchWork(p, a, q);
    }
  }

  lemma {:induction false} BeginningWork(p: Pump, a: Action, q: Pump)
    requires Footing(p) && Step(p, a) == Some(q) && Beginning(p.point)
    ensures Work(q) < Work(p) && !a.Callback?
  {
  }

  lemma {:induction false} DispatchWork(p: Pump, a: Action, q: Pump)
    requires Step(p, a) == Some(q)
    requires p.point.Dispatching? || p.point.Replying? || p.point.Readable? || p.point.Waiting?
    ensures if a.Callback? then Work(q) <= Work(p) + 2 else Work(q) < Work(p)
  {
    if p.point.Waiting? {
      assert q.point == AfterPoll(a.answer);
    }
  }

  function PollsLeft(point: Point): nat { if point.Waiting? then 1 else 0 }
  function DispatchesLeft(point: Point): nat { if point.Waiting? || point.Readable? then 1 else 0 }

  lemma {:induction false} StepStopping(p: Pump, a: Action, q: Pump)
    requires Step(p, a) == Some(q) && a != LoadStop(false)
    ensures PollsLeft(q.point) + (if a.Poll? then 1 else 0) <= PollsLeft(p.point)
    ensures DispatchesLeft(q.point) + (if a.BeginDispatch? then 1 else 0) <= DispatchesLeft(p.point)
  {
    match p.point {
      case Head =>
        assert q.point in {Head} || q.point.Reporting? || q.point.Closing?;
      case Waiting =>
        assert q.point == AfterPoll(a.answer);
      case _ =>
    }
  }

  /** Once the stop flag is set, at any moment of any interleaving: at most one
      further poll and one dispatch happen, and the pump takes no more steps than
      its backlog and two per further callback, so it comes to its end. */
  lemma {:induction false} StopResponse(config: Config, s: System, acts: seq<Act>)
    requires Accounted(config, s) && s.stop && RunFrom(config, s, acts).Some?
    ensures CountPolls(acts) <= 1 && CountDispatches(acts) <= 1
    ensures var t := RunFrom(config, s, acts).value;
            After(config, t.log).Some?
            && CountOtherSteps(acts) + Work(After(config, t.log).value)
               <= Work(After(config, s.log).value) + 2 * CountCallbacks(acts)
  {
    Stopping(config, s, acts);
  }

  lemma {:induction false} Stopping(config: Config, s: System, acts: seq<Act>)
    requires Accounted(config, s) && s.stop && RunFrom(config, s, acts).Some?
    ensures var t := RunFrom(config, s, acts).value;
            && Accounted(config, t) && t.stop
            && var p, q := After(config, s.log).value, After(config, t.log).value;
            && PollsLeft(q.point) + CountPolls(acts) <= PollsLeft(p.point)
            && DispatchesLeft(q.point) + CountDispatches(acts) <= DispatchesLeft(p.point)
            && CountOtherSteps(acts) + Work(q) <= Work(p) + 2 * CountCallbacks(acts)
  {
    hide Next, Accounted, After, Work, PollsLeft, DispatchesLeft;
    LogKept(config, s);
    if acts != [] {
      var before, act := acts[..|acts| - 1], acts[|acts| - 1];
      Stopping(config, s, before);
      var t := RunFrom(config, s, before).value;
      NextAccounted(config, t, act);
      LogKept(config, t);
      LogKept(config, Next(config, t, act).value);
      NextStopping(config, t, act);
    }
  }

  lemma {:induction false} NextStopping(config: Config, s: System, act: Act)
    requires Accounted(config, s) && s.stop && Next(config, s, act).Some?
    requires After(config, Next(config, s, act).value.log).Some?
    ensures var t := Next(config, s, act).value;
            && t.stop
            && if act.ByPump? then
                 var p, q := After(config, s.log).value, After(config, t.log).value;
                 && PollsLeft(q.point) + (if act.action.Poll? then 1 else 0) <= PollsLeft(p.point)
                 && DispatchesLeft(q.point) + (if act.action.BeginDispatch? then 1 else 0) <= DispatchesLeft(p.point)
                 && if act.action.Callback? then Work(q) <= Work(p) + 2 else Work(q) + 1 <= Work(p)
               else t.log == s.log
  {
    hide Step, Work, PollsLeft, DispatchesLeft, Footing;
    if act.ByPump? {
      AfterSnoc(config, s.log, act.action);
      FootingHolds(config, s.log);
      var p, q := After(config, s.log).value, After(config, s.log + [act.action]).value;
      StepStopping(p, act.action, q);
      StepWork(p, act.action, q);
    }
  }
}
