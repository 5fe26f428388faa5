/** What holds of every log the macOS pump may produce. */
module PumpTheorems {
  import opened Seqs
  import opened Names
  import opened Events
  import opened PumpProtocol

  // ---- The deferred cascade refines immediate dedup ----

  /** Service types announced by the meta-query, in order, repeats included. */
  function Announced(config: Config, log: seq<Action>): seq<Key> {
    if log == [] then []
    else
      var rest, a := Announced(config, log[..|log| - 1]), log[|log| - 1];
      if Announces(a) then rest + [Rebuild(config, a.reply)] else rest
  }

  predicate IsAttempt(a: Action) { a.Browse? && a.child }

  /** Child browses attempted, in order. */
  function Attempted(log: seq<Action>): seq<Key> {
    if log == [] then []
    else
      var rest, a := Attempted(log[..|log| - 1]), log[|log| - 1];
      if IsAttempt(a) then rest + [a.key] else rest
  }

  /** How one step moves the set of heard types and the queue. */
  lemma {:induction false} StepCascade(p: Pump, a: Action, q: Pump)
    requires Step(p, a) == Some(q)
    ensures q.config == p.config
    ensures Announces(a) ==>
              var key := Rebuild(p.config, a.reply);
              && !IsAttempt(a)
              && q.heard == p.heard + {key}
              && q.queue == if key in p.heard then p.queue else p.queue + [key]
    ensures IsAttempt(a) ==> q.heard == p.heard && p.queue == [a.key] + q.queue
    ensures !Announces(a) && !IsAttempt(a) ==> q.heard == p.heard && q.queue == p.queue
  {
    match p.point {
      case Head => assert q.point.Head? || q.point.Reporting? || q.point.Waiting? || q.point.Closing?;
      case Waiting => assert q.point == AfterPoll(a.answer);
      case _ =>
    }
  }

  /** At every moment, the child browses attempted followed by the queued ones
      are the announced types with repeats dropped, in order. */
  lemma {:induction false} CascadeRefinesDedup(config: Config, log: seq<Action>)
    requires After(config, log).Some?
    ensures Attempted(log) + After(config, log).value.queue == Dedup(Announced(config, log))
    ensures After(config, log).value.heard == set key | key in Announced(config, log)
    ensures After(config, log).value.config == config
  {
    hide Step;
    if log != [] {
      var before, a := log[..|log| - 1], log[|log| - 1];
      CascadeRefinesDedup(config, before);
      var p, q := After(config, before).value, After(config, log).value;
      StepCascade(p, a, q);
      if Announces(a) {
        DedupSnoc(Announced(config, before), Rebuild(config, a.reply));
      }
    }
  }

  /** At a loop head nothing is queued: every announced type has had its one
      browse, and the live operations are the root's and the successful ones. */
  lemma {:induction false} CascadeAtLoopHead(config: Config, log: seq<Action>, stopped: bool)
    requires After(config, log + [LoadStop(stopped)]).Some?
    ensures Attempted(log) == Dedup(Announced(config, log))
    ensures var p := After(config, log).value;
            p.queue == [] && |p.live| == 1 + |p.heard| - Count(FailedStart, log)
  {
    hide Step, Attempted, Announced, Dedup, Count;
    AfterSnoc(config, log, LoadStop(stopped));
    AtLoopHead(After(config, log).value, stopped);
    CascadeRefinesDedup(config, log);
    LiveCount(config, log);
    assert Attempted(log) + [] == Attempted(log);
  }

  lemma {:induction false} AtLoopHead(p: Pump, stopped: bool)
    requires Step(p, LoadStop(stopped)).Some?
    ensures p.point.Head? && p.queue == []
  {
  }

  /** A log's `i`-th action announces the name `labels`, cut in any way the
      daemon may cut it. */
  ghost predicate AnnouncesName(config: Config, a: Action, labels: seq<string>, cut: nat, after: nat) {
    && Announces(a) && Genuine(config)
    && Reports(labels, cut, after, a.reply.name, a.reply.regtype, a.reply.domain)
    && (cut == |labels| || after == 0 || (after == 1 && cut > 1))
  }

  lemma {:induction false} SameNameSameKey(config: Config, a: Action, labels: seq<string>, cut: nat, after: nat)
    requires AnnouncesName(config, a, labels, cut, after)
    ensures Rebuild(config, a.reply) == (Join(labels[..2]), Join(labels[2..]))
  {
    MetaReplyInvertsReport(labels, cut, after, a.reply.name, a.reply.regtype, a.reply.domain);
  }

  /** However often and however differently cut one DNS name is reported, exactly
      one browse is made or due for it. */
  lemma {:induction false} OneBrowsePerName(config: Config, log: seq<Action>, labels: seq<string>)
    requires After(config, log).Some?
    requires exists i, cut, after :: 0 <= i < |log| && AnnouncesName(config, log[i], labels, cut, after)
    ensures forall i, cut, after :: 0 <= i < |log| && AnnouncesName(config, log[i], labels, cut, after) ==>
              Rebuild(config, log[i].reply) == (Join(labels[..2]), Join(labels[2..]))
    ensures var due := Attempted(log) + After(config, log).value.queue;
            exists k :: 0 <= k < |due| && due[k] == (Join(labels[..2]), Join(labels[2..]))
              && forall k' :: 0 <= k' < |due| && k' != k ==> due[k'] != due[k]
  {
    forall i, cut, after | 0 <= i < |log| && AnnouncesName(config, log[i], labels, cut, after)
      ensures Rebuild(config, log[i].reply) == (Join(labels[..2]), Join(labels[2..]))
    {
      SameNameSameKey(config, log[i], labels, cut, after);
    }
    var i, cut, after :| 0 <= i < |log| && AnnouncesName(config, log[i], labels, cut, after);
    DueOnce(config, log, i);
  }

  lemma {:induction false} DueOnce(config: Config, log: seq<Action>, i: nat)
    requires After(config, log).Some? && i < |log| && Announces(log[i])
    ensures var due := Attempted(log) + After(config, log).value.queue;
            exists k :: 0 <= k < |due| && due[k] == Rebuild(config, log[i].reply)
              && forall k' :: 0 <= k' < |due| && k' != k ==> due[k'] != due[k]
  {
    CascadeRefinesDedup(config, log);
    AnnouncedContains(config, log, i);
    var due := Dedup(Announced(config, log));
    var k :| 0 <= k < |due| && due[k] == Rebuild(config, log[i].reply);
    assert forall k' :: 0 <= k' < |due| && k' != k ==> due[k'] != due[k];
  }

  lemma {:induction false} AnnouncedContains(config: Config, log: seq<Action>, i: nat)
    requires i < |log| && Announces(log[i])
    ensures Rebuild(config, log[i].reply) in Announced(config, log)
  {
    if i < |log| - 1 {
      AnnouncedContains(config, log[..|log| - 1], i);
    }
  }

  // ---- Events: nothing lost, nothing invented ----

  /** Why the pump thread produces an effect. */
  datatype Cause = ErrorReply | InstanceAdd | InstanceRemove | FailedStart | Fatal | Silent

  function CauseOf(a: Action): Cause {
    match a
    case Callback(ref, reply) =>
      if reply.code != NO_ERROR then ErrorReply
      else if ref.context == MetaContext then Silent
      else if IsAdd(reply) then InstanceAdd
      else InstanceRemove
    case Browse(child, _, _, _, outcome) => if child && !outcome.Started? then FailedStart else Silent
    case Return(result) => if result.Some? then Fatal else Silent
    case _ => Silent
  }

  function Count(cause: Cause, log: seq<Action>): nat {
    if log == [] then 0
    else Count(cause, log[..|log| - 1]) + if CauseOf(log[|log| - 1]) == cause then 1 else 0
  }

  /** Messages sent and tasks spawned by the pump thread, in order. */
  function Effects(log: seq<Action>): seq<Effect> {
    if log == [] then []
    else
      var rest, a := Effects(log[..|log| - 1]), log[|log| - 1];
      if a.Emit? then rest + [a.effect] else rest
  }

  /** What the actions of a log call for, in order. */
  function Explained(log: seq<Action>): seq<Effect> {
    if log == [] then []
    else
      var rest := Explained(log[..|log| - 1]);
      match Owed(log[|log| - 1]) case Some(effect) => rest + [effect] case None => rest
  }

  function Debt(p: Pump): seq<Effect> {
    if p.point.Replying? || p.point.Reporting? || p.point.Confessing? then [p.point.effect] else []
  }

  /** The pump thread sends and spawns exactly what its actions call for, in
      order, each right after its cause. */
  lemma {:induction false} EffectsExplained(config: Config, log: seq<Action>)
    requires After(config, log).Some?
    ensures Effects(log) + Debt(After(config, log).value) == Explained(log)
  {
    hide Step;
    if log != [] {
      var before, a := log[..|log| - 1], log[|log| - 1];
      EffectsExplained(config, before);
      StepDebt(After(config, before).value, a, After(config, log).value);
    }
  }

  lemma {:induction false} StepDebt(p: Pump, a: Action, q: Pump)
    requires Step(p, a) == Some(q)
    ensures if a.Emit? then Debt(p) == [a.effect] && Debt(q) == [] && Owed(a).None?
            else Debt(p) == [] && Debt(q) == match Owed(a) case Some(e) => [e] case None => []
  {
    match p.point {
      case Head => assert q.point.Head? || q.point.Reporting? || q.point.Waiting? || q.point.Closing?;
      case Waiting => assert q.point == AfterPoll(a.answer);
      case _ =>
    }
  }

  /** Five causes account for every effect, each action having at most one. */
  lemma {:induction false} ExplainedByCause(log: seq<Action>)
    ensures |Explained(log)| == Count(ErrorReply, log) + Count(InstanceAdd, log) + Count(InstanceRemove, log)
                              + Count(FailedStart, log) + Count(Fatal, log)
  {
    if log != [] {
      ExplainedByCause(log[..|log| - 1]);
    }
  }

  /** Once the pump has returned, all that may follow is the report of the fatal
      error and the end of the thread. */
  lemma {:induction false} NothingAfterReturn(config: Config, log: seq<Action>, i: nat, j: nat)
    requires After(config, log).Some? && i < j < |log| && log[i].Return?
    ensures log[j] == End || (j == i + 1 && log[i].result.Some? && log[j] == Emit(Send(Failed(log[i].result.value))))
  {
    ReturnedPoint(config, log, i, j);
    PrefixStep(config, log, j);
    StepReturned(After(config, log[..j]).value, log[j], After(config, log[..j + 1]).value);
  }

  lemma {:induction false} PrefixStep(config: Config, log: seq<Action>, n: nat)
    requires n < |log| && After(config, log).Some?
    ensures After(config, log[..n]).Some? && After(config, log[..n + 1]).Some?
    ensures Step(After(config, log[..n]).value, log[n]) == After(config, log[..n + 1])
  {
    PrefixAccepted(config, log, n + 1);
    AfterSnoc(config, log[..n], log[n]);
    assert log[..n] + [log[n]] == log[..n + 1];
  }

  lemma {:induction false} ReturnedPoint(config: Config, log: seq<Action>, i: nat, n: nat)
    requires After(config, log).Some? && i < n <= |log| && log[i].Return?
    ensures After(config, log[..n]).Some?
    ensures var point := After(config, log[..n]).value.point;
            if n == i + 1 && log[i].result.Some? then point == Confessing(Send(Failed(log[i].result.value)))
            else point == Leaving || point == Ended
  {
    hide Step;
    PrefixStep(config, log, n - 1);
    if n > i + 1 {
      ReturnedPoint(config, log, i, n - 1);
    }
    StepReturned(After(config, log[..n - 1]).value, log[n - 1], After(config, log[..n]).value);
  }

  lemma {:induction false} StepReturned(p: Pump, a: Action, q: Pump)
    requires Step(p, a) == Some(q)
    ensures p.point != Ended
    ensures a.Return? ==>
              q.point == match a.result case Some(e) => Confessing(Send(Failed(e))) case None => Leaving
    ensures p.point.Confessing? ==> a == Emit(p.point.effect) && q.point == Leaving
    ensures p.point == Leaving ==> a == End && q.point == Ended
  {
  }

  // ---- The native reference protocol ----

  /** References the daemon handed out, in order. */
  function StartedRefs(log: seq<Action>): seq<ServiceRef> {
    if log == [] then []
    else
      var rest, a := StartedRefs(log[..|log| - 1]), log[|log| - 1];
      if a.Browse? && a.outcome.Started? then rest + [a.outcome.ref] else rest
  }

  /** References given back, in order. */
  function FreedRefs(log: seq<Action>): seq<ServiceRef> {
    if log == [] then []
    else
      var rest, a := FreedRefs(log[..|log| - 1]), log[|log| - 1];
      if a.Deallocate? then rest + [a.ref] else rest
  }

  /** Memory the daemon may be holding pointers into. */
  function Held(log: seq<Action>): set<Block> {
    if log == [] then {}
    else
      var rest, a := Held(log[..|log| - 1]), log[|log| - 1];
      if a.Allocate? then rest + {a.block} else if a.Free? then rest - {a.block} else rest
  }

  /** A dispatch is under way. */
  predicate InDispatch(log: seq<Action>) {
    log != [] &&
    var a := log[|log| - 1];
    a.BeginDispatch? || (!a.EndDispatch? && InDispatch(log[..|log| - 1]))
  }

  /** The connection was created and has not been deallocated. */
  predicate Connected(log: seq<Action>) {
    log != [] &&
    var a := log[|log| - 1];
    a == Create(NO_ERROR) || (!a.DeallocateParent? && Connected(log[..|log| - 1]))
  }

  /** What a point says about memory, connection and dispatch. */
  ghost predicate Footing(p: Pump) {
    var point := p.point;
    && p.blocks <= BLOCKS
    && (point.Booting? ==> |p.blocks| < |BLOCKS|)
    && (point.Confessing? || point.Leaving? || point.Ended? ==> p.blocks == [])
    && (point.Opening? || HasConnection(point) ==> p.blocks == BLOCKS)
    && (p.live != [] ==> HasConnection(point))
    && (point.Describing? || point.Rooting? ==> p.live == [])
  }

  predicate HasConnection(point: Point) {
    point.Describing? || point.Rooting? || point.Closing? || Looping(point)
  }

  predicate Beginning(point: Point) {
    point.Booting? || point.Opening? || point.Describing? || point.Rooting?
  }

  predicate Looping(point: Point) {
    point.Head? || point.Reporting? || point.Waiting? || point.Readable? || point.Dispatching? || point.Replying?
  }

  lemma {:induction false} FootingHolds(config: Config, log: seq<Action>)
    requires After(config, log).Some?
    ensures Footing(After(config, log).value)
    ensures Connected(log) <==> HasConnection(After(config, log).value.point)
    ensures InDispatch(log) <==>
              After(config, log).value.point.Dispatching? || After(config, log).value.point.Replying?
  {
    hide Step;
    if log != [] {
      var before, a := log[..|log| - 1], log[|log| - 1];
      FootingHolds(config, before);
      StepFooting(After(config, before).value, a, After(config, log).value);
    }
  }

  lemma {:induction false} StepFooting(p: Pump, a: Action, q: Pump)
    requires Footing(p) && Step(p, a) == Some(q)
    ensures Footing(q)
    ensures HasConnection(q.point) <==> a == Create(NO_ERROR) || (HasConnection(p.point) && !a.DeallocateParent?)
    ensures q.point.Dispatching? || q.point.Replying? <==>
              a.BeginDispatch? || ((p.point.Dispatching? || p.point.Replying?) && !a.EndDispatch?)
  {
    hide Step, Footing;
    if Beginning(p.point) {
      BeginningFooting(p, a, q);
    } else if Looping(p.point) {
      LoopingFooting(p, a, q);
    } else {
      EndingFooting(p, a, q);
    }
  }

  lemma {:induction false} BeginningFooting(p: Pump, a: Action, q: Pump)
    requires Footing(p) && Step(p, a) == Some(q) && Beginning(p.point)
    ensures Footing(q)
    ensures HasConnection(q.point) <==> a == Create(NO_ERROR) || (HasConnection(p.point) && !a.DeallocateParent?)
    ensures q.point.Dispatching? || q.point.Replying? <==>
              a.BeginDispatch? || ((p.point.Dispatching? || p.point.Replying?) && !a.EndDispatch?)
  {
  }

  lemma {:induction false} LoopingFooting(p: Pump, a: Action, q: Pump)
    requires Footing(p) && Step(p, a) == Some(q) && Looping(p.point)
    ensures Footing(q)
    ensures HasConnection(q.point) <==> a == Create(NO_ERROR) || (HasConnection(p.point) && !a.DeallocateParent?)
    ensures q.point.Dispatching? || q.point.Replying? <==>
              a.BeginDispatch? || ((p.point.Dispatching? || p.point.Replying?) && !a.EndDispatch?)
  {
    assert q.blocks == p.blocks && (Looping(q.point) || q.point.Closing?);
  }

  lemma {:induction false} EndingFooting(p: Pump, a: Action, q: Pump)
    requires Footing(p) && Step(p, a) == Some(q) && !Beginning(p.point) && !Looping(p.point)
    ensures Footing(q)
    ensures HasConnection(q.point) <==> a == Create(NO_ERROR) || (HasConnection(p.point) && !a.DeallocateParent?)
    ensures q.point.Dispatching? || q.point.Replying? <==>
              a.BeginDispatch? || ((p.point.Dispatching? || p.point.Replying?) && !a.EndDispatch?)
  {
    assert q.blocks <= p.blocks;
  }

  lemma {:induction false} HeldBlocks(config: Config, log: seq<Action>)
    requires After(config, log).Some?
    ensures Held(log) == set b | b in After(config, log).value.blocks
  {
    hide Step;
    if log != [] {
      var before, a := log[..|log| - 1], log[|log| - 1];
      HeldBlocks(config, before);
      FootingHolds(config, before);
      var p, q := After(config, before).value, After(config, log).value;
      StepBlocks(p, a, q);
      if a.Allocate? {
        InSnoc(p.blocks, a.block);
      } else if a.Free? {
        InSnoc(q.blocks, a.block);
      }
    }
  }

  lemma {:induction false} InSnoc(blocks: seq<Block>, block: Block)
    ensures forall b :: b in blocks + [block] <==> b in blocks || b == block
  {
  }

  lemma {:induction false} StepBlocks(p: Pump, a: Action, q: Pump)
    requires Footing(p) && Step(p, a) == Some(q)
    ensures if a.Allocate? then q.blocks == p.blocks + [a.block]
            else if a.Free? then p.blocks == q.blocks + [a.block] && a.block !in q.blocks
            else q.blocks == p.blocks
  {
    hide Step;
    if p.point.Unwinding? {
      UnwindBlocks(p, a, q);
      if a.Free? {
        LastBlock(p.blocks);
      }
    } else {
      OtherBlocks(p, a, q);
    }
  }

  lemma {:induction false} UnwindBlocks(p: Pump, a: Action, q: Pump)
    requires Step(p, a) == Some(q) && p.point.Unwinding?
    ensures !a.Allocate?
    ensures if a.Free? then p.blocks != [] && a.block == p.blocks[|p.blocks| - 1] && q.blocks == p.blocks[..|p.blocks| - 1]
            else q.blocks == p.blocks
  {
  }

  lemma {:induction false} OtherBlocks(p: Pump, a: Action, q: Pump)
    requires Step(p, a) == Some(q) && !p.point.Unwinding?
    ensures !a.Free?
    ensures q.blocks == if a.Allocate? then p.blocks + [a.block] else p.blocks
  {
    if !p.point.Booting? {
      assert q.blocks == p.blocks && !a.Allocate?;
    }
  }

  lemma {:induction false} LastBlock(blocks: seq<Block>)
    requires blocks != [] && blocks <= BLOCKS
    ensures var n := |blocks| - 1; blocks == blocks[..n] + [blocks[n]] && blocks[n] !in blocks[..n]
  {
    assert forall i :: 0 <= i < |blocks| ==> blocks[i] == BLOCKS[i];
  }

  /** References are given back in the order they were handed out: what was freed
      followed by what is live is what was started, and starts are numbered. */
  lemma {:induction false} RefsConserved(config: Config, log: seq<Action>)
    requires After(config, log).Some?
    ensures FreedRefs(log) + After(config, log).value.live == StartedRefs(log)
    ensures After(config, log).value.started == |StartedRefs(log)|
    ensures forall k :: 0 <= k < |StartedRefs(log)| ==> StartedRefs(log)[k].id == k
  {
    hide Step, StartedRefs, FreedRefs;
    if log == [] {
      NoRefs();
    } else {
      var before, a := log[..|log| - 1], log[|log| - 1];
      RefsConserved(config, before);
      var p, q := After(config, before).value, After(config, log).value;
      StepRefs(p, a, q);
      LastRefs(log);
      if a.Browse? && a.outcome.Started? {
        Regroup(FreedRefs(before), p.live, [a.outcome.ref]);
      } else if a.Deallocate? {
        Regroup(FreedRefs(before), [a.ref], q.live);
      } else {
        assert q.live == p.live;
      }
    }
  }

  lemma {:induction false} NoRefs()
    ensures StartedRefs([]) == FreedRefs([]) == []
  {
  }

  lemma {:induction false} LastRefs(log: seq<Action>)
    requires log != []
    ensures var before, a := log[..|log| - 1], log[|log| - 1];
            && StartedRefs(log) == (if a.Browse? && a.outcome.Started? then StartedRefs(before) + [a.outcome.ref] else StartedRefs(before))
            && FreedRefs(log) == if a.Deallocate? then FreedRefs(before) + [a.ref] else FreedRefs(before)
  {
  }

  lemma {:induction false} StepRefs(p: Pump, a: Action, q: Pump)
    requires Step(p, a) == Some(q)
    ensures if a.Browse? && a.outcome.Started? then
              q.live == p.live + [a.outcome.ref] && a.outcome.ref.id == p.started && q.started == p.started + 1
            else
              q.started == p.started && p.live == (if a.Deallocate? then [a.ref] else []) + q.live
  {
    match p.point {
      case Head => assert q.point.Head? || q.point.Reporting? || q.point.Waiting? || q.point.Closing?;
      case Waiting => assert q.point == AfterPoll(a.answer);
      case _ =>
    }
  }

  /** The first operation is the root's; every later one is an instance browse. */
  lemma {:induction false} ContextsByOrder(config: Config, log: seq<Action>)
    requires After(config, log).Some?
    ensures forall k :: 0 <= k < |StartedRefs(log)| ==>
              StartedRefs(log)[k].context == if k == 0 then config.rootContext else InstanceContext
    ensures Beginning(After(config, log).value.point) ==> StartedRefs(log) == []
    ensures Looping(After(config, log).value.point) ==> StartedRefs(log) != []
  {
    hide Step;
    if log != [] {
      var before, a := log[..|log| - 1], log[|log| - 1];
      ContextsByOrder(config, before);
      CascadeRefinesDedup(config, before);
      StepContext(After(config, before).value, a, After(config, log).value);
    }
  }

  lemma {:induction false} StepContext(p: Pump, a: Action, q: Pump)
    requires Step(p, a) == Some(q)
    ensures a.Browse? ==> if p.point.Rooting? then a.context == p.config.rootContext else Looping(p.point) && a.context == InstanceContext
    ensures a.Browse? && a.outcome.Started? ==> a.outcome.ref.context == a.context && Looping(q.point)
    ensures Beginning(q.point) ==> Beginning(p.point) && !(a.Browse? && a.outcome.Started?)
    ensures Looping(q.point) ==> Looping(p.point) || (a.Browse? && a.outcome.Started?)
  {
    StepLive(p, a, q);
    if p.point.Waiting? {
      assert q.point == AfterPoll(a.answer);
    }
  }

  /** Only the root's replies announce types, and only if it is the meta-query: the
      replies of child browses leave `seen` and the queue alone. */
  lemma {:induction false} ChildrenAnnounceNothing(config: Config, log: seq<Action>, i: nat)
    requires After(config, log).Some? && i < |log| && log[i].Callback?
    ensures StartedRefs(log[..i]) != []
    ensures Announces(log[i]) ==> log[i].ref == StartedRefs(log[..i])[0] && config.rootContext == MetaContext
    ensures After(config, log[..i]).Some? && After(config, log[..i + 1]).Some?
    ensures log[i].ref != StartedRefs(log[..i])[0] ==>
              var p, q := After(config, log[..i]).value, After(config, log[..i + 1]).value;
              q.heard == p.heard && q.queue == p.queue
  {
    hide Step;
    NativeSafety(config, log, i);
    PrefixStep(config, log, i);
    ContextsByOrder(config, log[..i]);
    StepCascade(After(config, log[..i]).value, log[i], After(config, log[..i + 1]).value);
  }

  /** A browse for one type starts nothing else, and hears of no type. */
  lemma {:induction false} NoCascadeWithoutMeta(config: Config, log: seq<Action>)
    requires After(config, log).Some? && config.rootContext != MetaContext
    ensures Announced(config, log) == [] && Attempted(log) == []
    ensures After(config, log).value.heard == {} && After(config, log).value.queue == []
  {
    hide Step;
    NothingAnnounced(config, log);
    CascadeRefinesDedup(config, log);
  }

  lemma {:induction false} NothingAnnounced(config: Config, log: seq<Action>)
    requires After(config, log).Some? && config.rootContext != MetaContext
    ensures Announced(config, log) == []
  {
    hide Step;
    if log != [] {
      var n := |log| - 1;
      NothingAnnounced(config, log[..n]);
      if Announces(log[n]) {
        ChildrenAnnounceNothing(config, log, n);
      }
    }
  }

  lemma {:induction false} LiveCount(config: Config, log: seq<Action>)
    requires After(config, log).Some?
    ensures var p := After(config, log).value;
            && |p.heard| == |Attempted(log)| + |p.queue|
            && (Beginning(p.point) ==> p.live == [] && Attempted(log) == [] && Count(FailedStart, log) == 0)
            && (Looping(p.point) ==> |p.live| == 1 + |Attempted(log)| - Count(FailedStart, log))
  {
    hide Step;
    if log != [] {
      var before, a := log[..|log| - 1], log[|log| - 1];
      LiveCount(config, before);
      var p, q := After(config, before).value, After(config, log).value;
      StepLive(p, a, q);
      StepQueue(p, a, q);
    }
  }

  lemma {:induction false} StepQueue(p: Pump, a: Action, q: Pump)
    requires Step(p, a) == Some(q)
    ensures |q.heard| - |q.queue| == |p.heard| - |p.queue| + if IsAttempt(a) then 1 else 0
  {
    hide Step;
    StepCascade(p, a, q);
    if IsAttempt(a) {
      assert |p.queue| == 1 + |q.queue|;
    } else if Announces(a) {
      var key := Rebuild(p.config, a.reply);
      assert key in p.heard ==> q.heard == p.heard;
    }
  }

  lemma {:induction false} StepLive(p: Pump, a: Action, q: Pump)
    requires Step(p, a) == Some(q)
    ensures Beginning(q.point) ==> Beginning(p.point) && q.live == p.live
    ensures Looping(q.point) ==> p.point.Rooting? || Looping(p.point)
    ensures Looping(q.point) ==>
              |q.live| == |p.live| + if p.point.Rooting? || (IsAttempt(a) && CauseOf(a) != FailedStart) then 1 else 0
    ensures IsAttempt(a) ==> Looping(p.point) && Looping(q.point)
    ensures CauseOf(a) == FailedStart ==> IsAttempt(a)
  {
    match p.point {
      case Head => assert q.point.Head? || q.point.Reporting? || q.point.Waiting? || q.point.Closing?;
      case Waiting => assert q.point == AfterPoll(a.answer);
      case _ =>
    }
  }

  /** The rules of dns_sd.h and of the borrowed contexts, at every action of
      every run: the connection is created once the three blocks are in place; its
      descriptor is asked for, its results processed and browses started on it only
      while it is live, outside dispatches; callbacks reach only live operations, inside a
      dispatch; an operation is given back once, before its connection; and memory
      goes only after the connection has. */
  lemma {:induction false} NativeSafety(config: Config, log: seq<Action>, i: nat)
    requires After(config, log).Some? && i < |log|
    ensures var before, a := log[..i], log[i];
            && (a.Create? ==> !Connected(before) && Held(before) == {StateBlock, MetaBlock, InstanceBlock})
            && (a.Describe? || a.BeginDispatch? ==> Connected(before) && !InDispatch(before))
            && (a.Browse? ==>
                  Connected(before) && !InDispatch(before) && Held(before) == {StateBlock, MetaBlock, InstanceBlock}
                  && (a.outcome.Started? ==> a.outcome.ref !in StartedRefs(before)))
            && (a.Callback? ==>
                  Connected(before) && InDispatch(before) && Held(before) == {StateBlock, MetaBlock, InstanceBlock}
                  && a.ref in StartedRefs(before) && a.ref !in FreedRefs(before))
            && (a.Deallocate? ==>
                  Connected(before) && !InDispatch(before) && a.ref in StartedRefs(before) && a.ref !in FreedRefs(before))
            && (a.DeallocateParent? ==>
                  Connected(before) && !InDispatch(before) && FreedRefs(before) == StartedRefs(before))
            && (a.Free? ==> !Connected(before) && FreedRefs(before) == StartedRefs(before) && a.block in Held(before))
  {
    hide Step;
    PrefixStep(config, log, i);
    var before := log[..i];
    FootingHolds(config, before);
    HeldBlocks(config, before);
    RefsConserved(config, before);
    var p := After(config, before).value;
    StepGrounds(p, log[i]);
    NumberedOnce(FreedRefs(before), p.live);
    if p.live == [] {
      assert FreedRefs(before) + p.live == FreedRefs(before);
    }
  }

  /** Where each native call is made from. */
  lemma {:induction false} StepGrounds(p: Pump, a: Action)
    requires Footing(p) && Step(p, a).Some?
    ensures a.Create? ==> p.point.Opening?
    ensures a.Describe? || a.BeginDispatch? ==> p.point.Describing? || p.point.Readable?
    ensures a.Browse? ==> (p.point.Rooting? || p.point.Head?) && (a.outcome.Started? ==> a.outcome.ref.id == p.started)
    ensures a.Callback? ==> p.point.Dispatching? && a.ref in p.live
    ensures a.Deallocate? ==> p.point.Closing? && a.ref in p.live
    ensures a.DeallocateParent? ==> p.point.Closing? && p.live == []
    ensures a.Free? ==> p.point.Unwinding? && p.live == [] && a.block in p.blocks
  {
  }

  lemma {:induction false} NumberedOnce(freed: seq<ServiceRef>, live: seq<ServiceRef>)
    requires forall k :: 0 <= k < |freed + live| ==> (freed + live)[k].id == k
    ensures forall r :: r in live ==> r in freed + live && r !in freed
    ensures forall r :: r in freed + live ==> r.id < |freed + live|
  {
    forall r | r in live
      ensures r in freed + live && r !in freed
    {
      var k :| 0 <= k < |live| && live[k] == r;
      assert (freed + live)[|freed| + k] == r;
      assert forall j :: 0 <= j < |freed| ==> (freed + live)[j] == freed[j];
    }
  }

  /** On every exit path, by the time the thread ends: all that was started has
      been given back, in order, the connection is gone, and memory is released. */
  lemma {:induction false} TornDown(config: Config, log: seq<Action>)
    requires After(config, log).Some? && After(config, log).value.point == Ended
    ensures FreedRefs(log) == StartedRefs(log) && !Connected(log) && Held(log) == {}
    ensures forall i, j :: 0 <= i < j < |FreedRefs(log)| ==> FreedRefs(log)[i] != FreedRefs(log)[j]
    ensures Effects(log) == Explained(log)
  {
    FootingHolds(config, log);
    HeldBlocks(config, log);
    RefsConserved(config, log);
    EffectsExplained(config, log);
    assert FreedRefs(log) + [] == FreedRefs(log);
    assert Effects(log) + [] == Effects(log);
  }

  // ---- The machine is never stuck ----

  /** Until the thread ends there is always a next action. */
  lemma {:induction false} NeverStuck(config: Config, log: seq<Action>)
    requires After(config, log).Some?
    ensures After(config, log).value.point == Ended <==> forall a :: Step(After(config, log).value, a).None?
  {
    var p := After(config, log).value;
    FootingHolds(config, log);
    if p.point != Ended {
      var a := NextAction(p);
      assert Step(p, a).Some?;
    }
  }

  /** One way to go on. */
  ghost function NextAction(p: Pump): Action
    requires Footing(p) && p.point != Ended
  {
    match p.point
    case Booting => Allocate(BLOCKS[|p.blocks|])
    case Opening => Create(NO_ERROR)
    case Describing => Describe(0)
    case Rooting => Browse(false, p.config.root, p.config.interface, p.config.rootContext, Refusal(p.config.root))
    case Head =>
      if p.queue == [] then LoadStop(false)
      else Browse(true, p.queue[0], p.config.interface, InstanceContext, Refusal(p.queue[0]))
    case Reporting(effect) => Emit(effect)
    case Waiting => Action.Poll(PollTimeout)
    case Readable => BeginDispatch
    case Dispatching => EndDispatch(NO_ERROR)
    case Replying(effect) => Emit(effect)
    case Closing(result) => if p.live == [] then DeallocateParent else Deallocate(p.live[0])
    case Unwinding(result) => if p.blocks == [] then Return(result) else Free(p.blocks[|p.blocks| - 1])
    case Confessing(effect) => Emit(effect)
    case Leaving => End
  }

  ghost function Refusal(key: Key): Outcome {
    match Position(key.0, '\0')
    case Some(i) => Rejected(key.0, i)
    case None => match Position(key.1, '\0') case Some(i) => Rejected(key.1, i) case None => Refused(1)
  }
}
