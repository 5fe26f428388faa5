/** What one resolve task does on macOS: a resolve, an address lookup, one event.
    Each query has its own reference to the daemon. */
module Resolve {
  import opened Seqs
  import opened Names
  import opened Events
  import opened PumpProtocol
  import PumpSystem
  import Pump
  import Txt

  datatype ResolveReply = ResolveReply(code: int, host: string, port: nat, txt: Txt.bytes)
  datatype AddressReply = AddressReply(flags: nat, code: int, address: Option<Address>)

  /** FLAGS_MORE_COMING is 0x1. */
  predicate MoreComing(reply: AddressReply) { reply.flags % 2 == 1 }

  /** Whatever the other bits, the lowest alone says that more is coming. */
  lemma {:induction false} LowestBitDecides(reply: AddressReply, high: nat, more: bool)
    requires reply.flags == 2 * high + if more then 1 else 0
    ensures MoreComing(reply) == more
  {
  }

  /** The daemon as one task sees it. `replies` and `batches` are the callbacks it
      made, `polled` and `status` what the resolve's one poll and its processing
      returned, and `exhausted` whether the address lookup ran out of time or its
      connection failed, which it does after at most `patience` further waits. */
  class Daemon {
    var open: bool
    var asked: nat
    var started: nat
    var closed: nat
    var patience: nat
    var polled: int
    var status: int
    var exhausted: bool
    var replies: seq<ResolveReply>
    var batches: seq<seq<AddressReply>>

    constructor (patience: nat)
      ensures !open && asked == started == closed == 0 && !Processed() && !exhausted && replies == [] && batches == []
    {
      open, asked, started, closed, this.patience := false, 0, 0, 0, patience;
      polled, status, exhausted, replies, batches := 0, NO_ERROR, false, [], [];
    }

    /** Readable in time, and read without error. */
    predicate Processed()
      reads this
    {
      polled > 0 && status == NO_ERROR
    }

    ghost predicate Balanced()
      reads this
    {
      started == closed + if open then 1 else 0
    }

    method Start() returns (code: int)
      requires !open && Balanced()
      modifies this`open, this`asked, this`started
      ensures Balanced() && open == (code == NO_ERROR)
      ensures asked == old(asked) + 1 && started == old(started) + if open then 1 else 0
    {
      code := *;
      asked := asked + 1;
      if code == NO_ERROR {
        open, started := true, started + 1;
      }
    }

    /** Waits for the address lookup's descriptor. */
    method Wait() returns (ready: bool)
      modifies this`patience, this`exhausted
      ensures exhausted == (old(exhausted) || !ready) && (ready ==> patience < old(patience))
      ensures patience <= old(patience)
    {
      ready := *;
      if patience == 0 {
        ready := false;
      }
      if ready {
        patience := patience - 1;
      } else {
        exhausted := true;
      }
    }

    method Deallocate()
      requires open && Balanced()
      modifies this`open, this`closed
      ensures Balanced() && !open
    {
      open, closed := false, closed + 1;
    }
  }

  /** The TXT data of the latest error-free reply that carried any. */
  function LastTxt(replies: seq<ResolveReply>): seq<Txt.TxtRecord> {
    if replies == [] then []
    else
      var last := replies[|replies| - 1];
      if last.code == NO_ERROR && last.txt != [] then Txt.Parse(last.txt) else LastTxt(replies[..|replies| - 1])
  }

  /** Said by position: the latest error-free reply with TXT data wins; without one
      there is none. */
  lemma {:induction false} LatestTxtWins(replies: seq<ResolveReply>, i: int)
    requires -1 <= i < |replies|
    requires i >= 0 ==> replies[i].code == 0 && replies[i].txt != []
    requires forall j :: i < j < |replies| ==> replies[j].code != 0 || replies[j].txt == []
    ensures LastTxt(replies) == if i >= 0 then Txt.Parse(replies[i].txt) else []
  {
    if replies != [] && i < |replies| - 1 {
      LatestTxtWins(replies[..|replies| - 1], i);
    }
  }

  class ResolveResult {
    var host: Option<string>
    var port: nat
    var txt: seq<Txt.TxtRecord>
    var error: int
    var got: bool

    constructor ()
      ensures Reflects([])
    {
      host, port, txt, error, got := None, 0, [], NO_ERROR, false;
    }

    /** The result holds the last reply's status and, if that was good, its host and
        port; TXT data stays until a reply brings new. */
    ghost predicate Reflects(replies: seq<ResolveReply>)
      reads this
    {
      && (got <==> replies != []) && txt == LastTxt(replies)
      && (replies == [] ==> error == NO_ERROR && host == None)
      && (replies != [] ==>
            var last := replies[|replies| - 1];
            && error == last.code
            && (last.code == NO_ERROR ==> host == Some(last.host) && port == last.port))
    }

    method ResolveCallback(reply: ResolveReply, ghost replies: seq<ResolveReply>)
      requires Reflects(replies)
      modifies this
      ensures Reflects(replies + [reply])
    {
      assert (replies + [reply])[..|replies|] == replies;
      got := true;
      error := reply.code;
      if reply.code != NO_ERROR {
        return;
      }
      host := Some(reply.host);
      port := reply.port;
      if |reply.txt| > 0 {
        txt := Txt.ParseTxtBuffer(reply.txt);
      }
    }
  }

  class AddrResult {
    var addrs: seq<Address>
    var done: bool

    constructor ()
      ensures addrs == [] && !done
    {
      addrs, done := [], false;
    }

    method GetaddrCallback(reply: AddressReply)
      modifies this
      ensures addrs == old(addrs) + if reply.code == 0 && reply.address.Some? then [reply.address.value] else []
      ensures done == (old(done) || reply.flags % 2 == 0)
    {
      if reply.code == NO_ERROR && reply.address.Some? {
        addrs := addrs + [reply.address.value];
      }
      if !MoreComing(reply) {
        done := true;
      }
    }
  }

  /** The addresses of the error-free replies, in order. */
  function Usable(replies: seq<AddressReply>): seq<Address> {
    if replies == [] then []
    else
      var last := replies[|replies| - 1];
      Usable(replies[..|replies| - 1])
        + if last.code == NO_ERROR && last.address.Some? then [last.address.value] else []
  }

  lemma {:induction false} UsableConcat(a: seq<AddressReply>, b: seq<AddressReply>)
    ensures Usable(a + b) == Usable(a) + Usable(b)
  {
    if b == [] {
      assert a + b == a;
    } else {
      UsableConcat(a, b[..|b| - 1]);
      assert (a + b)[..|a + b| - 1] == a + b[..|b| - 1];
    }
  }

  /** `addrs` are the addresses of the error-free replies that carry one, each once and
      in order: `picks` are the positions they come from. */
  ghost predicate Picked(replies: seq<AddressReply>, addrs: seq<Address>, picks: seq<nat>) {
    && |picks| == |addrs|
    && (forall k :: 0 <= k < |picks| ==>
          picks[k] < |replies| && replies[picks[k]].code == 0 && replies[picks[k]].address == Some(addrs[k]))
    && (forall k, l :: 0 <= k < l < |picks| ==> picks[k] < picks[l])
    && (forall i :: 0 <= i < |replies| && replies[i].code == 0 && replies[i].address.Some? ==> i in picks)
  }

  lemma {:induction false} UsablePicked(replies: seq<AddressReply>)
    ensures exists picks :: Picked(replies, Usable(replies), picks)
  {
    hide Picked;
    if replies == [] {
      NonePicked();
    } else {
      var n := |replies| - 1;
      UsablePicked(replies[..n]);
      var picks :| Picked(replies[..n], Usable(replies[..n]), picks);
      PickedSnoc(replies[..n], Usable(replies[..n]), picks, replies[n]);
      assert replies == replies[..n] + [replies[n]];
      if replies[n].code == 0 && replies[n].address.Some? {
        assert Picked(replies, Usable(replies), picks + [n]);
      } else {
        assert Usable(replies) == Usable(replies[..n]);
        assert Picked(replies, Usable(replies), picks);
      }
    }
  }

  lemma {:induction false} NonePicked()
    ensures Usable([]) == [] && Picked([], [], [])
  {
  }

  lemma {:induction false} PickedSnoc(replies: seq<AddressReply>, addrs: seq<Address>, picks: seq<nat>, reply: AddressReply)
    requires Picked(replies, addrs, picks)
    ensures if reply.code == 0 && reply.address.Some?
            then Picked(replies + [reply], addrs + [reply.address.value], picks + [|replies|])
            else Picked(replies + [reply], addrs, picks)
  {
    var all := replies + [reply];
    var more := picks + [|replies|];
    assert forall k :: 0 <= k < |replies| ==> all[k] == replies[k];
    assert more[|picks|] == |replies|;
    assert forall i :: i in picks ==> i in more;
  }

  /** ... and there is only one such list. */
  lemma {:induction false} PickedUnique(
      replies: seq<AddressReply>, a: seq<Address>, p: seq<nat>, b: seq<Address>, q: seq<nat>)
    requires Picked(replies, a, p) && Picked(replies, b, q)
    ensures a == b
  {
    hide Picked;
    SamePicks(replies, a, p, b, q);
    if p != [] {
      var m, n := |p| - 1, |q| - 1;
      LastPick(replies, a, p, b, q);
      Truncated(replies, a, p);
      Truncated(replies, b, q);
      PickedUnique(replies[..p[m]], a[..m], p[..m], b[..n], q[..n]);
      Unsnoc(a);
      Unsnoc(b);
    }
  }

  lemma {:induction false} LastPick(
      replies: seq<AddressReply>, a: seq<Address>, p: seq<nat>, b: seq<Address>, q: seq<nat>)
    requires Picked(replies, a, p) && Picked(replies, b, q) && p != [] && q != []
    ensures |a| == |p| && |b| == |q|
    ensures p[|p| - 1] == q[|q| - 1] < |replies| && a[|p| - 1] == b[|q| - 1]
  {
    SamePicks(replies, a, p, b, q);
    LargestPick(p, q);
    LargestPick(q, p);
  }

  lemma {:induction false} SamePicks(
      replies: seq<AddressReply>, a: seq<Address>, p: seq<nat>, b: seq<Address>, q: seq<nat>)
    requires Picked(replies, a, p) && Picked(replies, b, q)
    ensures p == [] <==> q == []
    ensures |a| == |p| && |b| == |q|
    ensures p != [] ==> p[|p| - 1] in q && q[|q| - 1] in p
  {
    if p != [] {
      assert p[|p| - 1] in q;
    }
    if q != [] {
      assert q[|q| - 1] in p;
    }
  }

  lemma {:induction false} LargestPick(p: seq<nat>, q: seq<nat>)
    requires p != [] && q != [] && p[|p| - 1] in q
    requires forall k, l :: 0 <= k < l < |q| ==> q[k] < q[l]
    ensures p[|p| - 1] <= q[|q| - 1]
  {
  }

  lemma {:induction false} Truncated(replies: seq<AddressReply>, addrs: seq<Address>, picks: seq<nat>)
    requires Picked(replies, addrs, picks) && picks != []
    ensures |picks| == |addrs| && picks[|picks| - 1] < |replies|
    ensures var m := |picks| - 1; Picked(replies[..picks[m]], addrs[..m], picks[..m])
  {
    var m := |picks| - 1;
    forall i | 0 <= i < picks[m] && replies[i].code == 0 && replies[i].address.Some?
      ensures i in picks[..m]
    {
      assert i in picks;
    }
  }

  function Flatten(batches: seq<seq<AddressReply>>): seq<AddressReply> {
    if batches == [] then [] else Flatten(batches[..|batches| - 1]) + batches[|batches| - 1]
  }

  /** Batch after batch, reply after reply. */
  lemma {:induction false} FlattenSnoc(batches: seq<seq<AddressReply>>, batch: seq<AddressReply>)
    ensures Flatten([]) == [] && Flatten(batches + [batch]) == Flatten(batches) + batch
  {
    assert (batches + [batch])[..|batches|] == batches;
  }

  lemma {:induction false} NothingFlattened()
    ensures Flatten([]) == []
  {
  }

  /** Every reply so far announced more to come. */
  ghost predicate Unfinished(replies: seq<AddressReply>) {
    forall i :: 0 <= i < |replies| ==> MoreComing(replies[i])
  }

  datatype Resolved = Resolved(host: string, port: nat, txt: seq<Txt.TxtRecord>)

  predicate Clean(s: string) { '\0' !in s }

  /** `do_resolve` succeeds exactly when its arguments are clean, the daemon took
      the query and was heard from in time, and its last word was good; whatever
      happens, the reference is given back. */
  method DoResolve(daemon: Daemon, name: string, regtype: string, domain: string) returns (resolved: Option<Resolved>)
    requires !daemon.open && daemon.Balanced() && daemon.replies == []
    modifies daemon
    ensures !daemon.open && daemon.Balanced() && daemon.batches == old(daemon.batches)
    ensures daemon.exhausted == old(daemon.exhausted)
    ensures daemon.asked == old(daemon.asked) + if Clean(name) && Clean(regtype) && Clean(domain) then 1 else 0
    ensures old(daemon.started) <= daemon.started <= old(daemon.started) + 1
    ensures resolved.Some? <==>
              && Clean(name) && Clean(regtype) && Clean(domain)
              && daemon.started == old(daemon.started) + 1 && daemon.Processed()
              && daemon.replies != [] && daemon.replies[|daemon.replies| - 1].code == NO_ERROR
    ensures resolved.Some? ==>
              var last := daemon.replies[|daemon.replies| - 1];
              resolved.value == Resolved(last.host, last.port, LastTxt(daemon.replies))
  {
    resolved := None;
    var bad := Pump.CString(name);
    if bad.None? {
      bad := Pump.CString(regtype);
    }
    if bad.None? {
      bad := Pump.CString(domain);
    }
    if bad.Some? {
      return;
    }
    var result := new ResolveResult();
    var code := daemon.Start();
    if code != NO_ERROR {
      return;
    }
    var processed := ProcessOnce(daemon, result);
    daemon.Deallocate();
    if !processed {
      return;
    }
    if !result.got || result.error != NO_ERROR {
      return;
    }
    resolved := Some(Resolved(result.host.value, result.port, result.txt));
  }

  /** One wait; if it ends in time, one dispatch: any callbacks, then a status. */
  method ProcessOnce(daemon: Daemon, result: ResolveResult) returns (processed: bool)
    requires daemon.open && daemon.Balanced() && result.Reflects(daemon.replies)
    modifies daemon`polled, daemon`status, daemon`replies, result
    ensures processed == daemon.Processed() && result.Reflects(daemon.replies)
    ensures old(daemon.replies) <= daemon.replies
    ensures daemon.polled <= 0 ==> daemon.replies == old(daemon.replies) && daemon.status == old(daemon.status)
  {
    daemon.polled := *;
    if daemon.polled <= 0 {
      return false;
    }
    var more: int := *;
    while more > 0
      invariant result.Reflects(daemon.replies) && old(daemon.replies) <= daemon.replies && daemon.polled > 0
    {
      var reply: ResolveReply := *;
      result.ResolveCallback(reply, daemon.replies);
      daemon.replies := daemon.replies + [reply];
      more := more - 1;
    }
    daemon.status := *;
    processed := daemon.status == NO_ERROR;
  }

  /** `get_addresses`: collects until a reply says nothing more is coming, time runs
      out or the connection fails, and gives the reference back; there is no answer
      exactly when the host was not clean or the daemon refused. */
  method GetAddresses(daemon: Daemon, host: string) returns (addresses: Option<seq<Address>>)
    requires !daemon.open && daemon.Balanced() && daemon.batches == [] && !daemon.exhausted
    modifies daemon
    ensures !daemon.open && daemon.Balanced() && daemon.replies == old(daemon.replies)
    ensures daemon.polled == old(daemon.polled) && daemon.status == old(daemon.status)
    ensures daemon.asked == old(daemon.asked) + if Clean(host) then 1 else 0
    ensures addresses.Some? <==> Clean(host) && daemon.started == old(daemon.started) + 1
    ensures addresses.None? ==> daemon.started == old(daemon.started) && daemon.batches == []
    ensures addresses.Some? ==> exists picks :: Picked(Flatten(daemon.batches), addresses.value, picks)
    ensures addresses.Some? ==>
              daemon.exhausted || (daemon.batches != [] && !Unfinished(daemon.batches[|daemon.batches| - 1]))
    ensures forall k :: 0 <= k < |daemon.batches| - 1 ==> Unfinished(daemon.batches[k])
  {
    hide Usable, Flatten, Picked;
    NothingFlattened();
    NonePicked();
    addresses := None;
    var bad := Pump.CString(host);
    if bad.Some? {
      return;
    }
    var result := new AddrResult();
    var code := daemon.Start();
    if code != NO_ERROR {
      return;
    }
    while !result.done
      invariant daemon.open && daemon.Balanced() && daemon.replies == old(daemon.replies)
      invariant daemon.asked == old(daemon.asked) + 1 && daemon.started == old(daemon.started) + 1
      invariant daemon.polled == old(daemon.polled) && daemon.status == old(daemon.status) && !daemon.exhausted
      invariant result.done ==> daemon.batches != [] && !Unfinished(daemon.batches[|daemon.batches| - 1])
      invariant result.addrs == Usable(Flatten(daemon.batches))
      invariant forall k :: 0 <= k < |daemon.batches| ==>
                  (k < |daemon.batches| - 1 || !result.done) ==> Unfinished(daemon.batches[k])
      decreases daemon.patience, !result.done
    {
      var ready := daemon.Wait();
      if !ready {
        break;
      }
      var failed := ProcessAddresses(daemon, result);
      if failed {
        break;
      }
    }
    daemon.Deallocate();
    addresses := Some(result.addrs);
    UsablePicked(Flatten(daemon.batches));
  }

  /** `DNSServiceProcessResult` on an address lookup: one batch of callbacks. */
  method ProcessAddresses(daemon: Daemon, result: AddrResult) returns (failed: bool)
    requires daemon.open && !result.done && result.addrs == Usable(Flatten(daemon.batches))
    modifies daemon`batches, daemon`exhausted, result
    ensures daemon.exhausted == (old(daemon.exhausted) || failed)
    ensures exists batch :: daemon.batches == old(daemon.batches) + [batch] && (result.done <==> !Unfinished(batch))
    ensures result.addrs == Usable(Flatten(daemon.batches))
  {
    var batch := [];
    var more: int := *;
    while more > 0
      invariant daemon.exhausted == old(daemon.exhausted)
      invariant daemon.batches == old(daemon.batches) && result.addrs == old(result.addrs) + Usable(batch)
      invariant result.done <==> !Unfinished(batch)
    {
      var reply: AddressReply := *;
      result.GetaddrCallback(reply);
      assert (batch + [reply])[..|batch|] == batch;
      batch := batch + [reply];
      more := more - 1;
    }
    UsableConcat(Flatten(daemon.batches), batch);
    daemon.batches := daemon.batches + [batch];
    assert daemon.batches[..|daemon.batches| - 1] == old(daemon.batches);
    failed := *;
    daemon.exhausted := daemon.exhausted || failed;
  }

  /** `resolve_service`: exactly one event, of the kind its task may answer with,
      and every reference it opened is closed. */
  method ResolveService(daemon: Daemon, task: Task) returns (event: Event)
    requires !daemon.open && daemon.started == daemon.closed == 0 && !daemon.exhausted
    requires daemon.replies == [] && daemon.batches == []
    modifies daemon
    ensures !daemon.open && daemon.started == daemon.closed
    ensures PumpSystem.Answers(task, event) && (!event.Found? ==> event == Failed(ResolveFailed(task.name)))
    ensures event.Found? <==>
              && Clean(task.name) && Clean(task.regtype) && Clean(task.domain)
              && daemon.started >= 1 && daemon.Processed()
              && daemon.replies != [] && daemon.replies[|daemon.replies| - 1].code == NO_ERROR
    ensures event.Found? ==>
              var last := daemon.replies[|daemon.replies| - 1];
              && event.service.hostName == TrimDot(last.host) && event.service.port == last.port
              && event.service.txt == LastTxt(daemon.replies)
              && event.service.name == task.name && event.service.serviceType == TrimDot(task.regtype)
              && event.service.domain == TrimDot(task.domain)
              && event.service.interface == (if task.interface == 0 then None else Some(task.interface))
              && (exists picks :: Picked(Flatten(daemon.batches), event.service.addresses, picks))
              && daemon.asked == old(daemon.asked) + if Clean(last.host) then 2 else 1
  {
    var resolved := DoResolve(daemon, task.name, task.regtype, task.domain);
    if resolved.None? {
      return Failed(ResolveFailed(task.name));
    }
    var r := resolved.value;
    var found := GetAddresses(daemon, r.host);
    var addresses := match found case Some(a) => a case None => [];
    NothingFlattened();
    NonePicked();
    event := Found(Service(
      task.name, TrimDot(task.regtype), TrimDot(task.domain), TrimDot(r.host), r.port,
      addresses, r.txt, NonZero(task.interface)));
  }
}
