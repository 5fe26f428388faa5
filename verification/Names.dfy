/** Service-type name surgery: how the back-ends take the answers of the DNS-SD
    meta-query apart and put them together again. Strings are sequences of
    characters; a label is a dot-free string. */
module Names {
  import opened Seqs

  // ---- The standard-library string operations the code relies on ----

  ghost predicate DotFree(s: string) { '.' !in s }

  predicate EndsInDot(s: string) { s != "" && s[|s| - 1] == '.' }

  function Dots(n: nat): (r: string)
    ensures |r| == n && forall i :: 0 <= i < n ==> r[i] == '.'
  {
    if n == 0 then "" else "." + Dots(n - 1)
  }

  /** `trim_dot`: removes every trailing dot. */
  function TrimDot(s: string): (r: string)
    ensures r <= s && !EndsInDot(r)
    ensures forall i :: |r| <= i < |s| ==> s[i] == '.'
  {
    if EndsInDot(s) then TrimDot(s[..|s| - 1]) else s
  }

  /** `trim_start_matches('.')`. */
  function TrimStart(s: string): (r: string)
    ensures |r| <= |s| && r == s[|s| - |r|..]
    ensures r == "" || r[0] != '.'
    ensures forall i :: 0 <= i < |s| - |r| ==> s[i] == '.'
  {
    if s != "" && s[0] == '.' then TrimStart(s[1..]) else s
  }

  /** `split('.')`: never empty, and every piece is dot-free. */
  function Split(s: string): (r: seq<string>)
    ensures |r| >= 1
    ensures forall i :: 0 <= i < |r| ==> DotFree(r[i])
  {
    if s == "" then [""]
    else
      var rest := Split(s[1..]);
      if s[0] == '.' then [""] + rest else [[s[0]] + rest[0]] + rest[1..]
  }

  /** `join(".")`. */
  function Join(labels: seq<string>): string {
    if labels == [] then ""
    else if |labels| == 1 then labels[0]
    else labels[0] + "." + Join(labels[1..])
  }

  /** `rsplit_once('.')`: cuts at the last dot. */
  function RSplitOnce(s: string): (r: Option<(string, string)>)
    ensures r.None? <==> DotFree(s)
    ensures r.Some? ==> r.value.0 + "." + r.value.1 == s && DotFree(r.value.1)
  {
    if s == "" then None
    else
      var n := |s| - 1;
      assert s == s[..n] + [s[n]];
      if s[n] == '.' then Some((s[..n], ""))
      else
        match RSplitOnce(s[..n])
        case None => None
        case Some((head, tail)) => Some((head, tail + [s[n]]))
  }

  lemma {:induction false} TrimDotUnique(s: string, p: string, n: nat)
    requires s == p + Dots(n) && !EndsInDot(p)
    ensures TrimDot(s) == p
  {
    var r := TrimDot(s);
    assert forall i :: |p| <= i < |s| ==> s[i] == Dots(n)[i - |p|];
    if r != "" {
      assert s[|r| - 1] == r[|r| - 1];
    }
    if p != "" {
      assert s[|p| - 1] == p[|p| - 1];
    }
  }

  lemma {:induction false} TrimStartUnique(n: nat, p: string)
    requires p == "" || p[0] != '.'
    ensures TrimStart(Dots(n) + p) == p
  {
    var s := Dots(n) + p;
    var r := TrimStart(s);
    assert forall i :: 0 <= i < n ==> s[i] == Dots(n)[i];
    if r != "" {
      assert r[0] == s[|s| - |r|];
    }
    if p != "" {
      assert s[n] == p[0];
    }
  }

  // ---- Splitting and joining are inverse ----

  lemma {:induction false} JoinSplit(s: string)
    ensures Join(Split(s)) == s
  {
    if s != "" {
      var rest := Split(s[1..]);
      JoinSplit(s[1..]);
      assert s == [s[0]] + s[1..];
      if s[0] == '.' {
        assert ([""] + rest)[1..] == rest;
        assert Join([""] + rest) == "." + Join(rest);
      } else {
        var r := [[s[0]] + rest[0]] + rest[1..];
        if |rest| == 1 {
        } else {
          assert r[1..] == rest[1..];
        }
      }
    }
  }

  lemma {:induction false} SplitLabel(a: string)
    requires DotFree(a)
    ensures Split(a) == [a]
  {
    if a != "" {
      assert a[0] in a;
      assert forall c :: c in a[1..] ==> c in a;
      SplitLabel(a[1..]);
      assert [a[0]] + a[1..] == a;
    }
  }

  lemma {:induction false} SplitCons(a: string, b: string)
    requires DotFree(a)
    ensures Split(a + "." + b) == [a] + Split(b)
  {
    var s := a + "." + b;
    if a == "" {
      assert s[1..] == b;
    } else {
      assert a[0] in a;
      assert forall c :: c in a[1..] ==> c in a;
      SplitCons(a[1..], b);
      assert s[1..] == a[1..] + "." + b;
      assert [a[0]] + a[1..] == a;
    }
  }

  ghost predicate Labels(labels: seq<string>) {
    forall i :: 0 <= i < |labels| ==> labels[i] != "" && DotFree(labels[i])
  }

  lemma {:induction false} SplitJoin(labels: seq<string>)
    requires labels != [] && Labels(labels)
    ensures Split(Join(labels)) == labels
  {
    if |labels| == 1 {
      SplitLabel(labels[0]);
    } else {
      SplitJoin(labels[1..]);
      SplitCons(labels[0], Join(labels[1..]));
    }
  }

  lemma {:induction false} JoinConcat(a: seq<string>, b: seq<string>)
    requires a != [] && b != []
    ensures Join(a + b) == Join(a) + "." + Join(b)
  {
    if |a| == 1 {
      assert (a + b)[1..] == b;
    } else {
      JoinConcat(a[1..], b);
      assert (a + b)[1..] == a[1..] + b;
    }
  }

  lemma {:induction false} JoinEnds(labels: seq<string>)
    requires labels != [] && Labels(labels)
    ensures Join(labels) != "" && Join(labels)[0] != '.' && !EndsInDot(Join(labels))
  {
    var first := labels[0];
    assert first[0] in first && first[|first| - 1] in first;
    if |labels| > 1 {
      JoinEnds(labels[1..]);
    }
  }

  // ---- macOS: meta_reply_to_type_and_domain ----

  /** The three parts of a meta-query reply, glued back into one DNS name. */
  function Rejoin(name: string, regtype: string, replyDomain: string): string {
    var full := name + "." + regtype;
    var suffix := TrimStart(replyDomain);
    if suffix == "" then full
    else (if EndsInDot(full) then full else full + ".") + suffix
  }

  /** `take(2)` and the rest, each joined again. */
  function FirstTwo(labels: seq<string>): (string, string) {
    if |labels| < 2 then (Join(labels), "") else (Join(labels[..2]), Join(labels[2..]))
  }

  function MetaReply(name: string, regtype: string, replyDomain: string): (string, string) {
    FirstTwo(Split(TrimDot(Rejoin(name, regtype, replyDomain))))
  }

  /** The name a `(type, domain)` pair is browsed under. */
  function Glue(key: (string, string)): string {
    if key.1 == "" then key.0 else key.0 + "." + key.1
  }

  /** If the last label is empty, the joined name ends in a dot (or is empty). */
  lemma {:induction false} JoinLast(labels: seq<string>)
    requires labels != []
    ensures Join(labels) == "" ==> labels == [""]
    ensures labels[|labels| - 1] == "" ==> Join(labels) == "" || EndsInDot(Join(labels))
    ensures EndsInDot(Join(labels)) && (forall i :: 0 <= i < |labels| ==> DotFree(labels[i])) ==>
              labels[|labels| - 1] == ""
  {
    if |labels| == 1 {
      if EndsInDot(labels[0]) {
        assert '.' in labels[0];
      }
    } else {
      var rest := labels[1..];
      JoinLast(rest);
      var j := Join(labels);
      assert j == labels[0] + "." + Join(rest);
      if Join(rest) != "" {
        assert j[|j| - 1] == Join(rest)[|Join(rest)| - 1];
      }
    }
  }

  /** Nothing is lost, on any input: type and domain glue back to the re-joined
      name without its trailing dots; the domain is empty exactly when that name
      has at most two labels; and the DNS root is never produced. */
  lemma {:induction false} MetaReplyLosesNothing(name: string, regtype: string, replyDomain: string)
    ensures Glue(MetaReply(name, regtype, replyDomain)) == TrimDot(Rejoin(name, regtype, replyDomain))
    ensures MetaReply(name, regtype, replyDomain).1 == "" <==>
              |Split(TrimDot(Rejoin(name, regtype, replyDomain)))| <= 2
    ensures !EndsInDot(MetaReply(name, regtype, replyDomain).1)
  {
    hide Split, Join;
    var trimmed := TrimDot(Rejoin(name, regtype, replyDomain));
    JoinSplit(trimmed);
    FirstTwoGlues(Split(trimmed));
  }

  lemma {:induction false} FirstTwoGlues(labels: seq<string>)
    requires labels != [] && !EndsInDot(Join(labels)) && forall i :: 0 <= i < |labels| ==> DotFree(labels[i])
    ensures Glue(FirstTwo(labels)) == Join(labels)
    ensures FirstTwo(labels).1 == "" <==> |labels| <= 2
    ensures !EndsInDot(FirstTwo(labels).1)
  {
    if |labels| == 2 {
      assert labels[..2] == labels;
    } else if |labels| > 2 {
      assert labels[..2] + labels[2..] == labels;
      JoinConcat(labels[..2], labels[2..]);
      JoinLast(labels[2..]);
      JoinLast(labels);
    }
  }

  /** How the daemon may report the name `labels`: the first label as the
      instance name, labels up to `cut` in the type, the rest in the domain, with
      `after` dots closing the type and dots on either side of the domain. */
  ghost predicate Reports(labels: seq<string>, cut: nat, after: nat, name: string, regtype: string, replyDomain: string) {
    && 2 <= |labels| && Labels(labels)
    && 1 <= cut <= |labels|
    && name == labels[0]
    && regtype == Join(labels[1..cut]) + Dots(after)
    && exists before: nat, behind: nat ::
         replyDomain == Dots(before) + Join(labels[cut..]) + Dots(behind)
  }

  /** The re-joined name: the two parts separated by the dots the type carried. */
  lemma {:induction false} RejoinReport(labels: seq<string>, cut: nat, after: nat, name: string, regtype: string, replyDomain: string)
    requires Reports(labels, cut, after, name, regtype, replyDomain)
    ensures cut == |labels| ==> TrimDot(Rejoin(name, regtype, replyDomain)) == Join(labels)
    ensures cut < |labels| ==>
              TrimDot(Rejoin(name, regtype, replyDomain))
                == Join(labels[..cut]) + Dots(Gap(cut, after)) + Join(labels[cut..])
  {
    var head, tail := labels[..cut], labels[cut..];
    var closing := if cut == 1 then after + 1 else after;
    RejoinHead(labels, cut, after);
    JoinEnds(head);
    var before: nat, behind: nat :| replyDomain == Dots(before) + Join(tail) + Dots(behind);
    if cut == |labels| {
      assert tail == [] && head == labels;
      RejoinWhole(name, regtype, Join(labels), closing, before, behind);
    } else {
      JoinEnds(tail);
      RejoinParts(name, regtype, Join(head), closing, before, Join(tail), behind);
    }
  }

  lemma {:induction false} RejoinWhole(name: string, regtype: string, head: string, closing: nat, before: nat, behind: nat)
    requires name + "." + regtype == head + Dots(closing) && !EndsInDot(head)
    ensures TrimDot(Rejoin(name, regtype, Dots(before) + "" + Dots(behind))) == head
  {
    assert Dots(before) + "" + Dots(behind) == Dots(before + behind) + "";
    TrimStartUnique(before + behind, "");
    TrimDotUnique(name + "." + regtype, head, closing);
  }

  lemma {:induction false} RejoinParts(
      name: string, regtype: string, head: string, closing: nat, before: nat, tail: string, behind: nat)
    requires name + "." + regtype == head + Dots(closing) && head != "" && !EndsInDot(head)
    requires tail != "" && tail[0] != '.' && !EndsInDot(tail)
    ensures TrimDot(Rejoin(name, regtype, Dots(before) + tail + Dots(behind)))
         == head + Dots(if closing == 0 then 1 else closing) + tail
  {
    var gap := Dots(if closing == 0 then 1 else closing);
    var suffix := tail + Dots(behind);
    assert Dots(before) + tail + Dots(behind) == Dots(before) + suffix;
    TrimStartUnique(before, suffix);
    CloseWithDot(head, closing);
    assert Rejoin(name, regtype, Dots(before) + suffix) == (head + gap) + suffix;
    EndsInDotConcat(head + gap, tail);
    TrimDotConcat(head + gap, tail, behind);
  }

  lemma {:induction false} EndsInDotConcat(a: string, b: string)
    requires b != ""
    ensures EndsInDot(a + b) == EndsInDot(b)
  {
  }

  lemma {:induction false} TrimDotConcat(a: string, b: string, n: nat)
    requires !EndsInDot(a + b)
    ensures TrimDot(a + (b + Dots(n))) == a + b
  {
    assert a + (b + Dots(n)) == (a + b) + Dots(n);
    TrimDotUnique(a + (b + Dots(n)), a + b, n);
  }

  /** How many dots end up between the type's part and the domain's part. */
  function Gap(cut: nat, after: nat): nat {
    if cut == 1 then after + 1 else if after == 0 then 1 else after
  }

  lemma {:induction false} RejoinHead(labels: seq<string>, cut: nat, after: nat)
    requires 1 <= cut <= |labels|
    ensures labels[0] + "." + (Join(labels[1..cut]) + Dots(after))
         == Join(labels[..cut]) + Dots(if cut == 1 then after + 1 else after)
  {
    if cut > 1 {
      assert labels[..cut] == [labels[0]] + labels[1..cut];
      JoinConcat([labels[0]], labels[1..cut]);
    } else {
      assert labels[..cut] == [labels[0]];
      assert "." + Dots(after) == Dots(after + 1);
    }
  }

  lemma {:induction false} CloseWithDot(p: string, n: nat)
    requires p != "" && !EndsInDot(p)
    ensures var full := p + Dots(n);
            (if EndsInDot(full) then full else full + ".") == p + Dots(if n == 0 then 1 else n)
  {
    var full := p + Dots(n);
    if n == 0 {
      assert full == p;
      assert Dots(1) == ".";
    } else {
      assert full[|full| - 1] == Dots(n)[n - 1];
    }
  }

  /** Reconstruction inverts the daemon's mis-splitting exactly when no empty
      label was reported between the two parts. */
  lemma {:induction false} MetaReplyInvertsReport(labels: seq<string>, cut: nat, after: nat, name: string, regtype: string, replyDomain: string)
    requires Reports(labels, cut, after, name, regtype, replyDomain)
    ensures MetaReply(name, regtype, replyDomain) == (Join(labels[..2]), Join(labels[2..]))
        <==> (cut == |labels| || after == 0 || (after == 1 && cut > 1))
  {
    var trimmed := TrimDot(Rejoin(name, regtype, replyDomain));
    RejoinReport(labels, cut, after, name, regtype, replyDomain);
    MetaReplyLosesNothing(name, regtype, replyDomain);
    GlueLabels(labels);
    if cut == |labels| {
      SplitJoin(labels);
    } else {
      JoinAt(labels, cut);
      if Gap(cut, after) == 1 {
        assert Dots(1) == ".";
        SplitJoin(labels);
      } else {
        assert |trimmed| > |Join(labels)|;
      }
    }
  }

  /** A name on which it does not: its type closed by two dots, which mDNSResponder
      has no reason to report, leaves the domain with an empty first label. */
  lemma {:induction false} DoubledDotMisleads()
    ensures Reports(["_http", "_tcp", "local"], 2, 2, "_http", "_tcp..", "local.")
    ensures MetaReply("_http", "_tcp..", "local.") != ("_http._tcp", "local")
  {
    var labels := ["_http", "_tcp", "local"];
    assert labels[1..2] == ["_tcp"] && labels[2..] == ["local"] && labels[..2] == ["_http", "_tcp"];
    assert labels[..2][1..] == ["_tcp"];
    assert Dots(1) == "." && Dots(2) == "..";
    assert Join(labels[..2]) == "_http._tcp";
    assert "local." == Dots(0) + Join(labels[2..]) + Dots(1);
    MetaReplyInvertsReport(labels, 2, 2, "_http", "_tcp..", "local.");
  }

  lemma {:induction false} JoinAt(labels: seq<string>, cut: nat)
    requires 1 <= cut < |labels|
    ensures Join(labels) == Join(labels[..cut]) + "." + Join(labels[cut..])
  {
    assert labels == labels[..cut] + labels[cut..];
    JoinConcat(labels[..cut], labels[cut..]);
  }

  lemma {:induction false} GlueLabels(labels: seq<string>)
    requires 2 <= |labels| && Labels(labels)
    ensures Glue((Join(labels[..2]), Join(labels[2..]))) == Join(labels)
  {
    if |labels| == 2 {
      assert labels[..2] == labels;
    } else {
      JoinEnds(labels[2..]);
      JoinAt(labels, 2);
    }
  }

  // ---- Windows: rsplit_once in handle_ptr, and instance_label ----

  /** The `(type, domain)` of a meta-query answer: its last label is the domain. */
  function PtrTypeAndDomain(target: string, fallback: string): (r: (string, string))
    ensures if '.' in target then r.0 + "." + r.1 == target && '.' !in r.1 else r == (target, fallback)
  {
    match RSplitOnce(target)
    case Some(pair) => pair
    case None => (target, fallback)
  }

  /** `strip_suffix`, falling back to the whole name. */
  function InstanceLabel(full: string, serviceType: string, domain: string): (r: string)
    ensures r + ("." + serviceType + "." + domain) == full
         || (r == full && forall p :: p + ("." + serviceType + "." + domain) != full)
  {
    var suffix := "." + serviceType + "." + domain;
    if |suffix| <= |full| && full[|full| - |suffix|..] == suffix
    then full[..|full| - |suffix|] else full
  }

  /** The child browse finds an instance's label again, dots and all, exactly
      when the type's target had a domain to split off. */
  lemma {:induction false} LabelRecovered(instance: string, target: string, fallback: string)
    ensures var (serviceType, domain) := PtrTypeAndDomain(target, fallback);
            InstanceLabel(instance + "." + target, serviceType, domain) == instance <==> !DotFree(target)
  {
    var (serviceType, domain) := PtrTypeAndDomain(target, fallback);
    var full := instance + "." + target;
    var suffix := "." + serviceType + "." + domain;
    if !DotFree(target) {
      assert suffix == "." + target;
      assert full == instance + suffix;
    } else {
      assert |suffix| > |"." + target|;
    }
  }

  /** A target that is a single label leaves its instances unstripped. */
  lemma {:induction false} SingleLabelMisleads()
    ensures PtrTypeAndDomain("b", "local") == ("b", "local")
    ensures InstanceLabel("a" + "." + "b", "b", "local") == "a.b"
  {
    assert DotFree("b");
  }

  /** When a browse for the caller's own `query`, a type and a domain, finds an
      instance's label again: the query must not end in a dot, because targets are
      trimmed and the suffix to strip is not; a query of nothing but dots also does,
      if the label itself does not end in one. */
  predicate LabelKept(instance: string, query: string) {
    !EndsInDot(query) || (TrimDot(query) == "" && !EndsInDot(instance))
  }

  lemma {:induction false} RootLabelRecovered(instance: string, serviceType: string, domain: string)
    ensures var query := serviceType + "." + domain;
            InstanceLabel(TrimDot(instance + "." + query), serviceType, domain) == instance <==> LabelKept(instance, query)
  {
    hide TrimDot;
    var query := serviceType + "." + domain;
    var full := instance + "." + query;
    var suffix := "." + serviceType + "." + domain;
    assert suffix == "." + query && full == instance + suffix;
    if !EndsInDot(query) {
      assert full == full + Dots(0);
      TrimDotUnique(full, full, 0);
    } else {
      NotStripped(TrimDot(full), serviceType, domain);
      TrimmedLabel(instance, query);
    }
  }

  /** A trimmed name has no suffix that ends in a dot. */
  lemma {:induction false} NotStripped(full: string, serviceType: string, domain: string)
    requires !EndsInDot(full) && EndsInDot(serviceType + "." + domain)
    ensures InstanceLabel(full, serviceType, domain) == full
  {
    var suffix := "." + serviceType + "." + domain;
    assert suffix == "." + (serviceType + "." + domain);
    assert EndsInDot(suffix);
    assert |suffix| <= |full| ==> full[|full| - |suffix|..][|suffix| - 1] == full[|full| - 1];
  }

  lemma {:induction false} TrimmedLabel(instance: string, query: string)
    requires EndsInDot(query)
    ensures TrimDot(instance + "." + query) == instance <==> TrimDot(query) == "" && !EndsInDot(instance)
  {
    hide TrimDot;
    var full := instance + "." + query;
    var rest := TrimDot(query);
    DotsRemoved(query);
    var n := |query| - |rest|;
    if rest == "" {
      var core := TrimDot(instance);
      DotsRemoved(instance);
      var m := |instance| - |core|;
      assert "." == Dots(1);
      DotsConcat(m, 1);
      DotsConcat(m + 1, n);
      assert full == core + (Dots(m) + Dots(1) + Dots(n));
      TrimDotUnique(full, core, m + 1 + n);
    } else {
      assert full == (instance + "." + rest) + Dots(n);
      TrimDotUnique(full, instance + "." + rest, n);
    }
  }

  lemma {:induction false} DotsRemoved(s: string)
    ensures s == TrimDot(s) + Dots(|s| - |TrimDot(s)|)
  {
  }

  lemma {:induction false} DotsConcat(m: nat, n: nat)
    ensures Dots(m) + Dots(n) == Dots(m + n)
  {
  }

  /** A caller's domain with a trailing dot: the label is not found again. */
  lemma {:induction false} TrailingDotMisleads()
    ensures TrimDot("a" + "." + ("b" + "." + "local.")) == "a.b.local"
    ensures InstanceLabel("a.b.local", "b", "local.") == "a.b.local"
  {
    TrimDotUnique("a" + "." + ("b" + "." + "local."), "a.b.local", 1);
  }

  lemma {:induction false} RSplitUnique(head: string, tail: string)
    requires DotFree(tail)
    ensures RSplitOnce(head + "." + tail) == Some((head, tail))
  {
    var s := head + "." + tail;
    var n := |s| - 1;
    if tail != "" {
      var rest := tail[..|tail| - 1];
      assert forall c :: c in rest ==> c in tail;
      RSplitUnique(head, rest);
      assert s[..n] == head + "." + rest;
      assert s[n] == tail[|tail| - 1] && s[n] in tail;
      assert rest + [s[n]] == tail;
    } else {
      assert s[..n] == head;
    }
  }

  /** The two splitters agree on a proper name only when it has three labels. */
  lemma {:induction false} SplittersAgreeOnThreeLabels(labels: seq<string>, fallback: string)
    requires 2 <= |labels| && Labels(labels)
    ensures PtrTypeAndDomain(Join(labels), fallback) == (Join(labels[..2]), Join(labels[2..]))
        <==> |labels| == 3
  {
    var n := |labels| - 1;
    assert labels == labels[..n] + [labels[n]];
    JoinConcat(labels[..n], [labels[n]]);
    RSplitUnique(Join(labels[..n]), labels[n]);
    assert PtrTypeAndDomain(Join(labels), fallback) == (Join(labels[..n]), labels[n]);
    if |labels| > 3 {
      assert labels[2..] == [labels[2]] + labels[3..];
      JoinConcat([labels[2]], labels[3..]);
      assert '.' in Join(labels[2..]) by {
        assert Join(labels[2..])[|labels[2]|] == '.';
      }
    }
  }
}
