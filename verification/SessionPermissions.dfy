/**
 Permission requests reach the host exactly once and in arrival order, also those that
 arrive before the attach reply. Only a request a resolution cancelled before the attach
 is missing, and it is the earliest one of its id still waiting.
 */
module SessionPermissions {
  import opened Basics
  import opened Transcripts
  import opened Sessions
  import opened SessionErrors

  /** The requests of one id, in order. */
  function Only(requests: seq<Request>, id: string): seq<Request> {
    if requests == [] then []
    else (if requests[0].toolCallId == id then [requests[0]] else []) + Only(requests[1..], id)
  }

  /** `a` is `b` with some elements left out. */
  ghost predicate Subsequence(a: seq<Request>, b: seq<Request>) {
    || a == []
    || (b != [] && Subsequence(a, b[..|b| - 1]))
    || (b != [] && a[|a| - 1] == b[|b| - 1] && Subsequence(a[..|a| - 1], b[..|b| - 1]))
  }

  lemma {:induction false} OnlyAppend(a: seq<Request>, b: seq<Request>, id: string)
    ensures Only(a + b, id) == Only(a, id) + Only(b, id)
  {
    if a == [] {
      assert a + b == b;
    } else {
      OnlyAppend(a[1..], b, id);
      assert (a + b)[1..] == a[1..] + b;
      var first: seq<Request> := if a[0].toolCallId == id then [a[0]] else [];
      assert first + (Only(a[1..], id) + Only(b, id)) == (first + Only(a[1..], id)) + Only(b, id);
    }
  }

  lemma DropUnfolds(requests: seq<Request>, id: string)
    requires requests != []
    ensures DropBuffered(requests, id)
         == if requests[0].toolCallId == id then requests[1..] else [requests[0]] + DropBuffered(requests[1..], id)
  {
    var rest := requests[1..];
    if requests[0].toolCallId != id {
      var i := FirstWith(rest, id);
      assert FirstWith(requests, id) == i + 1;
      if i < |rest| { DropTail(requests, i); }
    }
  }

  lemma DropTail(requests: seq<Request>, i: nat)
    requires i + 1 < |requests|
    ensures requests[..i + 1] + requests[i + 2..] == [requests[0]] + (requests[1..][..i] + requests[1..][i + 1..])
  {
  }

  lemma {:induction false} OnlyDropped(requests: seq<Request>, id: string, x: string)
    ensures var had := Only(requests, x);
            Only(DropBuffered(requests, id), x) == if x == id && had != [] then had[1..] else had
    decreases |requests|
  {
    hide DropBuffered;
    if requests != [] {
      DropUnfolds(requests, id);
      var r, rest := requests[0], requests[1..];
      if r.toolCallId == id {
        assert x == id ==> ([r] + Only(rest, x))[1..] == Only(rest, x);
      } else {
        OnlyDropped(rest, id, x);
        var kept := DropBuffered(rest, id);
        assert ([r] + kept)[1..] == kept;
      }
    } else {
      NothingToDrop(id);
    }
  }

  lemma NothingToDrop(id: string)
    ensures DropBuffered([], id) == []
  {
  }

  lemma {:induction false} SubsequenceWithout(a: seq<Request>, b: seq<Request>, i: nat)
    requires Subsequence(a, b) && i < |a|
    ensures Subsequence(RemoveAt(a, i), b)
    decreases |b|
  {
    hide RemoveAt;
    RemovedEnd(a, i);
    var b' := b[..|b| - 1];
    if Subsequence(a, b') {
      SubsequenceWithout(a, b', i);
    } else if i < |a| - 1 {
      SubsequenceWithout(a[..|a| - 1], b', i);
    }
  }

  lemma RemovedEnd(a: seq<Request>, i: nat)
    requires i < |a|
    ensures |RemoveAt(a, i)| == |a| - 1 && (i == |a| - 1 ==> RemoveAt(a, i) == a[..|a| - 1])
    ensures i < |a| - 1 ==> RemoveAt(a, i)[..|a| - 2] == RemoveAt(a[..|a| - 1], i) && RemoveAt(a, i)[|a| - 2] == a[|a| - 1]
  {
  }

  lemma SubsequenceNext(a: seq<Request>, b: seq<Request>, r: Request)
    requires Subsequence(a, b)
    ensures Subsequence(a + [r], b + [r])
  {
    assert (a + [r])[..|a|] == a && (b + [r])[..|b|] == b;
  }

  /* ----- Runs ----- */

  /** A run without detach, reset or disposal. */
  ghost predicate Unbroken(ops: seq<Op>) {
    Undisturbed(ops) && forall op :: op in ops ==> !op.Detach?
  }

  function RequestsOf(op: Op): seq<Request> {
    if op.Receive? && op.event.PermissionRequest? then [op.event.request] else []
  }

  /** The requests a run carries. */
  function Arrived(ops: seq<Op>): seq<Request> {
    if ops == [] then [] else Arrived(ops[..|ops| - 1]) + RequestsOf(ops[|ops| - 1])
  }

  /** How many requests of `id` were cancelled: one by each resolution that arrives before
      the attach while a request of its id is left uncancelled. */
  function Cancelled(ops: seq<Op>, id: string): nat {
    if ops == [] then 0
    else
      var before, op := ops[..|ops| - 1], ops[|ops| - 1];
      Cancelled(before, id) +
      (if && op.Receive? && op.event == PermissionResolved(id) && Run(before).link.subscription.None?
          && |Only(Arrived(before), id)| > Cancelled(before, id)
       then 1 else 0)
  }

  /** How one step moves the requests. */
  ghost predicate Moves(link: Link, link': Link, op: Op) {
    if op.Receive? && op.event.PermissionRequest? then link' == HandleRequest(link, op.event.request)
    else if op.Receive? && op.event.PermissionResolved? then link' == HandleResolved(link, op.event.toolCallId)
    else
      || (link'.buffered == link.buffered && link'.delivered == link.delivered && link'.subscription == link.subscription)
      || (link.subscription.None? && link'.subscription.Some?
          && link'.buffered == [] && link'.delivered == link.delivered + link.buffered)
  }

  /** A subscription comes only from the one attach that was started. */
  predicate Orderly(link: Link) {
    (link.attaching ==> link.started && link.subscription.None?) && (link.subscription.Some? ==> link.started)
  }

  lemma EventMoves(s: Session, e: Event)
    requires Ranged(s.t) && !s.link.disposed && !e.Reset?
    ensures Moves(s.link, HandleEvent(s, e).link, Receive(e))
  {
    hide WriteRows, FinishTurn, EndWithError, NoteError;
  }

  lemma StepMoves(s: Session, op: Op)
    requires Ranged(s.t) && !s.link.disposed && Orderly(s.link)
    requires !op.Dispose? && !op.Detach? && !(op.Receive? && op.event.Reset?)
    ensures Moves(s.link, Step(s, op).link, op)
  {
    hide HandleEvent, EndWithError, NoteError, HandleSendDone, HandleSendFailed;
    if op.Receive? {
      EventMoves(s, op.event);
    } else if (op.SendDone? || op.SendFailed?) && s.errors.sendDepth > 0 {
      SettleReceives(s, op);
    }
  }

  lemma StepAttaches(s: Session, op: Op)
    requires Ranged(s.t) && Orderly(s.link)
    requires !s.link.disposed && !op.Dispose? && !(op.Receive? && op.event.Reset?)
    ensures Orderly(Step(s, op).link)
  {
    hide WriteRows, FinishTurn, EndWithError, NoteError, HandleSendDone, HandleSendFailed;
    if (op.SendDone? || op.SendFailed?) && s.errors.sendDepth > 0 {
      SettleReceives(s, op);
    }
  }

  /** The host's requests and the buffered ones, against the run so far. */
  ghost predicate InStep(link: Link, arrived: seq<Request>, id: string, cancelled: nat) {
    && (link.subscription.Some? ==> link.buffered == [])
    && (link.subscription.None? ==> link.delivered == [])
    && Subsequence(link.delivered + link.buffered, arrived)
    && cancelled <= |Only(arrived, id)|
    && Only(link.delivered + link.buffered, id) == Only(arrived, id)[cancelled..]
  }

  lemma RequestInStep(link: Link, arrived: seq<Request>, id: string, cancelled: nat, r: Request)
    requires InStep(link, arrived, id, cancelled)
    ensures InStep(HandleRequest(link, r), arrived + [r], id, cancelled)
  {
    hide Only, Subsequence;
    var all, link' := link.delivered + link.buffered, HandleRequest(link, r);
    assert link'.delivered + link'.buffered == all + [r];
    SubsequenceNext(all, arrived, r);
    OnlyAppend(all, [r], id);
    OnlyAppend(arrived, [r], id);
    var some := Only([r], id);
    assert (Only(arrived, id) + some)[cancelled..] == Only(arrived, id)[cancelled..] + some;
  }

  lemma ResolvedInStep(link: Link, arrived: seq<Request>, id: string, cancelled: nat, x: string)
    requires InStep(link, arrived, id, cancelled)
    ensures var more := if x == id && link.subscription.None? && |Only(arrived, id)| > cancelled then 1 else 0;
            InStep(HandleResolved(link, x), arrived, id, cancelled + more)
  {
    hide Only, Subsequence, DropBuffered;
    if link.subscription.None? {
      assert link.delivered + link.buffered == link.buffered;
      var link' := HandleResolved(link, x);
      assert link'.delivered + link'.buffered == link'.buffered;
      OnlyDropped(link.buffered, x, id);
      SubsequenceDropped(link.buffered, arrived, x);
      var had := Only(arrived, id);
      assert |had| > cancelled ==> had[cancelled..][1..] == had[cancelled + 1..];
    }
  }

  lemma SubsequenceDropped(a: seq<Request>, b: seq<Request>, x: string)
    requires Subsequence(a, b)
    ensures Subsequence(DropBuffered(a, x), b)
  {
    hide Subsequence;
    var i := FirstWith(a, x);
    if i < |a| { SubsequenceWithout(a, b, i); }
  }

  lemma OtherInStep(link: Link, link': Link, op: Op, arrived: seq<Request>, id: string, cancelled: nat)
    requires InStep(link, arrived, id, cancelled) && Moves(link, link', op)
    requires !(op.Receive? && (op.event.PermissionRequest? || op.event.PermissionResolved?))
    ensures InStep(link', arrived, id, cancelled)
  {
    if link'.subscription != link.subscription {
      assert link'.delivered + link'.buffered == link.delivered + link.buffered;
    }
  }

  /** In every run without detach, reset or disposal: what the host has, followed by what is
      still buffered, is a subsequence of the arrivals that misses, of each id, exactly its
      `Cancelled` earliest ones. Attached, nothing is buffered; before, nothing is delivered. */
  lemma {:induction false} HostReceivesInOrder(ops: seq<Op>, id: string)
    requires Unbroken(ops)
    ensures !Run(ops).link.disposed
    ensures InStep(Run(ops).link, Arrived(ops), id, Cancelled(ops, id))
    ensures Orderly(Run(ops).link)
  {
    hide Step, InStep, Moves;
    if ops == [] {
      StartsInStep(id);
    } else {
      var before, op := ops[..|ops| - 1], ops[|ops| - 1];
      HostReceivesInOrder(before, id);
      var s, s' := Run(before), Run(ops);
      EveryFrameAccountedFor(ops);
      StepAttaches(s, op);
      StepMoves(s, op);
      Advance(s.link, s'.link, op, Arrived(before), id, Cancelled(before, id));
    }
  }

  lemma StartsInStep(id: string)
    ensures InStep(FRESH.link, [], id, 0)
  {
  }

  lemma Advance(link: Link, link': Link, op: Op, arrived: seq<Request>, id: string, cancelled: nat)
    requires InStep(link, arrived, id, cancelled) && Moves(link, link', op)
    ensures var more := if && op.Receive? && op.event == PermissionResolved(id) && link.subscription.None?
                           && |Only(arrived, id)| > cancelled then 1 else 0;
            InStep(link', arrived + RequestsOf(op), id, cancelled + more)
  {
    hide InStep;
    if op.Receive? && op.event.PermissionRequest? {
      RequestInStep(link, arrived, id, cancelled, op.event.request);
    } else if op.Receive? && op.event.PermissionResolved? {
      ResolvedInStep(link, arrived, id, cancelled, op.event.toolCallId);
      assert arrived + RequestsOf(op) == arrived;
    } else {
      OtherInStep(link, link', op, arrived, id, cancelled);
      assert arrived + RequestsOf(op) == arrived;
    }
  }
}
