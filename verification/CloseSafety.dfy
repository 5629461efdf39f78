/** What holds after every interleaving of close and quit flows and front-end answers. */
module CloseSafety {
  import opened Basics
  import opened CloseFlow

  /* ----- One flow moves ----- */

  lemma FlowMoved(s: System, i: nat, f: Flow)
    requires FlowsOk(s) && i < |s.flows| && FlowOk(f, i, s.requests)
    ensures FlowsOk(s.(flows := s.flows[i := f]))
  {
    hide FlowOk;
  }

  lemma GateUnmoved(s: System, i: nat, f: Flow)
    requires Gated(s) && i < |s.flows| && Confirming(f) == Confirming(s.flows[i])
    ensures Gated(s.(flows := s.flows[i := f]))
  {
    var flows := s.flows[i := f];
    hide Confirming;
    assert forall j :: 0 <= j < |s.flows| ==> Confirming(flows[j]) == Confirming(s.flows[j]);
  }

  lemma LinearUnmoved(s: System, i: nat, f: Flow, open: bool)
    requires Linear(s) && i < |s.flows| && !f.pc.Placing?
    ensures Linear(s.(shared := s.shared.(open := open), flows := s.flows[i := f]))
  {
    var s' := s.(shared := s.shared.(open := open), flows := s.flows[i := f]);
    forall j | 0 <= j < |s'.flows| && s'.flows[j].pc.Placing? ensures Unplaced(s', s'.flows[j].pc.channel) {
      assert Unplaced(s, s.flows[j].pc.channel);
    }
  }

  lemma FlowOpened(s: System, f: Flow)
    requires Inv(s) && f.pc.Flushing? && PurposeOk(f, f.pc.purpose) && f.latest.None? && f.result.None?
    ensures Inv(s.(flows := s.flows + [f]))
  {
    hide PurposeOk, Answered, Confirming;
    var flows := s.flows + [f];
    assert FlowOk(f, |s.flows|, s.requests);
    assert forall i :: 0 <= i < |s.flows| ==> flows[i] == s.flows[i];
    assert !Confirming(f) by { Quiet(f); }
    assert forall i :: 0 <= i < |s.flows| && s.flows[i].pc.Placing? ==> Unplaced(s, s.flows[i].pc.channel);
    hide Unplaced;
  }

  lemma Quiet(f: Flow)
    requires !f.pc.Composing? && !f.pc.Showing?
    ensures !Confirming(f)
  {
  }

  /* ----- The flush ----- */

  lemma Grown(f: Flow, j: nat, requests: seq<Request>, r: Request)
    requires FlowOk(f, j, requests) && r.owner != j
    ensures FlowOk(f, j, requests + [r])
  {
  }

  lemma MintFlows(s: System, i: nat)
    requires FlowsOk(s) && Numbered(s.requests, s.shared.nextNonce) && i < |s.flows| && s.flows[i].pc.Flushing?
    ensures FlowsOk(MintFor(s, i))
  {
    var s' := MintFor(s, i);
    var r := Request(i, s.shared.nextNonce, None);
    assert FlowOk(s'.flows[i], i, s'.requests);
    forall j | 0 <= j < |s.flows| && j != i
      ensures FlowOk(s'.flows[j], j, s'.requests)
    {
      Grown(s.flows[j], j, s.requests, r);
    }
  }

  lemma MintLinear(s: System, i: nat)
    requires Linear(s) && i < |s.flows| && s.flows[i].pc.Flushing?
    ensures Linear(MintFor(s, i))
  {
    var s' := MintFor(s, i);
    forall j | 0 <= j < |s'.flows| && s'.flows[j].pc.Placing? ensures Unplaced(s', s'.flows[j].pc.channel) {
      if j != i { assert Unplaced(s, s.flows[j].pc.channel); }
    }
  }

  lemma MintKeeps(s: System, i: nat)
    requires Inv(s) && i < |s.flows| && s.flows[i].pc.Flushing?
    ensures Inv(MintFor(s, i))
  {
    MintFlows(s, i);
    MintLinear(s, i);
    hide FlowsOk, Linear;
    GateUnmoved(s, i, MintFor(s, i).flows[i]);
  }

  lemma PlaceLinear(s: System, i: nat)
    requires Linear(s) && FlowsOk(s) && i < |s.flows| && s.flows[i].pc.Placing?
    ensures Linear(PlaceFor(s, i))
  {
    var s' := PlaceFor(s, i);
    assert Unplaced(s, s.flows[i].pc.channel);
    forall j | 0 <= j < |s'.flows| && s'.flows[j].pc.Placing? ensures Unplaced(s', s'.flows[j].pc.channel) {
      assert Unplaced(s, s.flows[j].pc.channel);
      assert FlowOk(s.flows[i], i, s.requests) && FlowOk(s.flows[j], j, s.requests);
    }
  }

  lemma PlaceKeeps(s: System, i: nat)
    requires Inv(s) && i < |s.flows| && s.flows[i].pc.Placing?
    ensures Inv(PlaceFor(s, i))
  {
    var f := PlaceFor(s, i).flows[i];
    assert FlowOk(s.flows[i], i, s.requests);
    PlaceLinear(s, i);
    FlowMoved(s, i, f);
    GateUnmoved(s, i, f);
  }

  lemma ReceiveKeeps(s: System, i: nat, answered: bool)
    requires Inv(s) && i < |s.flows| && s.flows[i].pc.Awaiting?
    ensures Inv(ReceiveFor(s, i, answered))
  {
    var f := ReceiveFor(s, i, answered).flows[i];
    assert FlowOk(s.flows[i], i, s.requests);
    FlowMoved(s, i, f);
    GateUnmoved(s, i, f);
    LinearUnmoved(s, i, f, s.shared.open);
  }

  lemma AfterFlushOk(f: Flow, i: nat, requests: seq<Request>)
    requires FlowOk(f, i, requests) && f.pc.Cleaning?
    ensures FlowOk(f.(pc := AfterFlush(f.pc.purpose, f.pc.unsaved)), i, requests)
  {
  }

  lemma CleanLinear(s: System, i: nat)
    requires Linear(s) && i < |s.flows| && s.flows[i].pc.Cleaning?
    ensures Linear(CleanFor(s, i))
  {
    var s' := CleanFor(s, i);
    forall j | 0 <= j < |s'.flows| && s'.flows[j].pc.Placing? ensures Unplaced(s', s'.flows[j].pc.channel) {
      assert Unplaced(s, s.flows[j].pc.channel);
    }
  }

  lemma CleanKeeps(s: System, i: nat)
    requires Inv(s) && i < |s.flows| && s.flows[i].pc.Cleaning?
    ensures Inv(CleanFor(s, i))
  {
    var f := CleanFor(s, i).flows[i];
    hide PointOk, Latest;
    assert FlowOk(s.flows[i], i, s.requests);
    AfterFlushOk(s.flows[i], i, s.requests);
    CleanLinear(s, i);
    FlowMoved(s, i, f);
    GateUnmoved(s, i, f);
  }

  /* ----- The question ----- */

  lemma GateTaken(s: System, i: nat, f: Flow)
    requires Gated(s) && !s.shared.open && i < |s.flows| && Confirming(f)
    ensures Gated(s.(shared := s.shared.(open := true), flows := s.flows[i := f]))
  {
    var flows := s.flows[i := f];
    assert Confirming(flows[i]);
  }

  lemma GateReturned(s: System, i: nat, f: Flow)
    requires Gated(s) && i < |s.flows| && Confirming(s.flows[i]) && !Confirming(f)
    ensures Gated(s.(shared := s.shared.(open := false), flows := s.flows[i := f]))
  {
  }

  lemma TryGateKeeps(s: System, i: nat)
    requires Inv(s) && i < |s.flows| && s.flows[i].pc.Asking?
    ensures Inv(TryGateFor(s, i))
  {
    var f := TryGateFor(s, i).flows[i];
    assert FlowOk(s.flows[i], i, s.requests);
    FlowMoved(s, i, f);
    LinearUnmoved(s, i, f, true);
    hide FlowsOk, Gated, Linear;
    if s.shared.open { GateUnmoved(s, i, f); } else { GateTaken(s, i, f); }
  }

  lemma ShowKeeps(s: System, i: nat, facts: Facts)
    requires Inv(s) && i < |s.flows| && s.flows[i].pc.Composing?
    ensures Inv(ShowFor(s, i, facts))
  {
    var f := ShowFor(s, i, facts).flows[i];
    assert FlowOk(s.flows[i], i, s.requests);
    FlowMoved(s, i, f);
    GateUnmoved(s, i, f);
    LinearUnmoved(s, i, f, s.shared.open);
  }

  lemma AnsweredOk(f: Flow, i: nat, requests: seq<Request>, result: DialogResult)
    requires FlowOk(f, i, requests) && f.pc.Showing?
    ensures AnswerOf(result).AnswerHide? ==> FlowOk(f.(pc := Hidden, result := Some(result)), i, requests)
    ensures AnswerOf(result).AnswerQuit? ==> FlowOk(f.(pc := Rereading(f.pc.flavor, f.pc.shown), result := Some(result)), i, requests)
    ensures AnswerOf(result).AnswerCancel? ==> FlowOk(f.(pc := Ended, result := Some(result)), i, requests)
  {
    assert QUIT_BUTTON != TRAY_BUTTON;
  }

  lemma AnswerKeeps(s: System, i: nat, result: DialogResult)
    requires Inv(s) && i < |s.flows| && s.flows[i].pc.Showing?
    ensures Inv(AnswerFor(s, i, result))
  {
    hide FlowOk;
    var f := AnswerFor(s, i, result).flows[i];
    assert FlowOk(s.flows[i], i, s.requests);
    AnsweredOk(s.flows[i], i, s.requests, result);
    FlowMoved(s, i, f);
    GateReturned(s, i, f);
    LinearUnmoved(s, i, f, false);
  }

  lemma RereadKeeps(s: System, i: nat, facts: Facts)
    requires Inv(s) && i < |s.flows| && s.flows[i].pc.Rereading?
    ensures Inv(RereadFor(s, i, facts))
  {
    var f := RereadFor(s, i, facts).flows[i];
    assert FlowOk(s.flows[i], i, s.requests);
    FlowMoved(s, i, f);
    GateUnmoved(s, i, f);
    LinearUnmoved(s, i, f, s.shared.open);
  }

  /* ----- The front end ----- */

  lemma TakeLinear(s: System, nonce: nat, unsaved: seq<string>)
    requires Linear(s)
    ensures Linear(TakeFor(s, nonce, unsaved))
  {
    var s' := TakeFor(s, nonce, unsaved);
    forall i | 0 <= i < |s.flows| && s.flows[i].pc.Placing? ensures Unplaced(s', s.flows[i].pc.channel) {
      assert Unplaced(s, s.flows[i].pc.channel);
    }
  }

  lemma TakeKeeps(s: System, nonce: nat, unsaved: seq<string>)
    requires Inv(s)
    ensures Inv(TakeFor(s, nonce, unsaved))
  {
    TakeLinear(s, nonce, unsaved);
    hide FlowOk, Linear;
    assert forall m :: m in s.sending ==> Answered(s.requests, m.channel, m.unsaved, TakeFor(s, nonce, unsaved).answers);
  }

  lemma SameRequests(f: Flow, i: nat, requests: seq<Request>, channel: nat, unsaved: seq<string>)
    requires FlowOk(f, i, requests) && channel < |requests| && requests[channel].inbox.None?
    ensures FlowOk(f, i, requests[channel := requests[channel].(inbox := Some(unsaved))])
  {
  }

  lemma DeliverLinear(s: System, k: nat)
    requires Linear(s) && k < |s.sending|
    ensures Linear(DeliverFor(s, k))
  {
    var m, s' := s.sending[k], DeliverFor(s, k);
    assert m in s.sending;
    forall i | 0 <= i < |s.flows| && s.flows[i].pc.Placing? ensures Unplaced(s', s.flows[i].pc.channel) {
      assert Unplaced(s, s.flows[i].pc.channel);
    }
    assert forall l :: 0 <= l < |s'.sending| ==> s'.sending[l] == s.sending[if l < k then l else l + 1];
  }

  lemma DeliverKeeps(s: System, k: nat)
    requires Inv(s) && k < |s.sending|
    ensures Inv(DeliverFor(s, k))
  {
    hide FlowOk, Linear, Routed, Gated;
    var m, s' := s.sending[k], DeliverFor(s, k);
    DeliverLinear(s, k);
    DeliverRouted(s, k);
    DeliverGated(s, k);
    forall i | 0 <= i < |s.flows| ensures FlowOk(s'.flows[i], i, s'.requests) {
      SameRequests(s.flows[i], i, s.requests, m.channel, m.unsaved);
    }
  }

  lemma DeliverRouted(s: System, k: nat)
    requires Linear(s) && Routed(s) && k < |s.sending|
    ensures Routed(DeliverFor(s, k))
    ensures s.sending[k].channel < |s.requests| && s.requests[s.sending[k].channel].inbox.None?
  {
    var m, s' := s.sending[k], DeliverFor(s, k);
    assert m in s.sending;
    assert forall x :: x in s'.sending ==> x in s.sending;
  }

  lemma DeliverGated(s: System, k: nat)
    requires Gated(s) && k < |s.sending|
    ensures Gated(DeliverFor(s, k))
  {
  }

  lemma StepKeeps(s: System, op: Op)
    requires Inv(s)
    ensures Inv(Step(s, op))
  {
    hide Inv, MintFor, PlaceFor, ReceiveFor, CleanFor, TryGateFor, ShowFor, AnswerFor, RereadFor, TakeFor, DeliverFor;
    match op
    case OpenClose(choice) => FlowOpened(s, Flow(FromWindow(choice), Flushing(ToClose(choice)), None, None, None, None));
    case OpenQuit => FlowOpened(s, Flow(FromQuit, Flushing(ToAsk(QuitOnly)), None, None, None, None));
    case Mint(i) => if i < |s.flows| && s.flows[i].pc.Flushing? { MintKeeps(s, i); }
    case Place(i) => if i < |s.flows| && s.flows[i].pc.Placing? { PlaceKeeps(s, i); }
    case Receive(i) => if i < |s.flows| && s.flows[i].pc.Awaiting? { ReceiveKeeps(s, i, true); }
    case GiveUp(i) => if i < |s.flows| && s.flows[i].pc.Awaiting? { ReceiveKeeps(s, i, false); }
    case Clean(i) => if i < |s.flows| && s.flows[i].pc.Cleaning? { CleanKeeps(s, i); }
    case TryGate(i) => if i < |s.flows| && s.flows[i].pc.Asking? { TryGateKeeps(s, i); }
    case Show(i, facts) => if i < |s.flows| && s.flows[i].pc.Composing? { ShowKeeps(s, i, facts); }
    case AnswerDialog(i, result) => if i < |s.flows| && s.flows[i].pc.Showing? { AnswerKeeps(s, i, result); }
    case Reread(i, facts) => if i < |s.flows| && s.flows[i].pc.Rereading? { RereadKeeps(s, i, facts); }
    case Flushed(nonce, unsaved) => TakeKeeps(s, nonce, unsaved);
    case Deliver(k) => if k < |s.sending| { DeliverKeeps(s, k); }
  }

  lemma {:induction false} RunKeeps(ops: seq<Op>)
    ensures Inv(Run(ops))
  {
    if ops != [] {
      hide Inv, Step;
      RunKeeps(ops[..|ops| - 1]);
      StepKeeps(Run(ops[..|ops| - 1]), ops[|ops| - 1]);
    }
  }

  /* ----- The safety theorems ----- */

  lemma {:induction false} AnswersWereGiven(ops: seq<Op>, a: Answer)
    requires a in Run(ops).answers
    ensures Flushed(a.nonce, a.unsaved) in ops
  {
    if ops != [] {
      var before, op := ops[..|ops| - 1], ops[|ops| - 1];
      if op != Flushed(a.nonce, a.unsaved) {
        AnswersUnchanged(Run(before), op, a);
        AnswersWereGiven(before, a);
      }
    }
  }

  lemma AnswersUnchanged(s: System, op: Op, a: Answer)
    requires a in Step(s, op).answers && op != Flushed(a.nonce, a.unsaved)
    ensures a in s.answers
  {
  }

  /** At most one confirmation is open, and the gate is shut exactly then. */
  lemma OneConfirmation(ops: seq<Op>)
    ensures var s := Run(ops);
            && (s.shared.open <==> exists i :: 0 <= i < |s.flows| && Confirming(s.flows[i]))
            && (forall i, j :: 0 <= i < |s.flows| && 0 <= j < |s.flows| && Confirming(s.flows[i]) && Confirming(s.flows[j]) ==> i == j)
  {
    RunKeeps(ops);
  }

  /** What a flow's flush reports is the unknown, or what the front end answered to the
      nonce of that flow's own last request; no other request carries that nonce. */
  lemma FlushReportsOwnAnswer(ops: seq<Op>, i: nat)
    requires i < |Run(ops).flows| && Run(ops).flows[i].pc.Cleaning?
    ensures var s := Run(ops);
            var f := s.flows[i];
            && f.latest.Some? && f.latest.value < |s.requests| && s.requests[f.latest.value].owner == i
            && (f.pc.unsaved == SAVE_STATUS_UNKNOWN || Flushed(s.requests[f.latest.value].nonce, f.pc.unsaved) in ops)
            && (forall k :: 0 <= k < |s.requests| && s.requests[k].nonce == s.requests[f.latest.value].nonce ==> k == f.latest.value)
  {
    RunKeeps(ops);
    var s := Run(ops);
    assert FlowOk(s.flows[i], i, s.requests);
    if s.flows[i].pc.unsaved != SAVE_STATUS_UNKNOWN {
      AnswersWereGiven(ops, Answer(s.requests[s.flows[i].latest.value].nonce, s.flows[i].pc.unsaved));
    }
  }

  /** The app exits only after the deciding flow's own last flush was answered with
      nothing unsaved, and either the stored choice was to quit and no question was shown,
      or the last question was answered with quitting and the facts read after that answer
      equal those it showed. */
  lemma ExitIsEarned(ops: seq<Op>, i: nat)
    requires i < |Run(ops).flows| && Run(ops).flows[i].pc.Exited?
    ensures var s := Run(ops);
            var f := s.flows[i];
            && f.latest.Some? && f.latest.value < |s.requests| && s.requests[f.latest.value].owner == i
            && (forall k :: f.latest.value < k < |s.requests| ==> s.requests[k].owner != i)
            && s.requests[f.latest.value].inbox == Some([])
            && Flushed(s.requests[f.latest.value].nonce, []) in ops
            && (if f.asked.Some? then SaysQuit(f) && f.reread == f.asked else f.origin == FromWindow(QuitChoice))
  {
    RunKeeps(ops);
    var s := Run(ops);
    assert FlowOk(s.flows[i], i, s.requests);
    AnswersWereGiven(ops, Answer(s.requests[s.flows[i].latest.value].nonce, []));
  }

  /** A flow ends with the window hidden exactly when its last dialog reported Yes or the
      tray's label, except that a window close stored as going to the tray needs no dialog. */
  lemma HidingIsChosen(ops: seq<Op>, i: nat)
    requires i < |Run(ops).flows|
    ensures var f := Run(ops).flows[i];
            && (f.origin != FromWindow(TrayChoice) ==> (f.pc.Hidden? <==> SaysHide(f)))
            && (f.origin == FromWindow(TrayChoice) ==> (f.pc.Hidden? ==> f.asked.None? || SaysHide(f)) && (SaysHide(f) ==> f.pc.Hidden?))
  {
    RunKeeps(ops);
    assert FlowOk(Run(ops).flows[i], i, Run(ops).requests);
  }

  /** What a dialog with the flavor's buttons is expected to report. */
  predicate Offered(flavor: Flavor, result: DialogResult) {
    match flavor
    case WindowClose => !result.Ok?
    case QuitOnly => result in {Custom(QUIT_BUTTON), Custom(CANCEL_BUTTON), Ok, Cancel}
  }

  /** The platform reports only buttons the dialog has. */
  ghost predicate ReportsButtons(ops: seq<Op>) {
    forall k :: 0 <= k < |ops| ==> ReportsButton(Run(ops[..k]), ops[k])
  }

  predicate ReportsButton(s: System, op: Op) {
    op.AnswerDialog? && op.flow < |s.flows| && s.flows[op.flow].pc.Showing? ==> Offered(s.flows[op.flow].pc.flavor, op.result)
  }

  ghost predicate NoQuitHides(s: System) {
    forall i :: 0 <= i < |s.flows| && s.flows[i].origin.FromQuit? ==> !SaysHide(s.flows[i])
  }

  lemma StepNoQuitHides(s: System, op: Op)
    requires Inv(s) && NoQuitHides(s) && ReportsButton(s, op)
    ensures NoQuitHides(Step(s, op))
  {
    assert QUIT_BUTTON != TRAY_BUTTON && CANCEL_BUTTON != TRAY_BUTTON;
    hide Routed, Linear, Gated, Numbered, Latest;
    if op.AnswerDialog? && op.flow < |s.flows| {
      assert FlowOk(s.flows[op.flow], op.flow, s.requests);
    }
  }

  lemma {:induction false} RunNoQuitHides(ops: seq<Op>)
    requires ReportsButtons(ops)
    ensures NoQuitHides(Run(ops))
  {
    if ops != [] {
      hide Inv, Step, ReportsButton, NoQuitHides;
      var before := ops[..|ops| - 1];
      assert forall k :: 0 <= k < |before| ==> ops[..k] == before[..k];
      RunNoQuitHides(before);
      RunKeeps(before);
      StepNoQuitHides(Run(before), ops[|ops| - 1]);
    }
  }

  /** Where a dialog reports only its own buttons, a Quit command never resolves to hiding. */
  lemma QuitNeverHides(ops: seq<Op>, i: nat)
    requires ReportsButtons(ops) && i < |Run(ops).flows| && Run(ops).flows[i].origin.FromQuit?
    ensures !Run(ops).flows[i].pc.Hidden?
  {
    RunNoQuitHides(ops);
    HidingIsChosen(ops, i);
  }

  lemma RunOf(ops: seq<Op>, op: Op)
    ensures Run(ops + [op]) == Step(Run(ops), op)
  {
    assert (ops + [op])[..|ops|] == ops;
  }

  /** A quit whose flush nobody answers, up to the gate. */
  const UNANSWERED := [OpenQuit, Mint(0), Place(0), GiveUp(0), Clean(0)]

  lemma Unanswered()
    ensures var s := Run(UNANSWERED); |s.flows| == 1 && s.flows[0].pc.Asking? && s.flows[0].origin.FromQuit? && !s.shared.open
  {
    var ops := UNANSWERED;
    RunOf([], ops[0]);
    RunOf(ops[..1], ops[1]);
    RunOf(ops[..2], ops[2]);
    RunOf(ops[..3], ops[3]);
    RunOf(ops[..4], ops[4]);
    assert ops[..1] == [] + [ops[0]] && ops[..2] == ops[..1] + [ops[1]] && ops[..3] == ops[..2] + [ops[2]];
    assert ops[..4] == ops[..3] + [ops[3]] && ops == ops[..4] + [ops[4]];
  }

  /** A platform that reports a plain Yes hides the window on the quit question. */
  lemma QuitCanHide(facts: Facts)
    ensures var s := Run(UNANSWERED + [TryGate(0)] + [Show(0, facts)] + [AnswerDialog(0, Yes)]);
            |s.flows| == 1 && s.flows[0].origin.FromQuit? && s.flows[0].pc.Hidden?
  {
    hide UNANSWERED;
    Unanswered();
    RunOf(UNANSWERED, TryGate(0));
    RunOf(UNANSWERED + [TryGate(0)], Show(0, facts));
    RunOf(UNANSWERED + [TryGate(0)] + [Show(0, facts)], AnswerDialog(0, Yes));
  }

  /** A request leaves the slot only by an answer with its own nonce, by the end of its own
      flow's wait, or because another request is placed there. */
  lemma SlotSurvives(ops: seq<Op>, op: Op, p: Pending)
    requires Run(ops).shared.slot == Some(p) && Step(Run(ops), op).shared.slot != Some(p)
    ensures p.channel < |Run(ops).requests|
    ensures || (op.Flushed? && op.nonce == p.nonce)
            || (op.Clean? && op.flow == Run(ops).requests[p.channel].owner)
            || (op.Place? && Step(Run(ops), op).shared.slot.Some? && Step(Run(ops), op).shared.slot.value.nonce != p.nonce)
  {
    RunKeeps(ops);
    var s := Run(ops);
    if op.Clean? || op.Place? {
      assert FlowOk(s.flows[op.flow], op.flow, s.requests);
    }
    if op.Place? { assert Unplaced(s, s.flows[op.flow].pc.channel); }
  }

  /* ----- A displaced request ----- */

  /** No sender of the channel is left that could still be answered. */
  ghost predicate Displaced(s: System, channel: nat) {
    Unplaced(s, channel) && forall i :: 0 <= i < |s.flows| && s.flows[i].pc.Placing? ==> s.flows[i].pc.channel != channel
  }

  lemma StepDisplaced(s: System, op: Op, channel: nat)
    requires Displaced(s, channel)
    ensures Displaced(Step(s, op), channel)
  {
    if op.Deliver? && op.sending < |s.sending| {
      assert s.sending[op.sending] in s.sending;
    }
  }

  lemma {:induction false} DisplacedStays(ops: seq<Op>, more: seq<Op>, channel: nat)
    requires Displaced(Run(ops), channel)
    ensures Displaced(Run(ops + more), channel)
    decreases |more|
  {
    if more == [] {
      assert ops + more == ops;
    } else {
      hide Displaced, Step;
      var all := ops + more;
      assert all[..|all| - 1] == ops + more[..|more| - 1];
      DisplacedStays(ops, more[..|more| - 1], channel);
      StepDisplaced(Run(all[..|all| - 1]), all[|all| - 1], channel);
    }
  }

  /** The gate does not keep flushes apart: once another flow takes the slot, whatever
      happens next the displaced flow can only report the unknown. */
  lemma DisplacedReportsUnknown(ops: seq<Op>, more: seq<Op>, i: nat, j: nat)
    requires var s := Run(ops);
             i < |s.flows| && j < |s.flows| && s.flows[i].pc.Awaiting? && s.flows[j].pc.Placing?
             && s.shared.slot == Some(Pending(s.flows[i].pc.nonce, s.flows[i].pc.channel))
    ensures var s' := Run(ops + [Place(j)] + more);
            i < |s'.flows| && s'.flows[i].pc.Cleaning? && s'.flows[i].latest == Some(Run(ops).flows[i].pc.channel) ==>
              s'.flows[i].pc.unsaved == SAVE_STATUS_UNKNOWN
  {
    var s, channel := Run(ops), Run(ops).flows[i].pc.channel;
    RunKeeps(ops);
    assert FlowOk(s.flows[i], i, s.requests) && FlowOk(s.flows[j], j, s.requests);
    assert (ops + [Place(j)])[..|ops|] == ops;
    PlacedDisplaces(s, i, j);
    DisplacedStays(ops + [Place(j)], more, channel);
    var all := ops + [Place(j)] + more;
    RunKeeps(all);
    if i < |Run(all).flows| { assert FlowOk(Run(all).flows[i], i, Run(all).requests); }
  }

  /** A run in which a second flow is about to take the slot from the first one's request. */
  const OVERLAP := [OpenQuit, OpenQuit, Mint(0), Place(0), Mint(1)]

  lemma FlushesOverlap()
    ensures var s := Run(OVERLAP);
            |s.flows| == 2 && s.flows[0].pc.Awaiting? && s.flows[1].pc.Placing?
            && s.shared.slot == Some(Pending(s.flows[0].pc.nonce, s.flows[0].pc.channel))
  {
    var ops := OVERLAP;
    assert ops[..0] == [];
    RunOf([], ops[0]);
    assert ops[..1] == [] + [ops[0]];
    RunOf(ops[..1], ops[1]);
    assert ops[..2] == ops[..1] + [ops[1]];
    RunOf(ops[..2], ops[2]);
    assert ops[..3] == ops[..2] + [ops[2]];
    RunOf(ops[..3], ops[3]);
    assert ops[..4] == ops[..3] + [ops[3]];
    RunOf(ops[..4], ops[4]);
    assert ops == ops[..4] + [ops[4]];
  }

  /** The flow's wait has ended with the front end's answer to its request. */
  predicate ReportsAnswer(s: System, i: nat, channel: nat) {
    i < |s.flows| && s.flows[i].pc.Cleaning? && s.flows[i].latest == Some(channel)
    && Delivered(s.requests, channel, s.flows[i].pc.unsaved)
  }

  /** How a request that is not displaced is still answered. */
  function Answering(s: System, channel: nat, i: nat): seq<Op> {
    if channel < |s.requests| && s.requests[channel].inbox.Some? then [Receive(i)]
    else if s.shared.slot.Some? && s.shared.slot.value.channel == channel then
      [Flushed(s.shared.slot.value.nonce, []), Deliver(|s.sending|), Receive(i)]
    else
      [Deliver(PlaceOf(s.sending, channel)), Receive(i)]
  }

  /** The first answer on its way to the channel. */
  function PlaceOf(sending: seq<Sending>, channel: nat): (k: nat)
    ensures (exists m :: m in sending && m.channel == channel) ==> k < |sending| && sending[k].channel == channel
  {
    if sending == [] || sending[0].channel == channel then 0 else 1 + PlaceOf(sending[1..], channel)
  }

  lemma ReceivesAnswer(s: System, i: nat)
    requires Inv(s) && i < |s.flows| && s.flows[i].pc.Awaiting?
    requires var channel := s.flows[i].pc.channel; channel < |s.requests| && s.requests[channel].inbox.Some?
    ensures ReportsAnswer(Step(s, Receive(i)), i, s.flows[i].pc.channel)
  {
    assert FlowOk(s.flows[i], i, s.requests);
  }

  lemma DeliveryArrives(s: System, k: nat)
    requires Inv(s) && k < |s.sending|
    ensures var s', channel := Step(s, Deliver(k)), s.sending[k].channel;
            s'.flows == s.flows && channel < |s'.requests| && s'.requests[channel].inbox.Some?
  {
  }

  lemma AnswerTaken(s: System, unsaved: seq<string>)
    requires s.shared.slot.Some?
    ensures var s' := Step(s, Flushed(s.shared.slot.value.nonce, unsaved));
            s'.flows == s.flows && |s'.sending| == |s.sending| + 1 && s'.sending[|s.sending|].channel == s.shared.slot.value.channel
  {
  }

  lemma AnswerArrives(ops: seq<Op>, i: nat)
    requires i < |Run(ops).flows| && Run(ops).flows[i].pc.Awaiting? && !Displaced(Run(ops), Run(ops).flows[i].pc.channel)
    ensures var channel := Run(ops).flows[i].pc.channel;
            ReportsAnswer(Run(ops + Answering(Run(ops), channel, i)), i, channel)
  {
    var s := Run(ops);
    var channel := s.flows[i].pc.channel;
    var more := Answering(s, channel, i);
    RunKeeps(ops);
    assert FlowOk(s.flows[i], i, s.requests);
    hide Step, Inv, Displaced, ReportsAnswer, FlowOk;
    if s.requests[channel].inbox.Some? {
      RunOf(ops, Receive(i));
      ReceivesAnswer(s, i);
    } else if s.shared.slot.Some? && s.shared.slot.value.channel == channel {
      TakenThenDelivered(ops, i);
    } else {
      SenderLeft(s, i);
      DeliveredThenReceived(ops, PlaceOf(s.sending, channel), i);
      assert more == [Deliver(PlaceOf(s.sending, channel)), Receive(i)];
    }
  }

  lemma SenderLeft(s: System, i: nat)
    requires Inv(s) && i < |s.flows| && s.flows[i].pc.Awaiting? && !Displaced(s, s.flows[i].pc.channel)
    requires var channel := s.flows[i].pc.channel;
             && channel < |s.requests| && s.requests[channel].inbox.None?
             && (s.shared.slot.Some? ==> s.shared.slot.value.channel != channel)
    ensures exists m :: m in s.sending && m.channel == s.flows[i].pc.channel
  {
    assert FlowOk(s.flows[i], i, s.requests);
    forall k | 0 <= k < |s.flows| && s.flows[k].pc.Placing? ensures s.flows[k].pc.channel != s.flows[i].pc.channel {
      assert FlowOk(s.flows[k], k, s.requests) && k != i;
    }
  }

  lemma DeliveredThenReceived(ops: seq<Op>, k: nat, i: nat)
    requires var s := Run(ops); i < |s.flows| && s.flows[i].pc.Awaiting? && k < |s.sending| && s.sending[k].channel == s.flows[i].pc.channel
    ensures ReportsAnswer(Run(ops + [Deliver(k), Receive(i)]), i, Run(ops).flows[i].pc.channel)
  {
    RunKeeps(ops);
    RunKeeps(ops + [Deliver(k)]);
    hide Step, Inv, ReportsAnswer;
    RunOf(ops, Deliver(k));
    RunOf(ops + [Deliver(k)], Receive(i));
    assert ops + [Deliver(k), Receive(i)] == ops + [Deliver(k)] + [Receive(i)];
    DeliveryArrives(Run(ops), k);
    ReceivesAnswer(Run(ops + [Deliver(k)]), i);
  }

  lemma TakenThenDelivered(ops: seq<Op>, i: nat)
    requires var s := Run(ops);
             i < |s.flows| && s.flows[i].pc.Awaiting? && s.shared.slot.Some? && s.shared.slot.value.channel == s.flows[i].pc.channel
    ensures var s := Run(ops);
            var more := [Flushed(s.shared.slot.value.nonce, []), Deliver(|s.sending|), Receive(i)];
            ReportsAnswer(Run(ops + more), i, s.flows[i].pc.channel)
  {
    var s := Run(ops);
    var k, taken := |s.sending|, Flushed(s.shared.slot.value.nonce, []);
    hide Step, ReportsAnswer;
    RunOf(ops, taken);
    AnswerTaken(s, []);
    DeliveredThenReceived(ops + [taken], k, i);
    assert ops + [taken, Deliver(k), Receive(i)] == ops + [taken] + [Deliver(k), Receive(i)];
  }

  /** After every run, a waiting flow may yet report an answer exactly while its request is not
      displaced: it is in the slot, answered, or its answer is on the way. */
  lemma AnswerCanArrive(ops: seq<Op>, i: nat)
    requires i < |Run(ops).flows| && Run(ops).flows[i].pc.Awaiting?
    ensures var channel := Run(ops).flows[i].pc.channel;
            (exists more :: ReportsAnswer(Run(ops + more), i, channel)) <==> !Displaced(Run(ops), channel)
  {
    var channel := Run(ops).flows[i].pc.channel;
    if Displaced(Run(ops), channel) {
      forall more ensures !ReportsAnswer(Run(ops + more), i, channel) {
        DisplacedStays(ops, more, channel);
      }
    } else {
      AnswerArrives(ops, i);
    }
  }

  lemma PlacedDisplaces(s: System, i: nat, j: nat)
    requires Inv(s) && i < |s.flows| && j < |s.flows| && s.flows[i].pc.Awaiting? && s.flows[j].pc.Placing?
    requires s.shared.slot == Some(Pending(s.flows[i].pc.nonce, s.flows[i].pc.channel))
    ensures Displaced(Step(s, Place(j)), s.flows[i].pc.channel)
  {
    assert Unplaced(s, s.flows[j].pc.channel);
    forall k | 0 <= k < |s.flows| && s.flows[k].pc.Placing? ensures s.flows[k].pc.channel != s.flows[i].pc.channel {
      assert Unplaced(s, s.flows[k].pc.channel);
    }
  }
}
