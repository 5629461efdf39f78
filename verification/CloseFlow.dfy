/**
 Closing and quitting the app. Flows run concurrently and share one flush slot, one nonce
 counter and one confirmation gate; each is a list of program points with a step between
 any two accesses to what they share.
 */
module CloseFlow {
  import opened Basics

  /* ----- Decisions ----- */

  datatype Choice = AskChoice | TrayChoice | QuitChoice

  datatype Flavor = WindowClose | QuitOnly

  datatype Plan = Ask(flavor: Flavor) | Hide | Quit

  datatype Facts = FactsRead(agents: nat, terminals: nat, otherLocalWindows: nat) | FactsUnknown

  datatype DialogResult = Custom(button: string) | Yes | No | Ok | Cancel

  datatype DialogAnswer = AnswerHide | AnswerQuit | AnswerCancel

  const TRAY_BUTTON := "Keep running in the tray"
  const QUIT_BUTTON := "Quit"
  const CANCEL_BUTTON := "Cancel"

  /** What a flush that nobody answered reports. */
  const SAVE_STATUS_UNKNOWN := ["unsaved changes (save status unknown)"]

  function DecideClose(choice: Choice): Plan {
    match choice
    case AskChoice => Ask(WindowClose)
    case TrayChoice => Hide
    case QuitChoice => Quit
  }

  function AnswerOf(result: DialogResult): DialogAnswer {
    match result
    case Custom(button) => if button == TRAY_BUTTON then AnswerHide else if button == QUIT_BUTTON then AnswerQuit else AnswerCancel
    case Cancel => AnswerCancel
    case Yes => AnswerHide
    case No => AnswerQuit
    case Ok => AnswerQuit
  }

  /* ----- The shared state ----- */

  /** The pending flush: its nonce, and the channel its answer goes to. */
  datatype Pending = Pending(nonce: nat, channel: nat)

  datatype Shared = Shared(slot: Option<Pending>, nextNonce: nat, open: bool)

  predicate Names(slot: Option<Pending>, nonce: nat) {
    slot.Some? && slot.value.nonce == nonce
  }

  function Without(slot: Option<Pending>, nonce: nat): Option<Pending> {
    if Names(slot, nonce) then None else slot
  }

  /* ----- Flows ----- */

  datatype Origin = FromWindow(choice: Choice) | FromQuit

  /** What a flush is for. */
  datatype Purpose = ToClose(choice: Choice) | ToAsk(flavor: Flavor) | ToAct(flavor: Flavor, shown: Facts, now: Facts)

  datatype Point =
    | Flushing(purpose: Purpose)
    | Placing(purpose: Purpose, nonce: nat, channel: nat)
    | Awaiting(purpose: Purpose, nonce: nat, channel: nat)
    | Cleaning(purpose: Purpose, nonce: nat, unsaved: seq<string>)
    | Asking(flavor: Flavor, unsaved: seq<string>)
    | Composing(flavor: Flavor, unsaved: seq<string>)
    | Showing(flavor: Flavor, shown: Facts)
    | Rereading(flavor: Flavor, shown: Facts)
    | Exited(facts: Facts)
    | Hidden
    | Ended

  /** `asked` records the facts of the last dialog the flow showed, `result` how that dialog
      was answered, `reread` the facts read since, `latest` the channel of the flow's last
      flush request. */
  datatype Flow = Flow(origin: Origin, pc: Point, asked: Option<Facts>, result: Option<DialogResult>, reread: Option<Facts>,
                       latest: Option<nat>)

  datatype Request = Request(owner: nat, nonce: nat, inbox: Option<seq<string>>)

  /** An answer whose sender was taken from the slot and that is not yet sent. */
  datatype Sending = Sending(channel: nat, unsaved: seq<string>)

  datatype Answer = Answer(nonce: nat, unsaved: seq<string>)

  /** A channel is the position of its request; `answers` records every answer given. */
  datatype System = System(shared: Shared, requests: seq<Request>, sending: seq<Sending>, answers: set<Answer>, flows: seq<Flow>)

  const FRESH := System(Shared(None, 1, false), [], [], {}, [])

  datatype Op =
    | OpenClose(choice: Choice)
    | OpenQuit
    | Mint(flow: nat)
    | Place(flow: nat)
    | Receive(flow: nat)
    | GiveUp(flow: nat)
    | Clean(flow: nat)
    | TryGate(flow: nat)
    | Show(flow: nat, facts: Facts)
    | AnswerDialog(flow: nat, result: DialogResult)
    | Reread(flow: nat, facts: Facts)
    | Flushed(nonce: nat, unsaved: seq<string>)
    | Deliver(sending: nat)

  /** Where a flow goes with what its flush reported. */
  function AfterFlush(purpose: Purpose, unsaved: seq<string>): Point {
    match purpose
    case ToClose(choice) =>
      (match DecideClose(choice)
       case Hide => Hidden
       case Quit => if unsaved == [] then Exited(FactsUnknown) else Asking(WindowClose, unsaved)
       case Ask(flavor) => Asking(flavor, unsaved))
    case ToAsk(flavor) => Asking(flavor, unsaved)
    case ToAct(flavor, shown, now) =>
      if shown != now then Flushing(ToAsk(flavor))
      else if unsaved == [] then Exited(now)
      else Asking(flavor, unsaved)
  }

  function MintFor(s: System, i: nat): System
    requires i < |s.flows| && s.flows[i].pc.Flushing?
  {
    var nonce, channel := s.shared.nextNonce, |s.requests|;
    var f := s.flows[i];
    s.(shared := s.shared.(nextNonce := nonce + 1), requests := s.requests + [Request(i, nonce, None)],
       flows := s.flows[i := f.(pc := Placing(f.pc.purpose, nonce, channel), latest := Some(channel))])
  }

  function PlaceFor(s: System, i: nat): System
    requires i < |s.flows| && s.flows[i].pc.Placing?
  {
    var pc := s.flows[i].pc;
    s.(shared := s.shared.(slot := Some(Pending(pc.nonce, pc.channel))),
       flows := s.flows[i := s.flows[i].(pc := Awaiting(pc.purpose, pc.nonce, pc.channel))])
  }

  /** A wait ends with the answer in the channel, or without one: timed out, or its sender
      dropped by a request that took the slot. */
  function ReceiveFor(s: System, i: nat, answered: bool): System
    requires i < |s.flows| && s.flows[i].pc.Awaiting?
  {
    var pc := s.flows[i].pc;
    if pc.channel >= |s.requests| || s.requests[pc.channel].inbox.Some? != answered then s
    else
      var unsaved := s.requests[pc.channel].inbox.GetOr(SAVE_STATUS_UNKNOWN);
      s.(flows := s.flows[i := s.flows[i].(pc := Cleaning(pc.purpose, pc.nonce, unsaved))])
  }

  function CleanFor(s: System, i: nat): System
    requires i < |s.flows| && s.flows[i].pc.Cleaning?
  {
    var pc := s.flows[i].pc;
    s.(shared := s.shared.(slot := Without(s.shared.slot, pc.nonce)),
       flows := s.flows[i := s.flows[i].(pc := AfterFlush(pc.purpose, pc.unsaved))])
  }

  function TryGateFor(s: System, i: nat): System
    requires i < |s.flows| && s.flows[i].pc.Asking?
  {
    var pc := s.flows[i].pc;
    if s.shared.open then s.(flows := s.flows[i := s.flows[i].(pc := Ended)])
    else s.(shared := s.shared.(open := true), flows := s.flows[i := s.flows[i].(pc := Composing(pc.flavor, pc.unsaved))])
  }

  function ShowFor(s: System, i: nat, facts: Facts): System
    requires i < |s.flows| && s.flows[i].pc.Composing?
  {
    s.(flows := s.flows[i := s.flows[i].(pc := Showing(s.flows[i].pc.flavor, facts), asked := Some(facts), result := None, reread := None)])
  }

  function AnswerFor(s: System, i: nat, result: DialogResult): System
    requires i < |s.flows| && s.flows[i].pc.Showing?
  {
    var pc := s.flows[i].pc;
    var next :=
      match AnswerOf(result)
      case AnswerHide => Hidden
      case AnswerQuit => Rereading(pc.flavor, pc.shown)
      case AnswerCancel => Ended;
    s.(shared := s.shared.(open := false), flows := s.flows[i := s.flows[i].(pc := next, result := Some(result))])
  }

  function RereadFor(s: System, i: nat, facts: Facts): System
    requires i < |s.flows| && s.flows[i].pc.Rereading?
  {
    var pc := s.flows[i].pc;
    s.(flows := s.flows[i := s.flows[i].(pc := Flushing(ToAct(pc.flavor, pc.shown, facts)), reread := Some(facts))])
  }

  /** The front end's answer: its sender is taken only from a slot with the same nonce. */
  function TakeFor(s: System, nonce: nat, unsaved: seq<string>): System {
    s.(shared := s.shared.(slot := Without(s.shared.slot, nonce)),
       sending := if Names(s.shared.slot, nonce) then s.sending + [Sending(s.shared.slot.value.channel, unsaved)] else s.sending,
       answers := s.answers + {Answer(nonce, unsaved)})
  }

  function DeliverFor(s: System, k: nat): System
    requires k < |s.sending|
  {
    var m := s.sending[k];
    var rest := s.sending[..k] + s.sending[k + 1..];
    if m.channel >= |s.requests| then s.(sending := rest)
    else s.(sending := rest, requests := s.requests[m.channel := s.requests[m.channel].(inbox := Some(m.unsaved))])
  }

  function Step(s: System, op: Op): System {
    match op
    case OpenClose(choice) => s.(flows := s.flows + [Flow(FromWindow(choice), Flushing(ToClose(choice)), None, None, None, None)])
    case OpenQuit => s.(flows := s.flows + [Flow(FromQuit, Flushing(ToAsk(QuitOnly)), None, None, None, None)])
    case Mint(i) => if i < |s.flows| && s.flows[i].pc.Flushing? then MintFor(s, i) else s
    case Place(i) => if i < |s.flows| && s.flows[i].pc.Placing? then PlaceFor(s, i) else s
    case Receive(i) => if i < |s.flows| && s.flows[i].pc.Awaiting? then ReceiveFor(s, i, true) else s
    case GiveUp(i) => if i < |s.flows| && s.flows[i].pc.Awaiting? then ReceiveFor(s, i, false) else s
    case Clean(i) => if i < |s.flows| && s.flows[i].pc.Cleaning? then CleanFor(s, i) else s
    case TryGate(i) => if i < |s.flows| && s.flows[i].pc.Asking? then TryGateFor(s, i) else s
    case Show(i, facts) => if i < |s.flows| && s.flows[i].pc.Composing? then ShowFor(s, i, facts) else s
    case AnswerDialog(i, result) => if i < |s.flows| && s.flows[i].pc.Showing? then AnswerFor(s, i, result) else s
    case Reread(i, facts) => if i < |s.flows| && s.flows[i].pc.Rereading? then RereadFor(s, i, facts) else s
    case Flushed(nonce, unsaved) => TakeFor(s, nonce, unsaved)
    case Deliver(k) => if k < |s.sending| then DeliverFor(s, k) else s
  }

  function Run(ops: seq<Op>): System {
    if ops == [] then FRESH else Step(Run(ops[..|ops| - 1]), ops[|ops| - 1])
  }

  /* ----- What every run keeps: answers ----- */

  ghost predicate Numbered(requests: seq<Request>, nextNonce: nat) {
    nextNonce == |requests| + 1 && forall k :: 0 <= k < |requests| ==> requests[k].nonce == k + 1
  }

  ghost predicate Answered(requests: seq<Request>, channel: nat, unsaved: seq<string>, answers: set<Answer>) {
    channel < |requests| && Answer(requests[channel].nonce, unsaved) in answers
  }

  ghost predicate Routed(s: System) {
    && (s.shared.slot.Some? ==>
          s.shared.slot.value.channel < |s.requests| && s.requests[s.shared.slot.value.channel].nonce == s.shared.slot.value.nonce)
    && (forall m :: m in s.sending ==> Answered(s.requests, m.channel, m.unsaved, s.answers))
    && (forall k :: 0 <= k < |s.requests| && s.requests[k].inbox.Some? ==>
                      Answered(s.requests, k, s.requests[k].inbox.value, s.answers))
  }

  predicate Delivered(requests: seq<Request>, channel: nat, unsaved: seq<string>) {
    channel < |requests| && requests[channel].inbox == Some(unsaved)
  }

  /** A channel has one sender, which sits in one place: with the flow about to place it,
      in the slot, with an answer on its way, or used up. */
  ghost predicate Linear(s: System) {
    && (s.shared.slot.Some? ==>
          s.shared.slot.value.channel < |s.requests| && s.requests[s.shared.slot.value.channel].inbox.None?)
    && (forall k :: 0 <= k < |s.sending| ==>
          && s.sending[k].channel < |s.requests| && s.requests[s.sending[k].channel].inbox.None?
          && (s.shared.slot.Some? ==> s.shared.slot.value.channel != s.sending[k].channel))
    && (forall k, l :: 0 <= k < l < |s.sending| ==> s.sending[k].channel != s.sending[l].channel)
    && (forall i :: 0 <= i < |s.flows| && s.flows[i].pc.Placing? ==> Unplaced(s, s.flows[i].pc.channel))
  }

  ghost predicate Unplaced(s: System, channel: nat) {
    && channel < |s.requests| && s.requests[channel].inbox.None?
    && (s.shared.slot.Some? ==> s.shared.slot.value.channel != channel)
    && (forall m :: m in s.sending ==> m.channel != channel)
  }

  /* ----- What every run keeps: flows ----- */

  /** `channel` is the flow's last request. */
  ghost predicate Latest(requests: seq<Request>, i: nat, channel: Option<nat>) {
    && (channel.Some? ==> channel.value < |requests| && requests[channel.value].owner == i)
    && forall k :: 0 <= k < |requests| && requests[k].owner == i ==> channel.Some? && k <= channel.value
  }

  /** The buttons that mean quitting, and those that mean the tray. */
  predicate SaysQuit(f: Flow) {
    f.result.Some? && f.result.value in {Custom(QUIT_BUTTON), No, Ok}
  }

  predicate SaysHide(f: Flow) {
    f.result.Some? && f.result.value in {Custom(TRAY_BUTTON), Yes}
  }

  predicate PurposeOk(f: Flow, purpose: Purpose) {
    match purpose
    case ToClose(choice) => f.origin == FromWindow(choice) && f.asked.None?
    case ToAsk(flavor) => f.origin.FromQuit? ==> flavor.QuitOnly?
    case ToAct(flavor, shown, now) =>
      (f.origin.FromQuit? ==> flavor.QuitOnly?) && f.asked == Some(shown) && f.reread == Some(now) && SaysQuit(f)
  }

  /** What an exit has behind it. */
  predicate Earned(f: Flow) {
    if f.asked.Some? then SaysQuit(f) && f.reread == f.asked else f.origin == FromWindow(QuitChoice)
  }

  ghost predicate PointOk(f: Flow, requests: seq<Request>) {
    match f.pc
    case Flushing(purpose) => PurposeOk(f, purpose)
    case Placing(purpose, nonce, channel) =>
      PurposeOk(f, purpose) && f.latest == Some(channel) && channel < |requests| && requests[channel].nonce == nonce
    case Awaiting(purpose, nonce, channel) =>
      PurposeOk(f, purpose) && f.latest == Some(channel) && channel < |requests| && requests[channel].nonce == nonce
    case Cleaning(purpose, nonce, unsaved) =>
      && PurposeOk(f, purpose) && f.latest.Some? && f.latest.value < |requests| && requests[f.latest.value].nonce == nonce
      && (unsaved == SAVE_STATUS_UNKNOWN || Delivered(requests, f.latest.value, unsaved))
    case Asking(flavor, unsaved) => f.origin.FromQuit? ==> flavor.QuitOnly?
    case Composing(flavor, unsaved) => f.origin.FromQuit? ==> flavor.QuitOnly?
    case Showing(flavor, shown) => (f.origin.FromQuit? ==> flavor.QuitOnly?) && f.asked == Some(shown)
    case Rereading(flavor, shown) => (f.origin.FromQuit? ==> flavor.QuitOnly?) && f.asked == Some(shown) && SaysQuit(f)
    case Exited(facts) => Earned(f) && f.latest.Some? && Delivered(requests, f.latest.value, [])
    case Hidden => if f.asked.Some? then SaysHide(f) else f.origin == FromWindow(TrayChoice)
    case Ended => true
  }

  ghost predicate FlowOk(f: Flow, i: nat, requests: seq<Request>) {
    Latest(requests, i, f.latest) && PointOk(f, requests) && (SaysHide(f) ==> f.pc.Hidden?)
  }

  ghost predicate FlowsOk(s: System) {
    && (forall i :: 0 <= i < |s.flows| ==> FlowOk(s.flows[i], i, s.requests))
    && (forall k :: 0 <= k < |s.requests| ==> s.requests[k].owner < |s.flows|)
  }

  /* ----- What every run keeps: the gate ----- */

  predicate Confirming(f: Flow) {
    f.pc.Composing? || f.pc.Showing?
  }

  /** The gate is shut exactly while one flow, and no other, has the question. */
  ghost predicate Gated(s: System) {
    && (s.shared.open <==> exists i :: 0 <= i < |s.flows| && Confirming(s.flows[i]))
    && (forall i, j :: 0 <= i < |s.flows| && 0 <= j < |s.flows| && Confirming(s.flows[i]) && Confirming(s.flows[j]) ==> i == j)
  }

  ghost predicate Inv(s: System) {
    Numbered(s.requests, s.shared.nextNonce) && Routed(s) && Linear(s) && FlowsOk(s) && Gated(s)
  }
}
