/**
 The agent session controller as a state machine: daemon events, the attach reply and
 the sends in flight drive a transcript, a status latch, a buffer of permission requests
 and the pairing of rejected sends with their late error frames.
 */
module Sessions {
  import opened Basics
  import opened Transcripts

  datatype Status = Initializing | Idle | Running | Failed | Closed

  datatype Request = Request(toolCallId: string, payload: string)

  datatype MessageKind = Composer | PlanOutcome | OutgoingA2a | IncomingA2a | SystemNotice | Creation | Legacy

  /** One frame of the session channel. A user message carries the verdict of the envelope
      parsers on its text; a task snapshot carries the rows its transitions write; `Other`
      is every frame that moves nothing modelled here, a reset without a list of frames
      among them. */
  datatype Event =
    | UserMessage(kind: MessageKind, human: bool, messageId: Option<string>, text: string, atMs: Option<int>,
                  images: seq<string>, card: Option<Card>)
    | AgentMessage(messageId: Option<string>, text: string, parent: Option<string>, depth: Option<int>, images: seq<string>)
    | AgentThought(messageId: Option<string>, text: string, parent: Option<string>, depth: Option<int>)
    | SessionNotice(text: string, warning: bool)
    | AgentFinished(finishedAt: Option<int>, stopReason: string, now: int)
    | AgentError(message: string)
    | PermissionRequest(request: Request)
    | PermissionResolved(toolCallId: string)
    | ToolCall(toolCallId: string, title: string, status: string, fields: ToolFields)
    | ToolUpdate(toolCallId: string, newStatus: Option<string>, output: Option<string>, newTitle: Option<string>,
                 replace: bool, fields: ToolFields)
    | Exit
    | Recovered
    | Detached
    | UnknownEvent(name: string)
    | TasksSnapshot(rows: seq<string>)
    | Other
    | Reset(tail: seq<Event>, complete: bool)

  /** The status the surface shows; `startedAt` is this view's clock of the running turn. */
  datatype Life = Life(status: Status, streaming: bool, startedAt: Option<int>)

  /** The attachment, the permission requests that wait for it, and those handed to the host. */
  datatype Link = Link(started: bool, attaching: bool, attached: bool, disposed: bool, subscription: Option<nat>,
                       buffered: seq<Request>, delivered: seq<Request>)

  /** Sends in flight, error frames held for their verdict, and rejections whose twin frame
      may still come. The multisets record the frames received, shown, paired with a
      rejection and thrown away by a reset, and the rejections. */
  datatype Errors = Errors(sendDepth: nat, held: seq<string>, rejections: seq<string>, received: multiset<string>,
                           shown: multiset<string>, consumed: multiset<string>, dropped: multiset<string>, rejected: multiset<string>)

  datatype Session = Session(t: Transcript, life: Life, link: Link, errors: Errors)

  const FRESH := Session(EMPTY, Life(Initializing, false, None), Link(false, false, false, false, None, [], []),
                         Errors(0, [], [], multiset{}, multiset{}, multiset{}, multiset{}, multiset{}))

  const MAX_PENDING_SEND_REJECTIONS := 8
  const ATTACH_INVALID := "Could not attach the agent session. The daemon returned an invalid session subscription."
  const ATTACH_FAILED := "Could not attach the agent session. "
  const STOPPED_MID_TURN := "The agent stopped before finishing this turn."
  const TAKEN_OVER := "Another client took over this session."
  const UNKNOWN_EVENT := "The daemon sent an unknown session event type: "
  const SEND_FAILED := "Could not send the message. "
  const UNKNOWN_ERROR := "The agent reported an unknown error."
  const LOST_HISTORY_NOTICE := "Some earlier messages are no longer available."
  const RECOVERED_SESSION_UNAVAILABLE := "This agent session is no longer available."

  /* ----- Status ----- */

  function Latch(from: Status, next: Status): Status {
    if from.Failed? || (from.Closed? && !next.Failed?) then from else next
  }

  function SetStatus(life: Life, next: Status, streaming: bool): Life {
    Life(Latch(life.status, next), streaming, if !next.Running? && life.streaming then None else life.startedAt)
  }

  function FailSession(s: Session, message: string, detail: Option<string>): (s': Session)
    requires Ranged(s.t)
    ensures Ranged(s'.t)
  {
    s.(t := EndWithError(s.t, message, detail), life := SetStatus(s.life, Failed, false))
  }

  function FailTurn(s: Session, message: string, detail: Option<string>): (s': Session)
    requires Ranged(s.t)
    ensures Ranged(s'.t)
  {
    s.(t := EndWithError(s.t, message, detail), life := SetStatus(s.life, Idle, false))
  }

  /* ----- Error frames and rejected sends ----- */

  function RemoveAt<T>(xs: seq<T>, i: nat): (r: seq<T>)
    requires i < |xs|
    ensures multiset(xs) == multiset(r) + multiset{xs[i]}
  {
    assert xs == xs[..i] + [xs[i]] + xs[i + 1..];
    xs[..i] + xs[i + 1..]
  }

  /** The first occurrence of `x` taken out; `x` must occur. */
  function RemoveFirst(xs: seq<string>, x: string): (r: seq<string>)
    requires x in xs
    ensures |r| == |xs| - 1 && multiset(xs) == multiset(r) + multiset{x}
  {
    if xs[0] == x then RemoveAt(xs, 0)
    else
      assert xs == [xs[0]] + xs[1..];
      [xs[0]] + RemoveFirst(xs[1..], x)
  }

  /** One frame against the pending rejections: its exact twin is consumed, prose is shown. */
  function ResolveFrame(s: Session, text: string): (s': Session)
    requires Ranged(s.t)
    ensures Ranged(s'.t)
    ensures text !in s.errors.rejections ==> s'.t.items == s.t.items + [Error(ItemId("error", s.t.nextItemId), text, None)]
  {
    var e := s.errors;
    if text in e.rejections
    then s.(errors := e.(rejections := RemoveFirst(e.rejections, text), consumed := e.consumed + multiset{text}))
    else s.(t := NoteError(s.t, text, None), errors := e.(shown := e.shown + multiset{text}))
  }

  function ResolveFrames(s: Session, frames: seq<string>): (s': Session)
    requires Ranged(s.t)
    ensures Ranged(s'.t)
    decreases |frames|
  {
    if frames == [] then s else ResolveFrames(ResolveFrame(s, frames[0]), frames[1..])
  }

  function ResolveHeld(s: Session): (s': Session)
    requires Ranged(s.t)
    ensures Ranged(s'.t)
  {
    ResolveFrames(s.(errors := s.errors.(held := [])), s.errors.held)
  }

  function NoteRejection(e: Errors, text: string): Errors {
    var all := e.rejections + [text];
    var kept := if |all| > MAX_PENDING_SEND_REJECTIONS then all[|all| - MAX_PENDING_SEND_REJECTIONS..] else all;
    e.(rejections := kept, rejected := e.rejected + multiset{text})
  }

  function ErrorText(message: string): string {
    if message == "" then UNKNOWN_ERROR else message
  }

  function HandleAgentError(s: Session, text: string): (s': Session)
    requires Ranged(s.t)
    ensures Ranged(s'.t)
  {
    var e := s.errors.(received := s.errors.received + multiset{text});
    if e.sendDepth > 0 then s.(errors := e.(held := e.held + [text])) else ResolveFrame(s.(errors := e), text)
  }

  /* ----- Permission requests ----- */

  function FirstWith(requests: seq<Request>, id: string): (i: nat)
    ensures i <= |requests|
    ensures i < |requests| ==> requests[i].toolCallId == id
    ensures forall k :: 0 <= k < i ==> requests[k].toolCallId != id
  {
    if requests == [] || requests[0].toolCallId == id then 0 else 1 + FirstWith(requests[1..], id)
  }

  function DropBuffered(requests: seq<Request>, id: string): seq<Request> {
    var i := FirstWith(requests, id);
    if i == |requests| then requests else RemoveAt(requests, i)
  }

  function HandleRequest(link: Link, request: Request): Link {
    if link.subscription.None? then link.(buffered := link.buffered + [request])
    else link.(delivered := link.delivered + [request])
  }

  function HandleResolved(link: Link, id: string): Link {
    if link.subscription.None? then link.(buffered := DropBuffered(link.buffered, id)) else link
  }

  function Deliver(link: Link): Link {
    link.(buffered := [], delivered := link.delivered + link.buffered)
  }

  /* ----- Frames ----- */

  function AppendComposer(t: Transcript, messageId: Option<string>, text: string, atMs: Option<int>, images: seq<string>): (t': Transcript)
    requires Ranged(t)
    ensures Ranged(t')
  {
    AppendText(CloseActiveBlocks(EnsureTurn(t)), User, messageId, text, None, None, atMs, images)
  }

  function HandleUserMessage(t: Transcript, e: Event): (t': Transcript)
    requires Ranged(t) && e.UserMessage?
    ensures Ranged(t')
  {
    match e.kind
    case Composer => AppendComposer(t, e.messageId, e.text, e.atMs, e.images)
    case PlanOutcome => AppendSystem(t, e.text, false)
    case OutgoingA2a => AppendCard(t, OutgoingCard(e.text))
    case IncomingA2a => if e.card.Some? then AppendCard(t, e.card.value) else AppendSystem(t, e.text, false)
    case SystemNotice => if e.card.Some? then AppendCard(t, e.card.value) else AppendSystem(t, e.text, false)
    case Creation => AppendSystem(t, e.text, false)
    case Legacy => if e.human then AppendComposer(t, e.messageId, e.text, e.atMs, e.images) else AppendSystem(t, e.text, false)
  }

  function AppendTaskRows(t: Transcript, rows: seq<string>): (t': Transcript)
    requires Ranged(t)
    ensures Ranged(t')
    decreases |rows|
  {
    if rows == [] then t else AppendTaskRows(AppendSystem(t, rows[0], false), rows[1..])
  }

  /** Frames that only write rows. */
  function WriteRows(t: Transcript, e: Event): (t': Transcript)
    requires Ranged(t)
    ensures Ranged(t')
  {
    match e
    case UserMessage(_, _, _, _, _, _, _) => HandleUserMessage(t, e)
    case AgentMessage(messageId, text, parent, depth, images) =>
      AppendText(EnsureTurn(t), Assistant, messageId, text, parent, depth, None, images)
    case AgentThought(messageId, text, parent, depth) =>
      AppendText(EnsureTurn(t), Thought, messageId, text, parent, depth, None, [])
    case SessionNotice(text, warning) => AppendSystem(t, text, warning)
    case ToolCall(id, title, status, fields) => HandleToolCall(t, id, title, status, CallFields(fields))
    case ToolUpdate(id, status, output, title, replace, fields) =>
      HandleToolUpdate(t, id, status, output, title, replace, PatchFields(fields))
    case TasksSnapshot(rows) => AppendTaskRows(t, rows)
    case _ => t
  }

  function HandleExit(s: Session): (s': Session)
    requires Ranged(s.t)
    ensures Ranged(s'.t)
  {
    if s.t.turnOpen then FailSession(s, STOPPED_MID_TURN, None)
    else s.(life := SetStatus(s.life, Closed, false))
  }

  /** The transcript a reset starts from: empty, or the one marker row when the tail does not
      reach back to the start. The marker is numbered from the counter it replaces. */
  function ResetRows(t: Transcript, complete: bool): Transcript {
    var marker := if complete then [] else [System(ItemId("system", t.nextItemId), LOST_HISTORY_NOTICE, false)];
    EMPTY.(items := marker, nextItemId := 1 + |marker|)
  }

  function ResetErrors(e: Errors): Errors {
    e.(held := [], rejections := [], dropped := e.dropped + multiset(e.held))
  }

  /** What a reset leaves before its tail is replayed. */
  function ResetBase(s: Session, complete: bool): (s': Session)
    ensures Ranged(s'.t)
  {
    Session(ResetRows(s.t, complete), s.life.(startedAt := None), s.link.(buffered := []), ResetErrors(s.errors))
  }

  function HandleFinished(s: Session, finishedAt: Option<int>, reason: string, now: int): (s': Session)
    requires Ranged(s.t)
    ensures Ranged(s'.t)
  {
    s.(t := FinishTurn(s.t, finishedAt, reason, s.life.startedAt, now),
       life := SetStatus(s.life, Idle, false).(startedAt := None))
  }

  function HandleEvent(s: Session, e: Event): (s': Session)
    requires Ranged(s.t)
    ensures Ranged(s'.t)
    decreases e
  {
    if s.link.disposed then s
    else
      match e
      case Reset(tail, complete) => HandleEvents(ResetBase(s, complete), tail)
      case AgentFinished(finishedAt, reason, now) => HandleFinished(s, finishedAt, reason, now)
      case AgentError(message) => HandleAgentError(s, ErrorText(message))
      case PermissionRequest(request) => s.(link := HandleRequest(s.link, request))
      case PermissionResolved(id) => s.(link := HandleResolved(s.link, id))
      case Exit => HandleExit(s)
      case Recovered => FailSession(s, RECOVERED_SESSION_UNAVAILABLE, None)
      case Detached => FailSession(s, TAKEN_OVER, None)
      case UnknownEvent(name) => FailSession(s, UNKNOWN_EVENT + name + ".", None)
      case _ => s.(t := WriteRows(s.t, e))
  }

  function HandleEvents(s: Session, events: seq<Event>): (s': Session)
    requires Ranged(s.t)
    ensures Ranged(s'.t)
    decreases events
  {
    if events == [] then s else HandleEvents(HandleEvent(s, events[0]), events[1..])
  }

  /* ----- Everything that can happen to a session ----- */

  datatype Op =
    | Start
    | AttachReply(subscriptionId: int)
    | AttachFailed(sentence: string, detail: Option<string>)
    | Receive(event: Event)
    | SendStart(blank: bool, steer: bool, now: int)
    | SendDone(joined: bool, turnActive: bool)
    | SendFailed(joined: bool, sentence: string, detail: Option<string>, fatal: bool)
    | SwitchRefused(sentence: string, detail: Option<string>)
    | Detach
    | Dispose

  function HandleAttachReply(s: Session, subscriptionId: int): (s': Session)
    requires Ranged(s.t)
    ensures Ranged(s'.t)
  {
    var link := s.link.(attaching := false);
    if subscriptionId <= 0 then
      FailSession(s.(link := link), ATTACH_INVALID, None)
    else if link.disposed then s.(link := link)
    else s.(link := Deliver(link.(subscription := Some(subscriptionId), attached := true)),
            life := SetStatus(s.life, Idle, s.life.streaming))
  }

  predicate CanSend(s: Session, blank: bool) {
    && !blank && !s.link.disposed && s.link.started && s.link.attached
    && !s.life.status.Closed? && s.link.subscription.Some?
  }

  function HandleSendStart(s: Session, steer: bool, now: int): (s': Session)
    requires Ranged(s.t)
    ensures Ranged(s'.t)
  {
    var joins := steer && s.t.turnOpen;
    var life := SetStatus(s.life, Running, true);
    s.(t := if joins then s.t else BeginTurn(s.t),
       life := if joins then life else life.(startedAt := Some(now)),
       errors := s.errors.(sendDepth := s.errors.sendDepth + 1))
  }

  function Settle(s: Session): (s': Session)
    requires Ranged(s.t) && s.errors.sendDepth > 0
    ensures Ranged(s'.t)
  {
    s.(errors := s.errors.(sendDepth := s.errors.sendDepth - 1))
  }

  function HandleSendDone(s: Session, joined: bool, turnActive: bool): (s': Session)
    requires Ranged(s.t) && s.errors.sendDepth > 0
    ensures Ranged(s'.t)
  {
    var s0 := Settle(s);
    ResolveHeld(if !turnActive && !joined && s0.errors.sendDepth == 0
                then s0.(t := s0.t.(turnOpen := false), life := SetStatus(s0.life, Idle, false)) else s0)
  }

  function HandleSendFailed(s: Session, joined: bool, sentence: string, detail: Option<string>, fatal: bool): (s': Session)
    requires Ranged(s.t) && s.errors.sendDepth > 0
    ensures Ranged(s'.t)
  {
    var s0 := Settle(s);
    var s1 := ResolveHeld(s0.(errors := NoteRejection(s0.errors, detail.GetOr(sentence))));
    var message := SEND_FAILED + sentence;
    if fatal then FailSession(s1, message, detail)
    else if joined then s1.(t := NoteError(s1.t, message, detail))
    else FailTurn(s1, message, detail)
  }

  function HandleAttachFailed(s: Session, sentence: string, detail: Option<string>): (s': Session)
    requires Ranged(s.t)
    ensures Ranged(s'.t)
  {
    FailSession(s.(link := s.link.(attaching := false)), ATTACH_FAILED + sentence, detail)
  }

  function Step(s: Session, op: Op): (s': Session)
    requires Ranged(s.t)
    ensures Ranged(s'.t)
  {
    match op
    case Start =>
      if s.link.started || s.link.disposed then s else s.(link := s.link.(started := true, attaching := true))
    case AttachReply(id) => if s.link.attaching then HandleAttachReply(s, id) else s
    case AttachFailed(sentence, detail) => if s.link.attaching then HandleAttachFailed(s, sentence, detail) else s
    case Receive(e) => HandleEvent(s, e)
    case SendStart(blank, steer, now) => if CanSend(s, blank) then HandleSendStart(s, steer, now) else s
    case SendDone(joined, turnActive) => if s.errors.sendDepth > 0 then HandleSendDone(s, joined, turnActive) else s
    case SendFailed(joined, sentence, detail, fatal) =>
      if s.errors.sendDepth > 0 then HandleSendFailed(s, joined, sentence, detail, fatal) else s
    case SwitchRefused(sentence, detail) => s.(t := NoteError(s.t, sentence, detail))
    case Detach => s.(link := s.link.(subscription := None, attached := false))
    case Dispose =>
      if s.link.disposed then s
      else s.(link := s.link.(disposed := true, buffered := [], subscription := None, attached := false))
  }

  function Run(ops: seq<Op>): (s: Session)
    ensures Ranged(s.t)
  {
    if ops == [] then FRESH else Step(Run(ops[..|ops| - 1]), ops[|ops| - 1])
  }
}
