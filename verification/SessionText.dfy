/** What a run does with the text it receives, and how its status moves. */
module SessionText {
  import opened Basics
  import opened Transcripts
  import opened TranscriptInvariants
  import opened Sessions
  import opened SessionRuns

  /* ----- Received text is routed once, in order, under its role ----- */

  datatype Piece = Piece(role: Option<Role>, text: string)

  function RoleOf(key: BlockKey): Option<Role> {
    if key.TextKey? then Some(key.role) else None
  }

  function Spoken(routed: seq<Chunk>): seq<Piece> {
    seq(|routed|, i requires 0 <= i < |routed| => Piece(RoleOf(routed[i].key), routed[i].text))
  }

  /** The text a frame carries for the conversation. */
  function Fragment(e: Event): seq<Piece> {
    match e
    case UserMessage(kind, human, _, text, _, _, _) =>
      if kind.Composer? || (kind.Legacy? && human) then [Piece(Some(User), text)] else []
    case AgentMessage(_, text, _, _, _) => [Piece(Some(Assistant), text)]
    case AgentThought(_, text, _, _) => [Piece(Some(Thought), text)]
    case _ => []
  }

  function Hear(heard: seq<Piece>, e: Event): seq<Piece>
    decreases e
  {
    if e.Reset? then HearAll([], e.tail) else heard + Fragment(e)
  }

  function HearAll(heard: seq<Piece>, events: seq<Event>): seq<Piece>
    decreases events
  {
    if events == [] then heard else HearAll(Hear(heard, events[0]), events[1..])
  }

  /** The text a run receives, since the last frame that replaced the history. */
  function Heard(ops: seq<Op>): seq<Piece> {
    if ops == [] then []
    else
      var before, op := ops[..|ops| - 1], ops[|ops| - 1];
      if Dispose !in before && op.Receive? then Hear(Heard(before), op.event) else Heard(before)
  }

  lemma SpokenNext(routed: seq<Chunk>, c: Chunk)
    ensures Spoken(routed + [c]) == Spoken(routed) + [Piece(RoleOf(c.key), c.text)]
  {
  }

  lemma AppendSpeaks(t: Transcript, role: Role, messageId: Option<string>, text: string, parent: Option<string>,
                     depth: Option<int>, atMs: Option<int>, images: seq<string>)
    requires Inv(t)
    ensures Ranged(t)
    ensures Spoken(AppendText(t, role, messageId, text, parent, depth, atMs, images).routed) == Spoken(t.routed) + [Piece(Some(role), text)]
  {
    RouteKeeps(t, role, messageId, parent);
    SpokenNext(t.routed, Chunk(BlockKeyOf(PrepareRole(t, role), role, messageId, parent), text));
  }

  lemma {:induction false} TaskRowsSilent(t: Transcript, rows: seq<string>)
    requires Ranged(t)
    ensures AppendTaskRows(t, rows).routed == t.routed
    decreases |rows|
  {
    if rows != [] { TaskRowsSilent(AppendSystem(t, rows[0], false), rows[1..]); }
  }

  lemma ToolRowSilent(t: Transcript, id: string, title: string, status: string, output: string, f: ToolFields)
    requires Ranged(t)
    ensures AppendTool(t, id, title, status, output, f).routed == t.routed
  {
    hide ShellFields;
  }

  lemma ToolCallSilent(t: Transcript, id: string, title: string, status: string, f: ToolFields)
    requires Ranged(t)
    ensures HandleToolCall(t, id, title, status, f).routed == t.routed
  {
    hide AppendTool, StartsNewToolRow;
    ToolRowSilent(if StartsNewToolRow(t, id) then EnsureTurn(t.(toolRows := t.toolRows - {id})) else t, id, title, status, "", f);
  }

  lemma ToolUpdateSilent(t: Transcript, id: string, status: Option<string>, text: Option<string>, title: Option<string>,
                         replace: bool, f: ToolFields)
    requires Ranged(t)
    ensures HandleToolUpdate(t, id, status, text, title, replace, f).routed == t.routed
  {
    hide AppendTool, Patched;
    forall t0: Transcript, title, status, output | Ranged(t0)
      ensures AppendTool(t0, id, title, status, output, f).routed == t0.routed
    {
      ToolRowSilent(t0, id, title, status, output, f);
    }
  }

  lemma UserSpeaks(t: Transcript, e: Event)
    requires Inv(t) && e.UserMessage?
    ensures Ranged(t) && Spoken(HandleUserMessage(t, e).routed) == Spoken(t.routed) + Fragment(e)
  {
    hide Inv, AppendText, Spoken, Ranged, CardPrefix;
    Finds(t);
    CloseKeeps(t);
    CloseKeeps(EnsureTurn(t));
    Finds(CloseActiveBlocks(EnsureTurn(t)));
    AppendSpeaks(CloseActiveBlocks(EnsureTurn(t)), User, e.messageId, e.text, None, None, e.atMs, e.images);
  }

  lemma RowsSpeak(t: Transcript, e: Event)
    requires Inv(t)
    ensures Ranged(t) && Spoken(WriteRows(t, e).routed) == Spoken(t.routed) + Fragment(e)
  {
    hide Inv, AppendText, AppendTaskRows, HandleUserMessage, Spoken, HandleToolCall, HandleToolUpdate;
    Finds(t);
    CloseKeeps(t);
    match e
    case UserMessage(_, _, _, _, _, _, _) => UserSpeaks(t, e);
    case AgentMessage(messageId, text, parent, depth, images) =>
      AppendSpeaks(EnsureTurn(t), Assistant, messageId, text, parent, depth, None, images);
    case AgentThought(messageId, text, parent, depth) =>
      AppendSpeaks(EnsureTurn(t), Thought, messageId, text, parent, depth, None, []);
    case TasksSnapshot(rows) => TaskRowsSilent(t, rows);
    case ToolCall(id, title, status, fields) => ToolCallSilent(t, id, title, status, CallFields(fields));
    case ToolUpdate(id, status, output, title, replace, fields) =>
      ToolUpdateSilent(t, id, status, output, title, replace, PatchFields(fields));
    case _ =>
  }

  lemma {:induction false} EventSpeaks(s: Session, e: Event)
    requires Inv(s.t) && !s.link.disposed
    ensures Ranged(s.t) && Spoken(HandleEvent(s, e).t.routed) == Hear(Spoken(s.t.routed), e)
    ensures !HandleEvent(s, e).link.disposed
    decreases e
  {
    hide Inv, WriteRows, StampTurnEnd, Spoken;
    Finds(s.t);
    if e.Reset? {
      ResetKeeps(s, e.complete);
      EventsSpeak(ResetBase(s, e.complete), e.tail);
      NothingSpoken();
    } else {
      RowsSpeak(s.t, e);
    }
  }

  lemma NothingSpoken()
    ensures Spoken([]) == []
  {
  }

  lemma {:induction false} EventsSpeak(s: Session, events: seq<Event>)
    requires Inv(s.t) && !s.link.disposed
    ensures Ranged(s.t) && Spoken(HandleEvents(s, events).t.routed) == HearAll(Spoken(s.t.routed), events)
    ensures !HandleEvents(s, events).link.disposed
    decreases events
  {
    hide Inv, HandleEvent, Spoken;
    Finds(s.t);
    if events != [] {
      EventSpeaks(s, events[0]);
      EventKeeps(s, events[0]);
      EventsSpeak(HandleEvent(s, events[0]), events[1..]);
    }
  }

  lemma {:induction false} ResolveSilent(s: Session, frames: seq<string>)
    requires Ranged(s.t)
    ensures var s' := ResolveFrames(s, frames); s'.t.routed == s.t.routed && s'.link == s.link && s'.life == s.life
    decreases |frames|
  {
    if frames != [] { ResolveSilent(ResolveFrame(s, frames[0]), frames[1..]); }
  }

  lemma HeldSilent(s: Session)
    requires Ranged(s.t)
    ensures var s' := ResolveHeld(s); s'.t.routed == s.t.routed && s'.link == s.link && s'.life == s.life
  {
    ResolveSilent(s.(errors := s.errors.(held := [])), s.errors.held);
  }

  lemma SettleSilent(s: Session, joined: bool, turnActive: bool, sentence: string, detail: Option<string>, fatal: bool)
    requires Ranged(s.t) && s.errors.sendDepth > 0
    ensures var s' := HandleSendDone(s, joined, turnActive); s'.t.routed == s.t.routed && s'.link == s.link
    ensures var s' := HandleSendFailed(s, joined, sentence, detail, fatal); s'.t.routed == s.t.routed && s'.link == s.link
  {
    hide ResolveHeld, NoteRejection, SEND_FAILED;
    var s0 := Settle(s);
    HeldSilent(s0);
    HeldSilent(s0.(t := s0.t.(turnOpen := false), life := SetStatus(s0.life, Idle, false)));
    HeldSilent(s0.(errors := NoteRejection(s0.errors, detail.GetOr(sentence))));
  }

  /** Only a frame routes text. */
  lemma OtherOpsSilent(s: Session, op: Op)
    requires Ranged(s.t) && !op.Receive?
    ensures Step(s, op).t.routed == s.t.routed
    ensures Step(s, op).link.disposed == (s.link.disposed || op.Dispose?)
  {
    hide HandleSendDone, HandleSendFailed, SEND_FAILED, ATTACH_FAILED, ATTACH_INVALID;
    if op.SendDone? && s.errors.sendDepth > 0 {
      SettleSilent(s, op.joined, op.turnActive, "", None, false);
    } else if op.SendFailed? && s.errors.sendDepth > 0 {
      SettleSilent(s, op.joined, false, op.sentence, op.detail, op.fatal);
    }
  }

  lemma StepSpeaks(s: Session, op: Op)
    requires Inv(s.t)
    ensures Ranged(s.t)
    ensures Step(s, op).link.disposed == (s.link.disposed || op.Dispose?)
    ensures Spoken(Step(s, op).t.routed)
         == if op.Receive? && !s.link.disposed then Hear(Spoken(s.t.routed), op.event) else Spoken(s.t.routed)
  {
    hide Inv, Spoken, Hear;
    Finds(s.t);
    if !op.Receive? {
      OtherOpsSilent(s, op);
    } else if !s.link.disposed {
      hide HandleEvent;
      EventSpeaks(s, op.event);
    }
  }

  /** After every run the fragments routed to blocks are exactly the text received, each
      once, in order of arrival and under the role of its frame. */
  lemma {:induction false} RoutedIsReceived(ops: seq<Op>)
    ensures Spoken(Run(ops).t.routed) == Heard(ops)
    ensures Run(ops).link.disposed <==> Dispose in ops
  {
    hide Spoken, Step, Hear;
    if ops == [] {
      NothingSpoken();
    } else {
      var before, op := ops[..|ops| - 1], ops[|ops| - 1];
      assert ops == before + [op];
      RoutedIsReceived(before);
      RunKeepsTranscript(before);
      StepSpeaks(Run(before), op);
    }
  }

  /* ----- The status latches ----- */

  /** Nothing leaves Failed, and nothing but a failure leaves Closed. */
  ghost predicate Latches(from: Status, to: Status) {
    (from.Failed? ==> to.Failed?) && (from.Closed? ==> to.Closed? || to.Failed?)
  }

  lemma {:induction false} EventLatches(s: Session, e: Event)
    requires Ranged(s.t)
    ensures Latches(s.life.status, HandleEvent(s, e).life.status)
    decreases e
  {
    hide WriteRows, EndWithError, FinishTurn, HandleRequest, HandleResolved;
    if e.Reset? && !s.link.disposed { EventsLatch(ResetBase(s, e.complete), e.tail); }
  }

  lemma {:induction false} EventsLatch(s: Session, events: seq<Event>)
    requires Ranged(s.t)
    ensures Latches(s.life.status, HandleEvents(s, events).life.status)
    decreases events
  {
    hide HandleEvent;
    if events != [] {
      EventLatches(s, events[0]);
      EventsLatch(HandleEvent(s, events[0]), events[1..]);
    }
  }

  lemma SettleLatches(s: Session, joined: bool, turnActive: bool, sentence: string, detail: Option<string>, fatal: bool)
    requires Ranged(s.t) && s.errors.sendDepth > 0
    ensures Latches(s.life.status, HandleSendDone(s, joined, turnActive).life.status)
    ensures Latches(s.life.status, HandleSendFailed(s, joined, sentence, detail, fatal).life.status)
  {
    hide ResolveHeld, NoteRejection, SEND_FAILED, EndWithError, NoteError;
    var s0 := Settle(s);
    HeldSilent(s0);
    HeldSilent(s0.(t := s0.t.(turnOpen := false), life := SetStatus(s0.life, Idle, false)));
    HeldSilent(s0.(errors := NoteRejection(s0.errors, detail.GetOr(sentence))));
  }

  lemma StepLatches(s: Session, op: Op)
    requires Ranged(s.t)
    ensures Latches(s.life.status, Step(s, op).life.status)
  {
    hide HandleEvent, HandleSendDone, HandleSendFailed, EndWithError, NoteError, BeginTurn, Deliver;
    if op.Receive? {
      EventLatches(s, op.event);
    } else if op.SendDone? && s.errors.sendDepth > 0 {
      SettleLatches(s, op.joined, op.turnActive, "", None, false);
    } else if op.SendFailed? && s.errors.sendDepth > 0 {
      SettleLatches(s, op.joined, false, op.sentence, op.detail, op.fatal);
    }
  }

  /** Whatever happens after `ops`, a failed session stays failed and a closed one is
      closed or failed. */
  lemma {:induction false} StatusLatches(ops: seq<Op>, more: seq<Op>)
    ensures Latches(Run(ops).life.status, Run(ops + more).life.status)
    decreases |more|
  {
    if more == [] {
      assert ops + more == ops;
    } else {
      hide Step;
      var all := ops + more;
      assert all[..|all| - 1] == ops + more[..|more| - 1];
      StatusLatches(ops, more[..|more| - 1]);
      StepLatches(Run(all[..|all| - 1]), all[|all| - 1]);
    }
  }
}
