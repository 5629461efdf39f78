/** What holds after every run of a session, whatever arrives in whatever order. */
module SessionRuns {
  import opened Basics
  import opened Transcripts
  import opened TranscriptInvariants
  import opened Sessions

  /* ----- The transcript stays sound ----- */

  lemma Finds(t: Transcript)
    requires Inv(t)
    ensures Ranged(t)
  {
  }

  lemma EndKeeps(t: Transcript, message: string, detail: Option<string>)
    requires Inv(t)
    ensures Inv(EndWithError(t, message, detail)) && Inv(NoteError(t, message, detail))
  {
    PushKeeps(t, Error(NextId(t, "error"), message, detail));
    CloseKeeps(t);
    var closed := CloseActiveBlocks(t.(turnOpen := false));
    assert Inv(closed);
    PushKeeps(closed, Error(NextId(t, "error"), message, detail));
  }

  lemma {:induction false} ResolveKeeps(s: Session, frames: seq<string>)
    requires Inv(s.t)
    ensures Inv(ResolveFrames(s, frames).t)
    decreases |frames|
  {
    if frames != [] {
      PushKeeps(s.t, Error(NextId(s.t, "error"), frames[0], None));
      ResolveKeeps(ResolveFrame(s, frames[0]), frames[1..]);
    }
  }

  lemma RowKeeps(t: Transcript, item: Item)
    requires Inv(t) && !Keyed(item)
    ensures Inv(Push(CloseActiveBlocks(t), item))
  {
    CloseKeeps(t);
    PushKeeps(CloseActiveBlocks(t), item);
  }

  lemma ComposerKeeps(t: Transcript, messageId: Option<string>, text: string, atMs: Option<int>, images: seq<string>)
    requires Inv(t)
    ensures Inv(AppendComposer(t, messageId, text, atMs, images))
  {
    CloseKeeps(t);
    CloseKeeps(EnsureTurn(t));
    AppendTextKeeps(CloseActiveBlocks(EnsureTurn(t)), User, messageId, text, None, None, atMs, images);
  }

  lemma {:induction false} TaskRowsKeep(t: Transcript, rows: seq<string>)
    requires Inv(t)
    ensures Inv(AppendTaskRows(t, rows))
    decreases |rows|
  {
    if rows != [] {
      RowKeeps(t, System(NextId(t, "system"), rows[0], false));
      TaskRowsKeep(AppendSystem(t, rows[0], false), rows[1..]);
    }
  }

  lemma UserMessageKeeps(t: Transcript, e: Event)
    requires Inv(t) && e.UserMessage?
    ensures Inv(HandleUserMessage(t, e))
  {
    hide Inv;
    ComposerKeeps(t, e.messageId, e.text, e.atMs, e.images);
    RowKeeps(t, System(NextId(t, "system"), e.text, false));
    RowKeeps(t, CardRow(NextId(t, CardPrefix(OutgoingCard(e.text))), OutgoingCard(e.text)));
    if e.card.Some? {
      RowKeeps(t, CardRow(NextId(t, CardPrefix(e.card.value)), e.card.value));
    }
  }

  lemma RowsKeep(t: Transcript, e: Event)
    requires Inv(t)
    ensures Inv(WriteRows(t, e))
  {
    hide Inv, AppendText, HandleToolCall, HandleToolUpdate, AppendTaskRows, HandleUserMessage;
    match e
    case UserMessage(_, _, _, _, _, _, _) => UserMessageKeeps(t, e);
    case AgentMessage(messageId, text, parent, depth, images) =>
      CloseKeeps(t);
      AppendTextKeeps(EnsureTurn(t), Assistant, messageId, text, parent, depth, None, images);
    case AgentThought(messageId, text, parent, depth) =>
      CloseKeeps(t);
      AppendTextKeeps(EnsureTurn(t), Thought, messageId, text, parent, depth, None, []);
    case SessionNotice(text, warning) => RowKeeps(t, System(NextId(t, "system"), text, warning));
    case ToolCall(id, title, status, fields) => ToolCallEffect(t, id, title, status, CallFields(fields));
    case ToolUpdate(id, status, output, title, replace, fields) =>
      ToolUpdateEffect(t, id, status, output, title, replace, PatchFields(fields));
    case TasksSnapshot(rows) => TaskRowsKeep(t, rows);
    case _ =>
  }

  lemma ResetKeeps(s: Session, complete: bool)
    ensures Inv(ResetBase(s, complete).t)
  {
  }

  lemma FrameKeeps(s: Session, text: string)
    requires Inv(s.t)
    ensures Ranged(s.t) && Inv(HandleAgentError(s, text).t)
  {
    PushKeeps(s.t, Error(NextId(s.t, "error"), text, None));
  }

  lemma {:induction false} EventKeeps(s: Session, e: Event)
    requires Inv(s.t)
    ensures Ranged(s.t) && Inv(HandleEvent(s, e).t)
    decreases e
  {
    hide Inv, WriteRows, FinishTurn, EndWithError, ResetBase, HandleAgentError;
    Finds(s.t);
    if !s.link.disposed {
      match e
      case Reset(tail, complete) =>
        ResetKeeps(s, complete);
        EventsKeep(ResetBase(s, complete), tail);
      case AgentFinished(finishedAt, reason, now) => FinishKeeps(s.t, finishedAt, reason, s.life.startedAt, now);
      case AgentError(message) => FrameKeeps(s, ErrorText(message));
      case Exit => EndKeeps(s.t, STOPPED_MID_TURN, None);
      case Recovered => EndKeeps(s.t, RECOVERED_SESSION_UNAVAILABLE, None);
      case Detached => EndKeeps(s.t, TAKEN_OVER, None);
      case UnknownEvent(name) => EndKeeps(s.t, UNKNOWN_EVENT + name + ".", None);
      case _ => RowsKeep(s.t, e);
    }
  }

  lemma {:induction false} EventsKeep(s: Session, events: seq<Event>)
    requires Inv(s.t)
    ensures Ranged(s.t) && Inv(HandleEvents(s, events).t)
    decreases events
  {
    hide Inv, HandleEvent;
    Finds(s.t);
    if events != [] {
      EventKeeps(s, events[0]);
      EventsKeep(HandleEvent(s, events[0]), events[1..]);
    }
  }

  lemma OpenFlagKeeps(t: Transcript)
    requires Inv(t)
    ensures Inv(t.(turnOpen := false))
  {
  }

  lemma HeldKeeps(s: Session)
    requires Inv(s.t)
    ensures Ranged(s.t) && Inv(ResolveHeld(s).t)
  {
    Finds(s.t);
    ResolveKeeps(s.(errors := s.errors.(held := [])), s.errors.held);
  }

  lemma DoneKeeps(s: Session, joined: bool, turnActive: bool)
    requires Inv(s.t) && s.errors.sendDepth > 0
    ensures Ranged(s.t) && Inv(HandleSendDone(s, joined, turnActive).t)
  {
    hide Inv, ResolveHeld;
    Finds(s.t);
    OpenFlagKeeps(s.t);
    var s0 := Settle(s);
    HeldKeeps(s0);
    HeldKeeps(s0.(t := s0.t.(turnOpen := false), life := SetStatus(s0.life, Idle, false)));
  }

  lemma FailedKeeps(s: Session, joined: bool, sentence: string, detail: Option<string>, fatal: bool)
    requires Inv(s.t) && s.errors.sendDepth > 0
    ensures Ranged(s.t) && Inv(HandleSendFailed(s, joined, sentence, detail, fatal).t)
  {
    hide Inv, ResolveHeld, EndWithError, NoteError;
    Finds(s.t);
    var s0 := Settle(s);
    var s1 := s0.(errors := NoteRejection(s0.errors, detail.GetOr(sentence)));
    HeldKeeps(s1);
    Finds(ResolveHeld(s1).t);
    EndKeeps(ResolveHeld(s1).t, SEND_FAILED + sentence, detail);
  }

  lemma StepKeeps(s: Session, op: Op)
    requires Inv(s.t)
    ensures Ranged(s.t) && Inv(Step(s, op).t)
  {
    hide Inv, HandleEvent, EndWithError, NoteError, HandleSendDone, HandleSendFailed, Deliver, BeginTurn;
    Finds(s.t);
    match op
    case AttachReply(_) =>
      EndKeeps(s.t, ATTACH_INVALID, None);
    case AttachFailed(sentence, detail) => EndKeeps(s.t, ATTACH_FAILED + sentence, detail);
    case Receive(e) => EventKeeps(s, e);
    case SendStart(_, _, _) => CloseKeeps(s.t);
    case SendDone(joined, turnActive) => if s.errors.sendDepth > 0 { DoneKeeps(s, joined, turnActive); }
    case SendFailed(joined, sentence, detail, fatal) =>
      if s.errors.sendDepth > 0 { FailedKeeps(s, joined, sentence, detail, fatal); }
    case SwitchRefused(sentence, detail) => EndKeeps(s.t, sentence, detail);
    case _ =>
  }

  /** After every run: the block map names every text and tool row once and by its role,
      `toolRows` names the newest row of each tool id, and every text row is the in-order
      concatenation of exactly the fragments routed to its block. */
  lemma {:induction false} RunKeepsTranscript(ops: seq<Op>)
    ensures Inv(Run(ops).t)
  {
    if ops == [] {
      assert Inv(EMPTY);
    } else {
      hide Inv, Step;
      RunKeepsTranscript(ops[..|ops| - 1]);
      StepKeeps(Run(ops[..|ops| - 1]), ops[|ops| - 1]);
    }
  }
}
