/** What the session's own counts of failures stand for in the run and in the transcript. */
module SessionRecords {
  import opened Basics
  import opened Transcripts
  import opened Sessions
  import opened SessionErrors

  /* ----- Rejections are the sends that failed ----- */

  /** The texts of the sends that failed while a send was in flight. */
  function RejectedIn(ops: seq<Op>): multiset<string> {
    if ops == [] then multiset{}
    else
      var before, op := ops[..|ops| - 1], ops[|ops| - 1];
      RejectedIn(before)
      + (if op.SendFailed? && Run(before).errors.sendDepth > 0 then multiset{op.detail.GetOr(op.sentence)} else multiset{})
  }

  lemma {:induction false} ResolveRejectsNothing(s: Session, frames: seq<string>)
    requires Ranged(s.t)
    ensures ResolveFrames(s, frames).errors.rejected == s.errors.rejected
    decreases |frames|
  {
    hide RemoveFirst, NoteError;
    if frames != [] { ResolveRejectsNothing(ResolveFrame(s, frames[0]), frames[1..]); }
  }

  lemma {:induction false} EventRejectsNothing(s: Session, e: Event)
    requires Ranged(s.t)
    ensures HandleEvent(s, e).errors.rejected == s.errors.rejected
    decreases e
  {
    hide RemoveFirst, NoteError;
    if e.Reset? {
      if !s.link.disposed { EventsRejectNothing(ResetBase(s, e.complete), e.tail); }
    } else if !e.AgentError? {
      hide HandleEvent;
      OtherFrames(s, e);
    }
  }

  lemma {:induction false} EventsRejectNothing(s: Session, events: seq<Event>)
    requires Ranged(s.t)
    ensures HandleEvents(s, events).errors.rejected == s.errors.rejected
    decreases events
  {
    hide HandleEvent;
    if events != [] {
      EventRejectsNothing(s, events[0]);
      EventsRejectNothing(HandleEvent(s, events[0]), events[1..]);
    }
  }

  lemma SettleRejects(s: Session, op: Op)
    requires Ranged(s.t) && s.errors.sendDepth > 0 && (op.SendDone? || op.SendFailed?)
    ensures Step(s, op).errors.rejected
         == s.errors.rejected + (if op.SendFailed? then multiset{op.detail.GetOr(op.sentence)} else multiset{})
  {
    hide EndWithError, ResolveFrames, NoteError, SEND_FAILED;
    var s0 := Settle(s);
    var s1 := if op.SendFailed? then s0.(errors := NoteRejection(s0.errors, op.detail.GetOr(op.sentence)))
              else if !op.turnActive && !op.joined && s0.errors.sendDepth == 0
              then s0.(t := s0.t.(turnOpen := false), life := SetStatus(s0.life, Idle, false)) else s0;
    ResolveRejectsNothing(s1.(errors := s1.errors.(held := [])), s1.errors.held);
  }

  lemma StepRejects(s: Session, op: Op)
    requires Ranged(s.t)
    ensures Step(s, op).errors.rejected
         == s.errors.rejected
            + (if op.SendFailed? && s.errors.sendDepth > 0 then multiset{op.detail.GetOr(op.sentence)} else multiset{})
  {
    hide HandleEvent, EndWithError, NoteError, HandleSendDone, HandleSendFailed, BeginTurn, Deliver;
    if op.Receive? {
      EventRejectsNothing(s, op.event);
    } else if (op.SendDone? || op.SendFailed?) && s.errors.sendDepth > 0 {
      SettleRejects(s, op);
    }
  }

  /** After every run the rejections counted are exactly the sends that failed in flight;
      so a frame is paired only with a send of the run that failed with its very text. */
  lemma {:induction false} RejectedAreFailedSends(ops: seq<Op>)
    ensures Run(ops).errors.rejected == RejectedIn(ops) && Run(ops).errors.consumed <= RejectedIn(ops)
  {
    hide Step;
    if ops != [] {
      RejectedAreFailedSends(ops[..|ops| - 1]);
      StepRejects(Run(ops[..|ops| - 1]), ops[|ops| - 1]);
    }
    RunBalances(ops);
  }

  /* ----- Shown frames are error rows ----- */

  /** The messages of the transcript's error rows that carry no detail. */
  function ErrorsOf(items: seq<Item>): multiset<string> {
    if items == [] then multiset{}
    else
      var last := items[|items| - 1];
      ErrorsOf(items[..|items| - 1]) + (if last.Error? && last.detail.None? then multiset{last.message} else multiset{})
  }

  /** Rows are added or rewritten, but no error row is touched. */
  ghost predicate Grows(xs: seq<Item>, ys: seq<Item>) {
    |xs| <= |ys| && forall i :: 0 <= i < |xs| && xs[i].Error? ==> ys[i] == xs[i]
  }

  lemma {:induction false} GrowsErrors(xs: seq<Item>, ys: seq<Item>)
    requires Grows(xs, ys)
    ensures ErrorsOf(xs) <= ErrorsOf(ys)
    decreases |ys|
  {
    if |xs| < |ys| {
      GrowsErrors(xs, ys[..|ys| - 1]);
    } else if xs != [] {
      GrowsErrors(xs[..|xs| - 1], ys[..|ys| - 1]);
    }
  }

  lemma Pushed(items: seq<Item>, item: Item)
    ensures Grows(items, items + [item])
    ensures item.Error? && item.detail.None? ==> ErrorsOf(items + [item]) == ErrorsOf(items) + multiset{item.message}
  {
    assert (items + [item])[..|items|] == items;
  }

  lemma Rewritten(items: seq<Item>, index: nat, item: Item)
    requires index < |items| && !items[index].Error?
    ensures Grows(items, items[index := item])
  {
  }

  lemma TextGrows(t: Transcript, role: Role, messageId: Option<string>, text: string, parent: Option<string>,
                  depth: Option<int>, atMs: Option<int>, images: seq<string>)
    requires Ranged(t)
    ensures Grows(t.items, AppendText(t, role, messageId, text, parent, depth, atMs, images).items)
  {
    hide BlockKeyOf, PlaceText, Grows;
    PlacedTextGrows(CountAnonymous(PrepareRole(t, role), role, messageId, parent), BlockKeyOf(PrepareRole(t, role), role, messageId, parent),
                    role, messageId, text, parent, depth, atMs, images);
  }

  lemma OpenedGrows(t: Transcript, key: BlockKey, item: Item, a: ActiveKey)
    requires item.Text?
    ensures Grows(t.items, OpenBlock(t, key, item, a).items)
  {
    Pushed(t.items, item);
  }

  lemma JoinedGrows(t: Transcript, key: BlockKey, text: string, atMs: Option<int>, images: seq<string>, a: ActiveKey)
    requires Ranged(t) && key in t.blocks && t.items[t.blocks[key]].Text?
    ensures Grows(t.items, JoinBlock(t, key, text, atMs, images, a).items)
  {
    hide Join;
    Rewritten(t.items, t.blocks[key], Join(t.items[t.blocks[key]], text, atMs, images));
  }

  lemma PlacedTextGrows(t: Transcript, key: BlockKey, role: Role, messageId: Option<string>, text: string, parent: Option<string>,
                        depth: Option<int>, atMs: Option<int>, images: seq<string>)
    requires Ranged(t)
    ensures Grows(t.items, PlaceText(t, key, role, messageId, text, parent, depth, atMs, images).items)
  {
    hide OpenBlock, JoinBlock, NewText, Grows;
    var a := ActiveKey(role, parent.GetOr(""));
    Same(t.items);
    if key !in t.blocks {
      OpenedGrows(t, key, NewText(NextId(t, RoleName(role)), role, messageId, text, parent, depth, atMs, images), a);
    } else if t.items[t.blocks[key]].Text? {
      JoinedGrows(t, key, text, atMs, images, a);
    }
  }

  lemma Same(items: seq<Item>)
    ensures Grows(items, items)
  {
  }

  lemma PlacedToolGrows(t: Transcript, key: BlockKey, id: string, title: string, status: string, output: string, f: ToolFields)
    requires Ranged(t)
    ensures Grows(t.items, PlaceTool(t, key, id, title, status, output, f).items)
  {
    hide ShellFields, Grows;
    Same(t.items);
    if key !in t.blocks {
      Pushed(t.items, Tool(NextId(t, "tool"), id, title, output, status, ShellFields(f)));
    } else if t.items[t.blocks[key]].Tool? {
      var item := t.items[t.blocks[key]];
      Rewritten(t.items, t.blocks[key], item.(status := status, title := if title != "" then title else item.title));
    }
  }

  lemma ToolGrows(t: Transcript, id: string, title: string, status: string, output: string, f: ToolFields)
    requires Ranged(t)
    ensures Grows(t.items, AppendTool(t, id, title, status, output, f).items)
  {
    hide PlaceTool, Grows;
    var key := ToolKeyOf(t, id);
    PlacedToolGrows(t, key, id, title, status, output, f);
    PlacedToolGrows(CloseActiveBlocks(t), key, id, title, status, output, f);
  }

  lemma CallGrows(t: Transcript, id: string, title: string, status: string, f: ToolFields)
    requires Ranged(t)
    ensures Grows(t.items, HandleToolCall(t, id, title, status, f).items)
  {
    hide AppendTool, StartsNewToolRow, Grows;
    ToolGrows(if StartsNewToolRow(t, id) then EnsureTurn(t.(toolRows := t.toolRows - {id})) else t, id, title, status, "", f);
  }

  lemma UpdateGrows(t: Transcript, id: string, status: Option<string>, text: Option<string>, title: Option<string>,
                    replace: bool, f: ToolFields)
    requires Ranged(t)
    ensures Grows(t.items, UpdateTool(t, id, status, text, title, replace, f).items)
  {
    hide AppendTool, Patched, Grows;
    var key := ToolKeyOf(t, id);
    Same(t.items);
    if key !in t.blocks {
      forall shown, state, output ensures Grows(t.items, AppendTool(t, id, shown, state, output, f).items) {
        ToolGrows(t, id, shown, state, output, f);
      }
    } else if t.items[t.blocks[key]].Tool? {
      Rewritten(t.items, t.blocks[key], Patched(t.items[t.blocks[key]], status, text, title, replace, f));
    }
  }

  lemma {:induction false} TaskRowsGrow(t: Transcript, rows: seq<string>)
    requires Ranged(t)
    ensures Grows(t.items, AppendTaskRows(t, rows).items)
    decreases |rows|
  {
    if rows != [] {
      Pushed(t.items, System(NextId(t, "system"), rows[0], false));
      TaskRowsGrow(AppendSystem(t, rows[0], false), rows[1..]);
    }
  }

  lemma UserGrows(t: Transcript, e: Event)
    requires Ranged(t) && e.UserMessage?
    ensures Grows(t.items, HandleUserMessage(t, e).items)
  {
    hide AppendComposer, AppendSystem, AppendCard, Grows;
    ComposerGrows(t, e.messageId, e.text, e.atMs, e.images);
    SystemGrows(t, e.text, false);
    CardGrows(t, OutgoingCard(e.text));
    if e.card.Some? { CardGrows(t, e.card.value); }
  }

  lemma ComposerGrows(t: Transcript, messageId: Option<string>, text: string, atMs: Option<int>, images: seq<string>)
    requires Ranged(t)
    ensures Grows(t.items, AppendComposer(t, messageId, text, atMs, images).items)
  {
    hide AppendText, Grows;
    TextGrows(CloseActiveBlocks(EnsureTurn(t)), User, messageId, text, None, None, atMs, images);
  }

  lemma SystemGrows(t: Transcript, notice: string, warning: bool)
    ensures Grows(t.items, AppendSystem(t, notice, warning).items)
  {
    hide Grows;
    Pushed(t.items, System(NextId(t, "system"), notice, warning));
  }

  lemma CardGrows(t: Transcript, card: Card)
    ensures Grows(t.items, AppendCard(t, card).items)
  {
    hide Grows, CardPrefix;
    Pushed(t.items, CardRow(NextId(t, CardPrefix(card)), card));
  }

  lemma RowsGrow(t: Transcript, e: Event)
    requires Ranged(t)
    ensures Grows(t.items, WriteRows(t, e).items)
  {
    hide AppendText, AppendTaskRows, HandleUserMessage, HandleToolCall, UpdateTool, Grows;
    Same(t.items);
    match e
    case UserMessage(_, _, _, _, _, _, _) => UserGrows(t, e);
    case AgentMessage(messageId, text, parent, depth, images) =>
      TextGrows(EnsureTurn(t), Assistant, messageId, text, parent, depth, None, images);
    case AgentThought(messageId, text, parent, depth) =>
      TextGrows(EnsureTurn(t), Thought, messageId, text, parent, depth, None, []);
    case SessionNotice(text, warning) => Pushed(t.items, System(NextId(t, "system"), text, warning));
    case ToolCall(id, title, status, fields) => CallGrows(t, id, title, status, CallFields(fields));
    case ToolUpdate(id, status, output, title, replace, fields) =>
      UpdateGrows(if id in t.toolRows then t else EnsureTurn(t), id, status, output, title, replace, PatchFields(fields));
    case TasksSnapshot(rows) => TaskRowsGrow(t, rows);
    case _ =>
  }

  /** Every frame counted as shown has an error row with its text. */
  ghost predicate Recorded(s: Session) {
    s.errors.shown <= ErrorsOf(s.t.items)
  }

  lemma StillRecorded(s: Session, s': Session)
    requires Recorded(s) && Grows(s.t.items, s'.t.items) && s'.errors.shown == s.errors.shown
    ensures Recorded(s')
  {
    GrowsErrors(s.t.items, s'.t.items);
  }

  lemma ResolvedRecorded(s: Session, text: string)
    requires Ranged(s.t) && Recorded(s)
    ensures Recorded(ResolveFrame(s, text))
  {
    hide RemoveFirst;
    Pushed(s.t.items, Error(NextId(s.t, "error"), text, None));
  }

  lemma {:induction false} AllRecorded(s: Session, frames: seq<string>)
    requires Ranged(s.t) && Recorded(s)
    ensures Recorded(ResolveFrames(s, frames))
    decreases |frames|
  {
    hide Recorded, ResolveFrame;
    if frames != [] {
      ResolvedRecorded(s, frames[0]);
      AllRecorded(ResolveFrame(s, frames[0]), frames[1..]);
    }
  }

  lemma ErrorRecorded(s: Session, t: Transcript, message: string, detail: Option<string>)
    requires Recorded(s) && t.items == s.t.items
    ensures Grows(s.t.items, NoteError(t, message, detail).items)
  {
    Pushed(t.items, Error(NextId(t, "error"), message, detail));
  }

  lemma EventRecorded(s: Session, e: Event)
    requires Ranged(s.t) && Recorded(s) && !e.Reset?
    ensures Recorded(HandleEvent(s, e))
  {
    hide WriteRows, StampTurnEnd, Grows, ErrorText, ResolveFrame;
    if e.AgentError? {
      var s0 := s.(errors := s.errors.(received := s.errors.received + multiset{ErrorText(e.message)}));
      assert Recorded(s0);
      ResolvedRecorded(s0, ErrorText(e.message));
    } else {
      var s' := HandleEvent(s, e);
      EventGrows(s, e);
      EventShowsNothing(s, e);
      StillRecorded(s, s');
    }
  }

  lemma EventShowsNothing(s: Session, e: Event)
    requires Ranged(s.t) && !e.Reset? && !e.AgentError?
    ensures HandleEvent(s, e).errors.shown == s.errors.shown
  {
    hide HandleEvent;
    OtherFrames(s, e);
  }

  lemma EventGrows(s: Session, e: Event)
    requires Ranged(s.t) && Recorded(s) && !e.Reset? && !e.AgentError?
    ensures Grows(s.t.items, HandleEvent(s, e).t.items)
  {
    hide WriteRows, StampTurnEnd, Grows, NoteError, UNKNOWN_EVENT, TAKEN_OVER, STOPPED_MID_TURN, RECOVERED_SESSION_UNAVAILABLE;
    Same(s.t.items);
    if e.AgentFinished? {
      StampGrows(s.t.items, e.stopReason, TurnWorkedMs(e.finishedAt, s.t.items, s.life.startedAt, e.now));
    } else if e.Exit? || e.Recovered? || e.Detached? || e.UnknownEvent? {
      var message := if e.Exit? then STOPPED_MID_TURN else if e.Recovered? then RECOVERED_SESSION_UNAVAILABLE
                     else if e.Detached? then TAKEN_OVER else UNKNOWN_EVENT + e.name + ".";
      ErrorRecorded(s, CloseActiveBlocks(s.t.(turnOpen := false)), message, None);
    } else {
      RowsGrow(s.t, e);
    }
  }

  lemma StampGrows(items: seq<Item>, reason: string, worked: Option<int>)
    ensures Grows(items, StampTurnEnd(items, reason, worked))
  {
  }

  lemma SettleRecorded(s: Session, op: Op)
    requires Ranged(s.t) && Recorded(s) && s.errors.sendDepth > 0 && (op.SendDone? || op.SendFailed?)
    ensures Recorded(Step(s, op))
  {
    hide ResolveFrames, NoteError, SEND_FAILED, Grows;
    var s0 := Settle(s);
    var s1 := if op.SendFailed? then s0.(errors := NoteRejection(s0.errors, op.detail.GetOr(op.sentence)))
              else if !op.turnActive && !op.joined && s0.errors.sendDepth == 0
              then s0.(t := s0.t.(turnOpen := false), life := SetStatus(s0.life, Idle, false)) else s0;
    AllRecorded(s1.(errors := s1.errors.(held := [])), s1.errors.held);
    var s2 := ResolveHeld(s1);
    if op.SendFailed? {
      ErrorRecorded(s2, s2.t, SEND_FAILED + op.sentence, op.detail);
      ErrorRecorded(s2, CloseActiveBlocks(s2.t.(turnOpen := false)), SEND_FAILED + op.sentence, op.detail);
      StillRecorded(s2, Step(s, op));
    }
  }

  lemma StepRecorded(s: Session, op: Op)
    requires Ranged(s.t) && Recorded(s) && !(op.Receive? && op.event.Reset?)
    ensures Recorded(Step(s, op))
  {
    if op.Receive? {
      EventRecorded(s, op.event);
    } else if (op.SendDone? || op.SendFailed?) && s.errors.sendDepth > 0 {
      SettleRecorded(s, op);
    } else {
      OtherRecorded(s, op);
    }
  }

  lemma OtherRecorded(s: Session, op: Op)
    requires Ranged(s.t) && Recorded(s) && !op.Receive? && !((op.SendDone? || op.SendFailed?) && s.errors.sendDepth > 0)
    ensures Recorded(Step(s, op))
  {
    hide NoteError, ATTACH_FAILED, ATTACH_INVALID, Grows, ErrorsOf, Deliver;
    Same(s.t.items);
    if op.AttachReply? {
      ErrorRecorded(s, CloseActiveBlocks(s.t.(turnOpen := false)), ATTACH_INVALID, None);
    } else if op.AttachFailed? {
      ErrorRecorded(s, CloseActiveBlocks(s.t.(turnOpen := false)), ATTACH_FAILED + op.sentence, op.detail);
    } else if op.SwitchRefused? {
      ErrorRecorded(s, s.t, op.sentence, op.detail);
    }
    StillRecorded(s, Step(s, op));
  }

  /** While the history is never replaced, every frame counted as shown is an error row of the
      transcript, as often as it was shown. */
  lemma {:induction false} ShownAreErrorRows(ops: seq<Op>)
    requires forall op :: op in ops ==> !(op.Receive? && op.event.Reset?)
    ensures Run(ops).errors.shown <= ErrorsOf(Run(ops).t.items)
  {
    if ops != [] {
      hide Step;
      ShownAreErrorRows(ops[..|ops| - 1]);
      assert ops[|ops| - 1] in ops;
      StepRecorded(Run(ops[..|ops| - 1]), ops[|ops| - 1]);
    }
  }
}
