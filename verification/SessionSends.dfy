/**
 A reset while a send is in flight: the error frames of the tail are held where a fresh
 session shows them, and nothing else of the transcript's state depends on them.
 */
module SessionSends {
  import opened Basics
  import opened Transcripts
  import opened TranscriptInvariants
  import opened Sessions
  import opened SessionRuns
  import opened SessionReset

  /* ----- Transcripts that differ in error rows only ----- */

  /** The status of the row a tool block names. */
  function StatusAt(items: seq<Item>, blocks: map<BlockKey, nat>, key: BlockKey): Option<string> {
    if key in blocks && blocks[key] < |items| && items[blocks[key]].Tool? then Some(items[blocks[key]].status) else None
  }

  ghost predicate SameStatuses(xs: seq<Item>, a: map<BlockKey, nat>, ys: seq<Item>, b: map<BlockKey, nat>) {
    forall k :: k in a && k.ToolKey? ==> StatusAt(xs, a, k) == StatusAt(ys, b, k)
  }

  /** `b` has `extra` rows more than `a`, and decides alike where the next rows go. */
  ghost predicate Longer(extra: nat, a: Transcript, b: Transcript) {
    && |b.items| == |a.items| + extra && a.blocks.Keys == b.blocks.Keys && SameStatuses(a.items, a.blocks, b.items, b.blocks)
    && b.toolRows == a.toolRows && b.activeBlocks == a.activeBlocks && b.activeRole == a.activeRole
    && b.nextAnonymous == a.nextAnonymous && b.turn == a.turn && b.turnOpen == a.turnOpen
  }

  /** Blocks find the rows their keys name. */
  ghost predicate Found(t: Transcript) {
    BlockNames(t.items, t.blocks) && BlocksApart(t.blocks)
  }

  lemma PushLonger(extra: nat, a: Transcript, b: Transcript, x: Item, y: Item)
    requires Longer(extra, a, b) && Found(a) && Found(b)
    ensures Longer(extra, Push(a, x), Push(b, y)) && Longer(extra + 1, a, Push(b, y))
  {
  }

  lemma TurnLonger(extra: nat, a: Transcript, b: Transcript)
    requires Longer(extra, a, b)
    ensures Longer(extra, CloseActiveBlocks(a), CloseActiveBlocks(b)) && Longer(extra, EnsureTurn(a), EnsureTurn(b))
    ensures Longer(extra, CloseActiveBlocks(a.(turnOpen := false)), CloseActiveBlocks(b.(turnOpen := false)))
  {
  }

  lemma ErrorLonger(extra: nat, a: Transcript, b: Transcript, message: string, detail: Option<string>)
    requires Longer(extra, a, b) && Found(a) && Found(b)
    ensures Longer(extra, EndWithError(a, message, detail), EndWithError(b, message, detail))
    ensures Longer(extra + 1, a, NoteError(b, message, detail))
  {
    hide Longer;
    TurnLonger(extra, a, b);
    PushLonger(extra, a, b, Error(NextId(a, "error"), message, detail), Error(NextId(b, "error"), message, detail));
    PushLonger(extra, CloseActiveBlocks(a.(turnOpen := false)), CloseActiveBlocks(b.(turnOpen := false)),
               Error(NextId(a, "error"), message, detail), Error(NextId(b, "error"), message, detail));
  }

  /* ----- Text ----- */

  lemma RewrittenText(t: Transcript, index: nat, item: Item)
    requires Found(t) && index < |t.items| && t.items[index].Text? && item.Text?
    ensures SameStatuses(t.items, t.blocks, t.items[index := item], t.blocks)
  {
  }

  lemma JoinLonger(extra: nat, a: Transcript, b: Transcript, key: BlockKey, text: string, atMs: Option<int>, images: seq<string>, active: ActiveKey)
    requires Longer(extra, a, b) && Found(a) && Found(b) && key in a.blocks && key.TextKey?
    ensures Ranged(a) && Ranged(b) && a.items[a.blocks[key]].Text? && b.items[b.blocks[key]].Text?
    ensures Longer(extra, JoinBlock(a, key, text, atMs, images, active), JoinBlock(b, key, text, atMs, images, active))
  {
    hide Join, StatusAt;
    assert Names(key, a.items[a.blocks[key]]) && Names(key, b.items[b.blocks[key]]);
    var x, y := Join(a.items[a.blocks[key]], text, atMs, images), Join(b.items[b.blocks[key]], text, atMs, images);
    JoinIsText(a.items[a.blocks[key]], text, atMs, images);
    JoinIsText(b.items[b.blocks[key]], text, atMs, images);
    RewrittenText(a, a.blocks[key], x);
    RewrittenText(b, b.blocks[key], y);
  }

  lemma JoinIsText(item: Item, text: string, atMs: Option<int>, images: seq<string>)
    requires item.Text?
    ensures Join(item, text, atMs, images).Text?
  {
  }

  lemma OpenLonger(extra: nat, a: Transcript, b: Transcript, key: BlockKey, x: Item, y: Item, active: ActiveKey)
    requires Longer(extra, a, b) && Found(a) && Found(b) && key !in a.blocks && key.TextKey? && x.Text? && y.Text?
    ensures Longer(extra, OpenBlock(a, key, x, active), OpenBlock(b, key, y, active))
  {
  }

  lemma TextLonger(extra: nat, a: Transcript, b: Transcript, role: Role, messageId: Option<string>, text: string, parent: Option<string>,
                   depth: Option<int>, atMs: Option<int>, images: seq<string>)
    requires Longer(extra, a, b) && Inv(a) && Inv(b)
    ensures Ranged(a) && Ranged(b)
    ensures Longer(extra, AppendText(a, role, messageId, text, parent, depth, atMs, images),
                   AppendText(b, role, messageId, text, parent, depth, atMs, images))
  {
    hide Inv, Longer, Found, BlockKeyOf, PlaceText;
    Finds(a);
    Finds(b);
    RouteLonger(extra, a, b, role, messageId, parent);
    RouteFound(a, role, messageId, parent);
    RouteFound(b, role, messageId, parent);
    PlaceLonger(extra, CountAnonymous(PrepareRole(a, role), role, messageId, parent), CountAnonymous(PrepareRole(b, role), role, messageId, parent),
                BlockKeyOf(PrepareRole(a, role), role, messageId, parent), role, messageId, text, parent, depth, atMs, images);
  }

  lemma RouteLonger(extra: nat, a: Transcript, b: Transcript, role: Role, messageId: Option<string>, parent: Option<string>)
    requires Longer(extra, a, b)
    ensures Longer(extra, CountAnonymous(PrepareRole(a, role), role, messageId, parent), CountAnonymous(PrepareRole(b, role), role, messageId, parent))
    ensures BlockKeyOf(PrepareRole(a, role), role, messageId, parent) == BlockKeyOf(PrepareRole(b, role), role, messageId, parent)
  {
    hide Longer, BlockKeyOf, CountAnonymous, PrepareRole;
    PreparedLonger(extra, a, b, role);
    CountedLonger(extra, PrepareRole(a, role), PrepareRole(b, role), role, messageId, parent);
  }

  lemma PreparedLonger(extra: nat, a: Transcript, b: Transcript, role: Role)
    requires Longer(extra, a, b)
    ensures Longer(extra, PrepareRole(a, role), PrepareRole(b, role))
  {
    hide SameStatuses;
  }

  lemma CountedLonger(extra: nat, a: Transcript, b: Transcript, role: Role, messageId: Option<string>, parent: Option<string>)
    requires Longer(extra, a, b)
    ensures Longer(extra, CountAnonymous(a, role, messageId, parent), CountAnonymous(b, role, messageId, parent))
    ensures BlockKeyOf(a, role, messageId, parent) == BlockKeyOf(b, role, messageId, parent)
  {
    hide SameStatuses;
  }

  lemma RouteFound(t: Transcript, role: Role, messageId: Option<string>, parent: Option<string>)
    requires Inv(t)
    ensures Found(CountAnonymous(PrepareRole(t, role), role, messageId, parent))
    ensures var key := BlockKeyOf(PrepareRole(t, role), role, messageId, parent); key.TextKey? && key.role == role
  {
    RouteKeeps(t, role, messageId, parent);
  }

  lemma PlaceLonger(extra: nat, a: Transcript, b: Transcript, key: BlockKey, role: Role, messageId: Option<string>, text: string,
                    parent: Option<string>, depth: Option<int>, atMs: Option<int>, images: seq<string>)
    requires Longer(extra, a, b) && Found(a) && Found(b) && key.TextKey? && key.role == role
    ensures Ranged(a) && Ranged(b)
    ensures Longer(extra, PlaceText(a, key, role, messageId, text, parent, depth, atMs, images),
                   PlaceText(b, key, role, messageId, text, parent, depth, atMs, images))
  {
    hide JoinBlock, OpenBlock, NewText, SameStatuses, BlocksApart;
    var active := ActiveKey(role, parent.GetOr(""));
    if key in a.blocks {
      assert key in b.blocks.Keys;
      assert Names(key, a.items[a.blocks[key]]) && Names(key, b.items[b.blocks[key]]);
      JoinLonger(extra, a, b, key, text, atMs, images, active);
    } else {
      assert key !in b.blocks.Keys;
      OpenLonger(extra, a, b, key, NewText(NextId(a, RoleName(role)), role, messageId, text, parent, depth, atMs, images),
                 NewText(NextId(b, RoleName(role)), role, messageId, text, parent, depth, atMs, images), active);
    }
  }

  /* ----- Tools ----- */

  lemma NewToolLonger(extra: nat, a: Transcript, b: Transcript, key: BlockKey, x: Item, y: Item)
    requires Longer(extra, a, b) && Found(a) && Found(b) && key !in a.blocks
    requires x.Tool? && y.Tool? && x.status == y.status && x.toolCallId == y.toolCallId
    ensures Longer(extra, AddToolRow(a, key, x), AddToolRow(b, key, y))
  {
  }

  lemma RewriteToolLonger(extra: nat, a: Transcript, b: Transcript, key: BlockKey, x: Item, y: Item)
    requires Longer(extra, a, b) && Found(a) && Found(b) && key in a.blocks
    requires x.Tool? && y.Tool? && x.status == y.status
    ensures key in b.blocks && a.blocks[key] < |a.items| && b.blocks[key] < |b.items|
    ensures Longer(extra, a.(items := a.items[a.blocks[key] := x]), b.(items := b.items[b.blocks[key] := y]))
  {
    assert key in b.blocks.Keys;
  }

  lemma ToolAt(t: Transcript, key: BlockKey)
    requires Found(t) && key in t.blocks && key.ToolKey?
    ensures t.blocks[key] < |t.items| && t.items[t.blocks[key]].Tool? && StatusAt(t.items, t.blocks, key) == Some(t.items[t.blocks[key]].status)
  {
    assert Names(key, t.items[t.blocks[key]]);
  }

  lemma PlaceToolLonger(extra: nat, a: Transcript, b: Transcript, key: BlockKey, id: string, title: string, status: string,
                        output: string, f: ToolFields)
    requires Longer(extra, a, b) && Found(a) && Found(b) && key.ToolKey?
    ensures Ranged(a) && Ranged(b)
    ensures Longer(extra, PlaceTool(a, key, id, title, status, output, f), PlaceTool(b, key, id, title, status, output, f))
  {
    hide ShellFields, AddToolRow, SameStatuses, BlocksApart;
    if key in a.blocks {
      assert key in b.blocks.Keys;
      ToolAt(a, key);
      ToolAt(b, key);
      var x, y := a.items[a.blocks[key]], b.items[b.blocks[key]];
      RewriteToolLonger(extra, a, b, key, x.(status := status, title := if title != "" then title else x.title),
                        y.(status := status, title := if title != "" then title else y.title));
    } else {
      assert key !in b.blocks.Keys;
      NewToolLonger(extra, a, b, key, Tool(NextId(a, "tool"), id, title, output, status, ShellFields(f)),
                    Tool(NextId(b, "tool"), id, title, output, status, ShellFields(f)));
    }
  }

  ghost predicate ToolsKnown(t: Transcript) {
    forall id :: id in t.toolRows ==> t.toolRows[id] in t.blocks && t.toolRows[id].ToolKey?
  }

  lemma ToolLonger(extra: nat, a: Transcript, b: Transcript, id: string, title: string, status: string, output: string, f: ToolFields)
    requires Longer(extra, a, b) && Found(a) && Found(b) && ToolsKnown(a)
    ensures Ranged(a) && Ranged(b)
    ensures Longer(extra, AppendTool(a, id, title, status, output, f), AppendTool(b, id, title, status, output, f))
  {
    hide PlaceTool;
    TurnLonger(extra, a, b);
    var key := ToolKeyOf(a, id);
    PlaceToolLonger(extra, a, b, key, id, title, status, output, f);
    PlaceToolLonger(extra, CloseActiveBlocks(a), CloseActiveBlocks(b), key, id, title, status, output, f);
  }

  /** What is known of a transcript every run reaches. */
  lemma Known(t: Transcript)
    requires Inv(t)
    ensures Ranged(t) && Found(t) && ToolsKnown(t)
  {
  }

  lemma StartsAlike(extra: nat, a: Transcript, b: Transcript, id: string)
    requires Longer(extra, a, b) && Found(a) && Found(b) && ToolsKnown(a)
    ensures Ranged(a) && Ranged(b) && StartsNewToolRow(a, id) == StartsNewToolRow(b, id)
  {
    if id in a.toolRows {
      var key := a.toolRows[id];
      assert key in b.blocks.Keys;
      ToolAt(a, key);
      ToolAt(b, key);
    }
  }

  lemma CallLonger(extra: nat, a: Transcript, b: Transcript, id: string, title: string, status: string, f: ToolFields)
    requires Longer(extra, a, b) && Inv(a) && Inv(b)
    ensures Ranged(a) && Ranged(b)
    ensures Longer(extra, HandleToolCall(a, id, title, status, f), HandleToolCall(b, id, title, status, f))
  {
    hide Inv, AppendTool, StartsNewToolRow, Longer, Found, ToolsKnown;
    Known(a);
    Known(b);
    StartsAlike(extra, a, b, id);
    if StartsNewToolRow(a, id) {
      FreedLonger(extra, a, b, id);
      ToolLonger(extra, EnsureTurn(a.(toolRows := a.toolRows - {id})), EnsureTurn(b.(toolRows := b.toolRows - {id})), id, title, status, "", f);
    } else {
      ToolLonger(extra, a, b, id, title, status, "", f);
    }
  }

  lemma FreedLonger(extra: nat, a: Transcript, b: Transcript, id: string)
    requires Longer(extra, a, b) && Found(a) && Found(b) && ToolsKnown(a)
    ensures var a', b' := EnsureTurn(a.(toolRows := a.toolRows - {id})), EnsureTurn(b.(toolRows := b.toolRows - {id}));
            Longer(extra, a', b') && Found(a') && Found(b') && ToolsKnown(a')
  {
    hide SameStatuses, BlockNames, BlocksApart;
  }

  lemma EnsuredLonger(extra: nat, a: Transcript, b: Transcript)
    requires Longer(extra, a, b) && Found(a) && Found(b) && ToolsKnown(a)
    ensures Longer(extra, EnsureTurn(a), EnsureTurn(b)) && Found(EnsureTurn(a)) && Found(EnsureTurn(b)) && ToolsKnown(EnsureTurn(a))
    ensures a.toolRows == b.toolRows
  {
    hide SameStatuses, BlockNames, BlocksApart;
  }

  lemma PatchIsTool(item: Item, status: Option<string>, text: Option<string>, title: Option<string>, replace: bool, f: ToolFields)
    requires item.Tool?
    ensures Patched(item, status, text, title, replace, f).Tool?
    ensures Patched(item, status, text, title, replace, f).status == status.GetOr(item.status)
  {
  }

  lemma PatchLonger(extra: nat, a: Transcript, b: Transcript, id: string, status: Option<string>, text: Option<string>,
                    title: Option<string>, replace: bool, f: ToolFields)
    requires Longer(extra, a, b) && Found(a) && Found(b) && ToolsKnown(a)
    ensures Ranged(a) && Ranged(b)
    ensures Longer(extra, UpdateTool(a, id, status, text, title, replace, f), UpdateTool(b, id, status, text, title, replace, f))
  {
    hide AppendTool, Patched, BlocksApart;
    var key := ToolKeyOf(a, id);
    if key in a.blocks {
      assert key in b.blocks.Keys;
      ToolAt(a, key);
      ToolAt(b, key);
      var x, y := a.items[a.blocks[key]], b.items[b.blocks[key]];
      PatchIsTool(x, status, text, title, replace, f);
      PatchIsTool(y, status, text, title, replace, f);
      assert x.status == y.status;
      RewriteToolLonger(extra, a, b, key, Patched(x, status, text, title, replace, f), Patched(y, status, text, title, replace, f));
    } else {
      assert key !in b.blocks.Keys;
      forall shown, state, output
        ensures Ranged(a) && Ranged(b)
        ensures Longer(extra, AppendTool(a, id, shown, state, output, f), AppendTool(b, id, shown, state, output, f))
      {
        ToolLonger(extra, a, b, id, shown, state, output, f);
      }
    }
  }

  lemma UpdateLonger(extra: nat, a: Transcript, b: Transcript, id: string, status: Option<string>, text: Option<string>,
                     title: Option<string>, replace: bool, f: ToolFields)
    requires Longer(extra, a, b) && Inv(a) && Inv(b)
    ensures Ranged(a) && Ranged(b)
    ensures Longer(extra, HandleToolUpdate(a, id, status, text, title, replace, f), HandleToolUpdate(b, id, status, text, title, replace, f))
  {
    hide Inv, UpdateTool, Longer, Found, ToolsKnown;
    Known(a);
    Known(b);
    EnsuredLonger(extra, a, b);
    PatchLonger(extra, if id in a.toolRows then a else EnsureTurn(a), if id in b.toolRows then b else EnsureTurn(b),
                id, status, text, title, replace, f);
  }

  /* ----- Frames ----- */

  lemma StampedTools(t: Transcript, reason: string, worked: Option<int>)
    requires Found(t)
    ensures SameStatuses(t.items, t.blocks, StampTurnEnd(t.items, reason, worked), t.blocks)
  {
    hide Found, StatusAt, Stamped;
    var index := StampRow(t.items, |t.items|);
    if index >= 0 {
      StampIsText(t.items[index], reason, worked);
      RewrittenText(t, index, Stamped(t.items[index], reason, worked));
    }
  }

  lemma StampIsText(item: Item, reason: string, worked: Option<int>)
    requires item.Text?
    ensures Stamped(item, reason, worked).Text?
  {
  }

  lemma FinishLonger(extra: nat, a: Transcript, b: Transcript, finishedAt: Option<int>, reason: string, startedA: Option<int>,
                     startedB: Option<int>, now: int)
    requires Longer(extra, a, b) && Found(a) && Found(b)
    ensures Ranged(a) && Ranged(b)
    ensures Longer(extra, FinishTurn(a, finishedAt, reason, startedA, now), FinishTurn(b, finishedAt, reason, startedB, now))
  {
    hide StatusAt, StampTurnEnd, TurnWorkedMs;
    StampedTools(a, reason, TurnWorkedMs(finishedAt, a.items, startedA, now));
    StampedTools(b, reason, TurnWorkedMs(finishedAt, b.items, startedB, now));
  }

  lemma RowLonger(extra: nat, a: Transcript, b: Transcript, x: Item, y: Item)
    requires Longer(extra, a, b) && Found(a) && Found(b)
    ensures Longer(extra, Push(CloseActiveBlocks(a), x), Push(CloseActiveBlocks(b), y))
  {
    hide Longer;
    TurnLonger(extra, a, b);
    PushLonger(extra, CloseActiveBlocks(a), CloseActiveBlocks(b), x, y);
  }

  lemma CardLonger(extra: nat, a: Transcript, b: Transcript, card: Card)
    requires Longer(extra, a, b) && Found(a) && Found(b)
    ensures Longer(extra, AppendCard(a, card), AppendCard(b, card))
  {
    hide Longer, Found;
    RowLonger(extra, a, b, CardRow(NextId(a, CardPrefix(card)), card), CardRow(NextId(b, CardPrefix(card)), card));
  }

  lemma SystemLonger(extra: nat, a: Transcript, b: Transcript, notice: string, warning: bool)
    requires Longer(extra, a, b) && Found(a) && Found(b)
    ensures Longer(extra, AppendSystem(a, notice, warning), AppendSystem(b, notice, warning))
  {
    hide Longer, Found;
    RowLonger(extra, a, b, System(NextId(a, "system"), notice, warning), System(NextId(b, "system"), notice, warning));
  }

  lemma ComposerLonger(extra: nat, a: Transcript, b: Transcript, messageId: Option<string>, text: string, atMs: Option<int>, images: seq<string>)
    requires Longer(extra, a, b) && Inv(a) && Inv(b)
    ensures Ranged(a) && Ranged(b)
    ensures Longer(extra, AppendComposer(a, messageId, text, atMs, images), AppendComposer(b, messageId, text, atMs, images))
  {
    hide Inv, Longer, AppendText;
    Finds(a);
    Finds(b);
    CloseKeeps(a);
    CloseKeeps(b);
    CloseKeeps(EnsureTurn(a));
    CloseKeeps(EnsureTurn(b));
    TurnLonger(extra, a, b);
    TurnLonger(extra, EnsureTurn(a), EnsureTurn(b));
    TextLonger(extra, CloseActiveBlocks(EnsureTurn(a)), CloseActiveBlocks(EnsureTurn(b)), User, messageId, text, None, None, atMs, images);
  }

  lemma UserLonger(extra: nat, a: Transcript, b: Transcript, e: Event)
    requires Longer(extra, a, b) && Inv(a) && Inv(b) && e.UserMessage?
    ensures Ranged(a) && Ranged(b) && Longer(extra, HandleUserMessage(a, e), HandleUserMessage(b, e))
  {
    hide Inv, Longer, Found, AppendComposer, AppendSystem, AppendCard;
    Known(a);
    Known(b);
    ComposerLonger(extra, a, b, e.messageId, e.text, e.atMs, e.images);
    SystemLonger(extra, a, b, e.text, false);
    CardLonger(extra, a, b, OutgoingCard(e.text));
    if e.card.Some? { CardLonger(extra, a, b, e.card.value); }
  }

  lemma EnsuredKeeps(t: Transcript)
    requires Inv(t)
    ensures Inv(EnsureTurn(t))
  {
    CloseKeeps(t);
  }

  lemma RowsLonger(extra: nat, a: Transcript, b: Transcript, e: Event)
    requires Longer(extra, a, b) && Inv(a) && Inv(b) && !e.TasksSnapshot?
    ensures Ranged(a) && Ranged(b) && Longer(extra, WriteRows(a, e), WriteRows(b, e))
  {
    hide Inv, Longer, Found, HandleUserMessage, AppendText, HandleToolCall, HandleToolUpdate, AppendSystem;
    Known(a);
    Known(b);
    EnsuredKeeps(a);
    EnsuredKeeps(b);
    TurnLonger(extra, a, b);
    if e.UserMessage? {
      UserLonger(extra, a, b, e);
    } else if e.AgentMessage? {
      TextLonger(extra, EnsureTurn(a), EnsureTurn(b), Assistant, e.messageId, e.text, e.parent, e.depth, None, e.images);
    } else if e.AgentThought? {
      TextLonger(extra, EnsureTurn(a), EnsureTurn(b), Thought, e.messageId, e.text, e.parent, e.depth, None, []);
    } else if e.SessionNotice? {
      SystemLonger(extra, a, b, e.text, e.warning);
    } else if e.ToolCall? {
      CallLonger(extra, a, b, e.toolCallId, e.title, e.status, CallFields(e.fields));
    } else if e.ToolUpdate? {
      UpdateLonger(extra, a, b, e.toolCallId, e.newStatus, e.output, e.newTitle, e.replace, PatchFields(e.fields));
    }
  }

  /* ----- Tails ----- */

  /** A session with a send in flight, and one with none that has shown `extra` frames more. */
  ghost predicate Held(extra: nat, s: Session, r: Session) {
    && Inv(s.t) && Inv(r.t) && Longer(extra, s.t, r.t) && !s.link.disposed && !r.link.disposed
    && s.errors.sendDepth > 0 && r.errors.sendDepth == 0 && r.errors.rejections == []
  }

  /** A frame of a tail whose rows a reset does not decide. */
  predicate Plain(e: Event) {
    !e.Reset? && !e.TasksSnapshot?
  }

  function ErrorFrames(events: seq<Event>): nat {
    if events == [] then 0 else (if events[0].AgentError? then 1 else 0) + ErrorFrames(events[1..])
  }

  lemma ErrorHeld(extra: nat, s: Session, r: Session, e: Event)
    requires Held(extra, s, r) && e.AgentError?
    ensures Ranged(s.t) && Ranged(r.t)
    ensures var s', r' := HandleEvent(s, e), HandleEvent(r, e);
            && Longer(extra + 1, s'.t, r'.t) && !s'.link.disposed && !r'.link.disposed
            && s'.errors.sendDepth > 0 && r'.errors.sendDepth == 0 && r'.errors.rejections == []
  {
    hide Inv, Longer, Found, NoteError, ErrorText;
    Known(s.t);
    Known(r.t);
    ErrorLonger(extra, s.t, r.t, ErrorText(e.message), None);
  }

  lemma EndHeld(extra: nat, s: Session, r: Session, e: Event)
    requires Held(extra, s, r) && (e.AgentFinished? || e.Exit? || e.Recovered? || e.Detached? || e.UnknownEvent?)
    ensures Ranged(s.t) && Ranged(r.t)
    ensures Longer(extra, HandleEvent(s, e).t, HandleEvent(r, e).t)
    ensures HandleEvent(s, e).errors == s.errors && HandleEvent(r, e).errors == r.errors
    ensures HandleEvent(s, e).link == s.link && HandleEvent(r, e).link == r.link
  {
    hide Inv, Longer, Found, FinishTurn, EndWithError, UNKNOWN_EVENT, TAKEN_OVER, STOPPED_MID_TURN, RECOVERED_SESSION_UNAVAILABLE;
    Known(s.t);
    Known(r.t);
    TurnIs(extra, s.t, r.t);
    if e.AgentFinished? {
      FinishLonger(extra, s.t, r.t, e.finishedAt, e.stopReason, s.life.startedAt, r.life.startedAt, e.now);
    } else {
      ErrorLonger(extra, s.t, r.t,
                  if e.Exit? then STOPPED_MID_TURN else if e.Recovered? then RECOVERED_SESSION_UNAVAILABLE
                  else if e.Detached? then TAKEN_OVER else UNKNOWN_EVENT + e.name + ".", None);
    }
  }

  lemma TurnIs(extra: nat, a: Transcript, b: Transcript)
    requires Longer(extra, a, b)
    ensures a.turnOpen == b.turnOpen
  {
  }

  lemma FrameHeld(extra: nat, s: Session, r: Session, e: Event)
    requires Held(extra, s, r) && Plain(e) && !e.AgentError?
    requires !(e.AgentFinished? || e.Exit? || e.Recovered? || e.Detached? || e.UnknownEvent?)
    ensures Ranged(s.t) && Ranged(r.t)
    ensures Longer(extra, HandleEvent(s, e).t, HandleEvent(r, e).t)
    ensures HandleEvent(s, e).errors == s.errors && HandleEvent(r, e).errors == r.errors
    ensures !HandleEvent(s, e).link.disposed && !HandleEvent(r, e).link.disposed
  {
    hide Inv, Longer, Found, WriteRows, DropBuffered;
    Known(s.t);
    Known(r.t);
    RowsLonger(extra, s.t, r.t, e);
  }

  lemma EventHeld(extra: nat, s: Session, r: Session, e: Event)
    requires Held(extra, s, r) && Plain(e)
    ensures Ranged(s.t) && Ranged(r.t) && Held(extra + (if e.AgentError? then 1 else 0), HandleEvent(s, e), HandleEvent(r, e))
  {
    hide HandleEvent, Inv, Longer;
    EventKeeps(s, e);
    EventKeeps(r, e);
    if e.AgentError? {
      ErrorHeld(extra, s, r, e);
    } else if e.AgentFinished? || e.Exit? || e.Recovered? || e.Detached? || e.UnknownEvent? {
      EndHeld(extra, s, r, e);
    } else {
      FrameHeld(extra, s, r, e);
    }
  }

  lemma {:induction false} EventsHeld(extra: nat, s: Session, r: Session, events: seq<Event>)
    requires Held(extra, s, r) && forall e :: e in events ==> Plain(e)
    ensures Ranged(s.t) && Ranged(r.t) && Held(extra + ErrorFrames(events), HandleEvents(s, events), HandleEvents(r, events))
    decreases |events|
  {
    hide Held, HandleEvent;
    HeldRanged(extra, s, r);
    if events != [] {
      EventHeld(extra, s, r, events[0]);
      EventsHeld(extra + (if events[0].AgentError? then 1 else 0), HandleEvent(s, events[0]), HandleEvent(r, events[0]), events[1..]);
    }
  }

  lemma HeldRanged(extra: nat, s: Session, r: Session)
    requires Held(extra, s, r)
    ensures Ranged(s.t) && Ranged(r.t) && |r.t.items| == |s.t.items| + extra
  {
    Known(s.t);
    Known(r.t);
  }

  lemma {:induction false} QuietTailAlike(s: Session, r: Session, events: seq<Event>)
    requires RowsAlike([], s, r) && forall e :: e in events ==> Plain(e) && !e.AgentError?
    ensures Ranged(s.t) && Ranged(r.t) && RowsAlike([], HandleEvents(s, events), HandleEvents(r, events))
    decreases |events|
  {
    hide RowsAlike, HandleEvent;
    RowsRanged(s, r);
    if events != [] {
      assert Plain(events[0]) && !events[0].AgentError?;
      RowsEventAlike([], s, r, events[0]);
      QuietTailAlike(HandleEvent(s, events[0]), HandleEvent(r, events[0]), events[1..]);
    }
  }

  lemma RowsRanged(s: Session, r: Session)
    requires RowsAlike([], s, r)
    ensures Ranged(s.t) && Ranged(r.t)
  {
  }

  lemma {:induction false} NoErrorFrames(events: seq<Event>)
    ensures ErrorFrames(events) == 0 <==> forall e :: e in events ==> !e.AgentError?
    decreases |events|
  {
    if events != [] {
      NoErrorFrames(events[1..]);
      assert events == [events[0]] + events[1..];
    }
  }

  /** Exactly as many rows are missing as the tail has error frames. */
  lemma MissingRows(s: Session, tail: seq<Event>)
    requires Ranged(s.t) && !s.link.disposed && s.errors.sendDepth > 0 && forall e :: e in tail ==> Plain(e)
    ensures |HandleEvents(FRESH, tail).t.items| == |HandleEvent(s, Reset(tail, true)).t.items| + ErrorFrames(tail)
  {
    hide HandleEvent, HandleEvents, Held, Inv;
    var base := ResetBase(s, true);
    ResetReplays(s, tail);
    ResetKeeps(s, true);
    FreshHeld(base);
    EventsHeld(0, base, FRESH, tail);
    HeldRanged(ErrorFrames(tail), HandleEvents(base, tail), HandleEvents(FRESH, tail));
  }

  lemma ResetReplays(s: Session, tail: seq<Event>)
    requires Ranged(s.t) && !s.link.disposed
    ensures HandleEvent(s, Reset(tail, true)) == HandleEvents(ResetBase(s, true), tail)
  {
  }

  lemma FreshHeld(base: Session)
    requires base.t == FRESH.t && Inv(base.t) && !base.link.disposed && base.errors.sendDepth > 0
    ensures Held(0, base, FRESH)
  {
  }

  lemma QuietTailIsFresh(s: Session, tail: seq<Event>)
    requires Ranged(s.t) && !s.link.disposed && forall e :: e in tail ==> Plain(e) && !e.AgentError?
    ensures HandleEvent(s, Reset(tail, true)).t == HandleEvents(FRESH, tail).t
  {
    hide HandleEvent, HandleEvents;
    var base := ResetBase(s, true);
    ResetReplays(s, tail);
    NothingInFront(base.t, FRESH.t);
    QuietTailAlike(base, FRESH, tail);
    NothingInFront(HandleEvents(base, tail).t, HandleEvents(FRESH, tail).t);
  }

  /** With a send in flight a complete tail leaves the transcript a fresh session gets from it
      exactly when no frame of it is an agent's error; otherwise as many rows are missing as
      it has error frames. */
  lemma ResetDuringSendIsFreshWhen(s: Session, tail: seq<Event>)
    requires Ranged(s.t) && !s.link.disposed && s.errors.sendDepth > 0 && forall e :: e in tail ==> Plain(e)
    ensures HandleEvent(s, Reset(tail, true)).t == HandleEvents(FRESH, tail).t <==> forall e :: e in tail ==> !e.AgentError?
    ensures |HandleEvents(FRESH, tail).t.items| == |HandleEvent(s, Reset(tail, true)).t.items| + ErrorFrames(tail)
  {
    hide HandleEvent, HandleEvents;
    MissingRows(s, tail);
    NoErrorFrames(tail);
    if forall e :: e in tail ==> !e.AgentError? { QuietTailIsFresh(s, tail); }
  }
}
