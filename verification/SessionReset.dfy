/**
 A reset replaces the transcript and replays a tail through the ordinary pipeline. With no
 send in flight the result is the transcript a fresh session gets from the same tail; an
 incomplete tail puts one marker row in front and moves every index and id number by one.
 */
module SessionReset {
  import opened Basics
  import opened Transcripts
  import opened Sessions

  function Renumber(item: Item, k: nat): Item {
    item.(id := ItemId(item.id.prefix, item.id.number + k))
  }

  /** `ys` is the rows `front`, then the rows `xs` renumbered past them. */
  ghost predicate RowsBehind(front: seq<Item>, xs: seq<Item>, ys: seq<Item>) {
    && |ys| == |front| + |xs|
    && (forall i :: 0 <= i < |front| ==> ys[i] == front[i])
    && (forall i :: 0 <= i < |xs| ==> ys[|front| + i] == Renumber(xs[i], |front|))
  }

  ghost predicate BlocksBehind(k: nat, a: map<BlockKey, nat>, b: map<BlockKey, nat>) {
    a.Keys == b.Keys && forall key :: key in a ==> b[key] == a[key] + k
  }

  ghost predicate Notices(front: seq<Item>) {
    forall i :: 0 <= i < |front| ==> front[i].System?
  }

  /** `b` is the transcript `a` behind the rows `front`. */
  ghost predicate Behind(front: seq<Item>, a: Transcript, b: Transcript) {
    && Notices(front) && RowsBehind(front, a.items, b.items) && BlocksBehind(|front|, a.blocks, b.blocks)
    && b.toolRows == a.toolRows && b.activeBlocks == a.activeBlocks && b.activeRole == a.activeRole
    && b.nextItemId == a.nextItemId + |front| && b.nextAnonymous == a.nextAnonymous
    && b.turn == a.turn && b.turnOpen == a.turnOpen && b.routed == a.routed
  }

  lemma NothingInFront(a: Transcript, b: Transcript)
    ensures Behind([], a, b) <==> a == b
  {
    if Behind([], a, b) {
      forall i | 0 <= i < |a.items| ensures a.items[i] == b.items[i] {
        assert b.items[0 + i] == Renumber(a.items[i], 0);
      }
      assert a.items == b.items;
      assert a.blocks == b.blocks;
    }
  }

  /* ----- Each operation keeps the relation ----- */

  lemma PushBehind(front: seq<Item>, a: Transcript, b: Transcript, x: Item, y: Item)
    requires Behind(front, a, b) && y == Renumber(x, |front|)
    ensures Behind(front, Push(a, x), Push(b, y))
  {
  }

  lemma BlockBehind(front: seq<Item>, a: Transcript, b: Transcript, key: BlockKey)
    requires Behind(front, a, b)
    ensures BlocksBehind(|front|, a.blocks[key := |a.items|], b.blocks[key := |b.items|])
  {
  }

  lemma RewriteBehind(front: seq<Item>, a: Transcript, b: Transcript, index: nat, x: Item, y: Item)
    requires Behind(front, a, b) && index < |a.items| && y == Renumber(x, |front|)
    ensures Behind(front, a.(items := a.items[index := x]), b.(items := b.items[|front| + index := y]))
  {
  }

  lemma TurnBehind(front: seq<Item>, a: Transcript, b: Transcript)
    requires Behind(front, a, b)
    ensures Behind(front, CloseActiveBlocks(a), CloseActiveBlocks(b))
    ensures Behind(front, EnsureTurn(a), EnsureTurn(b))
    ensures Behind(front, CloseActiveBlocks(a.(turnOpen := false)), CloseActiveBlocks(b.(turnOpen := false)))
  {
  }

  lemma SystemBehind(front: seq<Item>, a: Transcript, b: Transcript, notice: string, warning: bool)
    requires Behind(front, a, b)
    ensures Behind(front, AppendSystem(a, notice, warning), AppendSystem(b, notice, warning))
  {
    TurnBehind(front, a, b);
    PushBehind(front, CloseActiveBlocks(a), CloseActiveBlocks(b),
               System(NextId(a, "system"), notice, warning), System(NextId(b, "system"), notice, warning));
  }

  lemma CardBehind(front: seq<Item>, a: Transcript, b: Transcript, card: Card)
    requires Behind(front, a, b)
    ensures Behind(front, AppendCard(a, card), AppendCard(b, card))
  {
    TurnBehind(front, a, b);
    PushBehind(front, CloseActiveBlocks(a), CloseActiveBlocks(b),
               CardRow(NextId(a, CardPrefix(card)), card), CardRow(NextId(b, CardPrefix(card)), card));
  }

  lemma ErrorBehind(front: seq<Item>, a: Transcript, b: Transcript, message: string, detail: Option<string>)
    requires Behind(front, a, b)
    ensures Behind(front, NoteError(a, message, detail), NoteError(b, message, detail))
    ensures Behind(front, EndWithError(a, message, detail), EndWithError(b, message, detail))
  {
    var x, y := Error(NextId(a, "error"), message, detail), Error(NextId(b, "error"), message, detail);
    PushBehind(front, a, b, x, y);
    TurnBehind(front, a, b);
    PushBehind(front, CloseActiveBlocks(a.(turnOpen := false)), CloseActiveBlocks(b.(turnOpen := false)), x, y);
  }

  lemma PreparedBehind(front: seq<Item>, a: Transcript, b: Transcript, role: Role)
    requires Behind(front, a, b)
    ensures Behind(front, PrepareRole(a, role), PrepareRole(b, role))
  {
    hide RowsBehind, BlocksBehind, Notices;
  }

  lemma CountedBehind(front: seq<Item>, a: Transcript, b: Transcript, role: Role, messageId: Option<string>, parent: Option<string>)
    requires Behind(front, a, b)
    ensures Behind(front, CountAnonymous(a, role, messageId, parent), CountAnonymous(b, role, messageId, parent))
    ensures BlockKeyOf(a, role, messageId, parent) == BlockKeyOf(b, role, messageId, parent)
  {
  }

  lemma RoutedBehind(front: seq<Item>, a: Transcript, b: Transcript, role: Role, messageId: Option<string>, parent: Option<string>)
    requires Behind(front, a, b)
    ensures Behind(front, CountAnonymous(PrepareRole(a, role), role, messageId, parent),
                   CountAnonymous(PrepareRole(b, role), role, messageId, parent))
    ensures BlockKeyOf(PrepareRole(a, role), role, messageId, parent) == BlockKeyOf(PrepareRole(b, role), role, messageId, parent)
  {
    hide Behind, PrepareRole, CountAnonymous, BlockKeyOf;
    PreparedBehind(front, a, b, role);
    CountedBehind(front, PrepareRole(a, role), PrepareRole(b, role), role, messageId, parent);
  }

  lemma OpenBehind(front: seq<Item>, a: Transcript, b: Transcript, key: BlockKey, x: Item, y: Item, at: ActiveKey)
    requires Behind(front, a, b) && x.Text? && y == Renumber(x, |front|)
    ensures Behind(front, OpenBlock(a, key, x, at), OpenBlock(b, key, y, at))
  {
    PushBehind(front, a, b, x, y);
    BlockBehind(front, a, b, key);
    hide RowsBehind, BlocksBehind, Notices;
  }

  /** The row a key names, on both sides. */
  lemma RowBehind(front: seq<Item>, a: Transcript, b: Transcript, key: BlockKey)
    requires Behind(front, a, b) && Ranged(a) && Ranged(b)
    ensures key in a.blocks <==> key in b.blocks
    ensures key in a.blocks ==> b.blocks[key] == |front| + a.blocks[key]
    ensures key in a.blocks ==> b.items[b.blocks[key]] == Renumber(a.items[a.blocks[key]], |front|)
  {
  }

  lemma JoinBehind(front: seq<Item>, a: Transcript, b: Transcript, key: BlockKey, text: string, atMs: Option<int>,
                   images: seq<string>, at: ActiveKey)
    requires Behind(front, a, b) && Ranged(a) && Ranged(b)
    requires key in a.blocks && key in b.blocks && a.items[a.blocks[key]].Text? && b.items[b.blocks[key]].Text?
    ensures Behind(front, JoinBlock(a, key, text, atMs, images, at), JoinBlock(b, key, text, atMs, images, at))
  {
    RowBehind(front, a, b, key);
    var x, y := a.items[a.blocks[key]], b.items[b.blocks[key]];
    RewriteBehind(front, a, b, a.blocks[key], Join(x, text, atMs, images), Join(y, text, atMs, images));
    hide RowsBehind, BlocksBehind, Notices;
  }

  /** The part of `AppendText` after the block is chosen. */
  lemma RoutedTextBehind(front: seq<Item>, a: Transcript, b: Transcript, key: BlockKey, role: Role, messageId: Option<string>,
                         text: string, parent: Option<string>, depth: Option<int>, atMs: Option<int>, images: seq<string>)
    requires Behind(front, a, b) && Ranged(a) && Ranged(b)
    ensures Behind(front, PlaceText(a, key, role, messageId, text, parent, depth, atMs, images),
                   PlaceText(b, key, role, messageId, text, parent, depth, atMs, images))
  {
    hide RowsBehind, BlocksBehind, Notices, OpenBlock, JoinBlock;
    var at := ActiveKey(role, parent.GetOr(""));
    RowBehind(front, a, b, key);
    if key !in a.blocks {
      OpenBehind(front, a, b, key,
                 NewText(NextId(a, RoleName(role)), role, messageId, text, parent, depth, atMs, images),
                 NewText(NextId(b, RoleName(role)), role, messageId, text, parent, depth, atMs, images), at);
    } else if a.items[a.blocks[key]].Text? && a.items[a.blocks[key]].role == role {
      JoinBehind(front, a, b, key, text, atMs, images, at);
    }
  }

  lemma TextBehind(front: seq<Item>, a: Transcript, b: Transcript, role: Role, messageId: Option<string>, text: string,
                   parent: Option<string>, depth: Option<int>, atMs: Option<int>, images: seq<string>)
    requires Behind(front, a, b) && Ranged(a) && Ranged(b)
    ensures Behind(front, AppendText(a, role, messageId, text, parent, depth, atMs, images),
                   AppendText(b, role, messageId, text, parent, depth, atMs, images))
  {
    RoutedRanged(a, role, messageId, parent);
    RoutedRanged(b, role, messageId, parent);
    TextRoutedBehind(front, a, b, role, messageId, text, parent, depth, atMs, images);
  }

  lemma RoutedRanged(t: Transcript, role: Role, messageId: Option<string>, parent: Option<string>)
    requires Ranged(t)
    ensures Ranged(CountAnonymous(PrepareRole(t, role), role, messageId, parent))
  {
  }

  lemma TextRoutedBehind(front: seq<Item>, a: Transcript, b: Transcript, role: Role, messageId: Option<string>, text: string,
                         parent: Option<string>, depth: Option<int>, atMs: Option<int>, images: seq<string>)
    requires Behind(front, a, b) && Ranged(a) && Ranged(b)
    requires Ranged(CountAnonymous(PrepareRole(a, role), role, messageId, parent))
    requires Ranged(CountAnonymous(PrepareRole(b, role), role, messageId, parent))
    ensures Behind(front, AppendText(a, role, messageId, text, parent, depth, atMs, images),
                   AppendText(b, role, messageId, text, parent, depth, atMs, images))
  {
    hide Behind, PlaceText, BlockKeyOf, Ranged, PrepareRole, CountAnonymous;
    RoutedBehind(front, a, b, role, messageId, parent);
    RoutedTextBehind(front, CountAnonymous(PrepareRole(a, role), role, messageId, parent),
                     CountAnonymous(PrepareRole(b, role), role, messageId, parent),
                     BlockKeyOf(PrepareRole(a, role), role, messageId, parent),
                     role, messageId, text, parent, depth, atMs, images);
  }

  lemma ToolRowBehind(front: seq<Item>, a: Transcript, b: Transcript, key: BlockKey, x: Item, y: Item)
    requires Behind(front, a, b) && x.Tool? && y == Renumber(x, |front|)
    ensures Behind(front, AddToolRow(a, key, x), AddToolRow(b, key, y))
  {
    PushBehind(front, a, b, x, y);
    BlockBehind(front, a, b, key);
  }

  lemma PlacedToolBehind(front: seq<Item>, a: Transcript, b: Transcript, key: BlockKey, id: string, title: string, status: string,
                         output: string, f: ToolFields)
    requires Behind(front, a, b) && Ranged(a) && Ranged(b)
    ensures Behind(front, PlaceTool(a, key, id, title, status, output, f), PlaceTool(b, key, id, title, status, output, f))
  {
    RowBehind(front, a, b, key);
    hide RowsBehind, BlocksBehind, Notices, AddToolRow;
    if key !in a.blocks {
      ToolRowBehind(front, a, b, key, Tool(NextId(a, "tool"), id, title, output, status, ShellFields(f)),
                    Tool(NextId(b, "tool"), id, title, output, status, ShellFields(f)));
    } else {
      var index := a.blocks[key];
      var x, y := a.items[index], b.items[|front| + index];
      if x.Tool? {
        RewriteBehind(front, a, b, index, x.(status := status, title := if title != "" then title else x.title),
                      y.(status := status, title := if title != "" then title else y.title));
      }
    }
  }

  lemma ToolBehind(front: seq<Item>, a: Transcript, b: Transcript, id: string, title: string, status: string,
                   output: string, f: ToolFields)
    requires Behind(front, a, b) && Ranged(a) && Ranged(b)
    ensures Behind(front, AppendTool(a, id, title, status, output, f), AppendTool(b, id, title, status, output, f))
  {
    hide PlaceTool, RowsBehind, BlocksBehind, Notices;
    TurnBehind(front, a, b);
    var key := ToolKeyOf(a, id);
    assert key == ToolKeyOf(b, id);
    PlacedToolBehind(front, a, b, key, id, title, status, output, f);
    PlacedToolBehind(front, CloseActiveBlocks(a), CloseActiveBlocks(b), key, id, title, status, output, f);
  }

  lemma StartsNewBehind(front: seq<Item>, a: Transcript, b: Transcript, id: string)
    requires Behind(front, a, b) && Ranged(a) && Ranged(b)
    ensures StartsNewToolRow(a, id) == StartsNewToolRow(b, id)
  {
    if id in a.toolRows && a.toolRows[id] in a.blocks {
      var index := a.blocks[a.toolRows[id]];
      assert b.items[|front| + index] == Renumber(a.items[index], |front|);
    }
  }

  lemma ToolCallBehind(front: seq<Item>, a: Transcript, b: Transcript, id: string, title: string, status: string, f: ToolFields)
    requires Behind(front, a, b) && Ranged(a) && Ranged(b)
    ensures Behind(front, HandleToolCall(a, id, title, status, f), HandleToolCall(b, id, title, status, f))
  {
    hide AppendTool;
    StartsNewBehind(front, a, b, id);
    var a0 := if StartsNewToolRow(a, id) then EnsureTurn(a.(toolRows := a.toolRows - {id})) else a;
    var b0 := if StartsNewToolRow(b, id) then EnsureTurn(b.(toolRows := b.toolRows - {id})) else b;
    TurnBehind(front, a.(toolRows := a.toolRows - {id}), b.(toolRows := b.toolRows - {id}));
    ToolBehind(front, a0, b0, id, title, status, "", f);
  }

  lemma UpdateBehind(front: seq<Item>, a: Transcript, b: Transcript, id: string, status: Option<string>, text: Option<string>,
                     title: Option<string>, replace: bool, f: ToolFields)
    requires Behind(front, a, b) && Ranged(a) && Ranged(b)
    ensures Behind(front, UpdateTool(a, id, status, text, title, replace, f), UpdateTool(b, id, status, text, title, replace, f))
  {
    hide AppendTool, Patched;
    var key := if id in a.toolRows then a.toolRows[id] else ToolKey(a.turn, id);
    if key !in a.blocks {
      var command := if f.kind == Some("execute") then NonEmpty(f.command) else None;
      var shown := if NonEmpty(title).Some? then title.value
                   else if command.Some? then command.value
                   else NonEmpty(text).GetOr("Tool call");
      var output := if NonEmpty(title).None? && command.None? then "" else text.GetOr("");
      ToolBehind(front, a, b, id, shown, status.GetOr("running"), output, f);
    } else {
      var index := a.blocks[key];
      var x, y := a.items[index], b.items[|front| + index];
      assert y == Renumber(x, |front|);
      if x.Tool? {
        PatchedRenumber(x, |front|, status, text, title, replace, f);
        RewriteBehind(front, a, b, index, Patched(x, status, text, title, replace, f), Patched(y, status, text, title, replace, f));
      }
    }
  }

  lemma PatchedRenumber(x: Item, k: nat, status: Option<string>, text: Option<string>, title: Option<string>, replace: bool, f: ToolFields)
    requires x.Tool?
    ensures Patched(Renumber(x, k), status, text, title, replace, f) == Renumber(Patched(x, status, text, title, replace, f), k)
  {
  }

  lemma {:induction false} LastUserBehind(front: seq<Item>, xs: seq<Item>, ys: seq<Item>, n: nat)
    requires Notices(front) && RowsBehind(front, xs, ys) && n <= |ys|
    ensures LastUserAtMs(ys, n) == if n <= |front| then None else LastUserAtMs(xs, n - |front|)
  {
    if n > 0 {
      assert n > |front| ==> ys[n - 1] == Renumber(xs[n - 1 - |front|], |front|);
      LastUserBehind(front, xs, ys, n - 1);
    }
  }

  lemma {:induction false} StampRowBehind(front: seq<Item>, xs: seq<Item>, ys: seq<Item>, n: nat)
    requires Notices(front) && RowsBehind(front, xs, ys) && n <= |ys|
    ensures var r := if n <= |front| then -1 else StampRow(xs, n - |front|);
            StampRow(ys, n) == if r < 0 then -1 else |front| + r
  {
    if n > 0 {
      assert n > |front| ==> ys[n - 1] == Renumber(xs[n - 1 - |front|], |front|);
      StampRowBehind(front, xs, ys, n - 1);
    }
  }

  lemma StampedBehind(front: seq<Item>, a: Transcript, b: Transcript, reason: string, worked: Option<int>)
    requires Behind(front, a, b)
    ensures Behind(front, a.(items := StampTurnEnd(a.items, reason, worked)), b.(items := StampTurnEnd(b.items, reason, worked)))
  {
    hide Behind, Stamped, StampRow;
    StampPlace(front, a, b, reason, worked);
    var index := StampRow(a.items, |a.items|);
    if index >= 0 {
      RewriteBehind(front, a, b, index, Stamped(a.items[index], reason, worked), Stamped(b.items[|front| + index], reason, worked));
    }
  }

  lemma StampPlace(front: seq<Item>, a: Transcript, b: Transcript, reason: string, worked: Option<int>)
    requires Behind(front, a, b)
    ensures var index := StampRow(a.items, |a.items|);
            && StampRow(b.items, |b.items|) == (if index < 0 then -1 else |front| + index)
            && (index >= 0 ==> |front| + index < |b.items| && b.items[|front| + index].Text?
                               && Stamped(b.items[|front| + index], reason, worked) == Renumber(Stamped(a.items[index], reason, worked), |front|))
  {
    StampRowBehind(front, a.items, b.items, |b.items|);
  }

  lemma LastUserSame(front: seq<Item>, a: Transcript, b: Transcript)
    requires Behind(front, a, b)
    ensures LastUserAtMs(b.items, |b.items|) == LastUserAtMs(a.items, |a.items|)
  {
    LastUserBehind(front, a.items, b.items, |b.items|);
  }

  lemma FinishBehind(front: seq<Item>, a: Transcript, b: Transcript, finishedAt: Option<int>, reason: string, now: int)
    requires Behind(front, a, b) && Ranged(a) && Ranged(b)
    ensures Behind(front, FinishTurn(a, finishedAt, reason, None, now), FinishTurn(b, finishedAt, reason, None, now))
  {
    hide Behind, StampTurnEnd, LastUserAtMs;
    LastUserSame(front, a, b);
    TurnBehind(front, a, b);
    StampedBehind(front, CloseActiveBlocks(a.(turnOpen := false)), CloseActiveBlocks(b.(turnOpen := false)), reason,
                  TurnWorkedMs(finishedAt, a.items, None, now));
  }

  lemma UserMessageBehind(front: seq<Item>, a: Transcript, b: Transcript, e: Event)
    requires Behind(front, a, b) && Ranged(a) && Ranged(b) && e.UserMessage?
    ensures Behind(front, HandleUserMessage(a, e), HandleUserMessage(b, e))
  {
    hide Behind, AppendText, AppendSystem, AppendCard;
    TurnBehind(front, a, b);
    TurnBehind(front, EnsureTurn(a), EnsureTurn(b));
    TextBehind(front, CloseActiveBlocks(EnsureTurn(a)), CloseActiveBlocks(EnsureTurn(b)), User, e.messageId, e.text,
               None, None, e.atMs, e.images);
    SystemBehind(front, a, b, e.text, false);
    CardBehind(front, a, b, OutgoingCard(e.text));
    if e.card.Some? { CardBehind(front, a, b, e.card.value); }
  }

  lemma RowsWrittenBehind(front: seq<Item>, a: Transcript, b: Transcript, e: Event)
    requires Behind(front, a, b) && Ranged(a) && Ranged(b) && !e.TasksSnapshot?
    ensures Behind(front, WriteRows(a, e), WriteRows(b, e))
  {
    hide Behind, HandleUserMessage, AppendText, HandleToolCall, HandleToolUpdate, AppendSystem;
    TurnBehind(front, a, b);
    match e
    case UserMessage(_, _, _, _, _, _, _) => UserMessageBehind(front, a, b, e);
    case AgentMessage(messageId, text, parent, depth, images) =>
      TextBehind(front, EnsureTurn(a), EnsureTurn(b), Assistant, messageId, text, parent, depth, None, images);
    case AgentThought(messageId, text, parent, depth) =>
      TextBehind(front, EnsureTurn(a), EnsureTurn(b), Thought, messageId, text, parent, depth, None, []);
    case SessionNotice(text, warning) => SystemBehind(front, a, b, text, warning);
    case ToolCall(id, title, status, fields) => ToolCallBehind(front, a, b, id, title, status, CallFields(fields));
    case ToolUpdate(id, status, output, title, replace, fields) =>
      ToolUpdateBehind(front, a, b, id, status, output, title, replace, PatchFields(fields));
    case _ =>
  }

  lemma ToolUpdateBehind(front: seq<Item>, a: Transcript, b: Transcript, id: string, status: Option<string>, text: Option<string>,
                         title: Option<string>, replace: bool, f: ToolFields)
    requires Behind(front, a, b) && Ranged(a) && Ranged(b)
    ensures Behind(front, HandleToolUpdate(a, id, status, text, title, replace, f), HandleToolUpdate(b, id, status, text, title, replace, f))
  {
    hide Behind, UpdateTool;
    TurnBehind(front, a, b);
    SameTools(front, a, b);
    UpdateBehind(front, if id in a.toolRows then a else EnsureTurn(a), if id in b.toolRows then b else EnsureTurn(b),
                 id, status, text, title, replace, f);
  }

  lemma SameTools(front: seq<Item>, a: Transcript, b: Transcript)
    requires Behind(front, a, b)
    ensures a.toolRows == b.toolRows && a.turnOpen == b.turnOpen && a.nextItemId + |front| == b.nextItemId
  {
  }

  /* ----- Frames and tails ----- */

  /** Two sessions whose transcripts differ by the rows in front. */
  ghost predicate RowsAlike(front: seq<Item>, s: Session, r: Session) {
    && Behind(front, s.t, r.t) && Ranged(s.t) && Ranged(r.t)
    && !s.link.disposed && !r.link.disposed && s.life.startedAt.None? && r.life.startedAt.None?
  }

  /** The same with no send in flight. */
  ghost predicate Alike(front: seq<Item>, s: Session, r: Session) {
    && RowsAlike(front, s, r) && s.errors.sendDepth == 0 == r.errors.sendDepth
    && s.errors.held == [] == r.errors.held && s.errors.rejections == r.errors.rejections
  }

  /** A frame a tail may carry for the comparison: no task snapshot, whose rows depend on a
      list a reset keeps, and behind a marker no reset inside the tail. */
  predicate Replayable(front: seq<Item>, e: Event) {
    !e.TasksSnapshot? && (e.Reset? ==> front == [] && forall x :: x in e.tail ==> Replayable(front, x))
  }

  lemma ErrorAlike(front: seq<Item>, s: Session, r: Session, text: string)
    requires Alike(front, s, r)
    ensures Alike(front, HandleAgentError(s, text), HandleAgentError(r, text))
  {
    hide Behind, NoteError;
    ErrorBehind(front, s.t, r.t, text, None);
  }

  lemma ResetAlike(s: Session, r: Session, complete: bool)
    requires Alike([], s, r)
    ensures Alike([], ResetBase(s, complete), ResetBase(r, complete))
  {
    NothingInFront(s.t, r.t);
    NothingInFront(ResetBase(s, complete).t, ResetBase(r, complete).t);
  }

  /** The frames that end a turn or the session. */
  lemma EndAlike(front: seq<Item>, s: Session, r: Session, e: Event)
    requires RowsAlike(front, s, r) && (e.AgentFinished? || e.Exit? || e.Recovered? || e.Detached? || e.UnknownEvent?)
    ensures RowsAlike(front, HandleEvent(s, e), HandleEvent(r, e))
    ensures HandleEvent(s, e).errors == s.errors && HandleEvent(r, e).errors == r.errors
  {
    hide Behind, FinishTurn, EndWithError, UNKNOWN_EVENT, TAKEN_OVER, STOPPED_MID_TURN, RECOVERED_SESSION_UNAVAILABLE, Ranged;
    SameTools(front, s.t, r.t);
    if e.AgentFinished? {
      FinishBehind(front, s.t, r.t, e.finishedAt, e.stopReason, e.now);
    } else {
      ErrorBehind(front, s.t, r.t,
                  if e.Exit? then STOPPED_MID_TURN else if e.Recovered? then RECOVERED_SESSION_UNAVAILABLE
                  else if e.Detached? then TAKEN_OVER else UNKNOWN_EVENT + e.name + ".", None);
    }
  }

  /** The frames that leave the status alone. */
  lemma FrameAlike(front: seq<Item>, s: Session, r: Session, e: Event)
    requires RowsAlike(front, s, r) && Replayable(front, e) && !e.Reset? && !e.AgentError?
    requires !(e.AgentFinished? || e.Exit? || e.Recovered? || e.Detached? || e.UnknownEvent?)
    ensures RowsAlike(front, HandleEvent(s, e), HandleEvent(r, e))
    ensures HandleEvent(s, e).errors == s.errors && HandleEvent(r, e).errors == r.errors
  {
    hide Behind, WriteRows, DropBuffered, Ranged;
    if !e.PermissionRequest? && !e.PermissionResolved? {
      RowsWrittenBehind(front, s.t, r.t, e);
    }
  }

  /** Every frame but a reset and an error writes the same rows, sends in flight or not. */
  lemma RowsEventAlike(front: seq<Item>, s: Session, r: Session, e: Event)
    requires RowsAlike(front, s, r) && Replayable(front, e) && !e.Reset? && !e.AgentError?
    ensures RowsAlike(front, HandleEvent(s, e), HandleEvent(r, e))
    ensures HandleEvent(s, e).errors == s.errors && HandleEvent(r, e).errors == r.errors
  {
    hide RowsAlike, HandleEvent;
    if e.AgentFinished? || e.Exit? || e.Recovered? || e.Detached? || e.UnknownEvent? {
      EndAlike(front, s, r, e);
    } else {
      FrameAlike(front, s, r, e);
    }
  }

  lemma ErrorEventAlike(front: seq<Item>, s: Session, r: Session, e: Event)
    requires Alike(front, s, r) && e.AgentError?
    ensures Alike(front, HandleEvent(s, e), HandleEvent(r, e))
  {
    hide Behind, HandleAgentError, ErrorText;
    ErrorAlike(front, s, r, ErrorText(e.message));
  }

  lemma {:induction false} EventAlike(front: seq<Item>, s: Session, r: Session, e: Event)
    requires Alike(front, s, r) && Replayable(front, e)
    ensures Alike(front, HandleEvent(s, e), HandleEvent(r, e))
    decreases e
  {
    hide HandleEvent, HandleEvents, ResetBase;
    AlikeRanged(front, s, r);
    if e.Reset? {
      ResetAlike(s, r, e.complete);
      EventsAlike(front, ResetBase(s, e.complete), ResetBase(r, e.complete), e.tail);
      ReplayedTail(front, s, r, e);
    } else if e.AgentError? {
      ErrorEventAlike(front, s, r, e);
    } else {
      hide RowsAlike;
      RowsEventAlike(front, s, r, e);
    }
  }

  lemma ReplayedTail(front: seq<Item>, s: Session, r: Session, e: Event)
    requires Alike(front, s, r) && e.Reset?
    ensures HandleEvent(s, e) == HandleEvents(ResetBase(s, e.complete), e.tail)
    ensures HandleEvent(r, e) == HandleEvents(ResetBase(r, e.complete), e.tail)
  {
  }

  lemma {:induction false} EventsAlike(front: seq<Item>, s: Session, r: Session, events: seq<Event>)
    requires Alike(front, s, r) && forall e :: e in events ==> Replayable(front, e)
    ensures Alike(front, HandleEvents(s, events), HandleEvents(r, events))
    decreases events
  {
    hide Alike, HandleEvent;
    AlikeRanged(front, s, r);
    if events != [] {
      EventAlike(front, s, r, events[0]);
      EventsAlike(front, HandleEvent(s, events[0]), HandleEvent(r, events[0]), events[1..]);
    }
  }

  lemma AlikeRanged(front: seq<Item>, s: Session, r: Session)
    requires Alike(front, s, r)
    ensures Ranged(s.t) && Ranged(r.t)
  {
  }

  function MarkerOf(s: Session): Item {
    System(ItemId("system", s.t.nextItemId), LOST_HISTORY_NOTICE, false)
  }

  /** A complete tail leaves exactly the rows, maps and counters a fresh session gets from
      it, whatever the session held before. */
  lemma CompleteResetIsFresh(s: Session, tail: seq<Event>)
    requires Ranged(s.t) && !s.link.disposed && s.errors.sendDepth == 0
    requires forall e :: e in tail ==> Replayable([], e)
    ensures HandleEvent(s, Reset(tail, true)).t == HandleEvents(FRESH, tail).t
  {
    var base := ResetBase(s, true);
    NothingInFront(FRESH.t, base.t);
    EventsAlike([], FRESH, base, tail);
    NothingInFront(HandleEvents(FRESH, tail).t, HandleEvents(base, tail).t);
  }

  /** An incomplete tail leaves the same transcript behind one marker row. */
  lemma IncompleteResetIsFreshBehindMarker(s: Session, tail: seq<Event>)
    requires Ranged(s.t) && !s.link.disposed && s.errors.sendDepth == 0
    requires forall e :: e in tail ==> Replayable([MarkerOf(s)], e)
    ensures Behind([MarkerOf(s)], HandleEvents(FRESH, tail).t, HandleEvent(s, Reset(tail, false)).t)
  {
    EventsAlike([MarkerOf(s)], FRESH, ResetBase(s, false), tail);
  }

  /** With a send in flight the two differ: an error frame of the tail is held, not shown. */
  lemma ResetDuringSendDiffers(s: Session, message: string)
    requires Ranged(s.t) && !s.link.disposed && s.errors.sendDepth > 0
    ensures HandleEvent(s, Reset([AgentError(message)], true)).t.items == []
    ensures |HandleEvents(FRESH, [AgentError(message)]).t.items| == 1
  {
    var base := ResetBase(s, true);
    assert HandleEvents(base, [AgentError(message)]) == HandleEvent(base, AgentError(message));
    assert HandleEvents(FRESH, [AgentError(message)]) == HandleEvent(FRESH, AgentError(message));
  }
}
