/**
 The session controller as an object whose methods update its fields. Each method is
 proved to leave the state the functions of Transcripts and Sessions describe.
 */
module AgentSessions {
  import opened Basics
  import opened Transcripts
  import opened Sessions

  /** The publish time of the newest user row. */
  method FindLastUserAtMs(items: seq<Item>) returns (r: Option<int>)
    ensures r == LastUserAtMs(items, |items|)
  {
    var index := |items|;
    while index > 0
      invariant 0 <= index <= |items|
      invariant LastUserAtMs(items, |items|) == LastUserAtMs(items, index)
    {
      index := index - 1;
      if items[index].Text? && items[index].role.User? {
        return items[index].atMs;
      }
    }
    return None;
  }

  method StampItems(items: seq<Item>, stopReason: string, workedMs: Option<int>) returns (r: seq<Item>)
    ensures r == StampTurnEnd(items, stopReason, workedMs)
  {
    var index := |items|;
    while index > 0
      invariant 0 <= index <= |items|
      invariant StampRow(items, |items|) == StampRow(items, index)
    {
      index := index - 1;
      var item := items[index];
      if item.Text? && item.role.Assistant? {
        if item.stopReason.Some? {
          return items;
        }
        return items[index := Stamped(item, stopReason, workedMs)];
      }
    }
    return items;
  }

  method IndexOf(texts: seq<string>, text: string) returns (index: int)
    ensures index == -1 ==> text !in texts
    ensures index != -1 ==> 0 <= index < |texts| && texts[index] == text && text !in texts[..index]
  {
    for i := 0 to |texts|
      invariant text !in texts[..i]
    {
      if texts[i] == text {
        return i;
      }
    }
    return -1;
  }

  lemma {:induction false} RemoveFirstAt(xs: seq<string>, x: string, i: nat)
    requires i < |xs| && xs[i] == x && x !in xs[..i]
    ensures RemoveFirst(xs, x) == xs[..i] + xs[i + 1..]
  {
    if i > 0 {
      assert xs[1..][..i - 1] == xs[..i][1..];
      RemoveFirstAt(xs[1..], x, i - 1);
    }
  }

  lemma PlacedKnown(t: Transcript, key: BlockKey, role: Role, messageId: Option<string>, text: string, parent: Option<string>,
                    depth: Option<int>, atMs: Option<int>, images: seq<string>)
    requires Ranged(t) && key in t.blocks
    ensures var item := t.items[t.blocks[key]];
            PlaceText(t, key, role, messageId, text, parent, depth, atMs, images) ==
              if item.Text? && item.role == role then JoinBlock(t, key, text, atMs, images, ActiveKey(role, parent.GetOr("")))
              else t.(routed := t.routed + [Chunk(key, text)])
  {
    hide OpenBlock, JoinBlock;
  }

  /** The transcript's rows, maps and counters. */
  class RowStore {
    var items: seq<Item>
    var blocks: map<BlockKey, nat>
    var toolRows: map<string, BlockKey>
    var activeBlocks: map<ActiveKey, BlockKey>
    var activeRole: Option<Role>
    var nextItemId: nat
    var nextAnonymousBlock: nat
    var turn: nat
    var turnOpen: bool
    ghost var routed: seq<Chunk>

    ghost function Rows(): (t: Transcript)
      reads this
      ensures t.turnOpen == turnOpen
    {
      Transcript(items, blocks, toolRows, activeBlocks, activeRole, nextItemId, nextAnonymousBlock, turn, turnOpen, routed)
    }

    constructor ()
      ensures Rows() == EMPTY
    {
      items, blocks, toolRows, activeBlocks, activeRole := [], map[], map[], map[], None;
      nextItemId, nextAnonymousBlock, turn, turnOpen, routed := 1, 1, 0, false, [];
    }

    method CloseBlocks()
      modifies this
      ensures Rows() == CloseActiveBlocks(old(Rows()))
    {
      activeBlocks := map[];
      activeRole := None;
    }

    method OpenTurn()
      modifies this
      ensures Rows() == BeginTurn(old(Rows()))
    {
      turn := turn + 1;
      turnOpen := true;
      CloseBlocks();
    }

    method RequireTurn()
      modifies this
      ensures Rows() == EnsureTurn(old(Rows()))
    {
      if !turnOpen {
        OpenTurn();
      }
    }

    method TakeRole(role: Role)
      modifies this
      ensures Rows() == PrepareRole(old(Rows()), role)
    {
      if activeRole == Some(role) {
        return;
      }
      CloseBlocks();
      activeRole := Some(role);
    }

    method AppendItem(item: Item)
      modifies this
      ensures Rows() == Push(old(Rows()), item)
    {
      items := items + [item];
      nextItemId := nextItemId + 1;
    }

    method AppendSystemMessage(text: string, warning: bool)
      modifies this
      ensures Rows() == AppendSystem(old(Rows()), text, warning)
    {
      CloseBlocks();
      AppendItem(System(ItemId("system", nextItemId), text, warning));
    }

    method AppendCardRow(card: Card)
      modifies this
      ensures Rows() == AppendCard(old(Rows()), card)
    {
      CloseBlocks();
      AppendItem(CardRow(ItemId(CardPrefix(card), nextItemId), card));
    }

    method ReportError(message: string, detail: Option<string>)
      modifies this
      ensures Rows() == NoteError(old(Rows()), message, detail)
    {
      AppendItem(Error(ItemId("error", nextItemId), message, detail));
    }

    /** The block key of a fragment; an anonymous block is numbered as it is minted. */
    method MintKey(role: Role, messageId: Option<string>, parent: Option<string>) returns (key: BlockKey)
      modifies this
      ensures key == BlockKeyOf(old(Rows()), role, messageId, parent)
      ensures Rows() == CountAnonymous(old(Rows()), role, messageId, parent)
    {
      var prefix := Decimal(turn) + ":" + parent.GetOr("") + ":";
      var active := ActiveKey(role, parent.GetOr(""));
      if messageId.Some? {
        return TextKey(role, prefix + messageId.value);
      }
      if active in activeBlocks {
        return activeBlocks[active];
      }
      key := TextKey(role, prefix + ANONYMOUS + Decimal(nextAnonymousBlock));
      nextAnonymousBlock := nextAnonymousBlock + 1;
    }

    method OpenText(key: BlockKey, item: Item, a: ActiveKey)
      requires item.Text?
      modifies this
      ensures Rows() == OpenBlock(old(Rows()), key, item, a)
    {
      routed := routed + [Chunk(key, item.text)];
      blocks := blocks[key := |items|];
      activeBlocks := activeBlocks[a := key];
      AppendItem(item);
    }

    method JoinText(key: BlockKey, text: string, atMs: Option<int>, images: seq<string>, a: ActiveKey)
      requires Ranged(Rows()) && key in blocks && items[blocks[key]].Text?
      modifies this
      ensures Rows() == JoinBlock(old(Rows()), key, text, atMs, images, a)
    {
      var index := blocks[key];
      routed := routed + [Chunk(key, text)];
      items := items[index := Join(items[index], text, atMs, images)];
      activeBlocks := activeBlocks[a := key];
    }

    /** A fragment into its block. */
    method PutText(key: BlockKey, role: Role, messageId: Option<string>, text: string, parent: Option<string>,
                   depth: Option<int>, atMs: Option<int>, images: seq<string>)
      requires Ranged(Rows())
      modifies this
      ensures Rows() == PlaceText(old(Rows()), key, role, messageId, text, parent, depth, atMs, images)
    {
      hide OpenBlock, JoinBlock, NewText;
      var a := ActiveKey(role, parent.GetOr(""));
      if key !in blocks {
        OpenText(key, NewText(ItemId(RoleName(role), nextItemId), role, messageId, text, parent, depth, atMs, images), a);
      } else {
        PutKnownText(key, role, messageId, text, parent, depth, atMs, images);
      }
    }

    /** A fragment into a block some row carries. */
    method PutKnownText(key: BlockKey, role: Role, ghost messageId: Option<string>, text: string, parent: Option<string>,
                        ghost depth: Option<int>, atMs: Option<int>, images: seq<string>)
      requires Ranged(Rows()) && key in blocks
      modifies this
      ensures Rows() == PlaceText(old(Rows()), key, role, messageId, text, parent, depth, atMs, images)
    {
      hide OpenBlock, JoinBlock, PlaceText;
      PlacedKnown(Rows(), key, role, messageId, text, parent, depth, atMs, images);
      var item := items[blocks[key]];
      if item.Text? && item.role == role {
        JoinText(key, text, atMs, images, ActiveKey(role, parent.GetOr("")));
      } else {
        routed := routed + [Chunk(key, text)];
      }
    }

    method WriteText(role: Role, messageId: Option<string>, text: string, parent: Option<string>, depth: Option<int>,
                     atMs: Option<int>, images: seq<string>)
      requires Ranged(Rows())
      modifies this
      ensures Rows() == AppendText(old(Rows()), role, messageId, text, parent, depth, atMs, images)
    {
      hide PlaceText, BlockKeyOf;
      TakeRole(role);
      var key := MintKey(role, messageId, parent);
      PutText(key, role, messageId, text, parent, depth, atMs, images);
    }

    method PutTool(id: string, title: string, newStatus: string, output: string, f: ToolFields)
      requires Ranged(Rows())
      modifies this
      ensures Rows() == AppendTool(old(Rows()), id, title, newStatus, output, f)
    {
      hide AddToolRow, ShellFields;
      var currentKey := ToolKey(turn, id);
      var key := if id in toolRows then toolRows[id] else currentKey;
      if key == currentKey {
        CloseBlocks();
      }
      if key !in blocks {
        AddRow(key, Tool(ItemId("tool", nextItemId), id, title, output, newStatus, ShellFields(f)));
      } else {
        RewriteTool(blocks[key], title, newStatus);
      }
    }

    method AddRow(key: BlockKey, item: Item)
      requires item.Tool?
      modifies this
      ensures Rows() == AddToolRow(old(Rows()), key, item)
    {
      blocks := blocks[key := |items|];
      toolRows := toolRows[item.toolCallId := key];
      AppendItem(item);
    }

    /** The status and the title of a tool row that is called again. */
    method RewriteTool(index: nat, title: string, newStatus: string)
      requires index < |items|
      modifies `items
      ensures var item := old(items)[index];
              items == if !item.Tool? then old(items)
                       else old(items)[index := item.(status := newStatus, title := if title != "" then title else item.title)]
    {
      var item := items[index];
      if item.Tool? {
        items := items[index := item.(status := newStatus, title := if title != "" then title else item.title)];
      }
    }

    predicate StartsNewRow(id: string)
      requires Ranged(Rows())
      reads this
      ensures StartsNewRow(id) == StartsNewToolRow(Rows(), id)
    {
      id !in toolRows ||
      (toolRows[id] in blocks &&
       (var item := items[blocks[toolRows[id]]];
        item.Tool? && !IsRunningStatus(item.status) && !(turnOpen && toolRows[id] == ToolKey(turn, id))))
    }

    method CallTool(id: string, title: string, newStatus: string, f: ToolFields)
      requires Ranged(Rows())
      modifies this
      ensures Rows() == HandleToolCall(old(Rows()), id, title, newStatus, f)
    {
      if StartsNewRow(id) {
        toolRows := toolRows - {id};
        RequireTurn();
      }
      PutTool(id, title, newStatus, "", f);
    }

    method ApplyPatch(id: string, newStatus: Option<string>, text: Option<string>, title: Option<string>, replace: bool, f: ToolFields)
      requires Ranged(Rows())
      modifies this
      ensures Rows() == UpdateTool(old(Rows()), id, newStatus, text, title, replace, f)
    {
      hide AppendTool, Patched;
      var key := if id in toolRows then toolRows[id] else ToolKey(turn, id);
      if key !in blocks {
        var command := if f.kind == Some("execute") then NonEmpty(f.command) else None;
        var shown := if NonEmpty(title).Some? then title.value
                     else if command.Some? then command.value
                     else NonEmpty(text).GetOr("Tool call");
        PutTool(id, shown, newStatus.GetOr("running"),
                if NonEmpty(title).None? && command.None? then "" else text.GetOr(""), f);
      } else {
        var index := blocks[key];
        if items[index].Tool? {
          items := items[index := Patched(items[index], newStatus, text, title, replace, f)];
        }
      }
    }

    method PatchTool(id: string, newStatus: Option<string>, text: Option<string>, title: Option<string>, replace: bool, f: ToolFields)
      requires Ranged(Rows())
      modifies this
      ensures Rows() == HandleToolUpdate(old(Rows()), id, newStatus, text, title, replace, f)
    {
      hide UpdateTool;
      if id !in toolRows {
        RequireTurn();
      }
      ApplyPatch(id, newStatus, text, title, replace, f);
    }

    method ReceiveUserMessage(e: Event)
      requires Ranged(Rows()) && e.UserMessage?
      modifies this
      ensures Rows() == HandleUserMessage(old(Rows()), e)
    {
      hide AppendText, AppendSystem, AppendCard;
      if e.kind.Composer? || (e.kind.Legacy? && e.human) {
        RequireTurn();
        CloseBlocks();
        WriteText(User, e.messageId, e.text, None, None, e.atMs, e.images);
      } else if e.kind.OutgoingA2a? {
        AppendCardRow(OutgoingCard(e.text));
      } else if (e.kind.IncomingA2a? || e.kind.SystemNotice?) && e.card.Some? {
        AppendCardRow(e.card.value);
      } else {
        AppendSystemMessage(e.text, false);
      }
    }

    method ReceiveTasks(rows: seq<string>)
      requires Ranged(Rows())
      modifies this
      ensures Rows() == AppendTaskRows(old(Rows()), rows)
    {
      for i := 0 to |rows|
        invariant Ranged(Rows())
        invariant AppendTaskRows(Rows(), rows[i..]) == AppendTaskRows(old(Rows()), rows)
      {
        assert rows[i..][0] == rows[i] && rows[i..][1..] == rows[i + 1..];
        AppendSystemMessage(rows[i], false);
      }
      assert rows[|rows|..] == [];
    }

    method ReceiveRows(e: Event)
      requires Ranged(Rows())
      modifies this
      ensures Rows() == WriteRows(old(Rows()), e)
    {
      hide HandleUserMessage, AppendText, AppendSystem, HandleToolCall, HandleToolUpdate, AppendTaskRows;
      match e
      case UserMessage(_, _, _, _, _, _, _) => ReceiveUserMessage(e);
      case AgentMessage(messageId, text, parent, depth, images) =>
        RequireTurn();
        WriteText(Assistant, messageId, text, parent, depth, None, images);
      case AgentThought(messageId, text, parent, depth) =>
        RequireTurn();
        WriteText(Thought, messageId, text, parent, depth, None, []);
      case SessionNotice(text, warning) => AppendSystemMessage(text, warning);
      case ToolCall(id, title, newStatus, fields) => CallTool(id, title, newStatus, CallFields(fields));
      case ToolUpdate(id, newStatus, output, title, replace, fields) =>
        PatchTool(id, newStatus, output, title, replace, PatchFields(fields));
      case TasksSnapshot(rows) => ReceiveTasks(rows);
      case _ =>
    }

    method ClearRows(complete: bool)
      modifies this
      ensures Rows() == ResetRows(old(Rows()), complete)
    {
      items := if complete then [] else [System(ItemId("system", nextItemId), LOST_HISTORY_NOTICE, false)];
      blocks, toolRows, activeBlocks, activeRole := map[], map[], map[], None;
      nextItemId, nextAnonymousBlock, turn := 1 + |items|, 1, 0;
      turnOpen, routed := false, [];
    }

    method CloseTurn()
      modifies this
      ensures Rows() == old(Rows()).(turnOpen := false)
    {
      turnOpen := false;
    }

    /** The error row of a turn or a session that ended badly. */
    method EndBadly(message: string, detail: Option<string>)
      modifies this
      ensures Rows() == EndWithError(old(Rows()), message, detail)
    {
      turnOpen := false;
      CloseBlocks();
      ReportError(message, detail);
    }

    method Finish(finishedAt: Option<int>, stopReason: string, startedAt: Option<int>, now: int)
      requires Ranged(Rows())
      modifies this
      ensures Rows() == FinishTurn(old(Rows()), finishedAt, stopReason, startedAt, now)
    {
      hide StampTurnEnd, LastUserAtMs;
      turnOpen := false;
      CloseBlocks();
      var turnStart := FindLastUserAtMs(items);
      var workedMs: Option<int> := None;
      if finishedAt.Some? && turnStart.Some? && finishedAt.value >= turnStart.value {
        workedMs := Some(finishedAt.value - turnStart.value);
      } else if startedAt.Some? {
        workedMs := Some(if now >= startedAt.value then now - startedAt.value else 0);
      }
      items := StampItems(items, stopReason, workedMs);
    }
  }

  /** The status, which only `ChangeStatus` writes, and the clock of the running turn. */
  class StatusLatch {
    var status: Status
    var streaming: bool
    var turnStartedAtMs: Option<int>

    ghost function Alive(): (life: Life)
      reads this
      ensures life.streaming == streaming && life.startedAt == turnStartedAtMs
    {
      Life(status, streaming, turnStartedAtMs)
    }

    constructor ()
      ensures Alive() == Life(Initializing, false, None)
    {
      status, streaming, turnStartedAtMs := Initializing, false, None;
    }

    method ChangeStatus(next: Status, nextStreaming: bool)
      modifies this
      ensures Alive() == SetStatus(old(Alive()), next, nextStreaming)
    {
      var latched := status.Failed? || (status.Closed? && !next.Failed?);
      if !next.Running? && streaming {
        turnStartedAtMs := None;
      }
      streaming := nextStreaming;
      if !latched {
        status := next;
      }
    }

    method StartClock(now: int)
      modifies this
      ensures Alive() == old(Alive()).(startedAt := Some(now))
    {
      turnStartedAtMs := Some(now);
    }

    method StopClock()
      modifies this
      ensures Alive() == old(Alive()).(startedAt := None)
    {
      turnStartedAtMs := None;
    }
  }

  /** The attachment and its buffer of permission requests. */
  class Channel {
    var started: bool
    var attaching: bool
    var attached: bool
    var disposed: bool
    var subscriptionId: Option<nat>
    var pendingPermissionRequests: seq<Request>
    /** The requests the host's callback was handed. */
    var host: seq<Request>

    ghost function Attachment(): (link: Link)
      reads this
      ensures link.disposed == disposed
    {
      Link(started, attaching, attached, disposed, subscriptionId, pendingPermissionRequests, host)
    }

    constructor ()
      ensures Attachment() == FRESH.link
    {
      started, attaching, attached, disposed := false, false, false, false;
      subscriptionId, pendingPermissionRequests, host := None, [], [];
    }

    method ReceiveRequest(request: Request)
      modifies this
      ensures Attachment() == HandleRequest(old(Attachment()), request)
    {
      if subscriptionId.None? {
        pendingPermissionRequests := pendingPermissionRequests + [request];
      } else {
        host := host + [request];
      }
    }

    method ReceiveResolved(id: string)
      modifies this
      ensures Attachment() == HandleResolved(old(Attachment()), id)
    {
      if subscriptionId.Some? {
        return;
      }
      var index := 0;
      while index < |pendingPermissionRequests| && pendingPermissionRequests[index].toolCallId != id
        invariant index <= |pendingPermissionRequests|
        invariant forall k :: 0 <= k < index ==> pendingPermissionRequests[k].toolCallId != id
      {
        index := index + 1;
      }
      if index < |pendingPermissionRequests| {
        pendingPermissionRequests := pendingPermissionRequests[..index] + pendingPermissionRequests[index + 1..];
      }
    }

    method DeliverPendingPermissionRequests()
      modifies this
      ensures Attachment() == Deliver(old(Attachment()))
    {
      var requests := pendingPermissionRequests;
      pendingPermissionRequests := [];
      for i := 0 to |requests|
        modifies `host
        invariant host == old(host) + requests[..i]
      {
        host := host + [requests[i]];
      }
    }

    method Start()
      modifies this
      ensures var link := old(Attachment());
              Attachment() == if link.started || link.disposed then link else link.(started := true, attaching := true)
    {
      if !started && !disposed {
        started, attaching := true, true;
      }
    }

    method EndAttaching()
      modifies this
      ensures Attachment() == old(Attachment()).(attaching := false)
    {
      attaching := false;
    }

    method Subscribe(id: nat)
      modifies this
      ensures Attachment() == old(Attachment()).(subscription := Some(id), attached := true)
    {
      subscriptionId := Some(id);
      attached := true;
    }

    method Detach()
      modifies this
      ensures Attachment() == old(Attachment()).(subscription := None, attached := false)
    {
      subscriptionId := None;
      attached := false;
    }

    method ClearRequests()
      modifies this
      ensures Attachment() == old(Attachment()).(buffered := [])
    {
      pendingPermissionRequests := [];
    }
  }

  /** Sends in flight, held error frames and rejections that wait for their twin. */
  class SendLedger {
    var sendDepth: nat
    var heldAgentErrors: seq<string>
    var pendingSendRejections: seq<string>
    ghost var received: multiset<string>
    ghost var shown: multiset<string>
    ghost var consumed: multiset<string>
    ghost var dropped: multiset<string>
    ghost var rejected: multiset<string>

    ghost function Failures(): (e: Errors)
      reads this
      ensures e.sendDepth == sendDepth
    {
      Errors(sendDepth, heldAgentErrors, pendingSendRejections, received, shown, consumed, dropped, rejected)
    }

    constructor ()
      ensures Failures() == FRESH.errors
    {
      sendDepth, heldAgentErrors, pendingSendRejections := 0, [], [];
      received, shown, consumed, dropped, rejected := multiset{}, multiset{}, multiset{}, multiset{}, multiset{};
    }

    method NoteSendRejection(text: string)
      modifies this
      ensures Failures() == NoteRejection(old(Failures()), text)
    {
      rejected := rejected + multiset{text};
      pendingSendRejections := pendingSendRejections + [text];
      ghost var all := pendingSendRejections;
      while |pendingSendRejections| > MAX_PENDING_SEND_REJECTIONS
        modifies `pendingSendRejections
        invariant |pendingSendRejections| <= |all|
        invariant pendingSendRejections == all[|all| - |pendingSendRejections|..]
        invariant |all| <= MAX_PENDING_SEND_REJECTIONS ==> pendingSendRejections == all
        invariant |all| > MAX_PENDING_SEND_REJECTIONS ==> |pendingSendRejections| >= MAX_PENDING_SEND_REJECTIONS
      {
        pendingSendRejections := pendingSendRejections[1..];
      }
      assert all == old(pendingSendRejections) + [text];
    }

    method ConsumeSendRejection(text: string) returns (found: bool)
      modifies this
      ensures found == (text in old(pendingSendRejections))
      ensures var e := old(Failures());
              Failures() == if found then e.(rejections := RemoveFirst(e.rejections, text), consumed := e.consumed + multiset{text}) else e
    {
      var index := IndexOf(pendingSendRejections, text);
      if index == -1 {
        return false;
      }
      RemoveFirstAt(pendingSendRejections, text, index);
      pendingSendRejections := pendingSendRejections[..index] + pendingSendRejections[index + 1..];
      consumed := consumed + multiset{text};
      return true;
    }

    method ClearFrames()
      modifies this
      ensures Failures() == ResetErrors(old(Failures()))
    {
      dropped := dropped + multiset(heldAgentErrors);
      heldAgentErrors := [];
      pendingSendRejections := [];
    }

    method CountSend(more: int)
      requires sendDepth + more >= 0
      modifies this
      ensures Failures() == old(Failures()).(sendDepth := old(sendDepth) + more)
    {
      sendDepth := sendDepth + more;
    }

    method RecordShown(text: string)
      modifies this
      ensures Failures() == old(Failures()).(shown := old(Failures()).shown + multiset{text})
    {
      shown := shown + multiset{text};
    }

    method RecordReceived(text: string)
      modifies this
      ensures Failures() == old(Failures()).(received := old(Failures()).received + multiset{text})
    {
      received := received + multiset{text};
    }

    method HoldAgentError(text: string)
      modifies this
      ensures Failures() == old(Failures()).(held := old(Failures()).held + [text])
    {
      heldAgentErrors := heldAgentErrors + [text];
    }

    method TakeHeld() returns (held: seq<string>)
      modifies this
      ensures held == old(Failures()).held && Failures() == old(Failures()).(held := [])
    {
      held := heldAgentErrors;
      heldAgentErrors := [];
    }
  }

  class AgentSession {
    const rows: RowStore
    const life: StatusLatch
    const link: Channel
    const sends: SendLedger

    ghost function View(): (s: Session)
      reads rows, life, link, sends
      ensures s.t == rows.Rows() && s.link == link.Attachment()
    {
      Session(rows.Rows(), life.Alive(), link.Attachment(), sends.Failures())
    }

    constructor ()
      ensures View() == FRESH
    {
      rows := new RowStore();
      life := new StatusLatch();
      link := new Channel();
      sends := new SendLedger();
    }

    method EndBadly(next: Status, message: string, detail: Option<string>)
      modifies rows, life
      ensures rows.Rows() == EndWithError(old(rows.Rows()), message, detail)
      ensures life.Alive() == SetStatus(old(life.Alive()), next, false)
    {
      rows.EndBadly(message, detail);
      life.ChangeStatus(next, false);
    }

    method FailWith(message: string)
      requires Ranged(rows.Rows())
      modifies rows, life
      ensures View() == FailSession(old(View()), message, None)
    {
      EndBadly(Failed, message, None);
    }

    /* ----- Error frames ----- */

    method SettleFrame(text: string)
      requires Ranged(rows.Rows())
      modifies rows, sends
      ensures View() == ResolveFrame(old(View()), text)
    {
      hide NoteError, RemoveFirst;
      var twin := sends.ConsumeSendRejection(text);
      if !twin {
        rows.ReportError(text, None);
        sends.RecordShown(text);
      }
    }

    method ResolveHeldAgentErrors()
      requires Ranged(rows.Rows())
      modifies rows, sends
      ensures View() == ResolveHeld(old(View()))
    {
      var held := sends.TakeHeld();
      ghost var start := View();
      for i := 0 to |held|
        invariant Ranged(rows.Rows())
        invariant ResolveFrames(View(), held[i..]) == ResolveFrames(start, held)
      {
        assert held[i..][0] == held[i] && held[i..][1..] == held[i + 1..];
        SettleFrame(held[i]);
      }
      assert held[|held|..] == [];
    }

    method ReceiveAgentError(message: string)
      requires Ranged(rows.Rows())
      modifies rows, sends
      ensures View() == HandleAgentError(old(View()), ErrorText(message))
    {
      var text := ErrorText(message);
      sends.RecordReceived(text);
      if sends.sendDepth > 0 {
        sends.HoldAgentError(text);
        return;
      }
      SettleFrame(text);
    }

    /* ----- Frames ----- */

    method ReceiveFinished(finishedAt: Option<int>, stopReason: string, now: int)
      requires Ranged(rows.Rows())
      modifies rows, life
      ensures View() == HandleFinished(old(View()), finishedAt, stopReason, now)
    {
      rows.Finish(finishedAt, stopReason, life.turnStartedAtMs, now);
      life.ChangeStatus(Idle, false);
      life.StopClock();
    }

    method ReceiveExit()
      requires Ranged(rows.Rows())
      modifies rows, life
      ensures View() == HandleExit(old(View()))
    {
      if rows.turnOpen {
        EndBadly(Failed, STOPPED_MID_TURN, None);
      } else {
        life.ChangeStatus(Closed, false);
      }
    }

    /** The frames that end a turn or the session. */
    method ReceiveEnd(e: Event)
      requires Ranged(rows.Rows()) && !link.disposed
      requires e.AgentFinished? || e.Exit? || e.Recovered? || e.Detached? || e.UnknownEvent?
      modifies rows, life
      ensures View() == HandleEvent(old(View()), e)
    {
      hide View, HandleExit, HandleFinished, FailSession;
      if e.AgentFinished? {
        ReceiveFinished(e.finishedAt, e.stopReason, e.now);
      } else if e.Exit? {
        ReceiveExit();
      } else {
        FailWith(if e.Recovered? then RECOVERED_SESSION_UNAVAILABLE else if e.Detached? then TAKEN_OVER
                 else UNKNOWN_EVENT + e.name + ".");
      }
    }

    /** The frames that leave the status as it is. */
    method ReceiveRunning(e: Event)
      requires Ranged(rows.Rows()) && !link.disposed && !e.Reset?
      requires !(e.AgentFinished? || e.Exit? || e.Recovered? || e.Detached? || e.UnknownEvent?)
      modifies rows, link, sends
      ensures View() == HandleEvent(old(View()), e)
    {
      hide WriteRows, HandleAgentError, HandleRequest, HandleResolved, ErrorText;
      if e.AgentError? {
        ReceiveAgentError(e.message);
      } else if e.PermissionRequest? {
        link.ReceiveRequest(e.request);
      } else if e.PermissionResolved? {
        link.ReceiveResolved(e.toolCallId);
      } else {
        rows.ReceiveRows(e);
      }
    }

    /** One frame of the channel. A disposed controller drops it. */
    method Receive(e: Event)
      requires Ranged(rows.Rows())
      modifies rows, life, link, sends
      ensures View() == HandleEvent(old(View()), e)
      decreases e
    {
      if !link.disposed {
        if e.Reset? {
          ReplaceWithResumeTail(e.tail, e.complete);
        } else if e.AgentFinished? || e.Exit? || e.Recovered? || e.Detached? || e.UnknownEvent? {
          ReceiveEnd(e);
        } else {
          ReceiveRunning(e);
        }
      }
    }

    /** A reset: the transcript is replaced and the tail replayed through `Receive`. */
    method ReplaceWithResumeTail(tail: seq<Event>, complete: bool)
      requires Ranged(rows.Rows())
      modifies rows, life, link, sends
      ensures View() == HandleEvents(ResetBase(old(View()), complete), tail)
      decreases tail
    {
      hide HandleEvent, ResetRows, ResetErrors;
      rows.ClearRows(complete);
      life.StopClock();
      link.ClearRequests();
      sends.ClearFrames();
      ghost var base := View();
      assert base == ResetBase(old(View()), complete);
      for i := 0 to |tail|
        invariant Ranged(View().t)
        invariant HandleEvents(View(), tail[i..]) == HandleEvents(base, tail)
      {
        assert tail[i..][0] == tail[i] && tail[i..][1..] == tail[i + 1..];
        Receive(tail[i]);
      }
      assert tail[|tail|..] == [];
    }

    /* ----- Attach and send, cut at their awaits ----- */

    method OnAttachReply(id: int)
      requires Ranged(rows.Rows())
      modifies rows, life, link
      ensures View() == HandleAttachReply(old(View()), id)
    {
      hide EndWithError, Deliver;
      link.EndAttaching();
      if id <= 0 {
        EndBadly(Failed, ATTACH_INVALID, None);
      } else if !link.disposed {
        link.Subscribe(id);
        life.ChangeStatus(Idle, life.streaming);
        link.DeliverPendingPermissionRequests();
      }
    }

    predicate MaySend(blank: bool)
      reads rows, life, link, sends
      ensures MaySend(blank) == CanSend(View(), blank)
    {
      !blank && !link.disposed && link.started && link.attached && !life.status.Closed? && link.subscriptionId.Some?
    }

    /** The part of a send before its await: whether it went out, and whether it joined a turn. */
    method BeginSend(blank: bool, steer: bool, now: int) returns (sent: bool, joined: bool)
      requires Ranged(rows.Rows())
      modifies rows, life, sends
      ensures sent == CanSend(old(View()), blank) && joined == (steer && old(View()).t.turnOpen)
      ensures View() == if sent then HandleSendStart(old(View()), steer, now) else old(View())
    {
      hide BeginTurn, CanSend;
      joined := steer && rows.turnOpen;
      sent := MaySend(blank);
      if sent {
        if !joined {
          rows.OpenTurn();
        }
        life.ChangeStatus(Running, true);
        if !joined {
          life.StartClock(now);
        }
        sends.CountSend(1);
      }
    }

    method SendSettled(joined: bool, turnActive: bool)
      requires Ranged(rows.Rows()) && sends.Failures().sendDepth > 0
      modifies rows, life, sends
      ensures View() == HandleSendDone(old(View()), joined, turnActive)
    {
      hide ResolveHeld;
      sends.CountSend(-1);
      if !turnActive && !joined && sends.sendDepth == 0 {
        rows.CloseTurn();
        life.ChangeStatus(Idle, false);
      }
      ResolveHeldAgentErrors();
    }

    method SendRejected(joined: bool, sentence: string, detail: Option<string>, fatal: bool)
      requires Ranged(rows.Rows()) && sends.Failures().sendDepth > 0
      modifies rows, life, sends
      ensures View() == HandleSendFailed(old(View()), joined, sentence, detail, fatal)
    {
      hide ResolveHeld, NoteRejection, EndWithError, NoteError;
      sends.CountSend(-1);
      sends.NoteSendRejection(detail.GetOr(sentence));
      ResolveHeldAgentErrors();
      if fatal {
        EndBadly(Failed, SEND_FAILED + sentence, detail);
      } else if joined {
        rows.ReportError(SEND_FAILED + sentence, detail);
      } else {
        EndBadly(Idle, SEND_FAILED + sentence, detail);
      }
    }

    method OnAttachFailed(sentence: string, detail: Option<string>)
      requires Ranged(rows.Rows())
      modifies rows, life, link
      ensures View() == HandleAttachFailed(old(View()), sentence, detail)
    {
      hide EndWithError;
      link.EndAttaching();
      EndBadly(Failed, ATTACH_FAILED + sentence, detail);
    }

    method Dispose()
      requires Ranged(rows.Rows())
      modifies link
      ensures View() == Step(old(View()), Op.Dispose)
    {
      if !link.disposed {
        link.disposed := true;
        link.ClearRequests();
        link.Detach();
      }
    }
  }
}
