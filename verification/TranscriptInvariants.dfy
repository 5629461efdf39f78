/**
 What every transcript operation keeps: the block map and the tool map always find the
 right row, and a text row is exactly the text routed to its block.
 */
module TranscriptInvariants {
  import opened Basics
  import opened Transcripts

  /* ----- Keys as strings ----- */

  lemma ColonSplit(a: string, b: string, c: string, d: string)
    requires a + ":" + b == c + ":" + d
    requires ':' !in a && ':' !in c
    ensures a == c && b == d
  {
    var s := a + ":" + b;
    assert s[|a|] == ':' && s[|c|] == ':';
    assert forall i :: 0 <= i < |c| ==> s[i] == c[i];
    assert forall i :: 0 <= i < |a| ==> s[i] == a[i];
    assert s[..|a|] == a && s[..|c|] == c;
    assert s[|a| + 1..] == b && s[|c| + 1..] == d;
  }

  function KeyTag(k: BlockKey): (s: string)
    ensures ':' !in s
  {
    match k case TextKey(role, _) => RoleName(role) case ToolKey(_, _) => "tool"
  }

  /** Two keys print alike only when they are one key, so a map keyed by the printed strings
      and one keyed by these values behave alike. */
  lemma KeysPrintApart(k: BlockKey, m: BlockKey)
    ensures KeyText(k) == KeyText(m) <==> k == m
  {
    if KeyText(k) == KeyText(m) {
      var rk := if k.TextKey? then k.rest else Decimal(k.turn) + ":" + k.toolCallId;
      var rm := if m.TextKey? then m.rest else Decimal(m.turn) + ":" + m.toolCallId;
      assert KeyText(k) == KeyTag(k) + ":" + rk by { ToolPrint(k); }
      assert KeyText(m) == KeyTag(m) + ":" + rm by { ToolPrint(m); }
      ColonSplit(KeyTag(k), rk, KeyTag(m), rm);
      assert KeyTag(k)[0] == KeyTag(m)[0] && KeyTag(k)[1] == KeyTag(m)[1];
      assert k.ToolKey? == m.ToolKey?;
      if k.ToolKey? {
        DecimalDigits(k.turn);
        DecimalDigits(m.turn);
        ColonSplit(Decimal(k.turn), k.toolCallId, Decimal(m.turn), m.toolCallId);
        DecimalInjective(k.turn, m.turn);
      }
    }
  }

  lemma ToolPrint(k: BlockKey)
    ensures k.ToolKey? ==> KeyText(k) == "tool" + ":" + (Decimal(k.turn) + ":" + k.toolCallId)
  {
    if k.ToolKey? {
      assert "tool:" == "tool" + ":";
      assert KeyText(k) == "tool" + ":" + (Decimal(k.turn) + ":" + k.toolCallId);
    }
  }

  /* ----- The invariant ----- */

  /** The row is of the kind and name its key says. */
  predicate Names(k: BlockKey, item: Item) {
    match k
    case TextKey(role, _) => item.Text? && item.role == role
    case ToolKey(_, id) => item.Tool? && item.toolCallId == id
  }

  predicate Keyed(item: Item) { item.Text? || item.Tool? }

  /** Every block indexes a row of the role, or the tool id, its key names. */
  ghost predicate BlockNames(items: seq<Item>, blocks: map<BlockKey, nat>) {
    forall k :: k in blocks ==> blocks[k] < |items| && Names(k, items[blocks[k]])
  }

  ghost predicate BlocksApart(blocks: map<BlockKey, nat>) {
    forall k, m :: k in blocks && m in blocks && blocks[k] == blocks[m] ==> k == m
  }

  /** Every text and tool row has a block. */
  ghost predicate RowsKeyed(items: seq<Item>, blocks: map<BlockKey, nat>) {
    forall i :: 0 <= i < |items| && Keyed(items[i]) ==> i in blocks.Values
  }

  /** `toolRows` holds, for each tool id some block carries, the newest of its blocks. */
  ghost predicate ToolsNewest(blocks: map<BlockKey, nat>, toolRows: map<string, BlockKey>, turn: nat) {
    && (forall id :: id in toolRows ==> toolRows[id] in blocks && toolRows[id].ToolKey? && toolRows[id].toolCallId == id)
    && (forall k :: k in blocks && k.ToolKey? ==>
          && k.turn <= turn
          && k.toolCallId in toolRows
          && k.turn <= toolRows[k.toolCallId].turn
          && blocks[k] <= blocks[toolRows[k.toolCallId]])
  }

  ghost predicate ActiveKnown(blocks: map<BlockKey, nat>, activeBlocks: map<ActiveKey, BlockKey>) {
    forall a :: a in activeBlocks ==>
                  activeBlocks[a] in blocks && activeBlocks[a].TextKey? && activeBlocks[a].role == a.role
  }

  /** The fragments routed to `key`, in order. */
  function Gather(routed: seq<Chunk>, key: BlockKey): string {
    if routed == [] then ""
    else
      var last := routed[|routed| - 1];
      Gather(routed[..|routed| - 1], key) + (if last.key == key then last.text else "")
  }

  /** Each text row is the concatenation of exactly the fragments routed to its block. */
  ghost predicate TextsGathered(items: seq<Item>, blocks: map<BlockKey, nat>, routed: seq<Chunk>) {
    && (forall k :: k in blocks && k.TextKey? ==>
          blocks[k] < |items| && items[blocks[k]].Text? && items[blocks[k]].text == Gather(routed, k))
    && (forall c :: c in routed ==> c.key in blocks)
  }

  ghost predicate Inv(t: Transcript) {
    && BlockNames(t.items, t.blocks) && BlocksApart(t.blocks) && RowsKeyed(t.items, t.blocks)
    && ToolsNewest(t.blocks, t.toolRows, t.turn) && ActiveKnown(t.blocks, t.activeBlocks)
    && TextsGathered(t.items, t.blocks, t.routed)
  }

  /** A tool row carrying the id is never newer than the one `toolRows` names. */
  lemma NewestToolRow(t: Transcript, id: string, j: nat)
    requires Inv(t) && j < |t.items| && t.items[j].Tool? && t.items[j].toolCallId == id
    ensures id in t.toolRows && t.toolRows[id] in t.blocks && j <= t.blocks[t.toolRows[id]]
  {
    assert Keyed(t.items[j]);
    var k :| k in t.blocks && t.blocks[k] == j;
    assert Names(k, t.items[j]);
  }

  /* ----- How each part survives one change of rows or blocks ----- */

  lemma {:induction false} GatherAbsent(routed: seq<Chunk>, key: BlockKey)
    requires forall c :: c in routed ==> c.key != key
    ensures Gather(routed, key) == ""
  {
    if routed != [] {
      GatherAbsent(routed[..|routed| - 1], key);
      assert routed[|routed| - 1] in routed;
    }
  }

  lemma GatherNext(routed: seq<Chunk>, c: Chunk, k: BlockKey)
    ensures Gather(routed + [c], k) == Gather(routed, k) + (if c.key == k then c.text else "")
  {
    assert (routed + [c])[..|routed|] == routed;
  }

  lemma RowPushed(items: seq<Item>, blocks: map<BlockKey, nat>, routed: seq<Chunk>, item: Item)
    requires BlockNames(items, blocks) && RowsKeyed(items, blocks) && TextsGathered(items, blocks, routed) && !Keyed(item)
    ensures BlockNames(items + [item], blocks) && RowsKeyed(items + [item], blocks)
    ensures TextsGathered(items + [item], blocks, routed)
  {
  }

  lemma BlockAdded(items: seq<Item>, blocks: map<BlockKey, nat>, key: BlockKey, item: Item)
    requires BlockNames(items, blocks) && BlocksApart(blocks) && key !in blocks && Names(key, item)
    ensures BlockNames(items + [item], blocks[key := |items|]) && BlocksApart(blocks[key := |items|])
  {
  }

  lemma RowsStayKeyed(items: seq<Item>, blocks: map<BlockKey, nat>, key: BlockKey, item: Item)
    requires RowsKeyed(items, blocks) && key !in blocks
    ensures RowsKeyed(items + [item], blocks[key := |items|])
  {
    var items', blocks' := items + [item], blocks[key := |items|];
    forall i | 0 <= i < |items'| && Keyed(items'[i]) ensures i in blocks'.Values {
      if i < |items| {
        assert Keyed(items[i]);
        var k :| k in blocks && blocks[k] == i;
        assert k in blocks' && blocks'[k] == i;
      } else {
        assert key in blocks' && blocks'[key] == i;
      }
    }
  }

  /** A row rewritten in place, keeping what its key says. */
  lemma RowRewritten(items: seq<Item>, blocks: map<BlockKey, nat>, index: nat, item: Item)
    requires BlockNames(items, blocks) && RowsKeyed(items, blocks) && index < |items|
    requires Keyed(item) == Keyed(items[index])
    requires forall k :: Names(k, items[index]) ==> Names(k, item)
    ensures BlockNames(items[index := item], blocks) && RowsKeyed(items[index := item], blocks)
  {
  }

  lemma TextsRewritten(items: seq<Item>, blocks: map<BlockKey, nat>, routed: seq<Chunk>, index: nat, item: Item)
    requires TextsGathered(items, blocks, routed) && index < |items|
    requires items[index].Text? ==> item.Text? && item.text == items[index].text
    ensures TextsGathered(items[index := item], blocks, routed)
  {
  }

  lemma TextAdded(items: seq<Item>, blocks: map<BlockKey, nat>, routed: seq<Chunk>, key: BlockKey, item: Item)
    requires TextsGathered(items, blocks, routed) && key !in blocks && item.Text?
    ensures TextsGathered(items + [item], blocks[key := |items|], routed + [Chunk(key, item.text)])
  {
    var items', blocks', c := items + [item], blocks[key := |items|], Chunk(key, item.text);
    forall k | k in blocks' && k.TextKey?
      ensures blocks'[k] < |items'| && items'[blocks'[k]].Text? && items'[blocks'[k]].text == Gather(routed + [c], k)
    {
      GatherNext(routed, c, k);
      if k == key { GatherAbsent(routed, key); }
    }
  }

  lemma TextJoined(items: seq<Item>, blocks: map<BlockKey, nat>, routed: seq<Chunk>, key: BlockKey, text: string, item: Item)
    requires TextsGathered(items, blocks, routed) && BlocksApart(blocks) && key in blocks && key.TextKey?
    requires item.Text? && item.text == items[blocks[key]].text + text
    ensures TextsGathered(items[blocks[key] := item], blocks, routed + [Chunk(key, text)])
  {
    var items', c := items[blocks[key] := item], Chunk(key, text);
    forall k | k in blocks && k.TextKey?
      ensures blocks[k] < |items'| && items'[blocks[k]].Text? && items'[blocks[k]].text == Gather(routed + [c], k)
    {
      GatherNext(routed, c, k);
    }
  }

  lemma ToolAdded(items: seq<Item>, blocks: map<BlockKey, nat>, toolRows: map<string, BlockKey>, turn: nat, id: string)
    requires BlockNames(items, blocks) && ToolsNewest(blocks, toolRows, turn) && ToolKey(turn, id) !in blocks
    ensures ToolsNewest(blocks[ToolKey(turn, id) := |items|], toolRows[id := ToolKey(turn, id)], turn)
  {
  }

  lemma TextKeyAdded(blocks: map<BlockKey, nat>, toolRows: map<string, BlockKey>, turn: nat, key: BlockKey, index: nat)
    requires ToolsNewest(blocks, toolRows, turn) && key.TextKey? && key !in blocks
    ensures ToolsNewest(blocks[key := index], toolRows, turn)
  {
  }

  /* ----- Preservation, one operation at a time ----- */

  lemma CloseKeeps(t: Transcript)
    requires Inv(t)
    ensures Inv(CloseActiveBlocks(t)) && Inv(EnsureTurn(t)) && Inv(BeginTurn(t))
  {
  }

  lemma PushKeeps(t: Transcript, item: Item)
    requires Inv(t) && !Keyed(item)
    ensures Inv(Push(t, item))
  {
    RowPushed(t.items, t.blocks, t.routed, item);
  }

  lemma PrepareKeeps(t: Transcript, role: Role)
    requires Inv(t)
    ensures Inv(PrepareRole(t, role))
  {
  }

  lemma NewTextKeeps(t: Transcript, key: BlockKey, item: Item, a: ActiveKey)
    requires Inv(t) && key.TextKey? && key !in t.blocks && item.Text? && item.role == key.role == a.role
    ensures Inv(OpenBlock(t, key, item, a))
  {
    BlockAdded(t.items, t.blocks, key, item);
    RowsStayKeyed(t.items, t.blocks, key, item);
    TextAdded(t.items, t.blocks, t.routed, key, item);
    TextKeyAdded(t.blocks, t.toolRows, t.turn, key, |t.items|);
  }

  lemma JoinKeeps(t: Transcript, key: BlockKey, text: string, atMs: Option<int>, images: seq<string>, a: ActiveKey)
    requires Inv(t) && key.TextKey? && key in t.blocks && key.role == a.role
    ensures t.items[t.blocks[key]].Text? && t.items[t.blocks[key]].role == key.role
    ensures Inv(JoinBlock(t, key, text, atMs, images, a))
  {
    hide ToolsNewest, BlocksApart, RowsKeyed, Gather;
    var index := t.blocks[key];
    assert Names(key, t.items[index]);
    var item := Join(t.items[index], text, atMs, images);
    RowRewritten(t.items, t.blocks, index, item);
    TextJoined(t.items, t.blocks, t.routed, key, text, item);
  }

  /** The transcript a fragment is routed in, and the block it is routed to. */
  lemma RouteKeeps(t: Transcript, role: Role, messageId: Option<string>, parent: Option<string>)
    requires Inv(t)
    ensures Inv(CountAnonymous(PrepareRole(t, role), role, messageId, parent))
    ensures var key := BlockKeyOf(PrepareRole(t, role), role, messageId, parent); key.TextKey? && key.role == role
  {
    PrepareKeeps(t, role);
  }

  lemma AppendTextOpens(t: Transcript, role: Role, messageId: Option<string>, text: string, parent: Option<string>,
                        depth: Option<int>, atMs: Option<int>, images: seq<string>)
    requires Inv(t) && BlockKeyOf(PrepareRole(t, role), role, messageId, parent) !in t.blocks
    ensures Inv(AppendText(t, role, messageId, text, parent, depth, atMs, images))
  {
    RouteKeeps(t, role, messageId, parent);
    var key := BlockKeyOf(PrepareRole(t, role), role, messageId, parent);
    var t1 := CountAnonymous(PrepareRole(t, role), role, messageId, parent);
    NewTextKeeps(t1, key, Text(NextId(t1, RoleName(role)), role, text, messageId, parent, depth, atMs, images, None, None),
                 ActiveKey(role, parent.GetOr("")));
  }

  lemma AppendTextJoins(t: Transcript, role: Role, messageId: Option<string>, text: string, parent: Option<string>,
                        depth: Option<int>, atMs: Option<int>, images: seq<string>)
    requires Inv(t) && BlockKeyOf(PrepareRole(t, role), role, messageId, parent) in t.blocks
    ensures Inv(AppendText(t, role, messageId, text, parent, depth, atMs, images))
  {
    RouteKeeps(t, role, messageId, parent);
    var key := BlockKeyOf(PrepareRole(t, role), role, messageId, parent);
    var t1 := CountAnonymous(PrepareRole(t, role), role, messageId, parent);
    JoinKeeps(t1, key, text, atMs, images, ActiveKey(role, parent.GetOr("")));
  }

  /** A fragment lands in exactly one text row of its role: the branch that would drop it
      is never taken. */
  lemma AppendTextKeeps(t: Transcript, role: Role, messageId: Option<string>, text: string, parent: Option<string>,
                        depth: Option<int>, atMs: Option<int>, images: seq<string>)
    requires Inv(t)
    ensures Inv(AppendText(t, role, messageId, text, parent, depth, atMs, images))
  {
    if BlockKeyOf(PrepareRole(t, role), role, messageId, parent) !in t.blocks {
      AppendTextOpens(t, role, messageId, text, parent, depth, atMs, images);
    } else {
      AppendTextJoins(t, role, messageId, text, parent, depth, atMs, images);
    }
  }

  /* ----- Tool rows ----- */

  /** A new tool row under a key of the running turn. */
  lemma NewToolKeeps(t: Transcript, item: Item)
    requires Inv(t) && item.Tool? && ToolKey(t.turn, item.toolCallId) !in t.blocks
    ensures Inv(AddToolRow(t, ToolKey(t.turn, item.toolCallId), item))
  {
    var key := ToolKey(t.turn, item.toolCallId);
    BlockAdded(t.items, t.blocks, key, item);
    RowsStayKeyed(t.items, t.blocks, key, item);
    ToolAdded(t.items, t.blocks, t.toolRows, t.turn, item.toolCallId);
    assert TextsGathered(t.items + [item], t.blocks[key := |t.items|], t.routed);
  }

  /** Exactly one row is appended, a tool row of this id, and `toolRows` finds it. */
  ghost predicate AppendsToolRow(t: Transcript, t': Transcript, id: string) {
    && |t'.items| == |t.items| + 1 && t'.items[..|t.items|] == t.items
    && t'.items[|t.items|].Tool? && t'.items[|t.items|].toolCallId == id
    && id in t'.toolRows && t'.toolRows[id] in t'.blocks && t'.blocks[t'.toolRows[id]] == |t.items|
  }

  /** Exactly one row, the newest of this id, is rewritten and nothing is appended. */
  ghost predicate RewritesToolRow(t: Transcript, t': Transcript, id: string) {
    && id in t.toolRows && t.toolRows[id] in t.blocks
    && (var index := t.blocks[t.toolRows[id]];
        && index < |t.items| == |t'.items|
        && t.items[index].Tool? && t'.items[index].Tool?
        && t'.items[index].id == t.items[index].id && t'.items[index].toolCallId == id
        && t'.items == t.items[index := t'.items[index]])
    && t'.blocks == t.blocks && t'.toolRows == t.toolRows
  }

  /** The key a call of the running turn would get is free once the call starts a new row. */
  lemma NewRowKeyFree(t: Transcript, id: string)
    requires Inv(t) && StartsNewToolRow(t, id)
    ensures ToolKey(EnsureTurn(t).turn, id) !in t.blocks
  {
  }

  lemma RewriteToolKeeps(t: Transcript, id: string, item: Item)
    requires Inv(t) && id in t.toolRows && item.Tool? && item.toolCallId == id
    requires t.toolRows[id] in t.blocks && item.id == t.items[t.blocks[t.toolRows[id]]].id
    ensures var t' := t.(items := t.items[t.blocks[t.toolRows[id]] := item]);
            Inv(t') && RewritesToolRow(t, t', id)
  {
    var index := t.blocks[t.toolRows[id]];
    assert Names(t.toolRows[id], t.items[index]);
    RowRewritten(t.items, t.blocks, index, item);
    TextsRewritten(t.items, t.blocks, t.routed, index, item);
  }

  function CallRow(t: Transcript, id: string, title: string, status: string, f: ToolFields): Item {
    Tool(NextId(t, "tool"), id, title, "", status, ShellFields(f))
  }

  lemma NewToolCallIs(t: Transcript, id: string, title: string, status: string, f: ToolFields)
    requires Ranged(t) && StartsNewToolRow(t, id) && ToolKey(EnsureTurn(t).turn, id) !in t.blocks
    ensures var open := CloseActiveBlocks(EnsureTurn(t));
            HandleToolCall(t, id, title, status, f) == AddToolRow(open, ToolKey(open.turn, id), CallRow(open, id, title, status, f))
  {
    hide Ranged, StartsNewToolRow, ShellFields;
    var open := CloseActiveBlocks(EnsureTurn(t));
    var key := ToolKey(open.turn, id);
    var cut := EnsureTurn(t.(toolRows := t.toolRows - {id}));
    assert cut.toolRows[id := key] == open.toolRows[id := key];
  }

  lemma NewToolCall(t: Transcript, id: string, title: string, status: string, f: ToolFields)
    requires Inv(t) && StartsNewToolRow(t, id)
    ensures var t' := HandleToolCall(t, id, title, status, f); Inv(t') && AppendsToolRow(t, t', id)
  {
    NewRowKeyFree(t, id);
    NewToolCallIs(t, id, title, status, f);
    var open := CloseActiveBlocks(EnsureTurn(t));
    NewToolKeeps(open, CallRow(open, id, title, status, f));
  }

  lemma RepeatedToolCall(t: Transcript, id: string, title: string, status: string, f: ToolFields)
    requires Inv(t) && !StartsNewToolRow(t, id)
    ensures var t' := HandleToolCall(t, id, title, status, f); Inv(t') && RewritesToolRow(t, t', id)
  {
    var key := t.toolRows[id];
    assert Names(key, t.items[t.blocks[key]]);
    var t1 := if key == ToolKey(t.turn, id) then CloseActiveBlocks(t) else t;
    var item := t1.items[t1.blocks[key]];
    RewriteToolKeeps(t1, id, item.(status := status, title := if title != "" then title else item.title));
  }

  /** A tool call appends exactly one row when it starts a new one, and otherwise rewrites
      exactly the newest row of its id. */
  lemma ToolCallEffect(t: Transcript, id: string, title: string, status: string, f: ToolFields)
    requires Inv(t)
    ensures var t' := HandleToolCall(t, id, title, status, f);
            && Inv(t')
            && (if StartsNewToolRow(t, id) then AppendsToolRow(t, t', id) else RewritesToolRow(t, t', id))
  {
    if StartsNewToolRow(t, id) {
      NewToolCall(t, id, title, status, f);
    } else {
      RepeatedToolCall(t, id, title, status, f);
    }
  }

  /** An update opens a row only for an id no row carries; otherwise it rewrites the newest
      row of that id, whatever turn it is in, and opens no turn. */
  lemma ToolUpdateEffect(t: Transcript, id: string, status: Option<string>, text: Option<string>, title: Option<string>,
                         replace: bool, f: ToolFields)
    requires Inv(t)
    ensures var t' := HandleToolUpdate(t, id, status, text, title, replace, f);
            && Inv(t')
            && (if id !in t.toolRows then AppendsToolRow(t, t', id) else RewritesToolRow(t, t', id))
            && (id in t.toolRows ==> t'.turn == t.turn && t'.turnOpen == t.turnOpen)
  {
    if id in t.toolRows {
      var item := t.items[t.blocks[t.toolRows[id]]];
      assert Names(t.toolRows[id], item);
      RewriteToolKeeps(t, id, Patched(item, status, text, title, replace, f));
    } else {
      var open := CloseActiveBlocks(EnsureTurn(t));
      var t' := HandleToolUpdate(t, id, status, text, title, replace, f);
      NewToolKeeps(open, t'.items[|t.items|]);
    }
  }

  lemma RestampKeeps(t: Transcript, index: nat, item: Item)
    requires Inv(t) && index < |t.items| && t.items[index].Text? && item.Text?
    requires item.text == t.items[index].text && item.role == t.items[index].role
    ensures Inv(CloseActiveBlocks(t).(turnOpen := false, items := t.items[index := item]))
  {
    RowRewritten(t.items, t.blocks, index, item);
    TextsRewritten(t.items, t.blocks, t.routed, index, item);
  }

  lemma FinishKeeps(t: Transcript, finishedAt: Option<int>, reason: string, startedAt: Option<int>, now: int)
    requires Inv(t)
    ensures Inv(FinishTurn(t, finishedAt, reason, startedAt, now))
  {
    var worked := TurnWorkedMs(finishedAt, t.items, startedAt, now);
    var index := StampRow(t.items, |t.items|);
    if index >= 0 {
      RestampKeeps(t, index, StampTurnEnd(t.items, reason, worked)[index]);
    }
  }
}
