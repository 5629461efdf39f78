/**
 The transcript of an agent session: rows, the maps that find a row again, and the
 counters rows are numbered from. Every operation of the session controller that writes
 rows is here as a function on transcript values.
 */
module Transcripts {
  import opened Basics

  datatype Role = User | Assistant | Thought

  function RoleName(role: Role): string {
    match role case User => "user" case Assistant => "assistant" case Thought => "thought"
  }

  /** A row id `prefix-number`. */
  datatype ItemId = ItemId(prefix: string, number: nat)

  datatype ToolFields = ToolFields(
    kind: Option<string>, locations: Option<seq<string>>, parent: Option<string>, depth: Option<int>,
    subagentType: Option<string>, command: Option<string>, exitCode: Option<int>,
    images: seq<string>, edits: seq<string>)

  /** The rows other parts of the app compose: permission requests, daemon notices and
      messages between agents. */
  datatype Card = PermissionCard(text: string) | NoticeCard(text: string) | PeerCard(text: string) | OutgoingCard(text: string)

  datatype Item =
    | Text(id: ItemId, role: Role, text: string, messageId: Option<string>, parent: Option<string>, depth: Option<int>,
           atMs: Option<int>, images: seq<string>, workedMs: Option<int>, stopReason: Option<string>)
    | Tool(id: ItemId, toolCallId: string, title: string, output: string, status: string, fields: ToolFields)
    | Error(id: ItemId, message: string, detail: Option<string>)
    | System(id: ItemId, notice: string, warning: bool)
    | CardRow(id: ItemId, card: Card)

  /** Keys of the block map. The part of a text key after the role is the string the
      controller writes, so two ids that print alike share a block here too. */
  datatype BlockKey = TextKey(role: Role, rest: string) | ToolKey(turn: nat, toolCallId: string)

  /** The string a key stands for. */
  function KeyText(k: BlockKey): string {
    match k
    case TextKey(role, rest) => RoleName(role) + ":" + rest
    case ToolKey(turn, id) => "tool:" + Decimal(turn) + ":" + id
  }

  datatype ActiveKey = ActiveKey(role: Role, parent: string)

  /** One fragment of text and the block it was routed to. */
  datatype Chunk = Chunk(key: BlockKey, text: string)

  /** `routed` records every fragment since the transcript was last replaced. */
  datatype Transcript = Transcript(
    items: seq<Item>, blocks: map<BlockKey, nat>, toolRows: map<string, BlockKey>,
    activeBlocks: map<ActiveKey, BlockKey>, activeRole: Option<Role>,
    nextItemId: nat, nextAnonymous: nat, turn: nat, turnOpen: bool, routed: seq<Chunk>)

  const ANONYMOUS := "anonymous:"

  const EMPTY := Transcript([], map[], map[], map[], None, 1, 1, 0, false, [])

  /** Every block names a row that exists. */
  predicate Ranged(t: Transcript) {
    forall k :: k in t.blocks ==> t.blocks[k] < |t.items|
  }

  /* ----- Turns and open blocks ----- */

  function CloseActiveBlocks(t: Transcript): Transcript {
    t.(activeBlocks := map[], activeRole := None)
  }

  function BeginTurn(t: Transcript): Transcript {
    CloseActiveBlocks(t.(turn := t.turn + 1, turnOpen := true))
  }

  function EnsureTurn(t: Transcript): Transcript {
    if t.turnOpen then t else BeginTurn(t)
  }

  function PrepareRole(t: Transcript, role: Role): Transcript {
    if t.activeRole == Some(role) then t else CloseActiveBlocks(t).(activeRole := Some(role))
  }

  /* ----- Plain rows ----- */

  function NextId(t: Transcript, prefix: string): ItemId {
    ItemId(prefix, t.nextItemId)
  }

  function Push(t: Transcript, item: Item): Transcript {
    t.(items := t.items + [item], nextItemId := t.nextItemId + 1)
  }

  function AppendSystem(t: Transcript, notice: string, warning: bool): Transcript {
    Push(CloseActiveBlocks(t), System(NextId(t, "system"), notice, warning))
  }

  function CardPrefix(card: Card): string {
    match card
    case PermissionCard(_) => "permission-request"
    case NoticeCard(_) => "daemon-notice"
    case PeerCard(_) => "a2a-message"
    case OutgoingCard(_) => "a2a-outgoing-message"
  }

  function AppendCard(t: Transcript, card: Card): Transcript {
    Push(CloseActiveBlocks(t), CardRow(NextId(t, CardPrefix(card)), card))
  }

  function NoteError(t: Transcript, message: string, detail: Option<string>): Transcript {
    Push(t, Error(NextId(t, "error"), message, detail))
  }

  /** The error row of a turn or a session that ended badly: the turn is over. */
  function EndWithError(t: Transcript, message: string, detail: Option<string>): Transcript {
    NoteError(CloseActiveBlocks(t.(turnOpen := false)), message, detail)
  }

  /* ----- Text blocks ----- */

  function TextRest(t: Transcript, parent: Option<string>): string {
    Decimal(t.turn) + ":" + parent.GetOr("") + ":"
  }

  function BlockKeyOf(t: Transcript, role: Role, messageId: Option<string>, parent: Option<string>): BlockKey {
    var active := ActiveKey(role, parent.GetOr(""));
    if messageId.Some? then TextKey(role, TextRest(t, parent) + messageId.value)
    else if active in t.activeBlocks then t.activeBlocks[active]
    else TextKey(role, TextRest(t, parent) + ANONYMOUS + Decimal(t.nextAnonymous))
  }

  function CountAnonymous(t: Transcript, role: Role, messageId: Option<string>, parent: Option<string>): Transcript {
    if messageId.None? && ActiveKey(role, parent.GetOr("")) !in t.activeBlocks
    then t.(nextAnonymous := t.nextAnonymous + 1) else t
  }

  function Join(item: Item, text: string, atMs: Option<int>, images: seq<string>): Item
    requires item.Text?
  {
    item.(text := item.text + text,
          atMs := if item.atMs.None? then atMs else item.atMs,
          images := if item.images == [] then images else item.images)
  }

  /** A new block for `item`, which becomes the open block of `a`. */
  function OpenBlock(t: Transcript, key: BlockKey, item: Item, a: ActiveKey): Transcript
    requires item.Text?
  {
    Push(t, item).(blocks := t.blocks[key := |t.items|], activeBlocks := t.activeBlocks[a := key],
                   routed := t.routed + [Chunk(key, item.text)])
  }

  /** A fragment joined to the row of a known block. */
  function JoinBlock(t: Transcript, key: BlockKey, text: string, atMs: Option<int>, images: seq<string>, a: ActiveKey): Transcript
    requires Ranged(t) && key in t.blocks && t.items[t.blocks[key]].Text?
  {
    var index := t.blocks[key];
    t.(items := t.items[index := Join(t.items[index], text, atMs, images)],
       activeBlocks := t.activeBlocks[a := key], routed := t.routed + [Chunk(key, text)])
  }

  function NewText(id: ItemId, role: Role, messageId: Option<string>, text: string, parent: Option<string>, depth: Option<int>,
                   atMs: Option<int>, images: seq<string>): (item: Item)
    ensures item.Text? && item.text == text
  {
    Text(id, role, text, messageId, parent, depth, atMs, images, None, None)
  }

  /** A fragment placed in its block, which is opened if no row carries it. */
  function PlaceText(t: Transcript, key: BlockKey, role: Role, messageId: Option<string>, text: string, parent: Option<string>,
                     depth: Option<int>, atMs: Option<int>, images: seq<string>): (t': Transcript)
    requires Ranged(t)
    ensures Ranged(t')
    ensures t'.routed == t.routed + [Chunk(key, text)]
  {
    var a := ActiveKey(role, parent.GetOr(""));
    if key !in t.blocks then
      OpenBlock(t, key, NewText(NextId(t, RoleName(role)), role, messageId, text, parent, depth, atMs, images), a)
    else
      var item := t.items[t.blocks[key]];
      if !item.Text? || item.role != role then t.(routed := t.routed + [Chunk(key, text)])
      else JoinBlock(t, key, text, atMs, images, a)
  }

  function AppendText(t: Transcript, role: Role, messageId: Option<string>, text: string, parent: Option<string>,
                      depth: Option<int>, atMs: Option<int>, images: seq<string>): (t': Transcript)
    requires Ranged(t)
    ensures Ranged(t')
    ensures t'.routed == t.routed + [Chunk(BlockKeyOf(PrepareRole(t, role), role, messageId, parent), text)]
  {
    var t0 := PrepareRole(t, role);
    PlaceText(CountAnonymous(t0, role, messageId, parent), BlockKeyOf(t0, role, messageId, parent),
              role, messageId, text, parent, depth, atMs, images)
  }

  /* ----- Tool rows ----- */

  predicate IsRunningStatus(status: string) {
    var s := LowerCase(status);
    s == "running" || s == "pending" || s == "in_progress"
  }

  /** Whether a tool call gets a row of its own. */
  predicate StartsNewToolRow(t: Transcript, id: string)
    requires Ranged(t)
  {
    if id !in t.toolRows then true
    else
      var key := t.toolRows[id];
      if key !in t.blocks then false
      else
        var item := t.items[t.blocks[key]];
        if !item.Tool? || IsRunningStatus(item.status) then false
        else !(t.turnOpen && key == ToolKey(t.turn, id))
  }

  /** Command line and exit code belong to shell rows only. */
  function ShellFields(f: ToolFields): ToolFields {
    if f.kind == Some("execute") then f else f.(command := None, exitCode := None)
  }

  function AddToolRow(t: Transcript, key: BlockKey, item: Item): Transcript
    requires item.Tool?
  {
    Push(t, item).(blocks := t.blocks[key := |t.items|], toolRows := t.toolRows[item.toolCallId := key])
  }

  /** A call placed in its row, which is added if no block carries the key. */
  function PlaceTool(t: Transcript, key: BlockKey, id: string, title: string, status: string, output: string, f: ToolFields): (t': Transcript)
    requires Ranged(t)
    ensures Ranged(t')
  {
    if key !in t.blocks then
      AddToolRow(t, key, Tool(NextId(t, "tool"), id, title, output, status, ShellFields(f)))
    else
      var index := t.blocks[key];
      var item := t.items[index];
      if !item.Tool? then t
      else t.(items := t.items[index := item.(status := status, title := if title != "" then title else item.title)])
  }

  function ToolKeyOf(t: Transcript, id: string): BlockKey {
    if id in t.toolRows then t.toolRows[id] else ToolKey(t.turn, id)
  }

  function AppendTool(t: Transcript, id: string, title: string, status: string, output: string, f: ToolFields): (t': Transcript)
    requires Ranged(t)
    ensures Ranged(t')
  {
    var key := ToolKeyOf(t, id);
    PlaceTool(if key == ToolKey(t.turn, id) then CloseActiveBlocks(t) else t, key, id, title, status, output, f)
  }

  /** The fields a call passes to its row, and those an update passes. */
  function CallFields(f: ToolFields): ToolFields {
    f.(images := [])
  }

  function PatchFields(f: ToolFields): ToolFields {
    f.(subagentType := None)
  }

  function HandleToolCall(t: Transcript, id: string, title: string, status: string, f: ToolFields): (t': Transcript)
    requires Ranged(t)
    ensures Ranged(t')
  {
    var t0 := if StartsNewToolRow(t, id) then EnsureTurn(t.(toolRows := t.toolRows - {id})) else t;
    AppendTool(t0, id, title, status, "", f)
  }

  function NonEmpty(s: Option<string>): Option<string> {
    if s.Some? && s.value != "" then s else None
  }

  /** The row a later update leaves behind. */
  function Patched(item: Item, status: Option<string>, text: Option<string>, title: Option<string>, replace: bool, f: ToolFields): Item
    requires item.Tool?
  {
    var kind := if f.kind.Some? then f.kind else item.fields.kind;
    var shell := kind == Some("execute");
    var output :=
      if replace && text.Some? then text.value
      else if NonEmpty(text).None? then item.output
      else if item.output != "" then item.output + "\n" + text.value
      else text.value;
    var fields := item.fields.(
      kind := kind,
      locations := if f.locations.Some? then f.locations else item.fields.locations,
      command := if !shell then None else if f.command.Some? then f.command else item.fields.command,
      exitCode := if !shell then None else if f.exitCode.Some? then f.exitCode else item.fields.exitCode,
      images := if f.images != [] then f.images else item.fields.images,
      edits := if f.edits != [] then f.edits else item.fields.edits);
    item.(status := status.GetOr(item.status), output := output, title := NonEmpty(title).GetOr(item.title), fields := fields)
  }

  function UpdateTool(t: Transcript, id: string, status: Option<string>, text: Option<string>, title: Option<string>,
                      replace: bool, f: ToolFields): (t': Transcript)
    requires Ranged(t)
    ensures Ranged(t')
  {
    var key := ToolKeyOf(t, id);
    if key !in t.blocks then
      var command := if f.kind == Some("execute") then NonEmpty(f.command) else None;
      var shown := if NonEmpty(title).Some? then title.value
                   else if command.Some? then command.value
                   else NonEmpty(text).GetOr("Tool call");
      var output := if NonEmpty(title).None? && command.None? then "" else text.GetOr("");
      AppendTool(t, id, shown, status.GetOr("running"), output, f)
    else
      var index := t.blocks[key];
      var item := t.items[index];
      if !item.Tool? then t else t.(items := t.items[index := Patched(item, status, text, title, replace, f)])
  }

  function HandleToolUpdate(t: Transcript, id: string, status: Option<string>, text: Option<string>, title: Option<string>,
                            replace: bool, f: ToolFields): (t': Transcript)
    requires Ranged(t)
    ensures Ranged(t')
  {
    UpdateTool(if id in t.toolRows then t else EnsureTurn(t), id, status, text, title, replace, f)
  }

  /* ----- The end of a turn ----- */

  /** The publish time of the newest user row among the first `n`. */
  function LastUserAtMs(items: seq<Item>, n: nat): Option<int>
    requires n <= |items|
  {
    if n == 0 then None
    else if items[n - 1].Text? && items[n - 1].role.User? then items[n - 1].atMs
    else LastUserAtMs(items, n - 1)
  }

  /** The last assistant row among the first `n`, unless an earlier end is stamped on it. */
  function StampRow(items: seq<Item>, n: nat): (r: int)
    requires n <= |items|
    ensures -1 <= r < n
    ensures r >= 0 ==> items[r].Text? && items[r].role.Assistant? && items[r].stopReason.None?
  {
    if n == 0 then -1
    else if items[n - 1].Text? && items[n - 1].role.Assistant? then
      (if items[n - 1].stopReason.Some? then -1 else n - 1)
    else StampRow(items, n - 1)
  }

  function TurnWorkedMs(finishedAt: Option<int>, items: seq<Item>, startedAt: Option<int>, now: int): Option<int> {
    var start := LastUserAtMs(items, |items|);
    if finishedAt.Some? && start.Some? && finishedAt.value >= start.value then Some(finishedAt.value - start.value)
    else if startedAt.Some? then Some(if now >= startedAt.value then now - startedAt.value else 0)
    else None
  }

  function Stamped(item: Item, reason: string, workedMs: Option<int>): Item
    requires item.Text?
  {
    item.(stopReason := Some(reason), workedMs := if workedMs.Some? then workedMs else item.workedMs)
  }

  function StampTurnEnd(items: seq<Item>, reason: string, workedMs: Option<int>): (r: seq<Item>)
    ensures |r| == |items|
  {
    var index := StampRow(items, |items|);
    if index < 0 then items else items[index := Stamped(items[index], reason, workedMs)]
  }

  function FinishTurn(t: Transcript, finishedAt: Option<int>, reason: string, startedAt: Option<int>, now: int): (t': Transcript)
    requires Ranged(t)
    ensures Ranged(t')
  {
    var worked := TurnWorkedMs(finishedAt, t.items, startedAt, now);
    CloseActiveBlocks(t).(turnOpen := false, items := StampTurnEnd(t.items, reason, worked))
  }
}
