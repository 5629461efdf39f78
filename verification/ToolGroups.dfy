/**
 Consecutive tool rows of one parent and depth collapse into a group. A group of an earlier
 grouping is used again when it holds the same rows.
 */
module ToolGroups {
  import opened Basics

  /** A row of the chat; `depth` counts spawns. Rows are equal when they are the same row. */
  datatype Row =
    | ToolRow(id: string, kind: Option<string>, parent: Option<string>, depth: Option<nat>)
    | OtherRow(id: string)

  datatype Entry = Single(row: Row) | Group(id: string, rows: seq<Row>, summary: string)

  const PLAN := "plan"
  const QUESTION := "question"

  predicate Groupable(row: Row)
    ensures Groupable(row) ==> row.ToolRow?
  {
    if !row.ToolRow? then false
    else if row.kind.None? then true
    else
      var kind := LowerCase(Trim(row.kind.value));
      kind != PLAN && kind != QUESTION
  }

  /** The string runs are told apart by. */
  function Key(row: Row): string
    requires row.ToolRow?
  {
    row.parent.GetOr("") + ":" + (if row.depth.Some? then Decimal(row.depth.value) else "")
  }

  /** An absent parent is the top level. */
  predicate SameLevel(a: Row, b: Row) {
    a.ToolRow? && b.ToolRow? && a.parent.GetOr("") == b.parent.GetOr("") && a.depth == b.depth
  }

  /* ----- Keys ----- */

  lemma ColonNotLater(a: string, b: string, c: string, d: string)
    requires a + ":" + b == c + ":" + d && ':' !in b
    ensures |c| <= |a|
  {
    var s := a + ":" + b;
    assert forall k :: |a| < k < |s| ==> s[k] == b[k - |a| - 1] && b[k - |a| - 1] in b;
    assert (c + ":" + d)[|c|] == ':';
  }

  /** What follows the last colon has none, so the key gives back both of its parts. */
  lemma LastColon(a: string, b: string, c: string, d: string)
    requires a + ":" + b == c + ":" + d && ':' !in b && ':' !in d
    ensures a == c && b == d
  {
    ColonNotLater(a, b, c, d);
    ColonNotLater(c, d, a, b);
    var s := a + ":" + b;
    assert a == s[..|a|] && c == s[..|a|] && b == s[|a| + 1..] && d == s[|a| + 1..];
  }

  function DepthText(depth: Option<nat>): string {
    if depth.Some? then Decimal(depth.value) else ""
  }

  lemma DepthTexts(a: Option<nat>, b: Option<nat>)
    ensures ':' !in DepthText(a) && (DepthText(a) == DepthText(b) ==> a == b)
  {
    if a.Some? {
      DecimalDigits(a.value);
      if b.Some? && Decimal(a.value) == Decimal(b.value) { DecimalInjective(a.value, b.value); }
    }
  }

  lemma KeysAreLevels(a: Row, b: Row)
    requires a.ToolRow? && b.ToolRow?
    ensures Key(a) == Key(b) <==> SameLevel(a, b)
  {
    DepthTexts(a.depth, b.depth);
    DepthTexts(b.depth, a.depth);
    hide Decimal;
    if Key(a) == Key(b) {
      LastColon(a.parent.GetOr(""), DepthText(a.depth), b.parent.GetOr(""), DepthText(b.depth));
    }
  }

  /* ----- Grouping ----- */

  predicate Joins(a: Row, b: Row) {
    Groupable(a) && Groupable(b) && Key(a) == Key(b)
  }

  /** The last group of an earlier grouping with the id. */
  function Earlier(previous: seq<Entry>, id: string): Option<Entry> {
    if previous == [] then None
    else
      var last := previous[|previous| - 1];
      if last.Group? && last.id == id then Some(last) else Earlier(previous[..|previous| - 1], id)
  }

  /** A finished run: nothing, a row on its own, or a group. */
  function Flush(run: seq<Row>, previous: seq<Entry>, summarize: seq<Row> -> string): seq<Entry> {
    if run == [] then []
    else if |run| == 1 then [Single(run[0])]
    else
      var earlier := Earlier(previous, run[0].id);
      if earlier.Some? && earlier.value.Group? && earlier.value.rows == run then [earlier.value]
      else [Group(run[0].id, run, summarize(run))]
  }

  function GroupFrom(rows: seq<Row>, run: seq<Row>, previous: seq<Entry>, summarize: seq<Row> -> string): seq<Entry>
    decreases |rows|
  {
    if rows == [] then Flush(run, previous, summarize)
    else if !Groupable(rows[0]) then
      Flush(run, previous, summarize) + [Single(rows[0])] + GroupFrom(rows[1..], [], previous, summarize)
    else if run != [] && !Joins(run[|run| - 1], rows[0]) then
      Flush(run, previous, summarize) + GroupFrom(rows[1..], [rows[0]], previous, summarize)
    else GroupFrom(rows[1..], run + [rows[0]], previous, summarize)
  }

  function GroupToolCalls(rows: seq<Row>, previous: seq<Entry>, summarize: seq<Row> -> string): seq<Entry> {
    GroupFrom(rows, [], previous, summarize)
  }

  /* ----- What a grouping is ----- */

  function RowsOf(e: Entry): seq<Row> {
    if e.Single? then [e.row] else e.rows
  }

  function Flatten(entries: seq<Entry>): seq<Row> {
    if entries == [] then [] else RowsOf(entries[0]) + Flatten(entries[1..])
  }

  /** Groupable rows of one level. */
  ghost predicate Uniform(run: seq<Row>) {
    && (forall i :: 0 <= i < |run| ==> Groupable(run[i]))
    && (forall i, j :: 0 <= i < |run| && 0 <= j < |run| ==> Joins(run[i], run[j]))
  }

  /** A group has at least two rows of one level, its first row's id and its rows' summary. */
  ghost predicate Proper(e: Entry, summarize: seq<Row> -> string) {
    e.Group? ==> |e.rows| >= 2 && Uniform(e.rows) && e.id == e.rows[0].id && e.summary == summarize(e.rows)
  }

  /** Two neighbours that could have been one. */
  ghost predicate Mergeable(a: Entry, b: Entry) {
    RowsOf(a) != [] && RowsOf(b) != [] && Joins(RowsOf(a)[|RowsOf(a)| - 1], RowsOf(b)[0])
  }

  ghost predicate Grouping(entries: seq<Entry>, summarize: seq<Row> -> string) {
    && (forall i :: 0 <= i < |entries| ==> Proper(entries[i], summarize))
    && (forall i :: 0 <= i < |entries| - 1 ==> !Mergeable(entries[i], entries[i + 1]))
  }

  /** Groups an earlier grouping may hand over. */
  ghost predicate Honest(previous: seq<Entry>, summarize: seq<Row> -> string) {
    forall i :: 0 <= i < |previous| && previous[i].Group? ==> previous[i].summary == summarize(previous[i].rows)
  }

  lemma {:induction false} EarlierIsThere(previous: seq<Entry>, id: string) returns (i: nat)
    requires Earlier(previous, id).Some?
    ensures i < |previous| && previous[i] == Earlier(previous, id).value && previous[i].Group? && previous[i].id == id
  {
    var last := previous[|previous| - 1];
    if last.Group? && last.id == id {
      i := |previous| - 1;
    } else {
      i := EarlierIsThere(previous[..|previous| - 1], id);
    }
  }

  /** A reused group is the group that would have been made. */
  lemma FlushSame(run: seq<Row>, previous: seq<Entry>, summarize: seq<Row> -> string)
    requires Honest(previous, summarize)
    ensures Flush(run, previous, summarize) == Flush(run, [], summarize)
  {
    if |run| > 1 && Earlier(previous, run[0].id).Some? {
      var i := EarlierIsThere(previous, run[0].id);
    }
  }

  lemma {:induction false} ReuseFrom(rows: seq<Row>, run: seq<Row>, previous: seq<Entry>, summarize: seq<Row> -> string)
    requires Honest(previous, summarize)
    ensures GroupFrom(rows, run, previous, summarize) == GroupFrom(rows, run, [], summarize)
    decreases |rows|
  {
    hide Flush, Groupable, Joins;
    FlushSame(run, previous, summarize);
    if rows != [] {
      ReuseFrom(rows[1..], [], previous, summarize);
      ReuseFrom(rows[1..], [rows[0]], previous, summarize);
      ReuseFrom(rows[1..], run + [rows[0]], previous, summarize);
    }
  }

  /* ----- The one grouping of a list ----- */

  lemma FlushRows(run: seq<Row>, summarize: seq<Row> -> string)
    ensures Flatten(Flush(run, [], summarize)) == run
  {
    if |run| == 1 { assert run == [run[0]]; }
  }

  lemma {:induction false} FlattenJoins(a: seq<Entry>, b: seq<Entry>)
    ensures Flatten(a + b) == Flatten(a) + Flatten(b)
    decreases |a|
  {
    if a == [] {
      assert a + b == b;
    } else {
      assert (a + b)[1..] == a[1..] + b;
      FlattenJoins(a[1..], b);
    }
  }

  lemma FlattenOne(row: Row)
    ensures Flatten([Single(row)]) == [row]
  {
    assert Flatten([Single(row)][1..]) == [];
  }

  /** A run flushed before a row that stands alone, and before a row that opens the next. */
  lemma FlattenFlushed(run: seq<Row>, row: Row, rest: seq<Entry>, rows: seq<Row>, summarize: seq<Row> -> string)
    requires Flatten(rest) == rows
    ensures Flatten(Flush(run, [], summarize) + rest) == run + rows
    ensures Flatten(Flush(run, [], summarize) + [Single(row)] + rest) == run + [row] + rows
  {
    hide Flush, Flatten;
    var flushed := Flush(run, [], summarize);
    FlushRows(run, summarize);
    FlattenOne(row);
    FlattenJoins(flushed, rest);
    FlattenJoins(flushed, [Single(row)]);
    FlattenJoins(flushed + [Single(row)], rest);
  }

  lemma GroupUnfolds(rows: seq<Row>, run: seq<Row>, summarize: seq<Row> -> string)
    requires rows != []
    ensures var row, tail, flushed := rows[0], rows[1..], Flush(run, [], summarize);
            GroupFrom(rows, run, [], summarize) ==
              if !Groupable(row) then flushed + [Single(row)] + GroupFrom(tail, [], [], summarize)
              else if run != [] && !Joins(run[|run| - 1], row) then flushed + GroupFrom(tail, [row], [], summarize)
              else GroupFrom(tail, run + [row], [], summarize)
  {
    hide Flush, Groupable, Joins;
  }

  lemma RowsRejoin(run: seq<Row>, rows: seq<Row>)
    requires rows != []
    ensures run + [rows[0]] + rows[1..] == run + rows && [rows[0]] + rows[1..] == rows && [] + rows[1..] == rows[1..]
  {
  }

  /** Nothing is lost or moved. */
  lemma {:induction false} FlattenFrom(rows: seq<Row>, run: seq<Row>, summarize: seq<Row> -> string)
    ensures Flatten(GroupFrom(rows, run, [], summarize)) == run + rows
    decreases |rows|
  {
    hide Flush, Groupable, Joins, Flatten, GroupFrom;
    if rows == [] {
      FlushRows(run, summarize);
      GroupEnd(run, [], summarize);
      assert run + rows == run;
    } else {
      var row, tail := rows[0], rows[1..];
      GroupUnfolds(rows, run, summarize);
      RowsRejoin(run, rows);
      if !Groupable(row) {
        FlattenFrom(tail, [], summarize);
        FlattenFlushed(run, row, GroupFrom(tail, [], [], summarize), tail, summarize);
      } else if run != [] && !Joins(run[|run| - 1], row) {
        FlattenFrom(tail, [row], summarize);
        FlattenFlushed(run, row, GroupFrom(tail, [row], [], summarize), rows, summarize);
      } else {
        FlattenFrom(tail, run + [row], summarize);
      }
    }
  }

  lemma UniformGrows(run: seq<Row>, row: Row)
    requires Uniform(run) && Groupable(row) && (run != [] ==> Joins(run[|run| - 1], row))
    ensures Uniform(run + [row])
  {
    hide Groupable;
    forall i | 0 <= i < |run| ensures Joins(run[i], row) {
      assert Joins(run[i], run[|run| - 1]);
    }
  }

  /** The first row of what follows a run of rows. */
  lemma {:induction false} FirstRow(rows: seq<Row>, run: seq<Row>, summarize: seq<Row> -> string)
    requires run + rows != []
    ensures var out := GroupFrom(rows, run, [], summarize);
            out != [] && RowsOf(out[0]) != [] && RowsOf(out[0])[0] == (run + rows)[0]
    decreases |rows|
  {
    if rows != [] && Groupable(rows[0]) && (run == [] || Joins(run[|run| - 1], rows[0])) {
      FirstRow(rows[1..], run + [rows[0]], summarize);
      assert run + [rows[0]] + rows[1..] == run + rows;
    }
  }

  lemma GroupingJoins(a: seq<Entry>, b: seq<Entry>, summarize: seq<Row> -> string)
    requires Grouping(a, summarize) && Grouping(b, summarize) && (a != [] && b != [] ==> !Mergeable(a[|a| - 1], b[0]))
    ensures Grouping(a + b, summarize)
  {
    hide Proper, Mergeable;
    var all := a + b;
    forall i | 0 <= i < |all| - 1 ensures !Mergeable(all[i], all[i + 1]) {
      if i < |a| - 1 { assert all[i] == a[i] && all[i + 1] == a[i + 1]; }
      else if i >= |a| { assert all[i] == b[i - |a|] && all[i + 1] == b[i - |a| + 1]; }
    }
  }

  lemma FlushGroups(run: seq<Row>, summarize: seq<Row> -> string)
    requires Uniform(run)
    ensures var f := Flush(run, [], summarize);
            Grouping(f, summarize) && (run == [] ==> f == []) && (run != [] ==> |f| == 1 && RowsOf(f[0]) == run)
  {
    if |run| == 1 { assert run == [run[0]]; }
  }

  lemma {:induction false} GroupedFrom(rows: seq<Row>, run: seq<Row>, summarize: seq<Row> -> string)
    requires Uniform(run)
    ensures Grouping(GroupFrom(rows, run, [], summarize), summarize)
    decreases |rows|
  {
    hide Flush, Uniform;
    FlushGroups(run, summarize);
    if rows != [] {
      var flushed, row := Flush(run, [], summarize), rows[0];
      if !Groupable(row) {
        NoRun();
        GroupedFrom(rows[1..], [], summarize);
        var rest := GroupFrom(rows[1..], [], [], summarize);
        GroupingJoins(flushed, [Single(row)], summarize);
        GroupingJoins(flushed + [Single(row)], rest, summarize);
      } else if run != [] && !Joins(run[|run| - 1], row) {
        OneRun(row);
        GroupedFrom(rows[1..], [row], summarize);
        FirstRow(rows[1..], [row], summarize);
        GroupingJoins(flushed, GroupFrom(rows[1..], [row], [], summarize), summarize);
      } else {
        UniformGrows(run, row);
        GroupedFrom(rows[1..], run + [row], summarize);
      }
    }
  }

  lemma NoRun()
    ensures Uniform([])
  {
  }

  lemma OneRun(row: Row)
    requires Groupable(row)
    ensures Uniform([row])
  {
  }

  /** A uniform run is taken up row by row. */
  lemma {:induction false} RunTaken(run: seq<Row>, i: nat, tail: seq<Row>, summarize: seq<Row> -> string)
    requires Uniform(run) && i <= |run|
    ensures GroupFrom(run[i..] + tail, run[..i], [], summarize) == GroupFrom(tail, run, [], summarize)
    decreases |run| - i
  {
    hide Groupable, Joins, Flush;
    if i == |run| {
      assert run[i..] + tail == tail && run[..i] == run;
    } else {
      var rows := run[i..] + tail;
      assert rows[0] == run[i] && rows[1..] == run[i + 1..] + tail && run[..i] + [run[i]] == run[..i + 1];
      assert i > 0 ==> Joins(run[i - 1], run[i]);
      RunTaken(run, i + 1, tail, summarize);
    }
  }

  lemma RunEnds(run: seq<Row>, tail: seq<Row>, summarize: seq<Row> -> string)
    requires run != [] && (tail != [] ==> !Joins(run[|run| - 1], tail[0]))
    ensures GroupFrom(tail, run, [], summarize) == Flush(run, [], summarize) + GroupFrom(tail, [], [], summarize)
  {
    hide Groupable, Joins, Flush;
    assert Flush([], [], summarize) == [] by { EmptyFlush(summarize); }
    if tail != [] { assert [] + [tail[0]] == [tail[0]]; }
  }

  lemma EmptyFlush(summarize: seq<Row> -> string)
    ensures Flush([], [], summarize) == []
  {
  }

  lemma EntryRun(e: Entry, summarize: seq<Row> -> string)
    requires Proper(e, summarize) && (e.Group? || Groupable(e.row))
    ensures Uniform(RowsOf(e)) && RowsOf(e) != [] && Flush(RowsOf(e), [], summarize) == [e]
  {
  }

  /** The rules leave one grouping only: whatever obeys them is what grouping its rows gives. */
  lemma {:induction false} GroupingIsCanonical(entries: seq<Entry>, summarize: seq<Row> -> string)
    requires Grouping(entries, summarize)
    ensures GroupToolCalls(Flatten(entries), [], summarize) == entries
    decreases |entries|
  {
    hide GroupFrom, Proper, Mergeable, RowsOf;
    assert GroupFrom([], [], [], summarize) == [] by { GroupEnd([], [], summarize); EmptyFlush(summarize); }
    if entries != [] {
      GroupingIsCanonical(entries[1..], summarize);
      assert entries == [entries[0]] + entries[1..];
      EntryFirst(entries[0], entries[1..], summarize);
    }
  }

  lemma EntryFirst(e: Entry, rest: seq<Entry>, summarize: seq<Row> -> string)
    requires Grouping([e] + rest, summarize) && Proper(e, summarize)
    ensures GroupFrom(RowsOf(e) + Flatten(rest), [], [], summarize) == [e] + GroupFrom(Flatten(rest), [], [], summarize)
  {
    hide Flush, Uniform, Groupable, Joins, Flatten, Grouping, Proper;
    var run, tail := RowsOf(e), Flatten(rest);
    if e.Single? && !Groupable(e.row) {
      EmptyFlush(summarize);
      assert ([e.row] + tail)[1..] == tail;
      assert [] + [e] + GroupFrom(tail, [], [], summarize) == [e] + GroupFrom(tail, [], [], summarize);
    } else {
      hide GroupFrom;
      EntryRun(e, summarize);
      Following(e, rest, summarize);
      RunTaken(run, 0, tail, summarize);
      assert run[0..] == run && run[..0] == [];
      RunEnds(run, tail, summarize);
    }
  }

  lemma Following(e: Entry, rest: seq<Entry>, summarize: seq<Row> -> string)
    requires Grouping([e] + rest, summarize) && RowsOf(e) != []
    ensures Flatten(rest) != [] ==> !Joins(RowsOf(e)[|RowsOf(e)| - 1], Flatten(rest)[0])
  {
    if rest != [] {
      var all := [e] + rest;
      assert all[0] == e && all[1] == rest[0];
      assert Proper(all[1], summarize) && !Mergeable(all[0], all[1]);
      assert Flatten(rest) == RowsOf(rest[0]) + Flatten(rest[1..]);
    }
  }

  /** Grouping with the output of an earlier grouping gives what grouping from scratch
      gives: the rows in order, in groups of at least two rows of one parent and depth,
      with no two neighbours left that could have been merged. */
  lemma GroupingIsSound(rows: seq<Row>, previous: seq<Entry>, summarize: seq<Row> -> string)
    requires Honest(previous, summarize)
    ensures var out := GroupToolCalls(rows, previous, summarize);
            && out == GroupToolCalls(rows, [], summarize) && Flatten(out) == rows && Grouping(out, summarize) && Honest(out, summarize)
            && (forall k, i, j :: 0 <= k < |out| && out[k].Group? && 0 <= i < |out[k].rows| && 0 <= j < |out[k].rows| ==>
                                    SameLevel(out[k].rows[i], out[k].rows[j]))
  {
    ReuseFrom(rows, [], previous, summarize);
    FlattenFrom(rows, [], summarize);
    NoRun();
    GroupedFrom(rows, [], summarize);
    var out := GroupToolCalls(rows, previous, summarize);
    assert [] + rows == rows;
    hide Key;
    forall k, i, j | 0 <= k < |out| && out[k].Group? && 0 <= i < |out[k].rows| && 0 <= j < |out[k].rows|
      ensures SameLevel(out[k].rows[i], out[k].rows[j])
    {
      assert Proper(out[k], summarize) && Joins(out[k].rows[i], out[k].rows[j]);
      KeysAreLevels(out[k].rows[i], out[k].rows[j]);
    }
    assert forall k :: 0 <= k < |out| ==> Proper(out[k], summarize);
  }

  /* ----- As it runs ----- */

  method PreviousGroups(previous: seq<Entry>) returns (groups: map<string, Entry>)
    ensures forall id :: (id in groups <==> Earlier(previous, id).Some?) && (id in groups ==> Earlier(previous, id) == Some(groups[id]))
  {
    groups := map[];
    for i := 0 to |previous|
      invariant forall id :: (id in groups <==> Earlier(previous[..i], id).Some?) && (id in groups ==> Earlier(previous[..i], id) == Some(groups[id]))
    {
      assert previous[..i + 1][..i] == previous[..i];
      if previous[i].Group? {
        groups := groups[previous[i].id := previous[i]];
      }
    }
    assert previous[..|previous|] == previous;
  }

  method FlushRun(run: seq<Row>, groups: map<string, Entry>, previous: seq<Entry>, summarize: seq<Row> -> string) returns (out: seq<Entry>)
    requires forall id :: (id in groups <==> Earlier(previous, id).Some?) && (id in groups ==> Earlier(previous, id) == Some(groups[id]))
    ensures out == Flush(run, previous, summarize)
  {
    if |run| == 0 {
      return [];
    }
    if |run| == 1 {
      return [Single(run[0])];
    }
    if run[0].id in groups && groups[run[0].id].Group? && groups[run[0].id].rows == run {
      return [groups[run[0].id]];
    }
    return [Group(run[0].id, run, summarize(run))];
  }

  method GroupRows(rows: seq<Row>, previous: seq<Entry>, summarize: seq<Row> -> string) returns (output: seq<Entry>)
    ensures output == GroupToolCalls(rows, previous, summarize)
  {
    hide Flush, Groupable, Key, GroupFrom;
    var groups := PreviousGroups(previous);
    output := [];
    var pending: seq<Row> := [];
    var pendingKey: Option<string> := None;
    assert rows[0..] == rows;
    for i := 0 to |rows|
      invariant output + GroupFrom(rows[i..], pending, previous, summarize) == GroupFrom(rows, [], previous, summarize)
      invariant forall k :: 0 <= k < |pending| ==> Groupable(pending[k])
      invariant pendingKey == if pending == [] then None else Some(Key(pending[|pending| - 1]))
    {
      var row := rows[i];
      GroupStep(rows, i, output, pending, previous, summarize);
      if Groupable(row) {
        var key := Key(row);
        if pendingKey.Some? && pendingKey.value != key {
          var run := FlushRun(pending, groups, previous, summarize);
          output := output + run;
          pending := [];
          assert [] + [row] == [row];
        }
        pending := pending + [row];
        pendingKey := Some(key);
      } else {
        var run := FlushRun(pending, groups, previous, summarize);
        output := output + run + [Single(row)];
        pending, pendingKey := [], None;
      }
    }
    assert rows[|rows|..] == [];
    GroupEnd(pending, previous, summarize);
    var run := FlushRun(pending, groups, previous, summarize);
    output := output + run;
  }

  lemma GroupEnd(run: seq<Row>, previous: seq<Entry>, summarize: seq<Row> -> string)
    ensures GroupFrom([], run, previous, summarize) == Flush(run, previous, summarize)
  {
  }

  /** What one more row adds to the output. */
  lemma GroupStep(rows: seq<Row>, i: nat, output: seq<Entry>, run: seq<Row>, previous: seq<Entry>, summarize: seq<Row> -> string)
    requires i < |rows|
    ensures var row, before, flushed := rows[i], output + GroupFrom(rows[i..], run, previous, summarize), Flush(run, previous, summarize);
            if !Groupable(row) then before == output + flushed + [Single(row)] + GroupFrom(rows[i + 1..], [], previous, summarize)
            else if run != [] && !Joins(run[|run| - 1], row) then before == output + flushed + GroupFrom(rows[i + 1..], [row], previous, summarize)
            else before == output + GroupFrom(rows[i + 1..], run + [row], previous, summarize)
  {
    hide Flush, Groupable, Joins;
    assert rows[i..][0] == rows[i] && rows[i..][1..] == rows[i + 1..];
  }
}
