/**
 The scanner as it runs: mark arrays filled by loops, index arrays filled backwards, an
 explicit stack of open parentheses and a forward loop. Each method is proved against the
 reference reading in MarkdownInline.
 */
module MarkdownScanner {
  import opened MarkdownInline

  /** The mark arrays agree with the reference reading below `to`, and are blank from there. */
  ghost predicate Marked(text: string, escaped: seq<bool>, codeSpan: seq<bool>, codeEnd: seq<int>, to: nat) {
    && |escaped| == |codeSpan| == |codeEnd| == |text|
    && (forall p :: 0 <= p < |text| && p < to ==>
          && escaped[p] == CellAt(text, p).Escaped?
          && codeSpan[p] == (CellAt(text, p).Open? || CellAt(text, p).Inside?)
          && codeEnd[p] == (if CellAt(text, p).Open? then CellAt(text, p).end else -1))
    && (forall p :: to <= p < |text| ==> !escaped[p] && !codeSpan[p] && codeEnd[p] == -1)
  }

  lemma MarkOne(text: string, e: seq<bool>, c: seq<bool>, d: seq<int>, v: nat)
    requires Reached(text, v) && v < |text| && Marked(text, e, c, d, v)
    requires !EscapesNext(text, v) && (text[v] == '`' ==> FirstTick(text, v + 1) == -1)
    ensures Reached(text, v + 1) && Marked(text, e, c, d, v + 1)
  {
    JumpReached(text, v);
    assert CellAt(text, v) == CellFrom(text, v, v);
  }

  lemma MarkEscape(text: string, e: seq<bool>, c: seq<bool>, d: seq<int>, v: nat)
    requires Reached(text, v) && EscapesNext(text, v) && Marked(text, e, c, d, v)
    ensures Reached(text, v + 2) && Marked(text, e[v + 1 := true], c, d, v + 2)
  {
    JumpReached(text, v);
    assert CellAt(text, v) == CellFrom(text, v, v);
    assert CellAt(text, v + 1) == CellFrom(text, v, v + 1);
  }

  function Filled(c: seq<bool>, from: nat, to: nat): (r: seq<bool>)
    requires from <= to <= |c|
    ensures |r| == |c|
  {
    c[..from] + seq(to - from, _ => true) + c[to..]
  }

  lemma FilledAt(c: seq<bool>, from: nat, to: nat)
    requires from <= to <= |c|
    ensures forall k :: 0 <= k < |c| ==> Filled(c, from, to)[k] == (from <= k < to || c[k])
  {
  }

  lemma TickJumps(text: string, v: nat, end: nat)
    requires v < end < |text| && text[v] == '`' && FirstTick(text, v + 1) == end
    ensures Jump(text, v) == end + 1
  {
    hide FirstTick;
  }

  lemma TickCell(text: string, v: nat, end: nat, p: nat)
    requires v <= p <= end < |text| && v < end && text[v] == '`' && FirstTick(text, v + 1) == end
    ensures CellFrom(text, v, p) == if p == v then Open(end) else Inside
  {
    hide FirstTick;
    TickJumps(text, v, end);
  }

  lemma SpanCells(text: string, v: nat, end: nat)
    requires v < end < |text| && Reached(text, v) && text[v] == '`' && FirstTick(text, v + 1) == end
    ensures Reached(text, end + 1)
    ensures forall p :: v <= p <= end ==> CellAt(text, p) == if p == v then Open(end) else Inside
  {
    hide CellAt, CellFrom, FirstTick, EscapesNext;
    TickJumps(text, v, end);
    JumpReached(text, v);
    forall p | v <= p <= end ensures CellAt(text, p) == if p == v then Open(end) else Inside {
      assert CellAt(text, p) == CellFrom(text, v, p);
      TickCell(text, v, end, p);
    }
  }

  lemma MarkSpan(text: string, e: seq<bool>, c: seq<bool>, d: seq<int>, v: nat, end: nat)
    requires v < end < |text| && Reached(text, v) && Marked(text, e, c, d, v)
    requires text[v] == '`' && FirstTick(text, v + 1) == end
    ensures Reached(text, end + 1) && Marked(text, e, Filled(c, v, end + 1), d[v := end], end + 1)
  {
    hide Filled, FirstTick, CellAt, Reached;
    SpanCells(text, v, end);
    FilledAt(c, v, end + 1);
  }

  method Fill(codeSpan: array<bool>, from: nat, to: nat)
    requires from <= to <= codeSpan.Length
    modifies codeSpan
    ensures codeSpan[..] == Filled(old(codeSpan[..]), from, to)
  {
    ghost var was := codeSpan[..];
    for index := from to to
      invariant codeSpan.Length == |was|
      invariant forall k :: 0 <= k < |was| ==> codeSpan[k] == (from <= k < index || was[k])
    {
      codeSpan[index] := true;
    }
    assert codeSpan[..] == Filled(was, from, to);
  }

  /** Outside code, one step of the marking loop. */
  method MarkStep(text: string, escaped: array<bool>, ghost c: seq<bool>, ghost d: seq<int>, index: nat)
    returns (next: nat)
    requires index < |text| && Reached(text, index) && Marked(text, escaped[..], c, d, index)
    requires text[index] == '`' ==> FirstTick(text, index + 1) == -1
    modifies escaped
    ensures index < next <= |text| && Reached(text, next) && Marked(text, escaped[..], c, d, next)
  {
    ghost var e := escaped[..];
    if EscapesNext(text, index) {
      MarkEscape(text, e, c, d, index);
      escaped[index + 1] := true;
      assert escaped[..] == e[index + 1 := true];
      next := index + 2;
    } else {
      MarkOne(text, e, c, d, index);
      next := index + 1;
    }
  }

  /** The backtick at `index` closes the one at `codeStart`. */
  method CloseSpan(text: string, ghost e: seq<bool>, codeSpan: array<bool>, codeEnd: array<int>, codeStart: nat, index: nat)
    requires codeStart < index < |text| && text[codeStart] == '`' && text[index] == '`'
    requires forall k :: codeStart < k < index ==> text[k] != '`'
    requires Reached(text, codeStart) && Marked(text, e, codeSpan[..], codeEnd[..], codeStart)
    modifies codeSpan, codeEnd
    ensures Reached(text, index + 1) && Marked(text, e, codeSpan[..], codeEnd[..], index + 1)
  {
    ghost var c, d := codeSpan[..], codeEnd[..];
    MarkSpan(text, e, c, d, codeStart, index);
    codeEnd[codeStart] := index;
    Fill(codeSpan, codeStart, index + 1);
    assert codeEnd[..] == d[codeStart := index];
  }

  method ScanMarks(text: string)
    returns (escapes: seq<bool>, spans: seq<bool>, ends: seq<int>)
    ensures Marked(text, escapes, spans, ends, |text|)
  {
    var escaped := new bool[|text|](_ => false);
    var codeSpan := new bool[|text|](_ => false);
    var codeEnd := new int[|text|](_ => -1);
    var codeStart := -1;
    var index := 0;
    while index < |text|
      invariant 0 <= index <= |text| && -1 <= codeStart < index
      invariant codeStart >= 0 ==> text[codeStart] == '`' && forall k :: codeStart < k < index ==> text[k] != '`'
      invariant Reached(text, if codeStart >= 0 then codeStart else index)
      invariant Marked(text, escaped[..], codeSpan[..], codeEnd[..], if codeStart >= 0 then codeStart else index)
    {
      if codeStart >= 0 {
        if text[index] == '`' {
          CloseSpan(text, escaped[..], codeSpan, codeEnd, codeStart, index);
          codeStart := -1;
        }
        index := index + 1;
      } else if text[index] == '`' {
        codeStart := index;
        index := index + 1;
      } else {
        index := MarkStep(text, escaped, codeSpan[..], codeEnd[..], index);
      }
    }
    if codeStart >= 0 {
      index := MarkStep(text, escaped, codeSpan[..], codeEnd[..], codeStart);
      while index < |text|
        invariant codeStart < index <= |text|
        invariant Reached(text, index) && Marked(text, escaped[..], codeSpan[..], codeEnd[..], index)
      {
        index := MarkStep(text, escaped, codeSpan[..], codeEnd[..], index);
      }
    }
    return escaped[..], codeSpan[..], codeEnd[..];
  }

  method Next(text: string, escaped: seq<bool>, codeSpan: seq<bool>, ghost codeEnd: seq<int>, character: char)
    returns (first: seq<int>)
    requires Marked(text, escaped, codeSpan, codeEnd, |text|)
    ensures |first| == |text| + 1
    ensures forall i :: 0 <= i <= |text| ==> first[i] == FirstActive(text, character, i)
  {
    var positions := new int[|text| + 1];
    positions[|text|] := -1;
    var index := |text|;
    while index > 0
      invariant 0 <= index <= |text|
      invariant forall i :: index <= i <= |text| ==> positions[i] == FirstActive(text, character, i)
    {
      index := index - 1;
      positions[index] :=
        if text[index] == character && !escaped[index] && !codeSpan[index] then index else positions[index + 1];
    }
    return positions[..];
  }

  method NextStop(text: string) returns (stops: seq<int>)
    ensures |stops| == |text| + 1
    ensures forall i :: 0 <= i <= |text| ==> stops[i] == FirstStop(text, i)
  {
    var nextStop := new int[|text| + 1];
    nextStop[|text|] := |text|;
    var index := |text|;
    while index > 0
      invariant 0 <= index <= |text|
      invariant forall i :: index <= i <= |text| ==> nextStop[i] == FirstStop(text, i)
    {
      index := index - 1;
      nextStop[index] := if IsStop(text[index]) then index else nextStop[index + 1];
    }
    return nextStop[..];
  }

  /** Below `index` every parenthesis is paired except those on the stack, each of which the
      naive scan from its own position would leave open at `index`, one deeper than the next. */
  ghost predicate Paired(text: string, closes: seq<int>, stack: seq<int>, index: nat) {
    && |closes| == |text| && index <= |text|
    && Waiting(text, stack, index) && Blank(closes, stack, index) && Settled(text, closes, stack, index)
    && (forall k, m :: 0 <= k < m < |stack| ==> stack[k] != stack[m])
  }

  ghost predicate Waiting(text: string, stack: seq<int>, index: nat)
    requires index <= |text|
  {
    forall k :: 0 <= k < |stack| ==>
                  0 <= stack[k] < index && CloseOf(text, stack[k]) == NaiveClose(text, index, |stack| - k)
  }

  ghost predicate Blank(closes: seq<int>, stack: seq<int>, index: nat) {
    && (forall k :: 0 <= k < |stack| && 0 <= stack[k] < |closes| ==> closes[stack[k]] == -1)
    && (forall p :: index <= p < |closes| ==> closes[p] == -1)
  }

  ghost predicate Settled(text: string, closes: seq<int>, stack: seq<int>, index: nat)
    requires |closes| == |text| && index <= |text|
  {
    forall p :: 0 <= p < index ==> p in stack || closes[p] == CloseOf(text, p)
  }

  lemma WaitingPushed(text: string, stack: seq<int>, index: nat)
    requires index < |text| && Waiting(text, stack, index) && Active(text, '(', index)
    ensures Waiting(text, stack + [index], index + 1)
  {
    var stack' := stack + [index];
    assert stack'[|stack|] == index;
    assert forall k :: 0 <= k < |stack| ==> stack'[k] == stack[k];
  }

  lemma WaitingPopped(text: string, stack: seq<int>, index: nat)
    requires index < |text| && Waiting(text, stack, index) && Active(text, ')', index) && stack != []
    ensures Waiting(text, stack[..|stack| - 1], index + 1) && CloseOf(text, stack[|stack| - 1]) == index
  {
    var rest := stack[..|stack| - 1];
    assert forall k :: 0 <= k < |rest| ==> rest[k] == stack[k];
    assert CloseOf(text, stack[|stack| - 1]) == NaiveClose(text, index, 1);
  }

  lemma SettledPopped(text: string, closes: seq<int>, stack: seq<int>, index: nat)
    requires |closes| == |text| && index < |text| && Settled(text, closes, stack, index) && stack != []
    requires var top := stack[|stack| - 1]; 0 <= top < index && CloseOf(text, top) == index
    requires CloseOf(text, index) == -1 && closes[index] == -1
    ensures Settled(text, closes[stack[|stack| - 1] := index], stack[..|stack| - 1], index + 1)
  {
    var rest, top := stack[..|stack| - 1], stack[|stack| - 1];
    assert stack == rest + [top];
    hide CloseOf;
  }

  lemma PairOpen(text: string, closes: seq<int>, stack: seq<int>, index: nat)
    requires Paired(text, closes, stack, index) && index < |text| && Active(text, '(', index)
    ensures Paired(text, closes, stack + [index], index + 1)
  {
    WaitingPushed(text, stack, index);
    hide Waiting, CloseOf;
    assert forall p :: p in stack ==> p in stack + [index];
    assert (stack + [index])[|stack|] == index;
  }

  lemma PairOther(text: string, closes: seq<int>, stack: seq<int>, index: nat)
    requires Paired(text, closes, stack, index) && index < |text|
    requires !Active(text, '(', index) && (Active(text, ')', index) ==> stack == [])
    ensures Paired(text, closes, stack, index + 1)
  {
  }

  lemma PairClose(text: string, closes: seq<int>, stack: seq<int>, index: nat)
    requires Paired(text, closes, stack, index) && index < |text| && Active(text, ')', index) && stack != []
    ensures var top := stack[|stack| - 1];
            0 <= top < |closes| && Paired(text, closes[top := index], stack[..|stack| - 1], index + 1)
  {
    var top := stack[|stack| - 1];
    assert 0 <= top < index;
    assert CloseOf(text, index) == -1;
    WaitingPopped(text, stack, index);
    SettledPopped(text, closes, stack, index);
    hide Waiting, Settled, CloseOf;
  }

  lemma PairStart(text: string, closes: seq<int>)
    requires |closes| == |text| && forall p :: 0 <= p < |text| ==> closes[p] == -1
    ensures Paired(text, closes, [], 0)
  {
  }

  lemma PairEnd(text: string, closes: seq<int>, stack: seq<int>)
    requires Paired(text, closes, stack, |text|)
    ensures forall p :: 0 <= p < |text| ==> closes[p] == CloseOf(text, p)
  {
  }

  /** One active parenthesis at `index`: an open one is pushed, a close one pops its partner. */
  method PairStep(text: string, parenClose: array<int>, opens: array<int>, depth: nat, index: nat)
    returns (depth': nat)
    requires parenClose != opens && depth <= index < |text| == opens.Length == parenClose.Length
    requires Active(text, '(', index) || Active(text, ')', index)
    requires Paired(text, parenClose[..], opens[..depth], index)
    modifies parenClose, opens
    ensures depth' <= index + 1
    ensures Paired(text, parenClose[..], opens[..depth'], index + 1)
  {
    hide Paired;
    depth' := depth;
    ghost var closes, stack := parenClose[..], opens[..depth];
    if text[index] == '(' {
      PairOpen(text, closes, stack, index);
      opens[depth] := index;
      depth' := depth + 1;
      assert opens[..depth'] == stack + [index];
    } else if depth > 0 {
      PairClose(text, closes, stack, index);
      depth' := depth - 1;
      assert stack[depth'] == opens[depth'];
      parenClose[opens[depth']] := index;
      assert opens[..depth'] == stack[..depth'];
      assert parenClose[..] == closes[stack[depth'] := index];
    } else {
      PairOther(text, closes, stack, index);
    }
  }

  /** Every parenthesis of the text paired in one pass over a stack of open positions. */
  method ParenClose(text: string, escaped: seq<bool>, codeSpan: seq<bool>, ghost codeEnd: seq<int>)
    returns (closes: seq<int>)
    requires Marked(text, escaped, codeSpan, codeEnd, |text|)
    ensures |closes| == |text|
    ensures forall p :: 0 <= p < |text| ==> closes[p] == CloseOf(text, p)
  {
    hide Paired, CloseOf;
    var parenClose := new int[|text|](_ => -1);
    PairStart(text, parenClose[..]);
    assert parenClose[..] == parenClose[..|text|];
    var opens := new int[|text|];
    var depth: nat := 0;
    assert opens[..depth] == [];
    var index := 0;
    while index < |text|
      invariant 0 <= depth <= index <= |text|
      invariant Paired(text, parenClose[..], opens[..depth], index)
    {
      var character := text[index];
      if (character == '(' || character == ')') && !escaped[index] && !codeSpan[index] {
        depth := PairStep(text, parenClose, opens, depth, index);
      } else {
        PairOther(text, parenClose[..], opens[..depth], index);
      }
      index := index + 1;
    }
    PairEnd(text, parenClose[..], opens[..depth]);
    return parenClose[..];
  }

  /** The index arrays of one text, each entry what its reference definition says. */
  ghost predicate Indexed(text: string, stars: seq<int>, brackets: seq<int>, parenClose: seq<int>, nextStop: seq<int>) {
    && |stars| == |brackets| == |nextStop| == |text| + 1 && |parenClose| == |text|
    && (forall i :: 0 <= i <= |text| ==> stars[i] == FirstActive(text, '*', i))
    && (forall i :: 0 <= i <= |text| ==> brackets[i] == FirstActive(text, ']', i))
    && (forall i :: 0 <= i <= |text| ==> nextStop[i] == FirstStop(text, i))
    && (forall i :: 0 <= i < |text| ==> parenClose[i] == CloseOf(text, i))
  }

  method ReadBracketed(text: string, parenClose: seq<int>, nextStop: seq<int>, kind: Kind, contentStart: nat, close: nat,
                       ghost stars: seq<int>, ghost brackets: seq<int>)
    returns (m: Match)
    requires contentStart <= close < |text| && Indexed(text, stars, brackets, parenClose, nextStop)
    ensures m == Bracketed(text, kind, contentStart, close)
  {
    m := NoMatch;
    if close + 1 < |text| && text[close + 1] == '(' {
      var targetEnd := parenClose[close + 1];
      if targetEnd > close + 2 && nextStop[close + 2] >= targetEnd {
        m := Match(kind, contentStart, close, targetEnd + 1);
      }
    }
  }

  /** The construct at `index`, read off the index arrays. */
  method ReadConstruct(text: string, escaped: seq<bool>, codeEnd: seq<int>, stars: seq<int>, brackets: seq<int>,
                       parenClose: seq<int>, nextStop: seq<int>, index: nat, ghost codeSpan: seq<bool>)
    returns (m: Match)
    requires index < |text| && Marked(text, escaped, codeSpan, codeEnd, |text|)
    requires Indexed(text, stars, brackets, parenClose, nextStop)
    ensures m == MatchAt(text, index)
  {
    m := NoMatch;
    if text[index] == '`' && codeEnd[index] >= 0 {
      m := Match(CodeKind, index + 1, codeEnd[index], codeEnd[index] + 1);
    } else if StarsAt(text, index) && !escaped[index] && !escaped[index + 1] && stars[index + 2] > index + 2 {
      var contentEnd := stars[index + 2];
      if StarsAt(text, contentEnd) {
        m := Match(StrongKind, index + 2, contentEnd, contentEnd + 2);
      }
    } else if text[index] == '*' && !escaped[index] && stars[index + 1] > index + 1 {
      m := Match(EmKind, index + 1, stars[index + 1], stars[index + 1] + 1);
    } else if text[index] == '!' && index + 1 < |text| && text[index + 1] == '[' && !escaped[index]
              && brackets[index + 2] >= index + 2 {
      m := ReadBracketed(text, parenClose, nextStop, ImageKind, index + 2, brackets[index + 2], stars, brackets);
    } else if text[index] == '[' && !escaped[index] && brackets[index + 1] > index + 1 {
      m := ReadBracketed(text, parenClose, nextStop, LinkKind, index + 1, brackets[index + 1], stars, brackets);
    }
  }

  lemma Emit(text: string, nodes: seq<Span>, offset: nat, rendered: nat)
    requires rendered <= offset < |text| && MatchAt(text, offset).Match?
    requires Spans(text) == nodes + Scan(text, offset, rendered)
    ensures var m := MatchAt(text, offset);
            Spans(text) == nodes + PlainBetween(rendered, offset) + [SpanOf(text, offset, m)] + Scan(text, m.end, m.end)
  {
  }

  /** Emits the construct at `offset`, with the plain text before it. */
  method Push(text: string, nodes: seq<Span>, offset: nat, rendered: nat, m: Match) returns (nodes': seq<Span>)
    requires rendered <= offset < |text| && m.Match? && offset < m.contentStart <= m.contentEnd < m.end <= |text|
    ensures nodes' == nodes + PlainBetween(rendered, offset) + [SpanOf(text, offset, m)]
    decreases |text|, 0
  {
    nodes' := nodes;
    if offset > rendered {
      nodes' := nodes' + [Plain(rendered, offset)];
    }
    var inner := [];
    if m.kind.StrongKind? || m.kind.EmKind? {
      inner := Inline(text[m.contentStart..m.contentEnd]);
    }
    nodes' := nodes' + [Construct(m.kind, offset, m.end, m.contentStart, m.contentEnd, inner)];
  }

  /** The index arrays of the scan. */
  method Index(text: string, escaped: seq<bool>, codeSpan: seq<bool>, ghost codeEnd: seq<int>)
    returns (stars: seq<int>, brackets: seq<int>, parenClose: seq<int>, nextStop: seq<int>)
    requires Marked(text, escaped, codeSpan, codeEnd, |text|)
    ensures Indexed(text, stars, brackets, parenClose, nextStop)
  {
    hide Marked, CloseOf, FirstActive, FirstStop;
    stars := Next(text, escaped, codeSpan, codeEnd, '*');
    brackets := Next(text, escaped, codeSpan, codeEnd, ']');
    parenClose := ParenClose(text, escaped, codeSpan, codeEnd);
    nextStop := NextStop(text);
  }

  /** The scan of one text. */
  method Inline(text: string) returns (nodes: seq<Span>)
    ensures nodes == Spans(text)
    decreases |text|
  {
    hide Marked, Indexed, MatchAt, SpanOf;
    nodes := [];
    var escaped, codeSpan, codeEnd := ScanMarks(text);
    var stars, brackets, parenClose, nextStop := Index(text, escaped, codeSpan, codeEnd);
    var offset: nat := 0;
    var renderedUntil: nat := 0;
    while offset < |text|
      invariant renderedUntil <= offset <= |text|
      invariant Spans(text) == nodes + Scan(text, offset, renderedUntil)
    {
      var m := ReadConstruct(text, escaped, codeEnd, stars, brackets, parenClose, nextStop, offset, codeSpan);
      if m.NoMatch? {
        offset := offset + 1;
      } else {
        Emit(text, nodes, offset, renderedUntil);
        nodes := Push(text, nodes, offset, renderedUntil, m);
        renderedUntil := m.end;
        offset := m.end;
      }
    }
    if renderedUntil == 0 {
      nodes := nodes + [Plain(0, |text|)];
    } else if renderedUntil < |text| {
      nodes := nodes + [Plain(renderedUntil, |text|)];
    }
  }
}
