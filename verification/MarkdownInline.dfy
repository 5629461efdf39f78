/**
 The inline markdown scanner: one pass marks escapes and code spans, backward passes
 index the next star, bracket and stop, a stack pairs parentheses, and one forward scan
 emits spans, recursing into emphasis. Spans stand in for the nodes the surface renders.
 */
module MarkdownInline {

  /* ----- Reference reading of escapes and code spans ----- */

  predicate IsPunctuation(c: char) {
    || 33 <= c as int <= 47
    || 58 <= c as int <= 64
    || 91 <= c as int <= 96
    || 123 <= c as int <= 126
  }

  predicate EscapesNext(text: string, i: nat) {
    i + 1 < |text| && text[i] == '\\' && IsPunctuation(text[i + 1])
  }

  /** The first raw backtick at or after `i`, or -1. */
  function FirstTick(text: string, i: nat): (r: int)
    requires i <= |text|
    ensures r == -1 || (i <= r < |text| && text[r] == '`')
    ensures forall k :: i <= k < |text| && (r == -1 || k < r) ==> text[k] != '`'
    decreases |text| - i
  {
    if i == |text| then -1 else if text[i] == '`' then i else FirstTick(text, i + 1)
  }

  /** Where a left-to-right reading that stands at `i` stands next. */
  function Jump(text: string, i: nat): (j: nat)
    requires i < |text|
    ensures i < j <= |text|
  {
    if EscapesNext(text, i) then i + 2
    else if text[i] == '`' && FirstTick(text, i + 1) != -1 then FirstTick(text, i + 1) + 1
    else i + 1
  }

  /** What one position is: read on its own, the start of a code span that ends at `end`,
      inside such a span, or escaped by the backslash before it. */
  datatype Cell = Free | Open(end: nat) | Inside | Escaped {
    predicate Read() { Free? || Open? }
  }

  function CellFrom(text: string, from: nat, p: nat): (c: Cell)
    requires from <= p < |text|
    ensures c.Open? ==> p < c.end < |text| && text[p] == '`'
    decreases |text| - from
  {
    var j := Jump(text, from);
    if p >= j then CellFrom(text, j, p)
    else if EscapesNext(text, from) then (if p == from then Free else Escaped)
    else if text[from] == '`' && FirstTick(text, from + 1) != -1 then
      (if p == from then Open(FirstTick(text, from + 1)) else Inside)
    else Free
  }

  function CellAt(text: string, p: nat): (c: Cell)
    requires p < |text|
    ensures c.Open? ==> p < c.end < |text| && text[p] == '`'
  {
    CellFrom(text, 0, p)
  }

  /** A reading from the start stands at `v` at some moment (or runs off the end there). */
  ghost predicate Reached(text: string, v: nat) {
    v <= |text| && forall p :: v <= p < |text| ==> CellAt(text, p) == CellFrom(text, v, p)
  }

  predicate Active(text: string, c: char, p: nat)
    requires p < |text|
  {
    text[p] == c && CellAt(text, p).Free?
  }

  lemma {:induction false} CellRead(text: string, from: nat, p: nat)
    requires from <= p < |text|
    requires CellFrom(text, from, p).Read()
    ensures forall q :: p <= q < |text| ==> CellFrom(text, from, q) == CellFrom(text, p, q)
    decreases |text| - from
  {
    if p != from {
      CellRead(text, Jump(text, from), p);
    }
  }

  lemma ReadIsReached(text: string, p: nat)
    requires p < |text| && CellAt(text, p).Read()
    ensures Reached(text, p)
  {
    CellRead(text, 0, p);
  }

  lemma JumpReached(text: string, v: nat)
    requires Reached(text, v) && v < |text|
    ensures Reached(text, Jump(text, v))
    ensures CellAt(text, v).Read()
  {
    assert CellAt(text, v) == CellFrom(text, v, v);
  }

  /* ----- The nested scan sees the outer marks ----- */

  function ShiftCell(c: Cell, k: nat): Cell
    requires c.Open? ==> k <= c.end
  {
    if c.Open? then Open(c.end - k) else c
  }

  /** A reading that stands at `q` and later at `ce` moves alike in the cut `text[cs..ce]`. */
  lemma CutJump(text: string, cs: nat, q: nat, ce: nat)
    requires cs <= q < ce <= |text|
    requires Jump(text, q) <= ce
    ensures Jump(text[cs..ce], q - cs) == Jump(text, q) - cs
    ensures EscapesNext(text[cs..ce], q - cs) == EscapesNext(text, q)
  {
    var cut := text[cs..ce];
    assert cut[q - cs] == text[q];
    if EscapesNext(text, q) {
      assert cut[q - cs + 1] == text[q + 1];
    } else if text[q] == '`' {
      var t := FirstTick(text, q + 1);
      var u := FirstTick(cut, q - cs + 1);
      if u != -1 { assert text[u + cs] == '`'; }
      if t != -1 { assert cut[t - cs] == '`'; }
    }
  }

  lemma {:induction false} CutCells(text: string, cs: nat, q: nat, ce: nat, p: nat)
    requires cs <= q <= p < ce <= |text|
    requires ce < |text| ==> CellFrom(text, q, ce).Read()
    ensures var c := CellFrom(text, q, p); c.Open? ==> c.end < ce
    ensures CellFrom(text[cs..ce], q - cs, p - cs) == ShiftCell(CellFrom(text, q, p), cs)
    decreases ce - q
  {
    var j := Jump(text, q);
    assert j <= ce;
    CutJump(text, cs, q, ce);
    assert text[cs..ce][q - cs] == text[q];
    if p >= j {
      CutCells(text, cs, j, ce, p);
    }
  }

  /** Scanning the content of an emphasis on its own marks exactly what the outer scan marked:
      `cs` and `ce` are positions the outer reading stands at. */
  lemma NestedScanSeesOuterMarks(text: string, cs: nat, ce: nat)
    requires cs <= ce <= |text| && Reached(text, cs)
    requires ce < |text| ==> CellAt(text, ce).Read()
    ensures forall p :: cs <= p < ce ==>
              var c := CellAt(text, p);
              (c.Open? ==> c.end < ce) && CellAt(text[cs..ce], p - cs) == ShiftCell(c, cs)
  {
    forall p | cs <= p < ce
      ensures var c := CellAt(text, p);
              (c.Open? ==> c.end < ce) && CellAt(text[cs..ce], p - cs) == ShiftCell(c, cs)
    {
      CutCells(text, cs, cs, ce, p);
    }
  }

  /* ----- First occurrences, matching parentheses and constructs ----- */

  /** The first position at or after `i` that holds an active `c`, or -1. */
  function FirstActive(text: string, c: char, i: nat): (r: int)
    requires i <= |text|
    ensures r == -1 || (i <= r < |text| && Active(text, c, r))
    ensures forall k :: i <= k < |text| && (r == -1 || k < r) ==> !Active(text, c, k)
    decreases |text| - i
  {
    if i == |text| then -1 else if Active(text, c, i) then i else FirstActive(text, c, i + 1)
  }

  predicate IsStop(c: char) {
    c == ' ' || c == '\t' || c == '\r' || c == '\n' || c as int == 12 || c == '<'
  }

  /** The first stop character at or after `i`, or the length. */
  function FirstStop(text: string, i: nat): (r: nat)
    requires i <= |text|
    ensures i <= r <= |text| && (r < |text| ==> IsStop(text[r]))
    ensures forall k :: i <= k < r ==> !IsStop(text[k])
    decreases |text| - i
  {
    if i == |text| || IsStop(text[i]) then i else FirstStop(text, i + 1)
  }

  /** The naive scan: from `p`, with `depth` parentheses open, where the last one closes. */
  function NaiveClose(text: string, p: nat, depth: nat): (r: int)
    requires p <= |text| && depth > 0
    ensures r == -1 || (p <= r < |text| && Active(text, ')', r))
    decreases |text| - p
  {
    if p == |text| then -1
    else if Active(text, '(', p) then NaiveClose(text, p + 1, depth + 1)
    else if Active(text, ')', p) then (if depth == 1 then p else NaiveClose(text, p + 1, depth - 1))
    else NaiveClose(text, p + 1, depth)
  }

  /** The parenthesis that closes the one at `p`; -1 when `p` opens none or it never closes. */
  function CloseOf(text: string, p: nat): (r: int)
    requires p < |text|
    ensures r == -1 || (p < r < |text| && Active(text, ')', r))
  {
    if Active(text, '(', p) then NaiveClose(text, p + 1, 1) else -1
  }

  datatype Kind = CodeKind | StrongKind | EmKind | ImageKind | LinkKind

  datatype Match = NoMatch | Match(kind: Kind, contentStart: nat, contentEnd: nat, end: nat)

  function DestinationEnd(text: string, close: nat): (r: int)
    requires close + 1 < |text|
    ensures r == -1 || (close + 2 < r < |text| && Active(text, ')', r))
  {
    var targetEnd := CloseOf(text, close + 1);
    if targetEnd > close + 2 && FirstStop(text, close + 2) >= targetEnd then targetEnd else -1
  }

  predicate StarsAt(text: string, i: nat) {
    i + 1 < |text| && text[i] == '*' && text[i + 1] == '*'
  }

  function Bracketed(text: string, kind: Kind, contentStart: nat, close: nat): (m: Match)
    requires contentStart <= close < |text|
    ensures m.Match? ==> m.kind == kind && m.contentStart == contentStart && m.contentEnd == close
    ensures m.Match? ==> close + 3 < m.end <= |text| && Active(text, ')', m.end - 1)
    ensures m.Match? ==> forall k :: close + 2 <= k < m.end - 1 ==> !IsStop(text[k])
  {
    if close + 1 < |text| && text[close + 1] == '(' && DestinationEnd(text, close) != -1
    then Match(kind, contentStart, close, DestinationEnd(text, close) + 1)
    else NoMatch
  }

  /** The construct that starts at `i`, in the scanner's order of preference. */
  function MatchAt(text: string, i: nat): (m: Match)
    requires i < |text|
    ensures m.Match? ==> i < m.contentStart <= m.contentEnd < m.end <= |text|
  {
    if text[i] == '`' && CellAt(text, i).Open? then
      var end := CellAt(text, i).end;
      Match(CodeKind, i + 1, end, end + 1)
    else if StarsAt(text, i) && !CellAt(text, i).Escaped? && !CellAt(text, i + 1).Escaped?
            && FirstActive(text, '*', i + 2) > i + 2 then
      var close := FirstActive(text, '*', i + 2);
      if StarsAt(text, close) then Match(StrongKind, i + 2, close, close + 2) else NoMatch
    else if text[i] == '*' && !CellAt(text, i).Escaped? && FirstActive(text, '*', i + 1) > i + 1 then
      var close := FirstActive(text, '*', i + 1);
      Match(EmKind, i + 1, close, close + 1)
    else if text[i] == '!' && i + 1 < |text| && text[i + 1] == '[' && !CellAt(text, i).Escaped?
            && FirstActive(text, ']', i + 2) != -1 then
      Bracketed(text, ImageKind, i + 2, FirstActive(text, ']', i + 2))
    else if text[i] == '[' && !CellAt(text, i).Escaped? && FirstActive(text, ']', i + 1) > i + 1 then
      Bracketed(text, LinkKind, i + 1, FirstActive(text, ']', i + 1))
    else NoMatch
  }

  /* ----- The emitted spans ----- */

  /** `[start, end)` of the text, with the content range of a construct. The content of an
      emphasis is scanned on its own, so `inner` counts from `contentStart`. */
  datatype Span =
    | Plain(start: nat, end: nat)
    | Construct(kind: Kind, start: nat, end: nat, contentStart: nat, contentEnd: nat, inner: seq<Span>)
  {
    predicate Emphasis() { Construct? && (kind.StrongKind? || kind.EmKind?) }
  }

  function Spans(text: string): seq<Span>
    decreases |text|, |text| + 1
  {
    Scan(text, 0, 0)
  }

  function SpanOf(text: string, i: nat, m: Match): Span
    requires i < |text| && m.Match? && i < m.contentStart <= m.contentEnd < m.end <= |text|
    decreases |text|, 0
  {
    var inner := if m.kind.StrongKind? || m.kind.EmKind?
                 then Spans(text[m.contentStart..m.contentEnd]) else [];
    Construct(m.kind, i, m.end, m.contentStart, m.contentEnd, inner)
  }

  function PlainBetween(start: nat, end: nat): seq<Span> {
    if start < end then [Plain(start, end)] else []
  }

  /** What the scan still emits from `offset`, with everything before `rendered` emitted. */
  function Scan(text: string, offset: nat, rendered: nat): seq<Span>
    requires rendered <= offset <= |text|
    decreases |text|, |text| - offset
  {
    if offset == |text| then
      (if rendered == 0 then [Plain(0, |text|)] else PlainBetween(rendered, |text|))
    else
      var m := MatchAt(text, offset);
      if m.NoMatch? then Scan(text, offset + 1, rendered)
      else PlainBetween(rendered, offset) + [SpanOf(text, offset, m)] + Scan(text, m.end, m.end)
  }

  /** The spans lie end to end from `from` to `to`, none is empty, and plain text is never
      split in two. */
  ghost predicate Tiles(spans: seq<Span>, from: nat, to: nat) {
    if spans == [] then from == to
    else
      && spans[0].start == from < spans[0].end <= to
      && (|spans| > 1 && spans[0].Plain? ==> !spans[1].Plain?)
      && Tiles(spans[1..], spans[0].end, to)
  }

  lemma {:induction false} ScanTiles(text: string, offset: nat, rendered: nat)
    requires rendered <= offset <= |text| && 0 < |text|
    ensures Tiles(Scan(text, offset, rendered), rendered, |text|)
    decreases |text| - offset
  {
    if offset < |text| {
      var m := MatchAt(text, offset);
      if m.NoMatch? {
        ScanTiles(text, offset + 1, rendered);
      } else {
        ScanTiles(text, m.end, m.end);
        var rest := Scan(text, m.end, m.end);
        var one := [SpanOf(text, offset, m)] + rest;
        assert one[1..] == rest;
        assert Tiles(one, offset, |text|);
        assert (PlainBetween(rendered, offset) + one)[1..] == if rendered < offset then one else rest;
        assert Scan(text, offset, rendered) == PlainBetween(rendered, offset) + one;
      }
    }
  }

  /** The spans of any text are ordered, in bounds and partition it. The empty text is one
      empty plain span. */
  lemma SpansPartition(text: string)
    ensures 0 < |text| ==> Tiles(Spans(text), 0, |text|)
    ensures text == "" ==> Spans(text) == [Plain(0, 0)]
  {
    if 0 < |text| { ScanTiles(text, 0, 0); }
  }

  /* ----- Emphasis never nests ----- */

  lemma {:induction false} EscapedThenReached(text: string, from: nat, p: nat)
    requires from <= p < |text| && CellFrom(text, from, p).Escaped?
    ensures forall q :: p < q < |text| ==> CellFrom(text, from, q) == CellFrom(text, p + 1, q)
    decreases |text| - from
  {
    if p >= Jump(text, from) {
      EscapedThenReached(text, Jump(text, from), p);
    }
  }

  /** The scan stands at `i` outside every code span, or at the start of one. */
  predicate Outside(text: string, i: nat) {
    i <= |text| && (i < |text| ==> !CellAt(text, i).Inside?)
  }

  lemma ReachedOutside(text: string, v: nat)
    requires Reached(text, v)
    ensures Outside(text, v)
  {
    if v < |text| { JumpReached(text, v); }
  }

  lemma AfterActive(text: string, c: char, p: nat)
    requires p < |text| && Active(text, c, p) && c != '\\' && c != '`'
    ensures Reached(text, p + 1)
  {
    ReadIsReached(text, p);
    JumpReached(text, p);
  }

  lemma AfterPlain(text: string, i: nat)
    requires i < |text| && Outside(text, i) && MatchAt(text, i).NoMatch?
    ensures Outside(text, i + 1)
  {
    if CellAt(text, i).Escaped? {
      EscapedThenReached(text, 0, i);
      ReachedOutside(text, i + 1);
    } else {
      ReadIsReached(text, i);
      assert CellAt(text, i) == CellFrom(text, i, i);
      if EscapesNext(text, i) {
        assert CellAt(text, i + 1) == CellFrom(text, i, i + 1);
      } else {
        JumpReached(text, i);
        ReachedOutside(text, i + 1);
      }
    }
  }

  lemma StarOpens(text: string, i: nat)
    requires i < |text| && Outside(text, i) && text[i] == '*' && !CellAt(text, i).Escaped?
    ensures Active(text, '*', i)
    ensures Reached(text, i + 1)
  {
    AfterActive(text, '*', i);
  }

  lemma AfterCode(text: string, i: nat)
    requires i < |text| && CellAt(text, i).Open?
    ensures Outside(text, CellAt(text, i).end + 1)
  {
    ReadIsReached(text, i);
    assert CellFrom(text, i, i) == CellAt(text, i);
    JumpReached(text, i);
    ReachedOutside(text, CellAt(text, i).end + 1);
  }

  lemma TwoStars(text: string, i: nat)
    requires i + 1 < |text| && Outside(text, i) && StarsAt(text, i)
    requires !CellAt(text, i).Escaped? && !CellAt(text, i + 1).Escaped?
    ensures Reached(text, i + 2)
  {
    StarOpens(text, i);
    ReachedOutside(text, i + 1);
    StarOpens(text, i + 1);
  }

  lemma ClosingStars(text: string, p: nat)
    requires p < |text| && Active(text, '*', p) && StarsAt(text, p)
    ensures Outside(text, p + 2)
  {
    AfterActive(text, '*', p);
    JumpReached(text, p + 1);
    TwoStars(text, p);
    ReachedOutside(text, p + 2);
  }

  lemma AfterClosing(text: string, c: char, p: nat)
    requires p < |text| && Active(text, c, p) && c != '\\' && c != '`'
    ensures Outside(text, p + 1)
  {
    AfterActive(text, c, p);
    ReachedOutside(text, p + 1);
  }

  /** How each kind of construct ends. */
  ghost predicate EndsWell(text: string, i: nat, m: Match)
    requires i < |text| && m.Match? && i < m.contentStart <= m.contentEnd < m.end <= |text|
  {
    match m.kind
    case CodeKind => CellAt(text, i).Open? && m.end == CellAt(text, i).end + 1
    case StrongKind => Active(text, '*', m.contentEnd) && StarsAt(text, m.contentEnd) && m.end == m.contentEnd + 2
    case EmKind => Active(text, '*', m.contentEnd) && m.end == m.contentEnd + 1
    case _ => Active(text, ')', m.end - 1)
  }

  lemma EndedOutside(text: string, i: nat, m: Match)
    requires i < |text| && m.Match? && i < m.contentStart <= m.contentEnd < m.end <= |text|
    requires EndsWell(text, i, m)
    ensures Outside(text, m.end)
  {
    match m.kind
    case CodeKind => AfterCode(text, i);
    case StrongKind => ClosingStars(text, m.contentEnd);
    case EmKind => AfterClosing(text, '*', m.contentEnd);
    case _ => AfterClosing(text, ')', m.end - 1);
  }

  /** A construct leaves the scan outside code spans. */
  lemma AfterMatch(text: string, i: nat)
    requires i < |text| && MatchAt(text, i).Match?
    ensures Outside(text, MatchAt(text, i).end)
  {
    EndedOutside(text, i, MatchAt(text, i));
  }

  /** An emphasis opens and closes at positions the reading of marks stands at. */
  lemma EmphasisEnds(text: string, i: nat)
    requires i < |text| && Outside(text, i) && MatchAt(text, i).Match?
    requires MatchAt(text, i).kind.StrongKind? || MatchAt(text, i).kind.EmKind?
    ensures Reached(text, MatchAt(text, i).contentStart)
    ensures Active(text, '*', MatchAt(text, i).contentEnd)
  {
    if MatchAt(text, i).kind.StrongKind? {
      TwoStars(text, i);
    } else {
      StarOpens(text, i);
    }
  }

  ghost predicate StarFree(text: string) {
    forall p :: 0 <= p < |text| ==> !Active(text, '*', p)
  }

  lemma {:induction false} StarFreeScan(text: string, offset: nat, rendered: nat)
    requires rendered <= offset <= |text| && StarFree(text)
    ensures forall s :: s in Scan(text, offset, rendered) ==> !s.Emphasis()
    decreases |text| - offset
  {
    if offset < |text| {
      var m := MatchAt(text, offset);
      if m.NoMatch? { StarFreeScan(text, offset + 1, rendered); } else { StarFreeScan(text, m.end, m.end); }
    }
  }

  /** The content of an emphasis holds no active star of its own. */
  lemma ContentIsStarFree(text: string, i: nat)
    requires i < |text| && Outside(text, i) && MatchAt(text, i).Match?
    requires MatchAt(text, i).kind.StrongKind? || MatchAt(text, i).kind.EmKind?
    ensures var m := MatchAt(text, i); StarFree(text[m.contentStart..m.contentEnd])
  {
    var m := MatchAt(text, i);
    EmphasisEnds(text, i);
    NestedScanSeesOuterMarks(text, m.contentStart, m.contentEnd);
    var content := text[m.contentStart..m.contentEnd];
    forall p | 0 <= p < |content| ensures !Active(content, '*', p) {
      assert !Active(text, '*', p + m.contentStart);
      assert CellAt(content, p + m.contentStart - m.contentStart) == ShiftCell(CellAt(text, p + m.contentStart), m.contentStart);
    }
  }

  ghost predicate InnerFlat(s: Span) {
    s.Emphasis() ==> forall t :: t in s.inner ==> !t.Emphasis()
  }

  lemma {:induction false} ScanInnerFlat(text: string, offset: nat, rendered: nat)
    requires rendered <= offset <= |text| && Outside(text, offset)
    ensures forall s :: s in Scan(text, offset, rendered) ==> InnerFlat(s)
    decreases |text| - offset
  {
    if offset < |text| {
      var m := MatchAt(text, offset);
      if m.NoMatch? {
        AfterPlain(text, offset);
        ScanInnerFlat(text, offset + 1, rendered);
      } else {
        AfterMatch(text, offset);
        ScanInnerFlat(text, m.end, m.end);
        if m.kind.StrongKind? || m.kind.EmKind? {
          ContentIsStarFree(text, offset);
          StarFreeScan(text[m.contentStart..m.contentEnd], 0, 0);
          assert InnerFlat(SpanOf(text, offset, m));
        }
      }
    }
  }

  /** How deep the scanner calls itself to produce these spans. */
  function CallDepth(spans: seq<Span>): (d: nat)
    ensures d >= 1
  {
    if spans == [] then 1
    else
      var here := if spans[0].Emphasis() then 1 + CallDepth(spans[0].inner) else 1;
      var rest := CallDepth(spans[1..]);
      if here > rest then here else rest
  }

  lemma {:induction false} FlatDepth(spans: seq<Span>)
    requires forall s :: s in spans ==> !s.Emphasis()
    ensures CallDepth(spans) == 1
  {
    if spans != [] { FlatDepth(spans[1..]); }
  }

  lemma {:induction false} InnerFlatDepth(spans: seq<Span>)
    requires forall s :: s in spans ==> InnerFlat(s)
    ensures CallDepth(spans) <= 2
  {
    if spans != [] {
      if spans[0].Emphasis() {
        assert InnerFlat(spans[0]);
        FlatDepth(spans[0].inner);
      }
      InnerFlatDepth(spans[1..]);
    }
  }

  /** For every text, no emphasis holds another emphasis, and the scanner is at most two
      calls deep. */
  lemma EmphasisNeverNests(text: string)
    ensures forall s :: s in Spans(text) ==> InnerFlat(s)
    ensures CallDepth(Spans(text)) <= 2
  {
    if text != "" { assert CellFrom(text, 0, 0).Read(); }
    ScanInnerFlat(text, 0, 0);
    InnerFlatDepth(Spans(text));
  }
}
