/**
 The daemon's envelope: a frame between two tags whose header lines come before the first
 timestamp line. A notice and a relayed message share it and are told apart by the header.
 */
module Envelopes {
  import opened Basics

  const OPEN := "<devboule-system>"
  const CLOSE := "</devboule-system>"
  const TIMESTAMP := "timestamp"
  const KIND := "kind"
  const ROLE := "role"
  const ORIGIN := "origin"
  const FROM_AGENT := "from_agent"
  const DAEMON := "daemon"
  const LOCAL := "local"
  const PEER := "peer:"
  const UNKNOWN := "unknown"

  /* ----- Text ----- */

  predicate OccursAt(text: string, pattern: string, i: nat) {
    i + |pattern| <= |text| && text[i..i + |pattern|] == pattern
  }

  /** The first place at or after `i` where the pattern occurs, or the text's length. */
  function FirstFrom(text: string, pattern: string, i: nat): (k: nat)
    requires i <= |text|
    ensures i <= k <= |text|
    ensures forall j :: i <= j < k ==> !OccursAt(text, pattern, j)
    ensures k < |text| ==> OccursAt(text, pattern, k)
    decreases |text| - i
  {
    if i == |text| || OccursAt(text, pattern, i) then i else FirstFrom(text, pattern, i + 1)
  }

  /** CR LF and lone CR become LF. */
  function Normalize(s: string): string {
    if s == "" then ""
    else if s[0] != '\r' then [s[0]] + Normalize(s[1..])
    else if |s| > 1 && s[1] == '\n' then "\n" + Normalize(s[2..])
    else "\n" + Normalize(s[1..])
  }

  function Split(s: string): (lines: seq<string>)
    ensures lines != []
  {
    if s == "" then [""]
    else
      var rest := Split(s[1..]);
      if s[0] == '\n' then [""] + rest else [[s[0]] + rest[0]] + rest[1..]
  }

  function Join(lines: seq<string>): string {
    if lines == [] then "" else if |lines| == 1 then lines[0] else lines[0] + "\n" + Join(lines[1..])
  }

  /* ----- Headers ----- */

  predicate HasKey(line: string, key: string) {
    key + ": " <= line
  }

  function HeaderValue(line: string, key: string): Option<string> {
    if !HasKey(line, key) then None
    else
      var value := Trim(line[|key| + 1..]);
      if value != "" then Some(value) else None
  }

  function HeaderLinesValue(lines: seq<string>, key: string): Option<string> {
    if lines == [] then None
    else if HeaderValue(lines[0], key).Some? then HeaderValue(lines[0], key)
    else HeaderLinesValue(lines[1..], key)
  }

  /** The first line with the key, or the number of lines. */
  function FirstWith(lines: seq<string>, key: string): (i: nat)
    ensures i <= |lines|
  {
    if lines == [] || HasKey(lines[0], key) then 0 else 1 + FirstWith(lines[1..], key)
  }

  /** Every line before the first timestamp; without one there is no provable header. */
  function HeaderBlock(lines: seq<string>): seq<string> {
    var end := FirstWith(lines, TIMESTAMP);
    if end == |lines| then [] else lines[..end]
  }

  /* ----- Frames ----- */

  /** What lies between the tags; the frame ends at its first closing tag. */
  function Inside(text: string): string
    requires OPEN <= text
  {
    text[|OPEN|..Most(|OPEN|, FirstFrom(text, CLOSE, 0))]
  }

  function Most(a: nat, b: nat): nat {
    if a < b then b else a
  }

  function DropFirst(lines: seq<string>): seq<string> {
    if lines != [] && lines[0] == "" then lines[1..] else lines
  }

  function DropLast(lines: seq<string>): seq<string> {
    if lines != [] && lines[|lines| - 1] == "" then lines[..|lines| - 1] else lines
  }

  /** The frame's own newlines are not the payload's. */
  function FrameLines(inside: string): seq<string> {
    DropLast(DropFirst(Split(inside)))
  }

  datatype Origin = Local | Peer(device: Option<string>) | Unknown

  function ParseOrigin(value: Option<string>): Origin {
    if value.None? then Unknown
    else if value.value == LOCAL then Local
    else if PEER <= value.value then
      var device := Trim(value.value[|PEER|..]);
      Peer(if device != "" then Some(device) else None)
    else Unknown
  }

  datatype Relay = Relay(fromAgent: string, origin: Origin, body: string)

  function RelayOf(lines: seq<string>): Option<Relay> {
    var header := HeaderBlock(lines);
    var sender := HeaderLinesValue(header, FROM_AGENT);
    if HeaderLinesValue(header, KIND).Some? || sender.None? then None
    else
      var after := if FirstWith(lines, TIMESTAMP) < |lines| then lines[FirstWith(lines, TIMESTAMP) + 1..] else lines;
      Some(Relay(sender.value, ParseOrigin(HeaderLinesValue(header, ORIGIN)), Join(after)))
  }

  function ParseRelay(text: string): Option<Relay> {
    if !(OPEN <= text) then None else RelayOf(FrameLines(Normalize(Inside(text))))
  }

  /** The gate of the notice parser: its header says the daemon speaks, and of what kind. */
  predicate IsNotice(text: string) {
    if !(OPEN <= text) then false
    else
      var header := HeaderBlock(FrameLines(Inside(text)));
      HeaderLinesValue(header, ROLE) == Some(DAEMON) && HeaderLinesValue(header, KIND).Some?
  }

  /* ----- No text is both ----- */

  lemma {:induction false} NormalizeSame(s: string)
    requires '\r' !in s
    ensures Normalize(s) == s
  {
    if s != "" { NormalizeSame(s[1..]); }
  }

  /* ----- A printed relay is read back ----- */

  /** What the daemon writes above a relayed message; `more` are lines the app ignores. */
  datatype Header = Header(origin: Origin, role: string, fromAgent: string, more: seq<string>, stamp: string)

  /** How the daemon writes an origin: a device that names none is written as nothing. */
  function OriginText(origin: Origin): string {
    match origin
    case Local => LOCAL
    case Peer(device) => PEER + device.GetOr("")
    case Unknown => UNKNOWN
  }

  predicate OneLine(s: string) {
    '\n' !in s && '\r' !in s
  }

  predicate Trimmed(s: string) {
    OneLine(s) && s != "" && !IsSpace(s[0]) && !IsSpace(s[|s| - 1])
  }

  function Field(key: string, value: string): string {
    key + ": " + value
  }

  function HeaderTop(h: Header): seq<string> {
    [Field(ORIGIN, OriginText(h.origin)), Field(ROLE, h.role), Field(FROM_AGENT, h.fromAgent)] + h.more
  }

  function HeaderLines(h: Header): seq<string> {
    HeaderTop(h) + [Field(TIMESTAMP, h.stamp)]
  }

  /** Each line with its newline. */
  function Closed(lines: seq<string>): string {
    if lines == [] then "" else lines[0] + "\n" + Closed(lines[1..])
  }

  function Above(h: Header): string {
    OPEN + "\n" + Closed(HeaderLines(h))
  }

  function Print(h: Header, body: string): string {
    Above(h) + body + "\n" + CLOSE
  }

  ghost predicate WellFormed(h: Header) {
    && (h.origin.Peer? && h.origin.device.Some? ==> Trimmed(h.origin.device.value)) && Trimmed(h.fromAgent) && OneLine(h.role) && OneLine(h.stamp)
    && (forall i :: 0 <= i < |h.more| ==> OneLine(h.more[i]) && !HasKey(h.more[i], TIMESTAMP) && !HasKey(h.more[i], KIND))
    && (forall i :: 0 <= i < |Above(h)| ==> !OccursAt(Above(h), CLOSE, i))
  }

  /* ----- Lines ----- */

  lemma {:induction false} SplitFirst(line: string, rest: string)
    requires '\n' !in line
    ensures Split(line + "\n" + rest) == [line] + Split(rest)
  {
    var s := line + "\n" + rest;
    if line == "" {
      assert s[1..] == rest;
    } else {
      assert s[1..] == line[1..] + "\n" + rest;
      SplitFirst(line[1..], rest);
      assert [line[0]] + line[1..] == line && ([line[1..]] + Split(rest))[1..] == Split(rest);
    }
  }

  lemma {:induction false} SplitClosed(lines: seq<string>, rest: string)
    requires forall i :: 0 <= i < |lines| ==> '\n' !in lines[i]
    ensures Split(Closed(lines) + rest) == lines + Split(rest)
    decreases |lines|
  {
    hide Split;
    if lines == [] {
      assert Closed(lines) + rest == rest;
    } else {
      var below := Closed(lines[1..]);
      assert lines[0] + "\n" + below + rest == lines[0] + "\n" + (below + rest);
      SplitFirst(lines[0], below + rest);
      SplitClosed(lines[1..], rest);
      assert [lines[0]] + (lines[1..] + Split(rest)) == lines + Split(rest);
    }
  }

  lemma {:induction false} SplitLast(s: string)
    ensures Split(s + "\n") == Split(s) + [""]
  {
    if s == "" {
      assert Split("\n") == [""] + Split("");
    } else {
      assert (s + "\n")[1..] == s[1..] + "\n";
      SplitLast(s[1..]);
    }
  }

  lemma {:induction false} JoinSplit(s: string)
    ensures Join(Split(s)) == s
  {
    if s != "" {
      JoinSplit(s[1..]);
      var rest := Split(s[1..]);
      if s[0] == '\n' {
        assert ([""] + rest)[1..] == rest;
      } else {
        assert ([[s[0]] + rest[0]] + rest[1..])[1..] == rest[1..];
      }
    }
  }

  lemma {:induction false} NormalizeAfter(a: string, b: string)
    requires '\r' !in a
    ensures Normalize(a + b) == a + Normalize(b)
  {
    if a == "" {
      assert a + b == b;
    } else {
      assert (a + b)[1..] == a[1..] + b;
      NormalizeAfter(a[1..], b);
    }
  }

  /* ----- No text is both, unless a return sits in its header ----- */

  /** One more character on the first line. */
  lemma Prefixed(c: char, lines: seq<string>, n: nat)
    requires 1 <= n <= |lines|
    ensures var more := [[c] + lines[0]] + lines[1..];
            Closed(more[..n]) == [c] + Closed(lines[..n]) && more[n..] == lines[n..]
  {
    var first, rest := lines[0], lines[1..n];
    var more := [[c] + first] + lines[1..];
    assert lines[..n] == [first] + rest && more[..n] == [[c] + first] + rest;
    ClosedCons(first, rest);
    ClosedCons([c] + first, rest);
    assert [c] + first + "\n" + Closed(rest) == [c] + (first + "\n" + Closed(rest));
  }

  lemma LineOpened(lines: seq<string>, n: nat)
    requires 1 <= n <= |lines| + 1
    ensures Closed(([""] + lines)[..n]) == "\n" + Closed(lines[..n - 1]) && ([""] + lines)[n..] == lines[n - 1..]
  {
    assert ([""] + lines)[..n] == [""] + lines[..n - 1];
    ClosedCons("", lines[..n - 1]);
    assert "" + "\n" + Closed(lines[..n - 1]) == "\n" + Closed(lines[..n - 1]);
  }

  lemma {:induction false} SplitAt(s: string, n: nat) returns (rest: string)
    requires n < |Split(s)|
    ensures s == Closed(Split(s)[..n]) + rest && Split(rest) == Split(s)[n..]
    decreases |s|, n
  {
    if n == 0 {
      rest := s;
      assert Split(s)[..0] == [] && Split(s)[0..] == Split(s);
    } else {
      hide Closed;
      var tail := s[1..];
      assert s == [s[0]] + tail;
      if s[0] == '\n' {
        LineOpened(Split(tail), n);
        rest := SplitAt(tail, n - 1);
      } else {
        Prefixed(s[0], Split(tail), n);
        rest := SplitAt(tail, n);
      }
    }
  }

  lemma {:induction false} FirstLineLeads(s: string)
    ensures Split(s)[0] <= s
  {
    if s != "" { FirstLineLeads(s[1..]); }
  }

  lemma {:induction false} LeadingText(p: string, s: string)
    requires '\n' !in p
    ensures p <= Split(p + s)[0]
  {
    if p != "" {
      assert (p + s)[1..] == p[1..] + s;
      LeadingText(p[1..], s);
      assert p == [p[0]] + p[1..];
    }
  }

  lemma {:induction false} LinesAreLines(s: string)
    ensures forall i :: 0 <= i < |Split(s)| ==> '\n' !in Split(s)[i]
  {
    if s != "" { LinesAreLines(s[1..]); }
  }

  lemma {:induction false} FirstWithIs(lines: seq<string>, key: string)
    ensures var n := FirstWith(lines, key);
            (forall i :: 0 <= i < n ==> !HasKey(lines[i], key)) && (n < |lines| ==> HasKey(lines[n], key))
    decreases |lines|
  {
    if lines != [] && !HasKey(lines[0], key) { FirstWithIs(lines[1..], key); }
  }

  /** The frame's own newlines come off, up to and with a line that is not empty. */
  lemma DroppedLines(pre: seq<string>, m: seq<string>)
    requires m != [] && m[0] != ""
    ensures var d := if pre != [] && pre[0] == "" then 1 else 0;
            var lines := DropLast(DropFirst(pre + m));
            |lines| > |pre| - d && lines[..|pre| - d] == pre[d..] && lines[|pre| - d] == m[0]
  {
    var d := if pre != [] && pre[0] == "" then 1 else 0;
    var left := DropFirst(pre + m);
    assert left == pre[d..] + m by {
      if pre == [] { assert pre + m == m; } else { assert (pre + m)[0] == pre[0] && (pre + m)[1..] == pre[1..] + m; }
    }
    if |m| == 1 { assert left[|left| - 1] == m[0]; }
  }

  /** Up to the first timestamp line, where the header ends, no line holds a return. */
  ghost predicate ReturnFreeHeader(text: string) {
    OPEN <= text ==>
      var lines := FrameLines(Inside(text));
      var n := FirstWith(lines, TIMESTAMP);
      n < |lines| ==> forall i :: 0 <= i < n ==> '\r' !in lines[i]
  }

  /** The header's lines among all lines of the frame. */
  lemma FrameStarts(all: seq<string>, n: nat)
    requires all != [] && n < |DropLast(DropFirst(all))|
    ensures var d := if all[0] == "" then 1 else 0;
            n + d < |all| && DropLast(DropFirst(all))[n] == all[n + d] && DropLast(DropFirst(all))[..n] == all[d..n + d]
  {
    var d := if all[0] == "" then 1 else 0;
    var kept := DropFirst(all);
    assert kept == all[d..];
    var lines := DropLast(kept);
    assert lines == kept[..|lines|];
    assert lines[..n] == kept[..n] && kept[..n] == all[d..n + d];
  }

  /** A text whose first line is a timestamp opens with the key. */
  lemma StampLeads(rest: string) returns (p: string, body: string)
    requires HasKey(Split(rest)[0], TIMESTAMP)
    ensures p == TIMESTAMP + ": " && rest == p + body && OneLine(p)
  {
    p := TIMESTAMP + ": ";
    assert OneLine(p);
    hide TIMESTAMP, Split;
    FirstLineLeads(rest);
    body := rest[|p|..];
  }

  lemma StampStays(p: string, line: string)
    requires p == TIMESTAMP + ": " && p <= line
    ensures HasKey(line, TIMESTAMP) && line != ""
  {
  }

  /** A line cut at its returns. */
  function Pieces(line: string): (pieces: seq<string>)
    ensures pieces != []
  {
    if line == "" then [""]
    else
      var rest := Pieces(line[1..]);
      if line[0] == '\r' then [""] + rest else [[line[0]] + rest[0]] + rest[1..]
  }

  /** A return right before a newline is part of it. */
  function Ended(line: string): string {
    if line != "" && line[|line| - 1] == '\r' then line[..|line| - 1] else line
  }

  /** How whole lines read where a return ends a line too. */
  function PiecesOf(lines: seq<string>): seq<string> {
    if lines == [] then [] else Pieces(Ended(lines[0])) + PiecesOf(lines[1..])
  }

  lemma EndedCons(c: char, line: string)
    requires line != "" || c != '\r'
    ensures Ended([c] + line) == [c] + Ended(line)
  {
  }

  lemma {:induction false} LineCut(line: string, rest: string)
    requires '\n' !in line
    ensures Split(Normalize(line + "\n" + rest)) == Pieces(Ended(line)) + Split(Normalize(rest))
  {
    hide Split, Normalize, Pieces;
    if line == "" || line == "\r" {
      BareLineCut(line, rest);
    } else {
      var c, below := line[0], line[1..];
      assert line == [c] + below;
      LineCut(below, rest);
      EndedCons(c, below);
      NormalizeCons(c, below, rest);
      CutCons(c, Normalize(below + "\n" + rest), Ended(below), Split(Normalize(rest)));
    }
  }

  lemma BareLineCut(line: string, rest: string)
    requires line == "" || line == "\r"
    ensures Split(Normalize(line + "\n" + rest)) == Pieces(Ended(line)) + Split(Normalize(rest))
  {
    hide Split;
    var s := line + "\n" + rest;
    assert s[|line| + 1..] == rest;
    assert Normalize(s) == "\n" + Normalize(rest);
    SplitFirst("", Normalize(rest));
    assert "" + "\n" + Normalize(rest) == "\n" + Normalize(rest);
  }

  lemma NormalizeCons(c: char, below: string, rest: string)
    requires '\n' !in [c] + below && [c] + below != "\r"
    ensures Normalize([c] + below + "\n" + rest) == (if c == '\r' then "\n" else [c]) + Normalize(below + "\n" + rest)
  {
    var s := [c] + below + "\n" + rest;
    assert s[0] == c && s[1..] == below + "\n" + rest;
    if below != "" { assert s[1] == below[0] && ([c] + below)[1] == below[0]; }
  }

  /** One more character in front, on the read text and on the pieces. */
  lemma CutCons(c: char, normal: string, line: string, after: seq<string>)
    requires Split(normal) == Pieces(line) + after && c != '\n'
    ensures Split((if c == '\r' then "\n" else [c]) + normal) == Pieces([c] + line) + after
  {
    hide Split, Pieces;
    PiecesCons(c, line);
    if c == '\r' {
      SplitFirst("", normal);
      assert "" + "\n" + normal == "\n" + normal;
      Regrouped("", Pieces(line), after);
    } else {
      SplitCons(c, normal);
      FirstRegrouped([c] + Pieces(line)[0], Pieces(line), after);
    }
  }

  lemma Regrouped(first: string, lines: seq<string>, after: seq<string>)
    ensures [first] + (lines + after) == [first] + lines + after
  {
  }

  lemma FirstRegrouped(first: string, lines: seq<string>, after: seq<string>)
    requires lines != []
    ensures [first] + (lines + after)[1..] == [first] + lines[1..] + after
  {
    assert (lines + after)[1..] == lines[1..] + after;
  }

  lemma SplitCons(c: char, s: string)
    requires c != '\n'
    ensures Split([c] + s) == [[c] + Split(s)[0]] + Split(s)[1..]
  {
    assert ([c] + s)[1..] == s;
  }

  lemma PiecesCons(c: char, line: string)
    ensures var pieces := Pieces(line); Pieces([c] + line) == if c == '\r' then [""] + pieces else [[c] + pieces[0]] + pieces[1..]
  {
    assert ([c] + line)[1..] == line;
  }

  lemma {:induction false} LinesCut(lines: seq<string>, rest: string)
    requires forall i :: 0 <= i < |lines| ==> '\n' !in lines[i]
    ensures Split(Normalize(Closed(lines) + rest)) == PiecesOf(lines) + Split(Normalize(rest))
    decreases |lines|
  {
    hide Split, Normalize, Pieces, Ended;
    if lines == [] {
      assert Closed(lines) + rest == rest;
    } else {
      var below := Closed(lines[1..]) + rest;
      assert Closed(lines) + rest == lines[0] + "\n" + below;
      LineCut(lines[0], below);
      LinesCut(lines[1..], rest);
    }
  }

  function UpTo(lines: seq<string>, key: string): seq<string> {
    lines[..FirstWith(lines, key)]
  }

  /** A line with the key right after some lines: what comes before the key is theirs. */
  lemma KeyAfter(front: seq<string>, lines: seq<string>, key: string)
    requires front <= lines && |front| < |lines| && HasKey(lines[|front|], key)
    ensures FirstWith(lines, key) < |lines| && lines[..FirstWith(lines, key)] == UpTo(front, key)
  {
    hide HasKey, FirstWith;
    var n := FirstWith(front, key);
    FirstWithIs(front, key);
    assert forall i :: 0 <= i < |front| ==> lines[i] == front[i];
    FirstWithAt(lines, key, n);
  }

  lemma EmptyLineSkipped(lines: seq<string>, stop: string, key: string)
    ensures HeaderLinesValue(UpTo([""] + lines, stop), key) == HeaderLinesValue(UpTo(lines, stop), key)
  {
    assert !HasKey("", stop) && !HasKey("", key);
    assert ([""] + lines)[1..] == lines;
    var all := UpTo([""] + lines, stop);
    assert all == [""] + UpTo(lines, stop) && all[1..] == UpTo(lines, stop);
  }

  /** The lines of a frame, up to its first timestamp, as the relay parser reads them. */
  lemma FrameCut(inside: string, n: nat) returns (pre: seq<string>, m: seq<string>)
    requires n < |FrameLines(inside)| && HasKey(FrameLines(inside)[n], TIMESTAMP)
    ensures Split(Normalize(inside)) == PiecesOf(pre) + m && m != [] && m[0] != "" && HasKey(m[0], TIMESTAMP)
    ensures pre == FrameLines(inside)[..n] || pre == [""] + FrameLines(inside)[..n]
  {
    hide TIMESTAMP, Split, Normalize, Closed, DropFirst, DropLast, HasKey, PiecesOf;
    var all := Split(inside);
    var d := if all[0] == "" then 1 else 0;
    FrameStarts(all, n);
    var rest := SplitAt(inside, n + d);
    pre := all[..n + d];
    LinesAreLines(inside);
    LinesCut(pre, rest);
    m := Split(Normalize(rest));
    var p, body := StampLeads(rest);
    NormalizeAfter(p, body);
    LeadingText(p, Normalize(body));
    StampStays(p, m[0]);
    assert d == 0 ==> pre == all[d..n + d];
    assert d == 1 ==> pre == [all[0]] + all[d..n + d];
  }

  /** Where the notice parser finds a header, the relay parser reads its pieces, up to the
      first one that is a timestamp. */
  lemma HeaderCut(inside: string, key: string)
    requires FirstWith(FrameLines(inside), TIMESTAMP) < |FrameLines(inside)|
    ensures HeaderLinesValue(HeaderBlock(FrameLines(Normalize(inside))), key)
         == HeaderLinesValue(UpTo(PiecesOf(HeaderBlock(FrameLines(inside))), TIMESTAMP), key)
  {
    hide TIMESTAMP, Split, Normalize, HasKey, DropFirst, DropLast, PiecesOf, FirstWith, UpTo, HeaderLinesValue;
    var lines := FrameLines(inside);
    var n := FirstWith(lines, TIMESTAMP);
    FirstWithIs(lines, TIMESTAMP);
    var pre, m := FrameCut(inside, n);
    var d := DroppedHeader(PiecesOf(pre), m);
    PiecesLed(lines[..n]);
    LedSkipped(PiecesOf(lines[..n]), PiecesOf(pre), d, key);
  }

  lemma DroppedHeader(front: seq<string>, m: seq<string>) returns (d: nat)
    requires m != [] && m[0] != "" && HasKey(m[0], TIMESTAMP)
    ensures d == (if front != [] && front[0] == "" then 1 else 0)
    ensures d <= |front| && HeaderBlock(DropLast(DropFirst(front + m))) == UpTo(front[d..], TIMESTAMP)
  {
    hide TIMESTAMP, HasKey, DropFirst, DropLast, FirstWith, UpTo;
    d := if front != [] && front[0] == "" then 1 else 0;
    DroppedLines(front, m);
    var lines := DropLast(DropFirst(front + m));
    assert lines[..|front| - d] == front[d..];
    KeyAfter(front[d..], lines, TIMESTAMP);
  }

  lemma PiecesLed(lines: seq<string>)
    ensures PiecesOf([""] + lines) == [""] + PiecesOf(lines)
  {
    assert ([""] + lines)[1..] == lines;
  }

  lemma LedSkipped(pieces: seq<string>, front: seq<string>, d: nat, key: string)
    requires front == pieces || front == [""] + pieces
    requires d == (if front != [] && front[0] == "" then 1 else 0)
    ensures HeaderLinesValue(UpTo(front[d..], TIMESTAMP), key) == HeaderLinesValue(UpTo(pieces, TIMESTAMP), key)
  {
    hide TIMESTAMP, UpTo, HeaderLinesValue;
    if d == 0 {
      assert front[0..] == front;
    } else if front == [""] + pieces {
      assert front[1..] == pieces;
    } else {
      assert pieces == [""] + pieces[1..];
      EmptyLineSkipped(pieces[1..], TIMESTAMP, key);
    }
  }

  /** The pieces of a notice's header, up to one that is a timestamp, name a sender and no kind. */
  predicate ReadsAsRelay(text: string)
    requires OPEN <= text
  {
    var pieces := UpTo(PiecesOf(HeaderBlock(FrameLines(Inside(text)))), TIMESTAMP);
    HeaderLinesValue(pieces, FROM_AGENT).Some? && HeaderLinesValue(pieces, KIND).None?
  }

  /** A notice is also taken for a relay exactly when the returns in its header hide its kind
      and leave a sender; nothing in its body matters. */
  lemma NoticeIsRelayWhen(text: string)
    requires IsNotice(text)
    ensures ParseRelay(text).Some? <==> ReadsAsRelay(text)
  {
    hide TIMESTAMP, KIND, FROM_AGENT, ROLE, DAEMON, Normalize, FrameLines, Inside, PiecesOf, UpTo, HeaderLinesValue, FirstWith;
    NoticeHasHeader(text);
    HeaderCut(Inside(text), KIND);
    HeaderCut(Inside(text), FROM_AGENT);
  }

  lemma NoticeHasHeader(text: string)
    requires IsNotice(text)
    ensures FirstWith(FrameLines(Inside(text)), TIMESTAMP) < |FrameLines(Inside(text))|
    ensures HeaderLinesValue(HeaderBlock(FrameLines(Inside(text))), KIND).Some?
  {
    assert HeaderLinesValue([], KIND).None?;
  }

  lemma {:induction false} Uncut(line: string)
    requires '\r' !in line
    ensures Pieces(line) == [line]
  {
    if line != "" {
      Uncut(line[1..]);
      assert [line[0]] + line[1..] == line;
    }
  }

  lemma {:induction false} LinesUncut(lines: seq<string>)
    requires forall i :: 0 <= i < |lines| ==> '\r' !in lines[i]
    ensures PiecesOf(lines) == lines
    decreases |lines|
  {
    if lines != [] {
      Uncut(lines[0]);
      LinesUncut(lines[1..]);
      assert [lines[0]] + lines[1..] == lines;
    }
  }

  lemma HeaderUncut(lines: seq<string>)
    requires var n := FirstWith(lines, TIMESTAMP); n < |lines| && forall i :: 0 <= i < n ==> '\r' !in lines[i]
    ensures UpTo(PiecesOf(HeaderBlock(lines)), TIMESTAMP) == HeaderBlock(lines)
  {
    hide TIMESTAMP, HasKey, PiecesOf, FirstWith;
    var header := HeaderBlock(lines);
    LinesUncut(header);
    FirstWithIs(lines, TIMESTAMP);
    FirstWithIs(header, TIMESTAMP);
    assert forall i :: 0 <= i < |header| ==> header[i] == lines[i];
  }

  /** So a text whose header holds no return is a notice, a relay or neither, whatever its
      body holds. */
  lemma NoticeOrRelay(text: string)
    requires ReturnFreeHeader(text)
    ensures !(IsNotice(text) && ParseRelay(text).Some?)
  {
    hide TIMESTAMP, KIND, FROM_AGENT, HeaderBlock, FrameLines, Inside, PiecesOf, UpTo, HeaderLinesValue, FirstWith, IsNotice, ParseRelay;
    if IsNotice(text) {
      NoticeOpens(text);
      NoticeHasHeader(text);
      HeaderUncut(FrameLines(Inside(text)));
      NoticeIsRelayWhen(text);
    }
  }

  lemma NoticeOpens(text: string)
    requires IsNotice(text)
    ensures OPEN <= text
  {
  }

  /* ----- Header fields ----- */

  lemma TrimPadded(value: string)
    requires Trimmed(value)
    ensures Trim(" " + value) == value
  {
    assert (" " + value)[1..] == value;
    assert TrimStart(" " + value) == TrimStart(value);
  }

  lemma FieldValue(key: string, value: string)
    requires Trimmed(value)
    ensures HeaderValue(Field(key, value), key) == Some(value)
  {
    var line := Field(key, value);
    assert key + ": " <= line;
    assert line[|key| + 1..] == " " + value;
    TrimPadded(value);
  }

  lemma OtherKey(key: string, value: string, other: string)
    requires key != "" && other != "" && key[0] != other[0]
    ensures !HasKey(Field(key, value), other)
  {
    assert Field(key, value)[0] == key[0] && (other + ": ")[0] == other[0];
  }

  /** Keys differ at their first letter. */
  lemma KeysApart()
    ensures TIMESTAMP[0] == 't' && KIND[0] == 'k' && ROLE[0] == 'r' && ORIGIN[0] == 'o' && FROM_AGENT[0] == 'f'
    ensures |TIMESTAMP| > 0 && |KIND| > 0 && |ROLE| > 0 && |ORIGIN| > 0 && |FROM_AGENT| > 0
  {
  }

  lemma {:induction false} ValueSkips(lines: seq<string>, key: string)
    requires forall i :: 0 <= i < |lines| ==> !HasKey(lines[i], key)
    ensures HeaderLinesValue(lines, key) == None
    decreases |lines|
  {
    if lines != [] { ValueSkips(lines[1..], key); }
  }

  lemma {:induction false} FirstWithAt(lines: seq<string>, key: string, n: nat)
    requires n < |lines| && HasKey(lines[n], key) && forall i :: 0 <= i < n ==> !HasKey(lines[i], key)
    ensures FirstWith(lines, key) == n
    decreases n
  {
    if n > 0 { FirstWithAt(lines[1..], key, n - 1); }
  }

  lemma TopLines(h: Header)
    requires WellFormed(h)
    ensures var top := HeaderTop(h);
            && (forall i :: 0 <= i < |top| ==> !HasKey(top[i], TIMESTAMP) && !HasKey(top[i], KIND))
            && |top| >= 3 && top[0] == Field(ORIGIN, OriginText(h.origin)) && top[1] == Field(ROLE, h.role) && top[2] == Field(FROM_AGENT, h.fromAgent)
  {
    KeysApart();
    hide HasKey, Field, TIMESTAMP, KIND, ROLE, ORIGIN, FROM_AGENT, Above;
    var top := HeaderTop(h);
    OtherKey(ORIGIN, OriginText(h.origin), TIMESTAMP);
    OtherKey(ORIGIN, OriginText(h.origin), KIND);
    OtherKey(ROLE, h.role, TIMESTAMP);
    OtherKey(ROLE, h.role, KIND);
    OtherKey(FROM_AGENT, h.fromAgent, TIMESTAMP);
    OtherKey(FROM_AGENT, h.fromAgent, KIND);
    assert forall i :: 3 <= i < |top| ==> top[i] == h.more[i - 3];
  }

  lemma OriginTrimmed(h: Header)
    requires WellFormed(h)
    ensures Trimmed(OriginText(h.origin))
  {
    assert Trimmed(LOCAL) && Trimmed(PEER) && Trimmed(UNKNOWN);
    hide LOCAL, PEER, UNKNOWN, Above;
    if h.origin.Peer? && h.origin.device.Some? {
      var device := h.origin.device.value;
      assert (PEER + device)[|PEER + device| - 1] == device[|device| - 1];
    } else if h.origin.Peer? {
      assert PEER + "" == PEER;
    }
  }

  /** An origin comes back from how it is written. */
  lemma OriginRead(h: Header)
    requires WellFormed(h)
    ensures ParseOrigin(Some(OriginText(h.origin))) == h.origin
  {
    assert LOCAL[0] == 'l' && PEER[0] == 'p' && UNKNOWN[0] == 'u';
    hide LOCAL, PEER, UNKNOWN, Above;
    if h.origin.Peer? {
      var device := h.origin.device.GetOr("");
      assert PEER <= PEER + device && (PEER + device)[|PEER|..] == device;
    } else if h.origin.Unknown? {
      assert !(PEER <= UNKNOWN);
    }
  }

  lemma HeaderRead(h: Header)
    requires WellFormed(h)
    ensures HeaderLinesValue(HeaderTop(h), KIND) == None
    ensures HeaderLinesValue(HeaderTop(h), ORIGIN) == Some(OriginText(h.origin))
    ensures HeaderLinesValue(HeaderTop(h), FROM_AGENT) == Some(h.fromAgent)
  {
    hide HasKey, Field, TIMESTAMP, KIND, ROLE, ORIGIN, FROM_AGENT, Above, Trimmed, HeaderTop, OriginText;
    TopLines(h);
    KeysApart();
    OriginTrimmed(h);
    var top := HeaderTop(h);
    ValueSkips(top, KIND);
    FieldValue(ORIGIN, OriginText(h.origin));
    FieldValue(FROM_AGENT, h.fromAgent);
    OtherKey(ORIGIN, OriginText(h.origin), FROM_AGENT);
    OtherKey(ROLE, h.role, FROM_AGENT);
    assert top[1..][0] == top[1] && top[1..][1..][0] == top[2];
    assert HeaderLinesValue(top[1..][1..], FROM_AGENT) == Some(h.fromAgent);
    assert HeaderLinesValue(top[1..], FROM_AGENT) == Some(h.fromAgent);
  }

  lemma RelayRead(h: Header, rest: seq<string>)
    requires WellFormed(h)
    ensures RelayOf(HeaderLines(h) + rest) == Some(Relay(h.fromAgent, h.origin, Join(rest)))
  {
    hide Field, TIMESTAMP, KIND, ROLE, ORIGIN, FROM_AGENT, Above, Trimmed, HeaderTop, HeaderLinesValue, ParseOrigin, OriginText;
    HeaderRead(h);
    TopLines(h);
    OriginRead(h);
    var top, lines := HeaderTop(h), HeaderLines(h) + rest;
    assert lines == top + [Field(TIMESTAMP, h.stamp)] + rest;
    FieldHasKey(TIMESTAMP, h.stamp);
    FirstWithAt(lines, TIMESTAMP, |top|);
    assert lines[..|top|] == top && lines[|top| + 1..] == rest;
  }

  lemma FieldHasKey(key: string, value: string)
    ensures HasKey(Field(key, value), key)
  {
  }

  /* ----- Where the frame ends ----- */

  lemma CloseIsOneLine()
    ensures '\n' !in CLOSE && |CLOSE| == 18
  {
  }

  /** The closing tag cannot sit across a newline. */
  lemma TagClearsNewline(text: string, i: nat, n: nat)
    requires OccursAt(text, CLOSE, i) && n < |text| && text[n] == '\n' && i <= n
    ensures i + |CLOSE| <= n
  {
    CloseIsOneLine();
    hide CLOSE;
    var tag := text[i..i + |CLOSE|];
    assert forall m :: i <= m < i + |CLOSE| ==> text[m] == tag[m - i] && tag[m - i] in tag;
  }

  lemma TagStays(before: string, front: string, back: string, i: nat)
    requires front != "" && front[|front| - 1] == '\n' && |before| <= i < |before + front|
    requires OccursAt(before + front + back, CLOSE, i)
    ensures OccursAt(front, CLOSE, i - |before|)
  {
    var text := before + front + back;
    TagClearsNewline(text, i, |before| + |front| - 1);
    hide CLOSE;
    assert text[i..i + |CLOSE|] == front[i - |before|..i - |before| + |CLOSE|];
  }

  /** No closing tag starts before a part that is clear of it and ends in a newline. */
  lemma TagBeyond(front: string, back: string)
    requires front != "" && front[|front| - 1] == '\n' && forall i :: 0 <= i < |front| ==> !OccursAt(front, CLOSE, i)
    ensures forall i :: 0 <= i < |front| ==> !OccursAt(front + back, CLOSE, i)
  {
    hide CLOSE;
    assert "" + front + back == front + back;
    forall i | 0 <= i < |front| ensures !OccursAt(front + back, CLOSE, i) {
      if OccursAt(front + back, CLOSE, i) { TagStays("", front, back, i); }
    }
  }

  lemma {:induction false} ClosedEnds(lines: seq<string>)
    requires lines != []
    ensures Closed(lines) != "" && Closed(lines)[|Closed(lines)| - 1] == '\n'
    decreases |lines|
  {
    if |lines| > 1 { ClosedEnds(lines[1..]); } else { assert Closed(lines[1..]) == ""; }
  }

  lemma {:induction false} ClosedOneLine(lines: seq<string>)
    requires forall i :: 0 <= i < |lines| ==> OneLine(lines[i])
    ensures '\r' !in Closed(lines)
    decreases |lines|
  {
    if lines != [] { ClosedOneLine(lines[1..]); }
  }

  lemma LinesOneLine(h: Header)
    requires WellFormed(h)
    ensures forall i :: 0 <= i < |HeaderLines(h)| ==> OneLine(HeaderLines(h)[i])
  {
    assert OneLine(TIMESTAMP) && OneLine(ORIGIN) && OneLine(ROLE) && OneLine(FROM_AGENT) && OneLine(": ");
    hide TIMESTAMP, ORIGIN, ROLE, FROM_AGENT, Above;
    var lines := HeaderLines(h);
    assert forall i :: 3 <= i < |lines| - 1 ==> lines[i] == h.more[i - 3];
  }

  /** The lines of a printed frame, up to wherever its closing tag is found. */
  lemma FrameRead(h: Header, tail: string)
    requires WellFormed(h)
    ensures FrameLines(Normalize("\n" + Closed(HeaderLines(h)) + tail)) == HeaderLines(h) + DropLast(Split(Normalize(tail)))
  {
    hide WellFormed, HeaderLines, FrameLines, Normalize, Closed;
    LinesOneLine(h);
    var lines := HeaderLines(h);
    ClosedOneLine(lines);
    NormalizeAfter("\n" + Closed(lines), tail);
    LinesThen(lines, Normalize(tail));
  }

  lemma LinesThen(lines: seq<string>, rest: string)
    requires forall i :: 0 <= i < |lines| ==> OneLine(lines[i])
    ensures FrameLines("\n" + Closed(lines) + rest) == lines + DropLast(Split(rest))
  {
    hide Split, Closed, DropFirst, DropLast;
    FrameSplits(lines, rest);
    FrameDropped(lines, Split(rest));
  }

  lemma FrameSplits(lines: seq<string>, rest: string)
    requires forall i :: 0 <= i < |lines| ==> '\n' !in lines[i]
    ensures Split("\n" + Closed(lines) + rest) == [""] + (lines + Split(rest))
  {
    hide Split, Closed;
    SplitClosed(lines, rest);
    OpeningLine(Closed(lines), rest);
  }

  lemma OpeningLine(below: string, rest: string)
    ensures Split("\n" + below + rest) == [""] + Split(below + rest)
  {
    hide Split;
    assert "\n" + below + rest == "" + "\n" + (below + rest);
    SplitFirst("", below + rest);
  }

  lemma FrameDropped(lines: seq<string>, rest: seq<string>)
    requires rest != []
    ensures DropLast(DropFirst([""] + (lines + rest))) == lines + DropLast(rest)
  {
    var all := lines + rest;
    assert ([""] + all)[1..] == all;
    assert all[|all| - 1] == rest[|rest| - 1];
    assert all[..|all| - 1] == lines + rest[..|rest| - 1];
  }

  lemma AboveEnds(h: Header)
    ensures Above(h) != "" && Above(h)[|Above(h)| - 1] == '\n'
  {
    ClosedEnds(HeaderLines(h));
  }

  /** The part of a printed frame that is read. */
  lemma PrintedInside(h: Header, body: string, k: nat)
    requires WellFormed(h) && k == FirstFrom(Print(h, body), CLOSE, 0)
    ensures OPEN <= Print(h, body) && k >= |Above(h)|
    ensures Inside(Print(h, body)) == "\n" + Closed(HeaderLines(h)) + Print(h, body)[|Above(h)|..k]
  {
    hide OPEN, CLOSE, HeaderLines;
    var text, above := Print(h, body), Above(h);
    AboveEnds(h);
    assert text == above + (body + "\n" + CLOSE);
    TagBeyond(above, body + "\n" + CLOSE);
    assert text[..|above|] == above && text[..|OPEN|] == OPEN;
    assert text[|OPEN|..k] == text[|OPEN|..|above|] + text[|above|..k];
    assert text[|OPEN|..|above|] == above[|OPEN|..];
    assert above[|OPEN|..] == "\n" + Closed(HeaderLines(h));
  }

  /** Whatever the body says, the sender and the origin are the ones the daemon wrote. */
  lemma PrintedRelayNamesItsSender(h: Header, body: string)
    requires WellFormed(h)
    ensures var r := ParseRelay(Print(h, body));
            r.Some? && r.value.fromAgent == h.fromAgent && r.value.origin == h.origin
  {
    PrintedIsRead(h, body);
  }

  lemma TagInBody(body: string, i: nat)
    requires OccursAt(body + "\n", CLOSE, i) && i <= |body|
    ensures i < |body| && OccursAt(body, CLOSE, i)
  {
    TagClearsNewline(body + "\n", i, |body|);
    CloseIsOneLine();
    hide CLOSE;
    assert (body + "\n")[i..i + |CLOSE|] == body[i..i + |CLOSE|];
  }

  lemma TagFreeLine(body: string)
    requires forall i :: 0 <= i < |body| ==> !OccursAt(body, CLOSE, i)
    ensures forall i :: 0 <= i < |body + "\n"| ==> !OccursAt(body + "\n", CLOSE, i)
  {
    hide CLOSE;
    forall i | 0 <= i < |body + "\n"| ensures !OccursAt(body + "\n", CLOSE, i) {
      if OccursAt(body + "\n", CLOSE, i) { TagInBody(body, i); }
    }
  }

  lemma BodyEnds(h: Header, body: string)
    requires WellFormed(h) && TagFree(body)
    ensures FirstFrom(Print(h, body), CLOSE, 0) == |Above(h)| + |body| + 1
  {
    hide OPEN, CLOSE, HeaderLines;
    var text, above := Print(h, body), Above(h);
    var end := |above| + |body| + 1;
    AboveEnds(h);
    CloseIsOneLine();
    TagFreeLine(body);
    assert text == above + (body + "\n" + CLOSE) && text == above + (body + "\n") + CLOSE;
    TagBeyond(above, body + "\n" + CLOSE);
    assert OccursAt(text, CLOSE, end);
    forall i | |above| <= i < end ensures !OccursAt(text, CLOSE, i) {
      if OccursAt(text, CLOSE, i) { TagStays(above, body + "\n", CLOSE, i); }
    }
  }

  lemma {:induction false} NormalizeShrinks(s: string)
    ensures '\r' !in Normalize(s) && |Normalize(s)| <= |s|
  {
    if s != "" {
      if s[0] == '\r' && |s| > 1 && s[1] == '\n' { NormalizeShrinks(s[2..]); } else { NormalizeShrinks(s[1..]); }
    }
  }

  lemma {:induction false} JoinStarts(lines: seq<string>)
    requires lines != []
    ensures Join(lines[..|lines| - 1]) <= Join(lines)
    decreases |lines|
  {
    if |lines| == 2 {
      assert lines[..1] == [lines[0]];
    } else if |lines| > 2 {
      var front := lines[..|lines| - 1];
      assert front[1..] == lines[1..][..|lines| - 2];
      JoinStarts(lines[1..]);
    }
  }

  /** A body as it is read: the frame's last newline is not its own. */
  function BodyRead(tail: string): string {
    Join(DropLast(Split(Normalize(tail))))
  }

  lemma BodyShrinks(tail: string)
    ensures '\r' !in BodyRead(tail) && |BodyRead(tail)| <= |tail|
  {
    hide Split, Join, Normalize;
    NormalizeShrinks(tail);
    JoinSplit(Normalize(tail));
    JoinStarts(Split(Normalize(tail)));
    assert BodyRead(tail) <= Normalize(tail);
  }

  /** Any printed body comes back as it reads up to the frame's end. */
  lemma PrintedIsRead(h: Header, body: string)
    requires WellFormed(h)
    ensures var k := FirstFrom(Print(h, body), CLOSE, 0);
            && |Above(h)| <= k <= |Print(h, body)|
            && ParseRelay(Print(h, body)) == Some(Relay(h.fromAgent, h.origin, BodyRead(Print(h, body)[|Above(h)|..k])))
  {
    hide WellFormed, OPEN, CLOSE, Print, HeaderLines, Split, Normalize, Inside, RelayOf, FrameLines;
    var k := FirstFrom(Print(h, body), CLOSE, 0);
    PrintedInside(h, body, k);
    var tail := Print(h, body)[|Above(h)|..k];
    FrameRead(h, tail);
    RelayRead(h, DropLast(Split(Normalize(tail))));
  }

  predicate TagFree(body: string) {
    forall i :: 0 <= i < |body| ==> !OccursAt(body, CLOSE, i)
  }

  /** A closing tag in the body ends the frame there. */
  lemma TagEndsFrame(h: Header, body: string, i: nat)
    requires i < |body| && OccursAt(body, CLOSE, i)
    ensures FirstFrom(Print(h, body), CLOSE, 0) <= |Above(h)| + i
  {
    hide CLOSE, Above;
    var text, at := Print(h, body), |Above(h)| + i;
    assert text[at..at + |CLOSE|] == body[i..i + |CLOSE|];
    assert OccursAt(text, CLOSE, at);
  }

  lemma PlainBodyRead(body: string)
    requires '\r' !in body
    ensures BodyRead(body + "\n") == body
  {
    hide Split, Join, Normalize;
    NormalizeSame(body + "\n");
    SplitLast(body);
    JoinSplit(body);
    assert (Split(body) + [""])[..|Split(body)|] == Split(body);
  }

  /** A body comes back verbatim exactly when it holds no carriage return and no closing tag. */
  lemma PrintedBodyIsVerbatim(h: Header, body: string)
    requires WellFormed(h)
    ensures ParseRelay(Print(h, body)) == Some(Relay(h.fromAgent, h.origin, body)) <==> '\r' !in body && TagFree(body)
  {
    hide WellFormed, Above, CLOSE, BodyRead, ParseRelay;
    var text, above := Print(h, body), |Above(h)|;
    var k := FirstFrom(text, CLOSE, 0);
    PrintedIsRead(h, body);
    BodyShrinks(text[above..k]);
    if !TagFree(body) {
      var i :| 0 <= i < |body| && OccursAt(body, CLOSE, i);
      TagEndsFrame(h, body, i);
    } else if '\r' !in body {
      BodyEnds(h, body);
      PlainBodyRead(body);
      assert text[above..k] == body + "\n";
    }
  }

  /* ----- A text both parsers take ----- */

  /** A header that names a kind, and a sender field written by somebody else. */
  function Notice(sender: string): seq<string> {
    [Field(ROLE, DAEMON), Field(FROM_AGENT, sender), Field(KIND, "k"), Field(TIMESTAMP, "u")]
  }

  lemma NoticeHeader(sender: string)
    ensures HeaderBlock(Notice(sender)) == Notice(sender)[..3]
  {
    KeysApart();
    hide ROLE, KIND, TIMESTAMP, FROM_AGENT, DAEMON, Field, HasKey;
    OtherKey(ROLE, DAEMON, TIMESTAMP);
    OtherKey(FROM_AGENT, sender, TIMESTAMP);
    OtherKey(KIND, "k", TIMESTAMP);
    FieldHasKey(TIMESTAMP, "u");
    FirstWithAt(Notice(sender), TIMESTAMP, 3);
  }

  lemma NoticeFields(sender: string)
    ensures HeaderLinesValue(Notice(sender)[..3], ROLE) == Some(DAEMON) && HeaderLinesValue(Notice(sender)[..3], KIND) == Some("k")
  {
    KeysApart();
    assert Trimmed(DAEMON) && Trimmed("k");
    hide ROLE, KIND, TIMESTAMP, FROM_AGENT, DAEMON, Field, HasKey, Trimmed;
    FieldValue(ROLE, DAEMON);
    FieldValue(KIND, "k");
    OtherKey(ROLE, DAEMON, KIND);
    OtherKey(FROM_AGENT, sender, KIND);
    var header := Notice(sender)[..3];
    assert header[1..][1..] == [Field(KIND, "k")] && header[1..][0] == Field(FROM_AGENT, sender);
    assert HeaderLinesValue(header[1..][1..], KIND) == Some("k");
    assert HeaderLinesValue(header[1..], KIND) == Some("k");
  }

  /** The same lines with the sender's field broken in two at its carriage return. */
  function Broken(): seq<string> {
    [Field(ROLE, DAEMON), Field(FROM_AGENT, "z"), Field(TIMESTAMP, "t"), Field(KIND, "k"), Field(TIMESTAMP, "u")]
  }

  lemma BrokenIsRelay()
    ensures RelayOf(Broken()).Some?
  {
    KeysApart();
    FieldValue(FROM_AGENT, "z");
    hide ROLE, KIND, TIMESTAMP, FROM_AGENT, DAEMON, Field;
    var lines := Broken();
    OtherKey(ROLE, DAEMON, TIMESTAMP);
    OtherKey(FROM_AGENT, "z", TIMESTAMP);
    OtherKey(ROLE, DAEMON, KIND);
    OtherKey(FROM_AGENT, "z", KIND);
    OtherKey(ROLE, DAEMON, FROM_AGENT);
    FieldHasKey(TIMESTAMP, "t");
    hide HasKey;
    FirstWithAt(lines, TIMESTAMP, 2);
    var header := lines[..2];
    ValueSkips(header, KIND);
    assert header[1..][0] == lines[1];
    assert HeaderLinesValue(header[1..], FROM_AGENT) == Some("z");
  }

  /** A frame cut in transit: no closing tag, and no letter of one. */
  lemma CutFrame(inside: string)
    requires '/' !in inside
    ensures OPEN <= OPEN + inside && Inside(OPEN + inside) == inside
  {
    var text := OPEN + inside;
    assert '/' !in OPEN;
    hide OPEN, CLOSE;
    forall j | 0 <= j < |text| ensures !OccursAt(text, CLOSE, j) {
      if OccursAt(text, CLOSE, j) { TagHasSlash(text, j); }
    }
  }

  lemma TagHasSlash(text: string, j: nat)
    requires OccursAt(text, CLOSE, j)
    ensures '/' in text
  {
    assert CLOSE[1] == '/' && text[j..j + |CLOSE|][1] == text[j + 1];
  }

  lemma {:induction false} ClosedLines(lines: seq<string>)
    requires forall i :: 0 <= i < |lines| ==> '\n' !in lines[i]
    ensures FrameLines("\n" + Closed(lines)) == lines
  {
    assert "\n" + Closed(lines) == "" + "\n" + (Closed(lines) + "");
    SplitFirst("", Closed(lines) + "");
    SplitClosed(lines, "");
    assert ([""] + (lines + [""]))[1..] == lines + [""];
    assert (lines + [""])[..|lines|] == lines;
  }

  lemma {:induction false} ClosedFree(lines: seq<string>, c: char)
    requires c != '\n' && forall i :: 0 <= i < |lines| ==> c !in lines[i]
    ensures c !in Closed(lines)
    decreases |lines|
  {
    if lines != [] { ClosedFree(lines[1..], c); }
  }

  /** The sender field that carries a second line behind a carriage return. */
  function Smuggled(): string {
    "z" + "\r" + Field(TIMESTAMP, "t")
  }

  lemma LoneReturn(rest: string)
    requires rest != "" && rest[0] != '\n' && '\r' !in rest
    ensures Normalize("\r" + rest) == "\n" + rest
  {
    assert ("\r" + rest)[1..] == rest;
    NormalizeSame(rest);
  }

  lemma ClosedCons(line: string, rest: seq<string>)
    ensures Closed([line] + rest) == line + "\n" + Closed(rest)
  {
    assert ([line] + rest)[1..] == rest;
  }

  lemma OneLineText(first: string, line: string, rest: seq<string>)
    ensures Closed([first, line] + rest) == first + "\n" + (line + "\n" + Closed(rest))
  {
    hide Closed;
    assert [first, line] + rest == [first] + ([line] + rest);
    ClosedCons(first, [line] + rest);
    ClosedCons(line, rest);
  }

  lemma TwoLineText(first: string, left: string, right: string, rest: seq<string>)
    ensures Closed([first, left, right] + rest) == first + "\n" + (left + "\n" + (right + "\n" + Closed(rest)))
  {
    hide Closed;
    assert [first, left, right] + rest == [first, left] + ([right] + rest);
    OneLineText(first, left, [right] + rest);
    ClosedCons(right, rest);
  }

  lemma BreaksAt(front: string, tail: string)
    requires '\r' !in front && '\r' !in tail && tail != "" && tail[0] != '\n'
    ensures Normalize(front + ("\r" + tail)) == front + ("\n" + tail)
  {
    hide Normalize;
    NormalizeAfter(front, "\r" + tail);
    LoneReturn(tail);
  }

  /** A line broken at its carriage return becomes two. */
  lemma BreaksInTwo(first: string, left: string, right: string, rest: seq<string>)
    requires '\r' !in first && '\r' !in left && '\r' !in right && right != "" && right[0] != '\n'
    requires forall i :: 0 <= i < |rest| ==> '\r' !in rest[i]
    ensures Normalize("\n" + Closed([first, left + "\r" + right] + rest)) == "\n" + Closed([first, left, right] + rest)
  {
    hide Closed, Normalize;
    ClosedFree(rest, '\r');
    OneLineText(first, left + "\r" + right, rest);
    TwoLineText(first, left, right, rest);
    BreaksBetween(first, left, right, Closed(rest));
  }

  lemma BreaksBetween(first: string, left: string, right: string, below: string)
    requires '\r' !in first && '\r' !in left && '\r' !in right && '\r' !in below && right != "" && right[0] != '\n'
    ensures Normalize("\n" + (first + "\n" + (left + "\r" + right + "\n" + below))) == "\n" + (first + "\n" + (left + "\n" + (right + "\n" + below)))
  {
    hide Normalize;
    Rejoined(first, left, right, below);
    BreaksAt("\n" + first + "\n" + left, right + "\n" + below);
  }

  lemma Rejoined(first: string, left: string, right: string, below: string)
    ensures "\n" + (first + "\n" + (left + "\r" + right + "\n" + below)) == "\n" + first + "\n" + left + ("\r" + (right + "\n" + below))
    ensures "\n" + (first + "\n" + (left + "\n" + (right + "\n" + below))) == "\n" + first + "\n" + left + ("\n" + (right + "\n" + below))
  {
  }

  lemma PlainFields(c: char)
    requires c == '\n' || c == '/' || c == '\r'
    ensures forall i :: 0 <= i < |Broken()| ==> c !in Broken()[i]
    ensures c != '\r' ==> forall i :: 0 <= i < 4 ==> c !in Notice(Smuggled())[i]
    ensures Field(TIMESTAMP, "t")[0] == 't'
  {
    assert c !in ROLE && c !in DAEMON && c !in FROM_AGENT && c !in KIND && c !in TIMESTAMP && TIMESTAMP[0] == 't';
    hide ROLE, DAEMON, FROM_AGENT, KIND, TIMESTAMP;
  }

  /** A carriage return in a header field makes one text both a notice and a relay. */
  lemma ReturnMakesBoth()
    ensures var text := OPEN + ("\n" + Closed(Notice(Smuggled()))); IsNotice(text) && ParseRelay(text).Some?
  {
    PlainFields('\n');
    PlainFields('/');
    PlainFields('\r');
    var lines := Notice(Smuggled());
    var inside := "\n" + Closed(lines);
    ClosedFree(lines, '/');
    CutFrame(inside);
    ClosedLines(lines);
    ClosedLines(Broken());
    NoticeHeader(Smuggled());
    NoticeFields(Smuggled());
    BrokenIsRelay();
    BrokenFields();
    hide Field, ROLE, DAEMON, FROM_AGENT, KIND, TIMESTAMP, OPEN, CLOSE, FrameLines, Closed, Inside, HeaderBlock, RelayOf, HeaderLinesValue;
  }

  lemma BrokenFields()
    ensures Normalize("\n" + Closed(Notice(Smuggled()))) == "\n" + Closed(Broken())
  {
    PlainFields('\r');
    hide ROLE, DAEMON, FROM_AGENT, KIND, TIMESTAMP, Normalize, Closed;
    var role, left, right := Field(ROLE, DAEMON), Field(FROM_AGENT, "z"), Field(TIMESTAMP, "t");
    var rest := [Field(KIND, "k"), Field(TIMESTAMP, "u")];
    var b := Broken();
    assert b[0] == role && b[1] == left && b[2] == right && b[3] == rest[0] && b[4] == rest[1];
    assert Field(FROM_AGENT, Smuggled()) == left + "\r" + right;
    assert Notice(Smuggled()) == [role, left + "\r" + right] + rest;
    assert b == [role, left, right] + rest;
    BreaksInTwo(role, left, right, rest);
  }

  /* ----- The parsers as they run ----- */

  method FindHeaderValue(lines: seq<string>, key: string) returns (value: Option<string>)
    ensures value == HeaderLinesValue(lines, key)
  {
    for i := 0 to |lines|
      invariant HeaderLinesValue(lines, key) == HeaderLinesValue(lines[i..], key)
    {
      assert lines[i..][0] == lines[i] && lines[i..][1..] == lines[i + 1..];
      if HasKey(lines[i], key) {
        var found := Trim(lines[i][|key| + 1..]);
        if found != "" {
          return Some(found);
        }
      }
    }
    return None;
  }

  method ParsePeerMessage(text: string) returns (r: Option<Relay>)
    ensures r == ParseRelay(text)
  {
    hide HeaderLinesValue, Split, Normalize, Join, OPEN, CLOSE, KIND, ORIGIN, FROM_AGENT, TIMESTAMP;
    if !(OPEN <= text) {
      return None;
    }
    var lines := Split(Normalize(Inside(text)));
    if lines[0] == "" {
      lines := lines[1..];
    }
    if |lines| > 0 && lines[|lines| - 1] == "" {
      lines := lines[..|lines| - 1];
    }
    assert lines == FrameLines(Normalize(Inside(text)));
    var header := HeaderBlock(lines);
    var kind := FindHeaderValue(header, KIND);
    if kind.Some? {
      return None;
    }
    var sender := FindHeaderValue(header, FROM_AGENT);
    if sender.None? {
      return None;
    }
    var origin := FindHeaderValue(header, ORIGIN);
    var stampAt := FirstWith(lines, TIMESTAMP);
    var after := if stampAt < |lines| then lines[stampAt + 1..] else lines;
    return Some(Relay(sender.value, ParseOrigin(origin), Join(after)));
  }
}
