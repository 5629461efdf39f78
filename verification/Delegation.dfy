/**
 The delegation switch: one boolean the daemon stores, shown optimistically. The
 controller's two operations are cut at their awaits, and the daemon decides writes in the
 order they were issued while replies travel.
 */
module Delegation {
  import opened Basics

  datatype Reply = Reply(enabled: bool, source: string)

  /** What the panel renders; `enabled` is unknown until an answer lands. */
  datatype Panel = Panel(reply: Option<Reply>, enabled: Option<bool>, loadFailed: bool, error: Option<string>)

  datatype Controller = Controller(panel: Panel, enabledRef: Option<bool>, confirmedRef: Option<bool>, sequence: nat, writesInFlight: nat)

  /** What a read remembers of the moment it was sent. */
  datatype Ticket = Ticket(seqAtFetch: nat, writeWasInFlight: bool)

  const FRESH := Controller(Panel(None, None, false, None), None, None, 0, 0)

  /* ----- The controller between awaits ----- */

  function TicketOf(c: Controller): Ticket {
    Ticket(c.sequence, c.writesInFlight > 0)
  }

  predicate Discards(c: Controller, t: Ticket) {
    c.sequence != t.seqAtFetch || t.writeWasInFlight
  }

  function ReadLanded(c: Controller, t: Ticket, reply: Reply): Controller {
    if Discards(c, t) then c
    else c.(enabledRef := Some(reply.enabled), confirmedRef := Some(reply.enabled),
            panel := Panel(Some(reply), Some(reply.enabled), false, None))
  }

  function ReadFailed(c: Controller, invalidates: bool, sentence: string): Controller {
    if c.enabledRef.Some? && !invalidates then c.(panel := c.panel.(error := Some(sentence)))
    else c.(enabledRef := None, confirmedRef := None, panel := Panel(None, None, true, Some(sentence)))
  }

  /** Granting needs a shown `false`; taking back is skipped only on a shown `false`. */
  predicate Goes(c: Controller, next: bool) {
    if next then c.enabledRef == Some(false) else c.enabledRef != Some(false)
  }

  function WriteSent(c: Controller, next: bool): Controller {
    c.(sequence := c.sequence + 1, writesInFlight := c.writesInFlight + 1, enabledRef := Some(next),
       panel := c.panel.(enabled := Some(next), error := None))
  }

  function WriteAccepted(c: Controller, next: bool, number: nat): Controller
    requires c.writesInFlight > 0
  {
    var error := if number == c.sequence then None else c.panel.error;
    c.(writesInFlight := c.writesInFlight - 1, enabledRef := Some(next), confirmedRef := Some(next),
       panel := Panel(Some(Reply(next, "file")), Some(next), false, error))
  }

  function WriteRefused(c: Controller, number: nat, sentence: string): Controller
    requires c.writesInFlight > 0
  {
    var c' := c.(writesInFlight := c.writesInFlight - 1);
    if number != c.sequence then c'
    else c'.(enabledRef := c.confirmedRef, panel := c.panel.(enabled := c.confirmedRef, error := Some(sentence)))
  }

  /* ----- The controller against a daemon ----- */

  /** What the daemon did with a write; a refusal does not tell the two apart. */
  datatype Fate = Undecided | Applied | Dropped

  datatype Write = Write(value: bool, number: nat, fate: Fate)

  datatype Answer = Waiting | Said(reply: Reply) | Lost(sentence: string)

  /** `overlapped` records whether any write was in flight at some moment of the read. */
  datatype Read = Read(ticket: Ticket, invalidates: bool, answer: Answer, overlapped: bool)

  datatype System = System(c: Controller, daemon: bool, writes: seq<Write>, fetches: seq<Read>)

  datatype Op =
    | StartLoad
    | Answer(read: nat, source: string)
    | Lose(read: nat, sentence: string)
    | SettleRead(read: nat)
    | Click(next: bool)
    | Decide(write: nat, applied: bool)
    | Accept(write: nat)
    | Refuse(write: nat, sentence: string)

  function Without<T>(xs: seq<T>, i: nat): (r: seq<T>)
    requires i < |xs|
    ensures |r| == |xs| - 1
    ensures forall x :: x in r ==> x in xs
  {
    xs[..i] + xs[i + 1..]
  }

  function Send(s: System, invalidates: bool): System {
    s.(fetches := s.fetches + [Read(TicketOf(s.c), invalidates, Waiting, s.writes != [])])
  }

  function Overlap(fetches: seq<Read>): (r: seq<Read>)
    ensures |r| == |fetches|
    ensures forall i :: 0 <= i < |r| ==> r[i] == fetches[i].(overlapped := true)
  {
    seq(|fetches|, i requires 0 <= i < |fetches| => fetches[i].(overlapped := true))
  }

  function HandleClick(s: System, next: bool): System {
    if !Goes(s.c, next) then s
    else
      var c := WriteSent(s.c, next);
      s.(c := c, writes := s.writes + [Write(next, c.sequence, Undecided)], fetches := Overlap(s.fetches))
  }

  function HandleSettleRead(s: System, i: nat): System
    requires i < |s.fetches|
  {
    var read := s.fetches[i];
    var s' := s.(fetches := Without(s.fetches, i));
    match read.answer
    case Waiting => s
    case Said(reply) => s'.(c := ReadLanded(s.c, read.ticket, reply))
    case Lost(sentence) => s'.(c := ReadFailed(s.c, read.invalidates, sentence))
  }

  /** The daemon takes up the oldest write it has not decided. */
  function HandleDecide(s: System, i: nat, applied: bool): System
    requires i < |s.writes|
  {
    var write := s.writes[i];
    if write.fate != Undecided || exists k :: 0 <= k < i && s.writes[k].fate == Undecided then s
    else s.(writes := s.writes[i := write.(fate := if applied then Applied else Dropped)],
            daemon := if applied then write.value else s.daemon)
  }

  function HandleAccept(s: System, i: nat): System
    requires i < |s.writes|
  {
    var write := s.writes[i];
    if write.fate != Applied || s.c.writesInFlight == 0 then s
    else s.(c := WriteAccepted(s.c, write.value, write.number), writes := Without(s.writes, i))
  }

  /** A refusal of the newest write asks the daemon again. */
  function HandleRefuse(s: System, i: nat, sentence: string): System
    requires i < |s.writes|
  {
    var write := s.writes[i];
    if write.fate == Undecided || s.c.writesInFlight == 0 then s
    else
      var s' := s.(c := WriteRefused(s.c, write.number, sentence), writes := Without(s.writes, i));
      if write.number == s.c.sequence then Send(s', true) else s'
  }

  function Step(s: System, op: Op): System {
    match op
    case StartLoad => Send(s, false)
    case Answer(i, source) =>
      if i < |s.fetches| && s.fetches[i].answer.Waiting?
      then s.(fetches := s.fetches[i := s.fetches[i].(answer := Said(Reply(s.daemon, source)))]) else s
    case Lose(i, sentence) =>
      if i < |s.fetches| && s.fetches[i].answer.Waiting?
      then s.(fetches := s.fetches[i := s.fetches[i].(answer := Lost(sentence))]) else s
    case SettleRead(i) => if i < |s.fetches| then HandleSettleRead(s, i) else s
    case Click(next) => HandleClick(s, next)
    case Decide(i, applied) => if i < |s.writes| then HandleDecide(s, i, applied) else s
    case Accept(i) => if i < |s.writes| then HandleAccept(s, i) else s
    case Refuse(i, sentence) => if i < |s.writes| then HandleRefuse(s, i, sentence) else s
  }

  /** A run from the moment the controller is created, over a daemon holding `daemon`. */
  function Run(daemon: bool, ops: seq<Op>): System {
    if ops == [] then System(FRESH, daemon, [], []) else Step(Run(daemon, ops[..|ops| - 1]), ops[|ops| - 1])
  }

  /* ----- Every run, whatever order replies arrive in ----- */

  predicate NewestPending(s: System) {
    exists w :: w in s.writes && w.number == s.c.sequence
  }

  /** The panel, the two mirrors and the stored reply never tell different stories. */
  predicate Consistent(c: Controller) {
    && c.panel.enabled == c.enabledRef
    && c.confirmedRef == (if c.panel.reply.Some? then Some(c.panel.reply.value.enabled) else None)
    && (c.panel.loadFailed ==> c.confirmedRef.None?)
  }

  ghost predicate Counted(s: System) {
    && s.c.writesInFlight == |s.writes|
    && (forall i, j :: 0 <= i < j < |s.writes| ==> s.writes[i].number < s.writes[j].number)
    && (forall w :: w in s.writes ==> w.number <= s.c.sequence)
  }

  /** The ownership guard of a read is exact. */
  ghost predicate Guarded(s: System) {
    forall r :: r in s.fetches ==> r.ticket.seqAtFetch <= s.c.sequence && (r.overlapped <==> Discards(s.c, r.ticket))
  }

  /** A read no write overlapped is answered with what the daemon still holds. */
  ghost predicate Current(s: System) {
    forall r :: r in s.fetches && !r.overlapped ==> s.writes == [] && (r.answer.Said? ==> r.answer.reply.enabled == s.daemon)
  }

  /** The newest write is in flight and the panel shows its value. */
  predicate ShowsNewest(c: Controller, writes: seq<Write>) {
    exists w :: w in writes && w.number == c.sequence && c.enabledRef == Some(w.value)
  }

  ghost predicate Sound(s: System) {
    Consistent(s.c) && Counted(s) && Guarded(s) && Current(s) && (s.c.enabledRef == s.c.confirmedRef || ShowsNewest(s.c, s.writes))
  }

  lemma ClickSound(s: System, next: bool)
    requires Sound(s)
    ensures Sound(HandleClick(s, next))
  {
    if Goes(s.c, next) {
      var s' := HandleClick(s, next);
      assert s'.writes[|s.writes|] in s'.writes;
      assert ShowsNewest(s'.c, s'.writes);
    }
  }

  lemma SendSound(s: System, invalidates: bool)
    requires Sound(s)
    ensures Sound(Send(s, invalidates))
  {
  }

  lemma SettleReadSound(s: System, i: nat)
    requires Sound(s) && i < |s.fetches|
    ensures Sound(HandleSettleRead(s, i))
  {
    assert s.fetches[i] in s.fetches;
  }

  lemma AnswerSound(s: System, i: nat, answer: Answer)
    requires Sound(s) && i < |s.fetches|
    requires answer.Said? ==> answer.reply.enabled == s.daemon
    ensures Sound(s.(fetches := s.fetches[i := s.fetches[i].(answer := answer)]))
  {
    assert s.fetches[i] in s.fetches;
  }

  lemma DecideSound(s: System, i: nat, applied: bool)
    requires Sound(s) && i < |s.writes|
    ensures Sound(HandleDecide(s, i, applied))
  {
    hide Consistent;
    var s' := HandleDecide(s, i, applied);
    if ShowsNewest(s.c, s.writes) {
      var w :| w in s.writes && w.number == s.c.sequence && s.c.enabledRef == Some(w.value);
      var k :| 0 <= k < |s.writes| && s.writes[k] == w;
      assert s'.writes[k] in s'.writes && s'.writes[k].number == s.c.sequence;
    }
  }

  lemma SettledNumbers(s: System, i: nat)
    requires Counted(s) && i < |s.writes|
    ensures var rest := Without(s.writes, i);
            && (forall w :: w in rest ==> w.number <= s.c.sequence && w.number != s.writes[i].number)
            && (forall k, j :: 0 <= k < j < |rest| ==> rest[k].number < rest[j].number)
  {
  }

  lemma StillShown(s: System, i: nat)
    requires i < |s.writes| && ShowsNewest(s.c, s.writes) && s.writes[i].number != s.c.sequence
    ensures ShowsNewest(s.c, Without(s.writes, i))
  {
    var w :| w in s.writes && w.number == s.c.sequence && s.c.enabledRef == Some(w.value);
    var k :| 0 <= k < |s.writes| && s.writes[k] == w;
    assert Without(s.writes, i)[if k < i then k else k - 1] == w;
  }

  lemma AcceptSound(s: System, i: nat)
    requires Sound(s) && i < |s.writes|
    ensures Sound(HandleAccept(s, i))
  {
    SettledNumbers(s, i);
  }

  lemma RefuseSound(s: System, i: nat, sentence: string)
    requires Sound(s) && i < |s.writes|
    ensures Sound(HandleRefuse(s, i, sentence))
  {
    hide Without;
    SettledNumbers(s, i);
    var s' := HandleRefuse(s, i, sentence);
    if ShowsNewest(s.c, s.writes) && s.writes[i].number != s.c.sequence {
      StillShown(s, i);
      assert s' == s || ShowsNewest(s'.c, s'.writes);
    }
  }

  lemma StepSound(s: System, op: Op)
    requires Sound(s)
    ensures Sound(Step(s, op))
  {
    hide Sound;
    match op
    case StartLoad => SendSound(s, false);
    case Answer(i, source) => if i < |s.fetches| { AnswerSound(s, i, Said(Reply(s.daemon, source))); }
    case Lose(i, sentence) => if i < |s.fetches| { AnswerSound(s, i, Lost(sentence)); }
    case SettleRead(i) => if i < |s.fetches| { SettleReadSound(s, i); }
    case Click(next) => ClickSound(s, next);
    case Decide(i, applied) => if i < |s.writes| { DecideSound(s, i, applied); }
    case Accept(i) => if i < |s.writes| { AcceptSound(s, i); }
    case Refuse(i, sentence) => if i < |s.writes| { RefuseSound(s, i, sentence); }
  }

  lemma {:induction false} RunSound(daemon: bool, ops: seq<Op>)
    ensures Sound(Run(daemon, ops))
  {
    if ops != [] {
      hide Sound, Step;
      RunSound(daemon, ops[..|ops| - 1]);
      StepSound(Run(daemon, ops[..|ops| - 1]), ops[|ops| - 1]);
    }
  }

  /** The daemon decides in order, so the newest write, once applied, is what it holds. */
  ghost predicate Fated(s: System) {
    && (forall i, j :: 0 <= i < j < |s.writes| && s.writes[i].fate == Undecided ==> s.writes[j].fate == Undecided)
    && (forall w :: w in s.writes && w.number == s.c.sequence && w.fate == Applied ==> s.daemon == w.value)
  }

  lemma DecideFated(s: System, i: nat, applied: bool)
    requires Counted(s) && Fated(s) && i < |s.writes|
    ensures Fated(HandleDecide(s, i, applied))
  {
    var s' := HandleDecide(s, i, applied);
    if s' != s {
      forall k, j | 0 <= k < j < |s'.writes| && s'.writes[k].fate == Undecided
        ensures s'.writes[j].fate == Undecided
      {
      }
    }
  }

  lemma SettleFated(s: System, i: nat)
    requires Fated(s) && i < |s.writes|
    ensures Fated(s.(writes := Without(s.writes, i)))
  {
  }

  lemma StepFated(s: System, op: Op)
    requires Counted(s) && Fated(s)
    ensures Fated(Step(s, op))
  {
    hide HandleDecide, HandleAccept, HandleRefuse, Fated;
    if op.Decide? {
      if op.write < |s.writes| { DecideFated(s, op.write, op.applied); }
    } else if op.Accept? || op.Refuse? {
      if op.write < |s.writes| { SettledFated(s, op); }
    } else {
      OtherFated(s, op);
    }
  }

  lemma SettledFated(s: System, op: Op)
    requires Fated(s) && (op.Accept? || op.Refuse?) && op.write < |s.writes|
    ensures Fated(Step(s, op))
  {
    hide Without;
    SettleFated(s, op.write);
  }

  lemma OtherFated(s: System, op: Op)
    requires Counted(s) && Fated(s) && !op.Decide? && !op.Accept? && !op.Refuse?
    ensures Fated(Step(s, op))
  {
    hide Overlap, Without, ReadLanded, ReadFailed;
    if op.SettleRead? { ReadKeepsNumber(s, op.read); }
  }

  lemma ReadKeepsNumber(s: System, i: nat)
    ensures var s' := Step(s, SettleRead(i)); s'.c.sequence == s.c.sequence && s'.writes == s.writes && s'.daemon == s.daemon
  {
  }

  lemma {:induction false} RunFated(daemon: bool, ops: seq<Op>)
    ensures Fated(Run(daemon, ops))
  {
    if ops != [] {
      hide Fated, Step;
      RunFated(daemon, ops[..|ops| - 1]);
      RunSound(daemon, ops[..|ops| - 1]);
      StepFated(Run(daemon, ops[..|ops| - 1]), ops[|ops| - 1]);
    }
  }

  /** Once the newest write has settled, in whatever order the others do, the panel shows
      the last confirmed value, and that value is the one of the reply it stores. */
  lemma ShownIsConfirmed(daemon: bool, ops: seq<Op>)
    ensures var s := Run(daemon, ops);
            !NewestPending(s) ==>
              && s.c.panel.enabled == s.c.confirmedRef
              && (s.c.panel.loadFailed ==> s.c.panel.enabled.None?)
              && s.c.confirmedRef == (if s.c.panel.reply.Some? then Some(s.c.panel.reply.value.enabled) else None)
  {
    RunSound(daemon, ops);
  }

  /** A successful read is ignored exactly when a write was in flight at some moment of it. */
  lemma OverlappedReadIsIgnored(daemon: bool, ops: seq<Op>, i: nat)
    requires i < |Run(daemon, ops).fetches| && Run(daemon, ops).fetches[i].answer.Said?
    ensures var s := Run(daemon, ops);
            var read := s.fetches[i];
            var after := Step(s, SettleRead(i)).c;
            if read.overlapped then after == s.c
            else after.panel == Panel(Some(read.answer.reply), Some(s.daemon), false, None) && after.confirmedRef == Some(s.daemon)
  {
    RunSound(daemon, ops);
    assert Run(daemon, ops).fetches[i] in Run(daemon, ops).fetches;
  }

  /* ----- The newest write settles last ----- */

  /** The step settles a write. */
  predicate Settles(s: System, op: Op) {
    && (op.Accept? || op.Refuse?) && op.write < |s.writes|
    && (if op.Accept? then s.writes[op.write].fate == Applied else s.writes[op.write].fate != Undecided)
  }

  /** The newest write settles only when no other is in flight. */
  predicate InTurn(s: System, op: Op) {
    Settles(s, op) && s.writes[op.write].number == s.c.sequence ==> |s.writes| == 1
  }

  /** A run in which older writes settle in any order, and the newest of all after them. */
  predicate NewestLast(daemon: bool, ops: seq<Op>) {
    forall k :: 0 <= k < |ops| ==> InTurn(Run(daemon, ops[..k]), ops[k])
  }

  /** The newest write in flight is the newest of all. */
  ghost predicate Newest(s: System) {
    s.writes != [] ==> s.writes[|s.writes| - 1].number == s.c.sequence
  }

  predicate Asks(r: Read) {
    r.invalidates && !r.overlapped
  }

  /** With no write in flight the panel is unknown, right, or about to be told. */
  ghost predicate Converging(s: System) {
    s.writes == [] ==>
      s.c.enabledRef.None? || s.c.enabledRef == Some(s.daemon) || exists r :: r in s.fetches && Asks(r)
  }

  ghost predicate Honest(s: System) {
    Sound(s) && Fated(s) && Newest(s) && Converging(s)
  }

  lemma ReadsHonest(s: System, i: nat, answer: Answer)
    requires Honest(s) && i < |s.fetches|
    requires answer.Said? ==> answer.reply.enabled == s.daemon
    ensures Honest(s.(fetches := s.fetches[i := s.fetches[i].(answer := answer)]))
  {
    AnswerSound(s, i, answer);
    if s.writes == [] && exists r :: r in s.fetches && Asks(r) {
      var k :| 0 <= k < |s.fetches| && Asks(s.fetches[k]);
      var fetches := s.fetches[i := s.fetches[i].(answer := answer)];
      assert fetches[k] in fetches && Asks(fetches[k]);
    }
  }

  lemma SendHonest(s: System, invalidates: bool)
    requires Honest(s)
    ensures Honest(Send(s, invalidates))
  {
    SendSound(s, invalidates);
    assert forall r :: r in s.fetches ==> r in Send(s, invalidates).fetches;
  }

  /** A read that asks on the panel's behalf either answers it or makes it unknown. */
  lemma SettleReadHonest(s: System, i: nat)
    requires Honest(s) && i < |s.fetches|
    ensures Honest(HandleSettleRead(s, i))
  {
    hide Consistent, Counted, NewestPending;
    SettleReadSound(s, i);
    var read, s' := s.fetches[i], HandleSettleRead(s, i);
    assert read in s.fetches;
    if !read.answer.Waiting? && s.writes == [] && !Asks(read) && exists r :: r in s.fetches && Asks(r) {
      var k :| 0 <= k < |s.fetches| && Asks(s.fetches[k]);
      assert s'.fetches[if k < i then k else k - 1] == s.fetches[k];
    }
  }

  lemma ClickHonest(s: System, next: bool)
    requires Honest(s)
    ensures Honest(HandleClick(s, next))
  {
    hide Sound, Fated, Overlap;
    ClickSound(s, next);
    SoundCounts(s);
    OtherFated(s, Click(next));
  }

  lemma SoundCounts(s: System)
    requires Sound(s)
    ensures Counted(s)
  {
  }

  lemma DecideHonest(s: System, i: nat, applied: bool)
    requires Honest(s) && i < |s.writes|
    ensures Honest(HandleDecide(s, i, applied))
  {
    hide Consistent, Guarded, Current, NewestPending;
    DecideSound(s, i, applied);
    DecideFated(s, i, applied);
  }

  /** What is left after an older write, or after the only one. */
  lemma NewestStays(writes: seq<Write>, i: nat)
    requires i < |writes| && (i == |writes| - 1 ==> |writes| == 1)
    ensures var rest := Without(writes, i);
            if |writes| == 1 then rest == [] else rest != [] && rest[|rest| - 1] == writes[|writes| - 1]
  {
  }

  lemma AcceptConverges(s: System, i: nat)
    requires Fated(s) && Newest(s) && i < |s.writes| && (i == |s.writes| - 1 ==> |s.writes| == 1)
    ensures Newest(HandleAccept(s, i)) && Converging(HandleAccept(s, i))
  {
    hide Without;
    assert s.writes[i] in s.writes;
    NewestStays(s.writes, i);
  }

  lemma RefuseConverges(s: System, i: nat, sentence: string)
    requires Newest(s) && i < |s.writes| && (i == |s.writes| - 1 ==> |s.writes| == 1) && s.c.writesInFlight > 0
    requires s.writes[i].fate != Undecided
    ensures Newest(HandleRefuse(s, i, sentence)) && Converging(HandleRefuse(s, i, sentence))
  {
    hide Without;
    NewestStays(s.writes, i);
    var s' := HandleRefuse(s, i, sentence);
    if |s.writes| == 1 {
      assert s'.fetches[|s.fetches|] in s'.fetches && Asks(s'.fetches[|s.fetches|]);
    }
  }

  lemma SettleHonest(s: System, op: Op)
    requires Honest(s) && Settles(s, op) && InTurn(s, op)
    ensures Honest(Step(s, op))
  {
    hide HandleAccept, HandleRefuse, Converging, Fated, Consistent, Guarded, Current, ShowsNewest;
    StepSound(s, op);
    StepFated(s, op);
    if op.Accept? {
      AcceptConverges(s, op.write);
    } else {
      RefuseConverges(s, op.write, op.sentence);
    }
  }

  lemma Unsettled(s: System, op: Op)
    requires (op.Accept? || op.Refuse?) && !Settles(s, op)
    ensures Step(s, op) == s
  {
  }

  lemma StepHonest(s: System, op: Op)
    requires Honest(s) && InTurn(s, op)
    ensures Honest(Step(s, op))
  {
    hide Honest, InTurn, Settles;
    match op
    case StartLoad => SendHonest(s, false);
    case Answer(i, source) => if i < |s.fetches| { ReadsHonest(s, i, Said(Reply(s.daemon, source))); }
    case Lose(i, sentence) => if i < |s.fetches| { ReadsHonest(s, i, Lost(sentence)); }
    case SettleRead(i) => if i < |s.fetches| { SettleReadHonest(s, i); }
    case Click(next) => ClickHonest(s, next);
    case Decide(i, applied) => if i < |s.writes| { DecideHonest(s, i, applied); }
    case Accept(i) => if Settles(s, op) { SettleHonest(s, op); } else { Unsettled(s, op); }
    case Refuse(i, sentence) => if Settles(s, op) { SettleHonest(s, op); } else { Unsettled(s, op); }
  }

  lemma {:induction false} RunHonest(daemon: bool, ops: seq<Op>)
    requires NewestLast(daemon, ops)
    ensures Honest(Run(daemon, ops))
  {
    hide Honest, Step, InTurn;
    if ops == [] {
      FreshHonest(daemon);
    } else {
      var before := ops[..|ops| - 1];
      assert forall k :: 0 <= k < |before| ==> ops[..k] == before[..k];
      RunHonest(daemon, before);
      StepHonest(Run(daemon, before), ops[|ops| - 1]);
    }
  }

  lemma FreshHonest(daemon: bool)
    ensures Honest(System(FRESH, daemon, [], []))
  {
  }

  /** Whenever the newest write settles after all others, a quiet panel is unknown or shows
      what the daemon holds, whatever is refused and whichever reads fail. */
  lemma QuietPanelIsHonest(daemon: bool, ops: seq<Op>)
    requires NewestLast(daemon, ops)
    ensures var s := Run(daemon, ops);
            s.writes == [] && s.fetches == [] ==> s.c.panel.enabled.None? || s.c.panel.enabled == Some(s.daemon)
  {
    RunHonest(daemon, ops);
  }

  /* ----- Any other order ----- */

  function SettleAll(s: System, order: seq<Op>): System
    decreases |order|
  {
    if order == [] then s else SettleAll(Step(s, order[0]), order[1..])
  }

  /** `order` settles every pending write once, each named by its place among those left:
      accepted only if the daemon applied it, refused whatever the daemon did. */
  predicate SettlesEach(writes: seq<Write>, order: seq<Op>) {
    if writes == [] then order == []
    else
      && order != [] && (order[0].Accept? || order[0].Refuse?) && order[0].write < |writes|
      && (if order[0].Accept? then writes[order[0].write].fate == Applied else writes[order[0].write].fate != Undecided)
      && SettlesEach(Without(writes, order[0].write), order[1..])
  }

  /** The value of the last acceptance, or what was confirmed before if all are refused. */
  function LastAccepted(confirmed: Option<bool>, writes: seq<Write>, order: seq<Op>): Option<bool>
    requires SettlesEach(writes, order)
    decreases |order|
  {
    if order == [] then confirmed
    else
      var i := order[0].write;
      LastAccepted(if order[0].Accept? then Some(writes[i].value) else confirmed, Without(writes, i), order[1..])
  }

  /** The newest write is the last to settle, and it is refused. */
  predicate EndsRefused(newest: nat, writes: seq<Write>, order: seq<Op>)
    requires SettlesEach(writes, order)
    decreases |order|
  {
    if order == [] then false
    else if |order| == 1 then order[0].Refuse? && writes[order[0].write].number == newest
    else EndsRefused(newest, Without(writes, order[0].write), order[1..])
  }

  predicate Asked(s: System) {
    exists r :: r in s.fetches && Asks(r)
  }

  predicate NoneLost(fetches: seq<Read>) {
    forall r :: r in fetches ==> !r.answer.Lost?
  }

  predicate SomeCurrent(fetches: seq<Read>) {
    exists r :: r in fetches && !r.overlapped
  }

  lemma SettleStep(s: System, op: Op)
    requires Sound(s) && Settles(s, op)
    ensures var s' := Step(s, op);
            && s'.writes == Without(s.writes, op.write) && s'.daemon == s.daemon && s'.c.sequence == s.c.sequence
            && s'.c.confirmedRef == (if op.Accept? then Some(s.writes[op.write].value) else s.c.confirmedRef)
            && (NoneLost(s.fetches) ==> NoneLost(s'.fetches))
            && (|s.writes| == 1 ==> (Asked(s') <==> op.Refuse? && s.writes[op.write].number == s.c.sequence))
            && (|s.writes| == 1 ==> (SomeCurrent(s'.fetches) <==> Asked(s')))
  {
    var s' := Step(s, op);
    if op.Refuse? && s.writes[op.write].number == s.c.sequence && |s.writes| == 1 {
      assert s'.fetches[|s.fetches|] in s'.fetches && Asks(s'.fetches[|s.fetches|]);
    }
  }

  lemma {:induction false} SettledInTurn(s: System, order: seq<Op>)
    requires Sound(s) && s.writes != [] && SettlesEach(s.writes, order)
    ensures var s' := SettleAll(s, order);
            && Sound(s') && s'.writes == [] && s'.daemon == s.daemon
            && s'.c.confirmedRef == LastAccepted(s.c.confirmedRef, s.writes, order)
            && (NoneLost(s.fetches) ==> NoneLost(s'.fetches))
            && (Asked(s') <==> EndsRefused(s.c.sequence, s.writes, order)) && (SomeCurrent(s'.fetches) <==> Asked(s'))
    decreases |order|
  {
    hide Sound, Asked, SomeCurrent, NoneLost, Step;
    var next := Step(s, order[0]);
    StepSound(s, order[0]);
    SettleStep(s, order[0]);
    if |s.writes| > 1 {
      assert order[1..] != [];
      SettledInTurn(next, order[1..]);
    } else {
      assert order[1..] == [] && SettleAll(next, order[1..]) == next;
    }
  }

  /** When the pending writes settle, some accepted and some refused in whatever order, the
      panel ends on the last accepted value, or on what was confirmed before. It is then
      unknown, right, or about to be told exactly when that value is the daemon's or none,
      or the newest write was refused after all others. */
  lemma AnySettlement(daemon: bool, ops: seq<Op>, order: seq<Op>)
    requires var s := Run(daemon, ops); s.writes != [] && SettlesEach(s.writes, order)
    ensures var s := Run(daemon, ops);
            var s' := SettleAll(s, order);
            var shown := LastAccepted(s.c.confirmedRef, s.writes, order);
            && s'.writes == [] && s'.daemon == s.daemon && s'.c.panel.enabled == shown
            && (Converging(s') <==> EndsRefused(s.c.sequence, s.writes, order) || shown.None? || shown == Some(s.daemon))
  {
    RunSound(daemon, ops);
    SettledInTurn(Run(daemon, ops), order);
  }

  /** Every read still out is answered and settled. */
  function Drain(s: System): System
    decreases |s.fetches|
  {
    if s.fetches == [] then s
    else if s.fetches[0].answer.Waiting? then Drain(Step(Step(s, Answer(0, "file")), SettleRead(0)))
    else Drain(Step(s, SettleRead(0)))
  }

  /** One read, answered now if it has not been. */
  lemma ReadDrained(s: System)
    requires Sound(s) && s.writes == [] && s.fetches != [] && NoneLost(s.fetches)
    ensures var s1 := if s.fetches[0].answer.Waiting? then Step(Step(s, Answer(0, "file")), SettleRead(0)) else Step(s, SettleRead(0));
            && Sound(s1) && s1.writes == [] && s1.daemon == s.daemon && s1.fetches == s.fetches[1..] && NoneLost(s1.fetches)
            && s1.c.panel.enabled == (if s.fetches[0].overlapped then s.c.panel.enabled else Some(s.daemon))
  {
    var read := s.fetches[0];
    assert read in s.fetches;
    var said := if read.answer.Waiting? then Step(s, Answer(0, "file")) else s;
    StepSound(s, Answer(0, "file"));
    assert Sound(said) && said.fetches[0] in said.fetches && said.fetches[1..] == s.fetches[1..];
    StepSound(said, SettleRead(0));
    assert Without(said.fetches, 0) == said.fetches[1..];
  }

  lemma {:induction false} DrainedShows(s: System)
    requires Sound(s) && s.writes == [] && NoneLost(s.fetches)
    ensures var s' := Drain(s);
            && s'.writes == [] && s'.fetches == [] && s'.daemon == s.daemon
            && s'.c.panel.enabled == (if SomeCurrent(s.fetches) then Some(s.daemon) else s.c.panel.enabled)
    decreases |s.fetches|
  {
    hide Sound, Step, NoneLost;
    if s.fetches != [] {
      ReadDrained(s);
      DrainedShows(if s.fetches[0].answer.Waiting? then Step(Step(s, Answer(0, "file")), SettleRead(0)) else Step(s, SettleRead(0)));
      assert s.fetches == [s.fetches[0]] + s.fetches[1..];
    }
  }

  /** The same to the end: once every read has been answered and nothing is in flight, the
      panel is unknown or right exactly then. */
  lemma QuietAfterAnySettlement(daemon: bool, ops: seq<Op>, order: seq<Op>)
    requires var s := Run(daemon, ops); s.writes != [] && SettlesEach(s.writes, order) && NoneLost(s.fetches)
    ensures var s := Run(daemon, ops);
            var quiet := Drain(SettleAll(s, order));
            var shown := LastAccepted(s.c.confirmedRef, s.writes, order);
            && quiet.writes == [] && quiet.fetches == [] && quiet.daemon == s.daemon
            && (quiet.c.panel.enabled.None? || quiet.c.panel.enabled == Some(quiet.daemon)
                <==> EndsRefused(s.c.sequence, s.writes, order) || shown.None? || shown == Some(s.daemon))
  {
    RunSound(daemon, ops);
    var s := Run(daemon, ops);
    SettledInTurn(s, order);
    var s' := SettleAll(s, order);
    hide NoneLost, SomeCurrent, Asked;
    assert s'.c.panel.enabled == LastAccepted(s.c.confirmedRef, s.writes, order);
    DrainedShows(s');
  }

  /* ----- Any run at all ----- */

  /** A step that tells the controller what the daemon holds, or that it no longer knows: an
      acceptance, the answer of a read no write overlapped, the loss of a read that asks
      after a refusal. */
  predicate Speaks(s: System, op: Op) {
    match op
    case Accept(i) => i < |s.writes| && s.writes[i].fate == Applied
    case SettleRead(i) =>
      i < |s.fetches|
      && ((s.fetches[i].answer.Said? && !s.fetches[i].overlapped) || (s.fetches[i].answer.Lost? && s.fetches[i].invalidates))
    case _ => false
  }

  function Says(s: System, op: Op): Option<bool>
    requires Speaks(s, op)
  {
    if op.Accept? then Some(s.writes[op.write].value)
    else if s.fetches[op.read].answer.Said? then Some(s.fetches[op.read].answer.reply.enabled)
    else None
  }

  /** What the last such step of a run said. */
  function LastWord(daemon: bool, ops: seq<Op>): Option<bool> {
    if ops == [] then None
    else
      var before, op := ops[..|ops| - 1], ops[|ops| - 1];
      if Speaks(Run(daemon, before), op) then Says(Run(daemon, before), op) else LastWord(daemon, before)
  }

  /** The daemon takes up its oldest undecided write and applies it. */
  predicate Applies(s: System, op: Op) {
    op.Decide? && op.applied && op.write < |s.writes| && s.writes[op.write].fate == Undecided
    && forall k :: 0 <= k < op.write ==> s.writes[k].fate != Undecided
  }

  /** The value the daemon applied last. */
  function LastApplied(daemon: bool, ops: seq<Op>): bool {
    if ops == [] then daemon
    else
      var before, op := ops[..|ops| - 1], ops[|ops| - 1];
      if Applies(Run(daemon, before), op) then Run(daemon, before).writes[op.write].value else LastApplied(daemon, before)
  }

  lemma {:induction false} DaemonHoldsLastApplied(daemon: bool, ops: seq<Op>)
    ensures Run(daemon, ops).daemon == LastApplied(daemon, ops)
  {
    hide Step, Applies;
    if ops != [] {
      DaemonHoldsLastApplied(daemon, ops[..|ops| - 1]);
      StepApplies(Run(daemon, ops[..|ops| - 1]), ops[|ops| - 1]);
    }
  }

  lemma StepApplies(s: System, op: Op)
    ensures Applies(s, op) ==> op.write < |s.writes|
    ensures Step(s, op).daemon == if Applies(s, op) then s.writes[op.write].value else s.daemon
  {
    hide Without, Overlap;
  }

  lemma StepSays(s: System, op: Op)
    requires Sound(s)
    ensures Step(s, op).c.confirmedRef == if Speaks(s, op) then Says(s, op) else s.c.confirmedRef
  {
    if op.SettleRead? && op.read < |s.fetches| { assert s.fetches[op.read] in s.fetches; }
    if op.Accept? && op.write < |s.writes| { assert s.writes[op.write] in s.writes; }
  }

  lemma {:induction false} ConfirmedIsLastWord(daemon: bool, ops: seq<Op>)
    ensures Run(daemon, ops).c.confirmedRef == LastWord(daemon, ops)
  {
    hide Sound, Step, Speaks, Says;
    if ops != [] {
      var before := ops[..|ops| - 1];
      ConfirmedIsLastWord(daemon, before);
      RunSound(daemon, before);
      StepSays(Run(daemon, before), ops[|ops| - 1]);
    }
  }

  /** After every run, whatever is clicked, lost, refused or read in between: once the newest
      write has settled the panel shows the last word, so it is unknown or right exactly when
      that word is none or the value the daemon applied last. */
  lemma PanelShowsLastWord(daemon: bool, ops: seq<Op>)
    requires !NewestPending(Run(daemon, ops))
    ensures var s, word := Run(daemon, ops), LastWord(daemon, ops);
            && s.c.panel.enabled == word
            && (s.c.panel.enabled.None? || s.c.panel.enabled == Some(s.daemon) <==> word.None? || word == Some(LastApplied(daemon, ops)))
  {
    ConfirmedIsLastWord(daemon, ops);
    DaemonHoldsLastApplied(daemon, ops);
    RunSound(daemon, ops);
  }

  /* ----- Two runs that end wrong ----- */

  lemma RunOf(daemon: bool, ops: seq<Op>, op: Op)
    ensures Run(daemon, ops + [op]) == Step(Run(daemon, ops), op)
  {
    assert (ops + [op])[..|ops|] == ops;
  }

  /** Taken back, granted, both applied: the run whose acceptances arrive in either order. */
  const RAPID := [Click(false), Click(true), Decide(0, true), Decide(1, true)]

  lemma RapidClicks()
    ensures var s := Run(true, RAPID[..2]);
            && s.writes == [Write(false, 1, Undecided), Write(true, 2, Undecided)] && s.fetches == []
            && s.c.writesInFlight == 2 && s.c.sequence == 2 && s.daemon
  {
    RunOf(true, [], Click(false));
    RunOf(true, [Click(false)], Click(true));
    assert [] + [Click(false)] == [Click(false)] && RAPID[..2] == [Click(false)] + [Click(true)];
  }

  lemma RapidWrites()
    ensures var s := Run(true, RAPID);
            && s.writes == [Write(false, 1, Applied), Write(true, 2, Applied)] && s.fetches == []
            && s.c.writesInFlight == 2 && s.c.sequence == 2 && s.daemon
  {
    RapidClicks();
    RunOf(true, RAPID[..2], Decide(0, true));
    RunOf(true, RAPID[..3], Decide(1, true));
    assert RAPID[..3] == RAPID[..2] + [Decide(0, true)] && RAPID == RAPID[..3] + [Decide(1, true)];
  }

  /** Accepted out of order, the panel says off over a daemon that grants, with nothing in flight. */
  lemma LateAcceptanceMisleads()
    ensures var s := Run(true, RAPID + [Accept(1)] + [Accept(0)]);
            s.writes == [] && s.fetches == [] && s.daemon && s.c.panel.enabled == Some(false)
  {
    hide RAPID;
    RapidWrites();
    RunOf(true, RAPID, Accept(1));
    RunOf(true, RAPID + [Accept(1)], Accept(0));
  }

  /** Off and loaded; granted and taken back; the grant applied, the take-back dropped. */
  const LOADED := [StartLoad, Answer(0, "file"), SettleRead(0)]
  const TORN := [Click(true), Click(false), Decide(0, true), Decide(1, false)]
  const REFUSALS := [Refuse(1, "lost"), Refuse(0, "lost")]

  lemma LoadedRun()
    ensures var s := Run(false, LOADED);
            && s.writes == [] && s.fetches == [] && !s.daemon && s.c.sequence == 0 && s.c.writesInFlight == 0
            && s.c.enabledRef == s.c.confirmedRef == Some(false)
  {
    RunOf(false, [], LOADED[0]);
    RunOf(false, LOADED[..1], LOADED[1]);
    RunOf(false, LOADED[..2], LOADED[2]);
    assert LOADED[..1] == [] + [LOADED[0]] && LOADED[..2] == LOADED[..1] + [LOADED[1]] && LOADED == LOADED[..2] + [LOADED[2]];
  }

  lemma TornClicks()
    ensures var s := Run(false, LOADED + [Click(true)] + [Click(false)]);
            && s.writes == [Write(true, 1, Undecided), Write(false, 2, Undecided)] && s.fetches == [] && !s.daemon
            && s.c.sequence == 2 && s.c.writesInFlight == 2 && s.c.confirmedRef == Some(false)
  {
    hide LOADED;
    LoadedRun();
    RunOf(false, LOADED, Click(true));
    RunOf(false, LOADED + [Click(true)], Click(false));
  }

  lemma TornRun()
    ensures var s := Run(false, LOADED + TORN);
            && s.writes == [Write(true, 1, Applied), Write(false, 2, Dropped)] && s.fetches == [] && s.daemon
            && s.c.sequence == 2 && s.c.confirmedRef == Some(false)
  {
    TornClicks();
    var clicked := LOADED + [Click(true)] + [Click(false)];
    hide LOADED;
    RunOf(false, clicked, Decide(0, true));
    RunOf(false, clicked + [Decide(0, true)], Decide(1, false));
    assert LOADED + TORN == clicked + [Decide(0, true)] + [Decide(1, false)];
  }

  /** Refused out of order and re-read, the panel says off over a daemon that grants, with
      nothing in flight and not one acceptance. */
  lemma LateRefusalMisleads()
    ensures var s := Run(false, LOADED + TORN); s.writes != [] && SettlesEach(s.writes, REFUSALS)
    ensures var quiet := Drain(SettleAll(Run(false, LOADED + TORN), REFUSALS));
            quiet.writes == [] && quiet.fetches == [] && quiet.daemon && quiet.c.panel.enabled == Some(false)
  {
    TornRun();
    hide LOADED, TORN;
    var s, writes := Run(false, LOADED + TORN), Run(false, LOADED + TORN).writes;
    RefusedTwice(writes, s.c.confirmedRef);
    RunSound(false, LOADED + TORN);
    SettledInTurn(s, REFUSALS);
    DrainedShows(SettleAll(s, REFUSALS));
  }

  lemma RefusedTwice(writes: seq<Write>, confirmed: Option<bool>)
    requires writes == [Write(true, 1, Applied), Write(false, 2, Dropped)]
    ensures SettlesEach(writes, REFUSALS) && !EndsRefused(2, writes, REFUSALS) && LastAccepted(confirmed, writes, REFUSALS) == confirmed
  {
    var left, rest := Without(writes, 1), REFUSALS[1..];
    assert left == [writes[0]] && rest == [Refuse(0, "lost")];
    assert Without(left, 0) == [] && rest[1..] == [];
    assert SettlesEach(Without(left, 0), rest[1..]);
    assert SettlesEach(left, rest);
  }

  /* ----- Granting ----- */

  /** A grant goes out with no answer ever stored: a take-back in flight satisfies the guard. */
  lemma GrantWithoutAnswer(daemon: bool)
    ensures var s := Run(daemon, [Click(false)]); Goes(s.c, true) && s.c.confirmedRef.None? && s.c.panel.reply.None?
  {
    RunOf(daemon, [], Click(false));
    assert [] + [Click(false)] == [Click(false)];
  }

  /** The newest write is a take-back still in flight, and the panel shows it. */
  predicate TakeBackShown(s: System) {
    exists w :: w in s.writes && w.number == s.c.sequence && !w.value && s.c.panel.enabled == Some(w.value)
  }

  /** After every run a grant would go out with no answer stored exactly when none is stored
      and a take-back in flight is shown; and a grant that goes out otherwise rests on a
      stored `false`. */
  lemma GrantNeedsAnswer(daemon: bool, ops: seq<Op>)
    ensures var s := Run(daemon, ops);
            && (Goes(s.c, true) && s.c.panel.reply.None? <==> s.c.panel.reply.None? && TakeBackShown(s))
            && (Goes(s.c, true) <==> TakeBackShown(s) || s.c.confirmedRef == s.c.panel.enabled == Some(false))
  {
    RunSound(daemon, ops);
  }
}

/** The controller as an object: closure variables changed between awaits. */
module DelegationControllers {
  import opened Basics
  import opened Delegation

  class DelegationController {
    var reply: Option<Reply>
    var enabled: Option<bool>
    var loadFailed: bool
    var error: Option<string>
    var enabledRef: Option<bool>
    var confirmedRef: Option<bool>
    var sequence: nat
    var writesInFlight: nat

    ghost function View(): Controller
      reads this
    {
      Controller(Panel(reply, enabled, loadFailed, error), enabledRef, confirmedRef, sequence, writesInFlight)
    }

    constructor ()
      ensures View() == FRESH
    {
      reply, enabled, loadFailed, error := None, None, false, None;
      enabledRef, confirmedRef, sequence, writesInFlight := None, None, 0, 0;
    }

    method Publish(panel: Panel)
      modifies `reply, `enabled, `loadFailed, `error
      ensures Panel(reply, enabled, loadFailed, error) == panel
    {
      reply, enabled, loadFailed, error := panel.reply, panel.enabled, panel.loadFailed, panel.error;
    }

    /** A read up to its await. */
    method BeginLoad() returns (ticket: Ticket)
      ensures ticket == TicketOf(View())
    {
      ticket := Ticket(sequence, writesInFlight > 0);
    }

    /** The rest of a read: a complete reply, or the sentence of a failed one. */
    method EndLoad(ticket: Ticket, invalidateOnFail: bool, answer: Answer)
      requires !answer.Waiting?
      modifies this
      ensures View() == if answer.Said? then ReadLanded(old(View()), ticket, answer.reply)
                        else ReadFailed(old(View()), invalidateOnFail, answer.sentence)
    {
      if answer.Said? {
        if sequence != ticket.seqAtFetch || ticket.writeWasInFlight {
          return;
        }
        enabledRef := Some(answer.reply.enabled);
        confirmedRef := Some(answer.reply.enabled);
        Publish(Panel(Some(answer.reply), Some(answer.reply.enabled), false, None));
      } else if enabledRef.Some? && !invalidateOnFail {
        error := Some(answer.sentence);
      } else {
        enabledRef := None;
        confirmedRef := None;
        Publish(Panel(None, None, true, Some(answer.sentence)));
      }
    }

    /** A write up to its await; `sent` says whether it was issued at all. */
    method BeginWrite(next: bool) returns (sent: bool, thisSeq: nat)
      modifies this
      ensures sent == Goes(old(View()), next)
      ensures sent ==> View() == WriteSent(old(View()), next) && thisSeq == View().sequence
      ensures !sent ==> View() == old(View())
    {
      if (if next then enabledRef != Some(false) else enabledRef == Some(false)) {
        return false, 0;
      }
      sequence := sequence + 1;
      writesInFlight := writesInFlight + 1;
      enabledRef := Some(next);
      Publish(Panel(reply, Some(next), loadFailed, None));
      return true, sequence;
    }

    /** The rest of a write; `reread` asks for a load that invalidates on failure. */
    method EndWrite(next: bool, thisSeq: nat, refusal: Option<string>) returns (reread: bool)
      requires View().writesInFlight > 0
      modifies this
      ensures View() == if refusal.None? then WriteAccepted(old(View()), next, thisSeq)
                        else WriteRefused(old(View()), thisSeq, refusal.value)
      ensures reread == (refusal.Some? && thisSeq == old(View()).sequence)
    {
      reread := false;
      if refusal.Some? && thisSeq == sequence {
        enabledRef := confirmedRef;
        Publish(Panel(reply, confirmedRef, loadFailed, refusal));
        reread := true;
      }
      writesInFlight := writesInFlight - 1;
      if refusal.None? {
        confirmedRef := Some(next);
        enabledRef := Some(next);
        Publish(Panel(Some(Reply(next, "file")), Some(next), false, if thisSeq == sequence then None else error));
      }
    }
  }
}
