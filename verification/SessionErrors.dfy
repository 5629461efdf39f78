/**
 One failure, one entry: every error frame the session receives is shown, paired with the
 rejected send it reports, still held for a send in flight, or thrown away by a reset.
 */
module SessionErrors {
  import opened Basics
  import opened Transcripts
  import opened Sessions

  /** Frames are conserved; a frame is paired only with a rejection of its own text, one
      each; at most eight rejections wait; nothing is held unless a send is in flight. */
  ghost predicate Balanced(e: Errors) {
    && e.received == e.shown + e.consumed + e.dropped + multiset(e.held)
    && e.consumed + multiset(e.rejections) <= e.rejected
    && |e.rejections| <= MAX_PENDING_SEND_REJECTIONS
    && (e.sendDepth == 0 ==> e.held == [])
  }

  /** As above, with `frames` taken off the held list and not yet resolved. */
  ghost predicate Owing(e: Errors, frames: seq<string>) {
    && e.held == []
    && e.received == e.shown + e.consumed + e.dropped + multiset(frames)
    && e.consumed + multiset(e.rejections) <= e.rejected
    && |e.rejections| <= MAX_PENDING_SEND_REJECTIONS
  }

  lemma ResolveOne(s: Session, frames: seq<string>)
    requires Ranged(s.t) && frames != [] && Owing(s.errors, frames)
    ensures Owing(ResolveFrame(s, frames[0]).errors, frames[1..])
  {
    hide RemoveFirst, NoteError;
    assert frames == [frames[0]] + frames[1..];
    var e := s.errors;
    if frames[0] in e.rejections {
      assert multiset(e.rejections) == multiset(RemoveFirst(e.rejections, frames[0])) + multiset{frames[0]};
    }
  }

  lemma {:induction false} ResolveAll(s: Session, frames: seq<string>)
    requires Ranged(s.t) && Owing(s.errors, frames)
    ensures Balanced(ResolveFrames(s, frames).errors)
    ensures ResolveFrames(s, frames).errors.held == []
    decreases |frames|
  {
    if frames != [] {
      ResolveOne(s, frames);
      ResolveAll(ResolveFrame(s, frames[0]), frames[1..]);
    }
  }

  lemma Rejected(e: Errors, text: string)
    requires e.consumed + multiset(e.rejections) <= e.rejected
    ensures var e' := NoteRejection(e, text);
            e'.consumed + multiset(e'.rejections) <= e'.rejected && |e'.rejections| <= MAX_PENDING_SEND_REJECTIONS
  {
    var all := e.rejections + [text];
    assert multiset(all) == multiset(e.rejections) + multiset{text};
    if |all| > MAX_PENDING_SEND_REJECTIONS {
      var kept, gone := all[|all| - MAX_PENDING_SEND_REJECTIONS..], all[..|all| - MAX_PENDING_SEND_REJECTIONS];
      assert all == gone + kept;
      assert multiset(all) == multiset(gone) + multiset(kept);
      assert NoteRejection(e, text).rejections == kept;
      assert multiset(kept) <= multiset(e.rejections) + multiset{text};
    }
  }

  lemma FrameBalances(s: Session, text: string)
    requires Ranged(s.t) && Balanced(s.errors)
    ensures Balanced(HandleAgentError(s, text).errors)
  {
    if s.errors.sendDepth == 0 {
      var s0 := s.(errors := s.errors.(received := s.errors.received + multiset{text}));
      assert multiset([text]) == multiset{text};
      ResolveOne(s0, [text]);
    }
  }

  /** Only error frames and resets touch the bookkeeping of errors. */
  lemma OtherFrames(s: Session, e: Event)
    requires Ranged(s.t) && !e.Reset? && !e.AgentError?
    ensures HandleEvent(s, e).errors == s.errors && HandleEvent(s, e).link.disposed == s.link.disposed
  {
    hide WriteRows, FinishTurn, EndWithError;
  }

  lemma {:induction false} EventBalances(s: Session, e: Event)
    requires Ranged(s.t) && Balanced(s.errors)
    ensures Balanced(HandleEvent(s, e).errors)
    decreases e
  {
    hide HandleAgentError;
    if e.Reset? {
      EventsBalance(ResetBase(s, e.complete), e.tail);
    } else if e.AgentError? {
      FrameBalances(s, ErrorText(e.message));
    } else {
      OtherFrames(s, e);
    }
  }

  lemma {:induction false} EventsBalance(s: Session, events: seq<Event>)
    requires Ranged(s.t) && Balanced(s.errors)
    ensures Balanced(HandleEvents(s, events).errors)
    decreases events
  {
    hide HandleEvent, Balanced;
    if events != [] {
      EventBalances(s, events[0]);
      EventsBalance(HandleEvent(s, events[0]), events[1..]);
    }
  }

  lemma StepBalances(s: Session, op: Op)
    requires Ranged(s.t) && Balanced(s.errors)
    ensures Balanced(Step(s, op).errors)
  {
    hide Balanced, HandleEvent, HandleSendDone, HandleSendFailed, HandleAttachReply, HandleAttachFailed, HandleSendStart;
    if op.Receive? {
      EventBalances(s, op.event);
    } else if op.SendDone? && s.errors.sendDepth > 0 {
      DoneBalances(s, op.joined, op.turnActive);
    } else if op.SendFailed? && s.errors.sendDepth > 0 {
      FailedBalances(s, op.joined, op.sentence, op.detail, op.fatal);
    } else {
      OtherBalances(s, op);
    }
  }

  lemma DoneBalances(s: Session, joined: bool, turnActive: bool)
    requires Ranged(s.t) && Balanced(s.errors) && s.errors.sendDepth > 0
    ensures Balanced(HandleSendDone(s, joined, turnActive).errors)
  {
    hide ResolveFrames;
    var s0 := Settle(s);
    var s1 := if !turnActive && !joined && s0.errors.sendDepth == 0
              then s0.(t := s0.t.(turnOpen := false), life := SetStatus(s0.life, Idle, false)) else s0;
    ResolveAll(s1.(errors := s1.errors.(held := [])), s1.errors.held);
  }

  lemma FailedBalances(s: Session, joined: bool, sentence: string, detail: Option<string>, fatal: bool)
    requires Ranged(s.t) && Balanced(s.errors) && s.errors.sendDepth > 0
    ensures Balanced(HandleSendFailed(s, joined, sentence, detail, fatal).errors)
  {
    hide ResolveFrames, EndWithError, NoteError, SEND_FAILED;
    var s0 := Settle(s);
    Rejected(s0.errors, detail.GetOr(sentence));
    var s1 := s0.(errors := NoteRejection(s0.errors, detail.GetOr(sentence)));
    ResolveAll(s1.(errors := s1.errors.(held := [])), s1.errors.held);
  }

  lemma OtherBalances(s: Session, op: Op)
    requires Ranged(s.t) && Balanced(s.errors) && !op.Receive? && !((op.SendDone? || op.SendFailed?) && s.errors.sendDepth > 0)
    ensures Balanced(Step(s, op).errors)
  {
    hide EndWithError, NoteError, BeginTurn, Deliver, ATTACH_FAILED, ATTACH_INVALID;
  }

  /** After every run the frames balance. */
  lemma {:induction false} RunBalances(ops: seq<Op>)
    ensures Balanced(Run(ops).errors)
  {
    hide Step;
    if ops != [] {
      RunBalances(ops[..|ops| - 1]);
      StepBalances(Run(ops[..|ops| - 1]), ops[|ops| - 1]);
    }
  }

  /* ----- What the record records ----- */

  /** A run in which the timeline is never replaced and the controller never disposed. */
  ghost predicate Undisturbed(ops: seq<Op>) {
    forall op :: op in ops ==> !op.Dispose? && !(op.Receive? && op.event.Reset?)
  }

  /** The error frames a run carries. */
  function FramesIn(ops: seq<Op>): multiset<string> {
    if ops == [] then multiset{}
    else
      var op := ops[|ops| - 1];
      FramesIn(ops[..|ops| - 1])
      + (if op.Receive? && op.event.AgentError? then multiset{ErrorText(op.event.message)} else multiset{})
  }

  lemma {:induction false} ResolveReceivesNothing(s: Session, frames: seq<string>)
    requires Ranged(s.t)
    ensures var s' := ResolveFrames(s, frames);
            s'.errors.received == s.errors.received && s'.errors.dropped == s.errors.dropped && s'.link == s.link
    decreases |frames|
  {
    if frames != [] { ResolveReceivesNothing(ResolveFrame(s, frames[0]), frames[1..]); }
  }

  lemma EventReceives(s: Session, e: Event)
    requires Ranged(s.t) && !s.link.disposed && !e.Reset?
    ensures var s' := HandleEvent(s, e);
            && !s'.link.disposed && s'.errors.dropped == s.errors.dropped
            && s'.errors.received == s.errors.received + (if e.AgentError? then multiset{ErrorText(e.message)} else multiset{})
  {
    if !e.AgentError? { OtherFrames(s, e); }
  }

  lemma SettleReceives(s: Session, op: Op)
    requires Ranged(s.t) && s.errors.sendDepth > 0 && (op.SendDone? || op.SendFailed?)
    ensures var s' := Step(s, op);
            s'.link == s.link && s'.errors.dropped == s.errors.dropped && s'.errors.received == s.errors.received
  {
    hide EndWithError, ResolveFrames, NoteError;
    var s0 := Settle(s);
    var s1 := if op.SendFailed? then s0.(errors := NoteRejection(s0.errors, op.detail.GetOr(op.sentence)))
              else if !op.turnActive && !op.joined && s0.errors.sendDepth == 0
              then s0.(t := s0.t.(turnOpen := false), life := SetStatus(s0.life, Idle, false)) else s0;
    ResolveReceivesNothing(s1.(errors := s1.errors.(held := [])), s1.errors.held);
  }

  lemma OtherOps(s: Session, op: Op)
    requires Ranged(s.t) && !op.Receive? && !op.SendDone? && !op.SendFailed? && !op.Dispose?
    ensures var s' := Step(s, op);
            && s'.link.disposed == s.link.disposed && s'.errors.dropped == s.errors.dropped
            && s'.errors.received == s.errors.received
  {
    hide EndWithError, NoteError, BeginTurn;
  }

  lemma StepReceives(s: Session, op: Op)
    requires Ranged(s.t) && !s.link.disposed && !op.Dispose? && !(op.Receive? && op.event.Reset?)
    ensures var s' := Step(s, op);
            && !s'.link.disposed && s'.errors.dropped == s.errors.dropped
            && s'.errors.received == s.errors.received
               + (if op.Receive? && op.event.AgentError? then multiset{ErrorText(op.event.message)} else multiset{})
  {
    hide HandleEvent, EndWithError, HandleSendDone, HandleSendFailed;
    if op.Receive? {
      EventReceives(s, op.event);
    } else if (op.SendDone? || op.SendFailed?) && s.errors.sendDepth > 0 {
      SettleReceives(s, op);
    } else if !op.SendDone? && !op.SendFailed? {
      OtherOps(s, op);
    }
  }

  /** In a run without reset or disposal, the frames the run carries are exactly those shown,
      those paired with a rejected send and those still held. */
  lemma {:induction false} EveryFrameAccountedFor(ops: seq<Op>)
    requires Undisturbed(ops)
    ensures var s := Run(ops);
            && !s.link.disposed && s.errors.dropped == multiset{} && s.errors.received == FramesIn(ops)
            && FramesIn(ops) == s.errors.shown + s.errors.consumed + multiset(s.errors.held)
  {
    hide Step;
    if ops != [] {
      EveryFrameAccountedFor(ops[..|ops| - 1]);
      StepReceives(Run(ops[..|ops| - 1]), ops[|ops| - 1]);
    }
    RunBalances(ops);
  }
}
