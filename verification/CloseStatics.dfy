/** The flows as they run: every step reads and writes the shared statics through their methods. */
module CloseStatics {
  import opened Basics
  import opened CloseFlow

  class ConfirmGate {
    var open: bool

    constructor ()
      ensures !open
    {
      open := false;
    }

    method TryBegin() returns (began: bool)
      modifies this
      ensures began == !old(open) && open
    {
      if open {
        return false;
      }
      open := true;
      return true;
    }

    method End()
      modifies this
      ensures !open
    {
      open := false;
    }
  }

  class FlushSlot {
    var slot: Option<Pending>
    var nonce: nat

    constructor ()
      ensures slot == FRESH.shared.slot && nonce == FRESH.shared.nextNonce
    {
      slot, nonce := None, 1;
    }

    method FetchNonce() returns (minted: nat)
      modifies `nonce
      ensures minted == old(nonce) && nonce == old(nonce) + 1
    {
      minted := nonce;
      nonce := nonce + 1;
    }

    method ClearOwn(minted: nat)
      modifies `slot
      ensures slot == Without(old(slot), minted)
    {
      if slot.Some? && slot.value.nonce == minted {
        slot := None;
      }
    }

    /** Takes the slot and puts back what the answer is not for. */
    method TakeFor(answered: nat) returns (sender: Option<nat>)
      modifies `slot
      ensures slot == Without(old(slot), answered)
      ensures sender == if Names(old(slot), answered) then Some(old(slot).value.channel) else None
    {
      var taken := slot;
      slot := None;
      if taken.Some? && taken.value.nonce == answered {
        return Some(taken.value.channel);
      }
      slot := taken;
      return None;
    }
  }

  class App {
    const gate: ConfirmGate
    const slot: FlushSlot
    var requests: seq<Request>
    var sending: seq<Sending>
    ghost var answers: set<Answer>
    var flows: seq<Flow>

    ghost function View(): System
      reads this, gate, slot
    {
      System(Shared(slot.slot, slot.nonce, gate.open), requests, sending, answers, flows)
    }

    constructor ()
      ensures View() == FRESH
    {
      gate := new ConfirmGate();
      slot := new FlushSlot();
      requests, sending, answers, flows := [], [], {}, [];
    }

    /* ----- A flush, cut where another flow may come between ----- */

    method Mint(i: nat)
      requires i < |flows| && flows[i].pc.Flushing?
      modifies this, slot
      ensures View() == Step(old(View()), Op.Mint(i))
    {
      var nonce := slot.FetchNonce();
      var f := flows[i];
      flows := flows[i := f.(pc := Placing(f.pc.purpose, nonce, |requests|), latest := Some(|requests|))];
      requests := requests + [Request(i, nonce, None)];
    }

    method Place(i: nat)
      requires i < |flows| && flows[i].pc.Placing?
      modifies this, slot
      ensures View() == Step(old(View()), Op.Place(i))
    {
      var pc := flows[i].pc;
      slot.slot := Some(Pending(pc.nonce, pc.channel));
      flows := flows[i := flows[i].(pc := Awaiting(pc.purpose, pc.nonce, pc.channel))];
    }

    /** The bounded wait: an answer in the channel is taken, and without one the wait may
        give up. */
    method Await(i: nat, expired: bool)
      requires i < |flows| && flows[i].pc.Awaiting? && flows[i].pc.channel < |requests|
      modifies this
      ensures View() == if old(requests[flows[i].pc.channel]).inbox.Some? then Step(old(View()), Receive(i))
                        else if expired then Step(old(View()), GiveUp(i)) else old(View())
    {
      var pc := flows[i].pc;
      var inbox := requests[pc.channel].inbox;
      if inbox.Some? {
        flows := flows[i := flows[i].(pc := Cleaning(pc.purpose, pc.nonce, inbox.value))];
      } else if expired {
        flows := flows[i := flows[i].(pc := Cleaning(pc.purpose, pc.nonce, SAVE_STATUS_UNKNOWN))];
      }
    }

    method Clean(i: nat)
      requires i < |flows| && flows[i].pc.Cleaning?
      modifies this, slot
      ensures View() == Step(old(View()), Op.Clean(i))
    {
      var pc := flows[i].pc;
      slot.ClearOwn(pc.nonce);
      flows := flows[i := flows[i].(pc := AfterFlush(pc.purpose, pc.unsaved))];
    }

    /** The front end's answer, up to the send. */
    method EditorsFlushed(nonce: nat, unsaved: seq<string>)
      modifies this, slot
      ensures View() == Step(old(View()), Flushed(nonce, unsaved))
    {
      var sender := slot.TakeFor(nonce);
      if sender.Some? {
        sending := sending + [Sending(sender.value, unsaved)];
      }
      answers := answers + {Answer(nonce, unsaved)};
    }

    method Send(k: nat)
      requires k < |sending|
      modifies this
      ensures View() == Step(old(View()), Deliver(k))
    {
      var m := sending[k];
      sending := sending[..k] + sending[k + 1..];
      if m.channel < |requests| {
        requests := requests[m.channel := requests[m.channel].(inbox := Some(m.unsaved))];
      }
    }

    /** A flush nothing comes between: it reports exactly what the front end answered, or the
        unknown if it answered nothing in time, and leaves the slot empty. */
    method FlushUndisturbed(i: nat, answer: Option<seq<string>>)
      requires i < |flows| && flows[i].pc.Flushing?
      modifies this, slot
      ensures |flows| == |old(flows)| && flows[i].pc == AfterFlush(old(flows[i]).pc.purpose, answer.GetOr(SAVE_STATUS_UNKNOWN))
      ensures slot.slot == None && sending == old(sending)
      ensures forall j :: 0 <= j < |flows| && j != i ==> flows[j] == old(flows[j])
    {
      BeginFlush(i);
      if answer.Some? {
        AnswerFlush(i, answer.value);
      }
      EndFlush(i);
    }

    method BeginFlush(i: nat)
      requires i < |flows| && flows[i].pc.Flushing?
      modifies this, slot
      ensures |flows| == |old(flows)| && flows[i].pc.Awaiting? && flows[i].pc.purpose == old(flows[i]).pc.purpose
      ensures flows[i].pc.channel < |requests| && requests[flows[i].pc.channel].inbox.None?
      ensures slot.slot == Some(Pending(flows[i].pc.nonce, flows[i].pc.channel)) && sending == old(sending)
      ensures forall j :: 0 <= j < |flows| && j != i ==> flows[j] == old(flows[j])
    {
      Mint(i);
      Place(i);
    }

    method AnswerFlush(i: nat, unsaved: seq<string>)
      requires i < |flows| && flows[i].pc.Awaiting? && flows[i].pc.channel < |requests|
      requires slot.slot == Some(Pending(flows[i].pc.nonce, flows[i].pc.channel))
      modifies this, slot
      ensures flows == old(flows) && sending == old(sending) && slot.slot == None
      ensures |requests| == |old(requests)| && requests[flows[i].pc.channel].inbox == Some(unsaved)
    {
      EditorsFlushed(flows[i].pc.nonce, unsaved);
      Send(|sending| - 1);
    }

    method EndFlush(i: nat)
      requires i < |flows| && flows[i].pc.Awaiting? && flows[i].pc.channel < |requests|
      requires slot.slot.Some? ==> slot.slot.value.nonce == flows[i].pc.nonce
      modifies this, slot
      ensures |flows| == |old(flows)| && sending == old(sending) && slot.slot == None
      ensures var pc := old(flows[i]).pc;
              flows[i].pc == AfterFlush(pc.purpose, old(requests)[pc.channel].inbox.GetOr(SAVE_STATUS_UNKNOWN))
      ensures forall j :: 0 <= j < |flows| && j != i ==> flows[j] == old(flows[j])
    {
      hide AfterFlush;
      Await(i, true);
      Clean(i);
    }

    /* ----- The question ----- */

    /** Only the flow that finds the gate free goes on to ask; any other ends here. */
    method TryAsk(i: nat)
      requires i < |flows| && flows[i].pc.Asking?
      modifies this, gate
      ensures View() == Step(old(View()), TryGate(i))
    {
      var pc := flows[i].pc;
      var began := gate.TryBegin();
      flows := flows[i := flows[i].(pc := if began then Composing(pc.flavor, pc.unsaved) else Ended)];
    }

    method ShowDialog(i: nat, facts: Facts)
      requires i < |flows| && flows[i].pc.Composing?
      modifies this
      ensures View() == Step(old(View()), Show(i, facts))
    {
      var f := flows[i];
      flows := flows[i := f.(pc := Showing(f.pc.flavor, facts), asked := Some(facts), result := None, reread := None)];
    }

    /** The gate is free again before the answer is acted on. */
    method OnAnswer(i: nat, result: DialogResult)
      requires i < |flows| && flows[i].pc.Showing?
      modifies this, gate
      ensures View() == Step(old(View()), AnswerDialog(i, result))
    {
      gate.End();
      var f := flows[i];
      var next := Ended;
      match AnswerOf(result) {
        case AnswerHide => next := Hidden;
        case AnswerQuit => next := Rereading(f.pc.flavor, f.pc.shown);
        case AnswerCancel =>
      }
      flows := flows[i := f.(pc := next, result := Some(result))];
    }

    method ReadAgain(i: nat, facts: Facts)
      requires i < |flows| && flows[i].pc.Rereading?
      modifies this
      ensures View() == Step(old(View()), Reread(i, facts))
    {
      var f := flows[i];
      flows := flows[i := f.(pc := Flushing(ToAct(f.pc.flavor, f.pc.shown, facts)), reread := Some(facts))];
    }
  }
}
