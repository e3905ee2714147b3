/** The reply calls of one responder, written as the statements they execute. */
module ReplyCalls {
  import opened Common
  import opened Replies
  import opened ReplyInvariants

  /** An ask's shared guard together with its history. */
  class AskCell {
    var ask: Ask

    constructor ()
      ensures ask == Ask(false, 0, 0, 0, 0, 0, 0)
    {
      ask := Ask(false, 0, 0, 0, 0, 0, 0);
    }

    /** `claim_reply`: swaps the guard; only the first caller finds it unset. */
    method Claim() returns (won: bool)
      modifies this
      ensures won == !old(ask.used) && ask.used
      ensures ask == if won then Won(old(ask)) else old(ask)
    {
      won := !ask.used;
      if won { ask := Won(ask); }
    }

    method Notify(who: Who, len: Usize) returns (now: Who)
      modifies this
      ensures now == Knows(who, MAX_STREAM_SIZE < len) && ask == Told(old(ask), who, MAX_STREAM_SIZE < len)
    {
      now := who;
      if len <= MAX_STREAM_SIZE && !who.notified && who.observed {
        ask := ask.(notices := ask.notices + 1);
        now := who.(notified := true);
      }
    }

    method Settle(accepted: bool)
      modifies this
      ensures ask == if accepted then old(ask).(handoffs := old(ask).handoffs + 1)
        else old(ask).(refused := old(ask).refused + 1)
    {
      if accepted {
        ask := ask.(handoffs := ask.handoffs + 1);
      } else {
        ask := ask.(refused := ask.refused + 1);
      }
    }
  }

  /** The agent and ask left when one call claims, notifies and enqueues without a break. */
  function WholeCall(who: Who, ask: Ask, op: Op, len: nat, accepted: bool): (Agent, Ask) {
    var oversize := MAX_STREAM_SIZE < len;
    var claimed := Reply(Responder(who), ask, Claim(op));
    if claimed.agent.Spent? then (Spent, claimed.ask)
    else
      var told := Reply(claimed.agent, claimed.ask, Observe(oversize));
      var sent := Reply(told.agent, told.ask, Enqueue(accepted));
      (sent.agent, sent.ask)
  }

  /** `try_reply_bytes`, `reply`, and with `WithFallback` the calls that keep a rejected claim. */
  method ReplyBytes(who: Who, cell: AskCell, op: Op, len: Usize, accepted: bool) returns (left: Agent)
    modifies cell
    ensures (left, cell.ask) == WholeCall(who, old(cell.ask), op, len, accepted)
  {
    var won := cell.Claim();
    if !won { return Spent; }
    var now := cell.Notify(who, len);
    if !accepted && op.WithFallback? { return Fallback(now); }
    cell.Settle(accepted);
    return Spent;
  }

  /** `reply_bytes_guaranteed`: a rejected enqueue is retried on the awaiting path before returning. */
  method ReplyGuaranteed(who: Who, cell: AskCell, len: Usize, accepted: bool, retried: bool) returns (won: bool)
    modifies cell
    ensures won == !old(cell.ask.used)
    ensures !won ==> cell.ask == old(cell.ask)
    ensures won ==> cell.ask == Told(Won(old(cell.ask)), who, MAX_STREAM_SIZE < len).(
      handoffs := old(cell.ask).handoffs + (if accepted || retried then 1 else 0),
      refused := old(cell.ask).refused + (if accepted || retried then 0 else 1))
  {
    won := !cell.ask.used;
    var left := ReplyBytes(who, cell, WithFallback, len, accepted);
    if left.Fallback? { cell.Settle(retried); }
  }

  /**
   One whole call wins exactly when the guard was unset; then the observer has been called if
   it can be, and either a frame went out, the loss is recorded, or a fallback still owns the claim.
   */
  lemma WholeCallMeans(who: Who, ask: Ask, op: Op, len: nat, accepted: bool)
    requires AskOk(ask, 0, 0)
    ensures var (left, after) := WholeCall(who, ask, op, len, accepted);
      AskOk(after, if left.Fallback? then 1 else 0, 0) || (left.Fallback? && AskOk(after, 1, 1))
    ensures var (left, after) := WholeCall(who, ask, op, len, accepted);
      if ask.used then left.Spent? && after == ask
      else
        (left.Fallback? <==> !accepted && op.WithFallback?) &&
        after.handoffs == (if accepted then 1 else 0) &&
        after.notices == (if who.observed && !who.notified && len <= MAX_STREAM_SIZE then 1 else 0)
  {
  }
}
