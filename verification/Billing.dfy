/** The billing session of service/billing_session.go over its funding sources (service/funding_source.go):
    quota is taken in advance, reserved further, settled to the actual cost or given back.

    Every call that moves quota may fail without effect; the flags of an operation say which do not. Amounts are
    unbounded. `Books` is what has been taken, in sum, from the funding source and from the token. */
module Billing {
  import opened Base

  datatype Source = Wallet | Subscription

  /** `taken` is WalletFunding.consumed or SubscriptionFunding.preConsumed. */
  datatype Session = Session(source: Source, playground: bool, preConsumed: nat, tokenConsumed: nat, extraReserved: nat,
                             taken: nat, trusted: bool, fundingSettled: bool, settled: bool, refunded: bool)

  datatype Books = Books(funding: int, token: int)

  function Max(a: int, b: int): int { if a >= b then a else b }

  /** What a token movement of this amount comes to: a playground request has no token. */
  function OnToken(playground: bool, amount: int): int { if playground then 0 else amount }

  // ----- taking quota in advance -----

  datatype Opening = Opening(session: Option<Session>, books: Books)

  /** preConsume in a new session; a subscription takes at least one unit and is never trusted. */
  function PreConsume(source: Source, playground: bool, trust: bool, quota: nat, tokenOk: bool, fundOk: bool,
                      backOk: bool): Opening {
    var trusted := trust && source == Wallet;
    var amount := if source == Subscription then Max(1, quota) else if trusted then 0 else quota;
    if amount > 0 && !playground && !tokenOk then Opening(None, Books(0, 0))
    else if amount > 0 && !fundOk then Opening(None, Books(0, if backOk then 0 else OnToken(playground, amount)))
    else Opening(Some(Session(source, playground, amount, amount, 0, amount, trusted, false, false, false)),
                 Books(amount, OnToken(playground, amount)))
  }

  // ----- operations of a session -----

  datatype Op =
    | Reserve(target: int, fundOk: bool, tokenOk: bool, backOk: bool)
    | Settle(actual: int, fundOk: bool, tokenOk: bool)
    | Refund(fundOk: bool, extraOk: bool, tokenOk: bool)

  /** A session, the books, and what failed rollbacks of reservations have left behind. */
  datatype State = State(s: Session, b: Books, leak: nat)

  predicate Reserves(s: Session, target: int) { !s.settled && !s.refunded && !s.trusted && target > s.preConsumed }

  function DoReserve(st: State, op: Op): State
    requires op.Reserve?
  {
    var s := st.s;
    if !Reserves(s, op.target) || !op.fundOk then st
    else
      var delta := op.target - s.preConsumed;
      var taken := if s.source == Wallet then s.taken + delta else s.taken;
      if s.playground || op.tokenOk then
        State(s.(taken := taken, preConsumed := op.target, tokenConsumed := s.tokenConsumed + delta,
                 extraReserved := s.extraReserved + delta),
              Books(st.b.funding + delta, st.b.token + OnToken(s.playground, delta)), st.leak)
      else if op.backOk then st
      else State(s.(taken := taken), st.b.(funding := st.b.funding + delta), st.leak + delta)
  }

  function DoSettle(st: State, op: Op): State
    requires op.Settle?
  {
    var s, delta := st.s, op.actual - st.s.preConsumed;
    if s.settled || (delta != 0 && !s.fundingSettled && !op.fundOk) then st
    else if delta == 0 then st.(s := s.(settled := true))
    else
      State(s.(settled := true, fundingSettled := true),
            Books(if s.fundingSettled then st.b.funding else st.b.funding + delta,
                  if op.tokenOk then st.b.token + OnToken(s.playground, delta) else st.b.token),
            st.leak)
  }

  predicate NeedsRefund(s: Session) {
    !s.settled && !s.refunded && !s.fundingSettled && (s.tokenConsumed > 0 || (s.source == Subscription && s.taken > 0))
  }

  function DoRefund(st: State, op: Op): State
    requires op.Refund?
  {
    var s := st.s;
    if !NeedsRefund(s) then st
    else
      var back := (if op.fundOk then s.taken else 0)
                  + (if s.source == Subscription && op.extraOk then s.extraReserved else 0);
      State(s.(refunded := true),
            Books(st.b.funding - back,
                  if op.tokenOk then st.b.token - OnToken(s.playground, s.tokenConsumed) else st.b.token),
            st.leak)
  }

  function Do(st: State, op: Op): State {
    match op
    case Reserve(_, _, _, _) => DoReserve(st, op)
    case Settle(_, _, _) => DoSettle(st, op)
    case Refund(_, _, _) => DoRefund(st, op)
  }

  // ----- every run -----

  function Run(st: State, ops: seq<Op>): State {
    if ops == [] then st else Do(Run(st, ops[..|ops| - 1]), ops[|ops| - 1])
  }

  /** The call that first settled the session, as an index into the run. */
  function SettledBy(st: State, ops: seq<Op>): (r: Option<nat>)
    ensures r.Some? ==> r.value < |ops| && ops[r.value].Settle?
  {
    if ops == [] then None
    else
      var n := |ops| - 1;
      var before := SettledBy(st, ops[..n]);
      if before == None && ops[n].Settle? && Do(Run(st, ops[..n]), ops[n]).s.settled then Some(n) else before
  }

  function RefundedBy(st: State, ops: seq<Op>): (r: Option<nat>)
    ensures r.Some? ==> r.value < |ops| && ops[r.value].Refund?
  {
    if ops == [] then None
    else
      var n := |ops| - 1;
      var before := RefundedBy(st, ops[..n]);
      if before == None && ops[n].Refund? && Do(Run(st, ops[..n]), ops[n]).s.refunded then Some(n) else before
  }

  /** What was taken in advance is on the books, and the session knows how to give it back. */
  ghost predicate Recorded(st: State) {
    var s := st.s;
    && s.tokenConsumed == s.preConsumed
    && (if s.source == Wallet then s.taken == s.preConsumed + st.leak else s.taken + s.extraReserved == s.preConsumed)
    && (s.fundingSettled ==> s.settled) && (s.refunded ==> s.preConsumed > 0)
  }

  /** The books of an open session. */
  ghost predicate Open(st: State) {
    !st.s.settled && !st.s.refunded &&
    st.b == Books(st.s.preConsumed + st.leak, OnToken(st.s.playground, st.s.preConsumed))
  }

  /** The books after a settlement of the given call, with nothing given back before it. */
  ghost predicate Charged(st: State, op: Op)
    requires op.Settle?
  {
    st.s.settled && !st.s.refunded && st.b.funding == op.actual + st.leak &&
    st.b.token == OnToken(st.s.playground, if op.tokenOk then op.actual else st.s.preConsumed)
  }

  /** What is left on the funding source after a refund. */
  function Kept(st: State, op: Op): int
    requires op.Refund?
  {
    var s := st.s;
    (if op.fundOk then 0 else s.taken) +
    (if s.source == Wallet then 0 else st.leak + if op.extraOk then 0 else s.extraReserved)
  }

  ghost predicate GivenBack(st: State, op: Op)
    requires op.Refund?
  {
    st.s.refunded && !st.s.settled && st.b.funding == Kept(st, op) &&
    st.b.token == OnToken(st.s.playground, if op.tokenOk then 0 else st.s.preConsumed)
  }

  /** A settlement after a refund charges the difference to what was already given back. */
  ghost predicate ChargedAfter(st: State, refund: Op, op: Op)
    requires refund.Refund? && op.Settle?
  {
    var delta := op.actual - st.s.preConsumed;
    st.s.refunded && st.s.settled && st.b.funding == Kept(st, refund) + delta &&
    st.b.token == OnToken(st.s.playground,
                          (if refund.tokenOk then 0 else st.s.preConsumed) + if op.tokenOk then delta else 0)
  }

  ghost predicate Balanced(st0: State, ops: seq<Op>) {
    var st, settled, refunded := Run(st0, ops), SettledBy(st0, ops), RefundedBy(st0, ops);
    && Recorded(st)
    && match (settled, refunded)
       case (None, None) => Open(st)
       case (Some(i), None) => Charged(st, ops[i])
       case (None, Some(j)) => GivenBack(st, ops[j])
       case (Some(i), Some(j)) => j < i && ChargedAfter(st, ops[j], ops[i])
  }

  lemma {:induction false} RunSnoc(st: State, ops: seq<Op>, op: Op)
    ensures Run(st, ops + [op]) == Do(Run(st, ops), op)
    ensures SettledBy(st, ops + [op]) ==
            if SettledBy(st, ops) == None && op.Settle? && Do(Run(st, ops), op).s.settled then Some(|ops|)
            else SettledBy(st, ops)
    ensures RefundedBy(st, ops + [op]) ==
            if RefundedBy(st, ops) == None && op.Refund? && Do(Run(st, ops), op).s.refunded then Some(|ops|)
            else RefundedBy(st, ops)
  {
    assert (ops + [op])[..|ops|] == ops;
  }

  /** Reservations only move an open session. */
  lemma ReserveKeeps(st: State, op: Op)
    requires op.Reserve? && Recorded(st)
    ensures Recorded(DoReserve(st, op)) && (Open(st) ==> Open(DoReserve(st, op)))
    ensures st.s.settled || st.s.refunded ==> DoReserve(st, op) == st
  {
  }

  lemma SettleKeeps(st: State, op: Op)
    requires op.Settle? && Recorded(st)
    ensures var st' := DoSettle(st, op);
            && Recorded(st')
            && (st.s.settled || !st'.s.settled ==> st' == st)
            && (Open(st) && st'.s.settled ==> Charged(st', op))
  {
  }

  lemma SettleAfterRefund(st: State, refund: Op, op: Op)
    requires refund.Refund? && op.Settle? && Recorded(st) && GivenBack(st, refund) && DoSettle(st, op).s.settled
    ensures ChargedAfter(DoSettle(st, op), refund, op)
  {
  }

  lemma RefundKeeps(st: State, op: Op)
    requires op.Refund? && Recorded(st)
    ensures var st' := DoRefund(st, op);
            && Recorded(st')
            && (st.s.settled || st.s.refunded || !st'.s.refunded ==> st' == st)
            && (Open(st) && st'.s.refunded ==> GivenBack(st', op))
  {
  }

  lemma DoKeepsBalance(st0: State, ops: seq<Op>, op: Op)
    requires Balanced(st0, ops)
    ensures Balanced(st0, ops + [op])
  {
    RunSnoc(st0, ops, op);
    var st := Run(st0, ops);
    match op {
      case Reserve(_, _, _, _) => ReserveKeeps(st, op);
      case Settle(_, _, _) =>
        SettleKeeps(st, op);
        if RefundedBy(st0, ops).Some? && SettledBy(st0, ops) == None && DoSettle(st, op).s.settled {
          SettleAfterRefund(st, ops[RefundedBy(st0, ops).value], op);
        }
      case Refund(_, _, _) => RefundKeeps(st, op);
    }
  }

  /** Over every run of reservations, settlements and refunds, with any calls failing, the books of an opened
      session are accounted for to the unit. */
  lemma {:induction false} RunIsBalanced(opening: Opening, ops: seq<Op>)
    requires opening.session.Some? && Recorded(State(opening.session.value, opening.books, 0)) &&
             Open(State(opening.session.value, opening.books, 0))
    ensures Balanced(State(opening.session.value, opening.books, 0), ops)
    decreases |ops|
  {
    if ops != [] {
      var n := |ops| - 1;
      RunIsBalanced(opening, ops[..n]);
      DoKeepsBalance(State(opening.session.value, opening.books, 0), ops[..n], ops[n]);
      assert ops == ops[..n] + [ops[n]];
    }
  }

  /** An opening either fails, taking nothing unless the token rollback fails too, or takes the same amount from
      both sides; from there on every run is balanced. */
  lemma OpenedIsBalanced(source: Source, playground: bool, trust: bool, quota: nat, tokenOk: bool, fundOk: bool,
                         backOk: bool, ops: seq<Op>)
    ensures var o := PreConsume(source, playground, trust, quota, tokenOk, fundOk, backOk);
            && (o.session == None && backOk ==> o.books == Books(0, 0))
            && (o.session.Some? ==> Balanced(State(o.session.value, o.books, 0), ops))
  {
    var o := PreConsume(source, playground, trust, quota, tokenOk, fundOk, backOk);
    if o.session.Some? {
      RunIsBalanced(o, ops);
    }
  }

  /** In a balanced run without failed calls, a settled session nets the actual cost on both sides if and only if
      it was not refunded before; otherwise it nets too little by what had been taken in advance. An open session
      nets what was taken, a refunded one nothing. */
  lemma {:induction false} NetCharge(st0: State, ops: seq<Op>)
    requires Balanced(st0, ops) && Run(st0, ops).leak == 0 && !Run(st0, ops).s.playground
    requires SettledBy(st0, ops).Some? ==> ops[SettledBy(st0, ops).value].tokenOk
    requires RefundedBy(st0, ops).Some? ==>
               var op := ops[RefundedBy(st0, ops).value]; op.fundOk && op.extraOk && op.tokenOk
    ensures var st, settled, refunded := Run(st0, ops), SettledBy(st0, ops), RefundedBy(st0, ops);
            var taken := st.s.preConsumed;
            match settled
            case None => st.b == (if refunded == None then Books(taken, taken) else Books(0, 0))
            case Some(i) =>
              var actual := ops[i].actual;
              (st.b == Books(actual, actual) <==> refunded == None) &&
              (refunded.Some? ==> st.b == Books(actual - taken, actual - taken))
  {
  }

  // ----- the session -----

  /** A BillingSession with the two accounts it moves quota on. */
  class BillingSession {
    const source: Source
    const playground: bool
    const trusted: bool
    var preConsumed: nat
    var tokenConsumed: nat
    var extraReserved: nat
    var taken: nat
    var fundingSettled: bool
    var settled: bool
    var refunded: bool
    var funding: int
    var token: int
    ghost var leak: nat

    ghost function View(): State
      reads this
    {
      State(Session(source, playground, preConsumed, tokenConsumed, extraReserved, taken, trusted, fundingSettled,
                    settled, refunded),
            Books(funding, token), leak)
    }

    constructor (s: Session, b: Books)
      ensures View() == State(s, b, 0)
    {
      source, playground, trusted := s.source, s.playground, s.trusted;
      preConsumed, tokenConsumed, extraReserved, taken := s.preConsumed, s.tokenConsumed, s.extraReserved, s.taken;
      fundingSettled, settled, refunded := s.fundingSettled, s.settled, s.refunded;
      funding, token, leak := b.funding, b.token, 0;
    }

    method ReserveQuota(target: int, fundOk: bool, tokenOk: bool, backOk: bool) returns (ok: bool)
      requires Recorded(View())
      modifies this
      ensures View() == DoReserve(old(View()), Reserve(target, fundOk, tokenOk, backOk)) && Recorded(View())
      ensures ok <==> !Reserves(old(View()).s, target) || (fundOk && (playground || tokenOk))
    {
      ReserveKeeps(View(), Reserve(target, fundOk, tokenOk, backOk));
      if settled || refunded || trusted || target <= preConsumed {
        return true;
      }
      var delta := target - preConsumed;
      if !fundOk {
        return false;
      }
      funding := funding + delta;
      if source == Wallet {
        taken := taken + delta;
      }
      if !playground {
        if !tokenOk {
          if backOk {
            funding := funding - delta;
            if source == Wallet {
              taken := taken - delta;
            }
          } else {
            leak := leak + delta;
          }
          return false;
        }
        token := token + delta;
      }
      preConsumed := preConsumed + delta;
      tokenConsumed := tokenConsumed + delta;
      extraReserved := extraReserved + delta;
      return true;
    }

    method SettleQuota(actual: int, fundOk: bool, tokenOk: bool) returns (ok: bool)
      requires Recorded(View())
      modifies this
      ensures View() == DoSettle(old(View()), Settle(actual, fundOk, tokenOk)) && Recorded(View())
      ensures ok ==> settled
      ensures Open(old(View())) && settled ==> Charged(View(), Settle(actual, fundOk, tokenOk))
    {
      SettleKeeps(View(), Settle(actual, fundOk, tokenOk));
      if settled {
        return true;
      }
      var delta := actual - preConsumed;
      if delta == 0 {
        settled := true;
        return true;
      }
      if !fundingSettled {
        if !fundOk {
          return false;
        }
        funding := funding + delta;
        fundingSettled := true;
      }
      ok := true;
      if !playground {
        ok := tokenOk;
        if tokenOk {
          token := token + delta;
        }
      }
      settled := true;
    }

    method RefundQuota(fundOk: bool, extraOk: bool, tokenOk: bool)
      requires Recorded(View())
      modifies this
      ensures View() == DoRefund(old(View()), Refund(fundOk, extraOk, tokenOk)) && Recorded(View())
      ensures Open(old(View())) && refunded ==> GivenBack(View(), Refund(fundOk, extraOk, tokenOk))
    {
      RefundKeeps(View(), Refund(fundOk, extraOk, tokenOk));
      if settled || refunded || fundingSettled || !(tokenConsumed > 0 || (source == Subscription && taken > 0)) {
        return;
      }
      refunded := true;
      if taken > 0 && fundOk {
        funding := funding - taken;
      }
      if extraReserved > 0 && source == Subscription && extraOk {
        funding := funding - extraReserved;
      }
      if tokenConsumed > 0 && !playground && tokenOk {
        token := token - tokenConsumed;
      }
    }
  }
}
