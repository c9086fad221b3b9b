/** The webhook handlers of controller/topup_stripe.go, controller/topup_creem.go and controller/topup_waffo.go (with
    the EPay and administrator completions of controller/topup.go) running concurrently over the order tables.

    A handler takes the order lock of its own process, makes its database calls one at a time and releases the lock.
    A database call is one transaction and may fail without effect. The lock is the plain lock that
    OrderLock.RunRefinesSpec shows the reference-counted one to implement. The two Waffo gateways are one provider
    here; their payment requests keep the row they inserted and save it again, without the lock, when the gateway
    refuses. */
module Payments {
  import OrderLock

  type TradeNo = OrderLock.TradeNo
  type Thread = OrderLock.Thread
  type Process = nat

  datatype Status = Pending | Success | Failed | Expired

  datatype Provider = Stripe | Creem | Epay | Waffo | Unset

  datatype TopUp = TopUp(provider: Provider, status: Status, quota: int)

  datatype SubscriptionOrder = SubscriptionOrder(provider: Provider, status: Status)

  /** What the database was made to do, in order. */
  datatype Entry =
    | Moved(no: TradeNo, from: Status, to: Status)  // a top-up row got a new status
    | Credited(no: TradeNo, quota: int)             // a user's quota was increased for a top-up
    | Granted(no: TradeNo)                          // a subscription was created for an order

  datatype Db = Db(topUps: map<TradeNo, TopUp>, subs: map<TradeNo, SubscriptionOrder>, ledger: seq<Entry>)

  // ----- transactions -----

  /** DB.Save of a whole row. */
  function Save(db: Db, no: TradeNo, row: TopUp): Db {
    db.(topUps := db.topUps[no := row],
        ledger := if no in db.topUps then db.ledger + [Moved(no, db.topUps[no].status, row.status)] else db.ledger)
  }

  function CompleteRow(db: Db, no: TradeNo): Db
    requires no in db.topUps
  {
    var db' := Save(db, no, db.topUps[no].(status := Success));
    db'.(ledger := db'.ledger + [Credited(no, db.topUps[no].quota)])
  }

  /** Recharge, RechargeCreem and CompleteEpayTopUp: a pending row of the provider is completed and credited. */
  function Recharge(db: Db, no: TradeNo, provider: Provider): Db {
    if no !in db.topUps || db.topUps[no].provider != provider || db.topUps[no].status != Pending then db
    else CompleteRow(db, no)
  }

  /** ManualCompleteTopUp: as Recharge for any provider, refusing a non-positive quota. */
  function ManualComplete(db: Db, no: TradeNo): Db {
    if no !in db.topUps || db.topUps[no].status != Pending || db.topUps[no].quota <= 0 then db
    else CompleteRow(db, no)
  }

  /** RechargeWaffo and RechargeWaffoPancake: as Recharge, refusing a non-positive quota. */
  function RechargeWaffo(db: Db, no: TradeNo): Db {
    if no in db.topUps && db.topUps[no].quota <= 0 then db else Recharge(db, no, Waffo)
  }

  /** UpdatePendingTopUpStatus. */
  function UpdatePending(db: Db, no: TradeNo, provider: Provider, target: Status): Db {
    if no !in db.topUps || db.topUps[no].provider != provider || db.topUps[no].status != Pending then db
    else Save(db, no, db.topUps[no].(status := target))
  }

  datatype SubResult = Done | NotFound | Refused

  /** CompleteSubscriptionOrder; completing an order also records a finished top-up row without quota.
      `methodsAgree` is whether an existing row names the order's payment method. */
  function CompleteSubscription(db: Db, no: TradeNo, provider: Provider, methodsAgree: bool): (Db, SubResult) {
    if no !in db.subs then (db, NotFound)
    else if db.subs[no].provider != provider then (db, Refused)
    else if db.subs[no].status == Success then (db, Done)
    else if db.subs[no].status != Pending then (db, Refused)
    else if no in db.topUps && !methodsAgree then (db, Refused)
    else
      var row := if no in db.topUps then db.topUps[no].(status := Success) else TopUp(Unset, Success, 0);
      var db' := Save(db, no, row);
      (db'.(subs := db.subs[no := db.subs[no].(status := Success)], ledger := db'.ledger + [Granted(no)]), Done)
  }

  /** ExpireSubscriptionOrder. */
  function ExpireSubscription(db: Db, no: TradeNo, provider: Provider): (Db, SubResult) {
    if no !in db.subs then (db, NotFound)
    else if db.subs[no].provider != provider then (db, Refused)
    else if db.subs[no].status != Pending then (db, Done)
    else (db.(subs := db.subs[no := db.subs[no].(status := Expired)]), Done)
  }

  // ----- handlers -----

  datatype Kind =
    | Fulfill                         // fulfillOrder, for both Stripe success events
    | PaymentFailed                   // sessionAsyncPaymentFailed
    | Expire                          // sessionExpired
    | CheckoutCompleted(onetime: bool) // Creem handleCheckoutCompleted
    | EpayNotify
    | WaffoPaid                       // handleWaffoPayment and the Pancake webhook
    | SubscriptionPaid(provider: Provider) // the EPay subscription callbacks and the Pancake webhook
    | AdminComplete

  /** Where a handler is: before LockOrder, before its first or second database call, holding a row it
      read, or before the deferred UnlockOrder. */
  datatype Pc = Waiting | First | Second | HasRead(row: TopUp) | Leaving

  datatype Handler = Handler(process: Process, kind: Kind, no: TradeNo, pc: Pc)

  function AfterSubscription(r: (Db, SubResult)): (Db, Pc) { (r.0, if r.1 == NotFound then Second else Leaving) }

  function ReadRow(db: Db, no: TradeNo): (Db, Pc) {
    (db, if no in db.topUps then HasRead(db.topUps[no]) else Leaving)
  }

  /** A subscription call whose lookup fails reports "not found", so its handler goes on to the top-up. */
  predicate GoesOn(h: Handler) { h.pc == First && (h.kind.Fulfill? || h.kind.Expire? || h.kind.CheckoutCompleted?) }

  /** The next database call of a handler that holds its lock, and where it goes from there. */
  function Call(db: Db, h: Handler, methodsAgree: bool): (Db, Pc)
    requires !h.pc.Waiting? && !h.pc.Leaving?
  {
    match h.kind
    case Fulfill =>
      if h.pc == First then AfterSubscription(CompleteSubscription(db, h.no, Stripe, methodsAgree))
      else (Recharge(db, h.no, Stripe), Leaving)
    case PaymentFailed =>
      if !h.pc.HasRead? then ReadRow(db, h.no)
      else if h.pc.row.provider != Stripe || h.pc.row.status != Pending then (db, Leaving)
      else (Save(db, h.no, h.pc.row.(status := Failed)), Leaving)
    case Expire =>
      if h.pc == First then AfterSubscription(ExpireSubscription(db, h.no, Stripe))
      else (UpdatePending(db, h.no, Stripe, Expired), Leaving)
    case CheckoutCompleted(onetime) =>
      if h.pc == First then AfterSubscription(CompleteSubscription(db, h.no, Creem, methodsAgree))
      else if h.pc == Second then (if onetime then ReadRow(db, h.no) else (db, Leaving))
      else if h.pc.row.status != Pending then (db, Leaving)
      else (Recharge(db, h.no, Creem), Leaving)
    case EpayNotify => (Recharge(db, h.no, Epay), Leaving)
    case WaffoPaid => (RechargeWaffo(db, h.no), Leaving)
    case SubscriptionPaid(provider) => (CompleteSubscription(db, h.no, provider, methodsAgree).0, Leaving)
    case AdminComplete => (ManualComplete(db, h.no), Leaving)
  }

  // ----- the system -----

  /** A Waffo payment request that has inserted its row and waits for the gateway. */
  datatype Request = Request(no: TradeNo, row: TopUp)

  /** `locks[p]` is the order lock of process p; `handlers` are the ones between arrival and return, and `requests`
      the Waffo requests between insertion and return. */
  datatype State = State(locks: map<Process, OrderLock.Owners>, handlers: map<Thread, Handler>,
                         requests: map<Thread, Request>, db: Db)

  const Init := State(map[], map[], map[], Db(map[], map[], []))

  datatype Event =
    | PlaceTopUp(no: TradeNo, provider: Provider, quota: int)     // a pending order is inserted
    | PlaceSubscription(no: TradeNo, provider: Provider)
    | Arrive(t: Thread, process: Process, kind: Kind, no: TradeNo)
    | Lock(t: Thread)
    | Work(t: Thread, ok: bool, methodsAgree: bool)               // one database call; !ok: it fails
    | LookupFails(t: Thread)                                      // it fails in the lookup of a subscription order
    | Unlock(t: Thread)
    | Reconcile(no: TradeNo)                                      // the EPay reconciliation takes no lock
    | ReconcileSubscription(no: TradeNo, methodsAgree: bool)
    | ExpireUnpaid(no: TradeNo)                                   // an EPay subscription purchase that cannot start
    | RefuseSubscription(no: TradeNo)                             // a Pancake one: the stale order is saved as failed
    | OpenWaffo(t: Thread, process: Process, no: TradeNo, quota: int)
    | WaffoAnswers(t: Thread, refused: bool)                      // refused: the stale row is saved as failed
    | WaffoRejected(no: TradeNo)                                  // the failed-payment webhook takes no lock

  function LockOf(s: State, p: Process): OrderLock.Owners { if p in s.locks then s.locks[p] else map[] }

  predicate CanDo(s: State, e: Event) {
    match e
    case PlaceTopUp(no, _, _) => no !in s.db.topUps && no !in s.db.subs
    case PlaceSubscription(no, _) => no !in s.db.topUps && no !in s.db.subs
    case Arrive(t, _, _, _) => t !in s.handlers
    case Lock(t) =>
      t in s.handlers && s.handlers[t].pc == Waiting
      && OrderLock.CanAcquire(LockOf(s, s.handlers[t].process), s.handlers[t].no)
    case Work(t, _, _) => t in s.handlers && !s.handlers[t].pc.Waiting? && !s.handlers[t].pc.Leaving?
    case LookupFails(t) => t in s.handlers && GoesOn(s.handlers[t])
    case Unlock(t) => t in s.handlers && s.handlers[t].pc == Leaving
    case Reconcile(_) => true
    case ReconcileSubscription(_, _) => true
    case ExpireUnpaid(_) => true
    case RefuseSubscription(no) => no in s.db.subs && s.db.subs[no].provider == Waffo
    case OpenWaffo(t, _, no, _) => t !in s.requests && no !in s.db.topUps && no !in s.db.subs
    case WaffoAnswers(t, _) => t in s.requests
    case WaffoRejected(_) => true
  }

  function Do(s: State, e: Event): State
    requires CanDo(s, e)
  {
    match e
    case PlaceTopUp(no, provider, quota) =>
      s.(db := s.db.(topUps := s.db.topUps[no := TopUp(provider, Pending, quota)]))
    case PlaceSubscription(no, provider) =>
      s.(db := s.db.(subs := s.db.subs[no := SubscriptionOrder(provider, Pending)]))
    case Arrive(t, p, kind, no) => s.(handlers := s.handlers[t := Handler(p, kind, no, Waiting)])
    case Lock(t) =>
      var h := s.handlers[t];
      s.(locks := s.locks[h.process := OrderLock.Acquire(LockOf(s, h.process), h.no, t)],
         handlers := s.handlers[t := h.(pc := First)])
    case Work(t, ok, methodsAgree) =>
      var h := s.handlers[t];
      var r := if ok then Call(s.db, h, methodsAgree) else (s.db, Leaving);
      s.(db := r.0, handlers := s.handlers[t := h.(pc := r.1)])
    case LookupFails(t) => s.(handlers := s.handlers[t := s.handlers[t].(pc := Second)])
    case Unlock(t) =>
      var h := s.handlers[t];
      s.(locks := s.locks[h.process := OrderLock.Release(LockOf(s, h.process), h.no)], handlers := s.handlers - {t})
    case Reconcile(no) => s.(db := Recharge(s.db, no, Epay))
    case ReconcileSubscription(no, methodsAgree) => s.(db := CompleteSubscription(s.db, no, Epay, methodsAgree).0)
    case ExpireUnpaid(no) => s.(db := ExpireSubscription(s.db, no, Epay).0)
    case RefuseSubscription(no) => s.(db := s.db.(subs := s.db.subs[no := SubscriptionOrder(Waffo, Failed)]))
    case OpenWaffo(t, _, no, quota) =>
      var row := TopUp(Waffo, Pending, quota);
      s.(requests := s.requests[t := Request(no, row)], db := s.db.(topUps := s.db.topUps[no := row]))
    case WaffoAnswers(t, refused) =>
      var r := s.requests[t];
      s.(requests := s.requests - {t}, db := if refused then Save(s.db, r.no, r.row.(status := Failed)) else s.db)
    case WaffoRejected(no) => s.(db := UpdatePending(s.db, no, Waffo, Failed))
  }

  /** Handlers and requests are served by one of the processes. */
  predicate ServedBy(e: Event, processes: set<Process>) { e.Arrive? || e.OpenWaffo? ==> e.process in processes }

  /** The events happen one after the other from s, served by the processes. */
  predicate IsRun(s: State, es: seq<Event>, processes: set<Process>)
    decreases |es|
  {
    es == [] ||
    (CanDo(s, es[0]) && ServedBy(es[0], processes) && IsRun(Do(s, es[0]), es[1..], processes))
  }

  function After(s: State, es: seq<Event>, processes: set<Process>): State
    requires IsRun(s, es, processes)
    decreases |es|
  {
    if es == [] then s else After(Do(s, es[0]), es[1..], processes)
  }

  // ----- what must hold of an order -----

  /** How often an order's row moved, moved from a finished status, was credited and was granted. */
  datatype Tally = Tally(moves: nat, reopened: nat, credits: nat, grants: nat)

  function Note(t: Tally, e: Entry): Tally {
    match e
    case Moved(_, from, _) => t.(moves := t.moves + 1, reopened := t.reopened + if from == Pending then 0 else 1)
    case Credited(_, _) => t.(credits := t.credits + 1)
    case Granted(_) => t.(grants := t.grants + 1)
  }

  function TallyOf(ledger: seq<Entry>, no: TradeNo): Tally {
    if ledger == [] then Tally(0, 0, 0, 0)
    else
      var before, e := TallyOf(ledger[..|ledger| - 1], no), ledger[|ledger| - 1];
      if e.no == no then Note(before, e) else before
  }

  /** The order left pending at most once and never changed again, was credited at most once, only
      if it ended in success, and granted at most once. */
  ghost predicate Safe(db: Db, no: TradeNo) {
    var t := TallyOf(db.ledger, no);
    && t.moves <= 1 && t.reopened == 0 && t.credits <= 1 && t.grants <= 1
    && (t.credits == 1 ==> no in db.topUps && db.topUps[no].status == Success)
  }

  /** What the ledger says about an order, given its rows. */
  ghost predicate OrderOk(db: Db, no: TradeNo) {
    var t := TallyOf(db.ledger, no);
    if no in db.subs then
      && t == Tally(0, 0, 0, if no in db.topUps then 1 else 0)
      && (no in db.topUps ==> db.topUps[no].status == Success && db.subs[no].status != Pending)
      && (db.subs[no].status == Success ==> no in db.topUps)
    else if no in db.topUps then
      t == Tally(if db.topUps[no].status == Pending then 0 else 1, 0,
                 if db.topUps[no].status == Success then 1 else 0, 0)
    else
      t == Tally(0, 0, 0, 0)
  }

  ghost predicate HandlerOk(s: State, t: Thread)
    requires t in s.handlers
  {
    var h := s.handlers[t];
    && (!h.pc.Waiting? ==> h.no in LockOf(s, h.process) && LockOf(s, h.process)[h.no] == t)
    && (h.kind.PaymentFailed? && h.pc.HasRead? && h.pc.row.provider == Stripe ==>
          h.no in s.db.topUps && s.db.topUps[h.no] == h.pc.row)
  }

  /** A request's row is as it inserted it while the order is pending. */
  ghost predicate RequestOk(s: State, t: Thread)
    requires t in s.requests
  {
    var r := s.requests[t];
    r.row.status == Pending && r.no in s.db.topUps
    && (s.db.topUps[r.no].status == Pending ==> s.db.topUps[r.no] == r.row)
  }

  ghost predicate AllOk(db: Db) { forall n :: OrderOk(db, n) }

  ghost predicate Inv(s: State) {
    && (forall t :: t in s.handlers ==> HandlerOk(s, t))
    && (forall t :: t in s.requests ==> RequestOk(s, t))
    && AllOk(s.db)
  }

  ghost predicate OneProcess(s: State, processes: set<Process>) {
    && (forall p, q :: p in processes && q in processes ==> p == q)
    && (forall t :: t in s.handlers ==> s.handlers[t].process in processes)
  }

  // ----- transactions keep every order consistent -----

  lemma {:induction false} Append(ledger: seq<Entry>, e: Entry, no: TradeNo)
    ensures TallyOf(ledger + [e], no) == if e.no == no then Note(TallyOf(ledger, no), e) else TallyOf(ledger, no)
  {
    assert (ledger + [e])[..|ledger|] == ledger;
  }

  ghost predicate SameRows(db: Db, db': Db, no: TradeNo) {
    && (no in db'.topUps <==> no in db.topUps) && (no in db.topUps ==> db'.topUps[no] == db.topUps[no])
    && (no in db'.subs <==> no in db.subs) && (no in db.subs ==> db'.subs[no] == db.subs[no])
  }

  /** The rows of other orders are as before. */
  ghost predicate OnlyTouches(db: Db, db': Db, no: TradeNo) {
    forall n :: n != no ==> SameRows(db, db', n)
  }

  /** A row stays, and changes only by leaving pending. */
  ghost predicate RowStays(db: Db, db': Db, no: TradeNo) {
    no in db.topUps ==>
      no in db'.topUps
      && (db.topUps[no].status != Pending || db'.topUps[no].status == Pending ==> db'.topUps[no] == db.topUps[no])
  }

  ghost predicate GoodCall(db: Db, db': Db, no: TradeNo) {
    AllOk(db') && OnlyTouches(db, db', no) && RowStays(db, db', no)
  }

  /** A pending row leaves pending without a credit. */
  lemma LeavePendingOk(db: Db, no: TradeNo, to: Status)
    requires AllOk(db) && no in db.topUps && db.topUps[no].status == Pending && (to == Failed || to == Expired)
    ensures GoodCall(db, Save(db, no, db.topUps[no].(status := to)), no)
  {
    var db' := Save(db, no, db.topUps[no].(status := to));
    forall n ensures OrderOk(db', n) {
      assert OrderOk(db, n);
      Append(db.ledger, Moved(no, Pending, to), n);
    }
  }

  lemma CompleteRowOk(db: Db, no: TradeNo)
    requires AllOk(db) && no in db.topUps && db.topUps[no].status == Pending
    ensures GoodCall(db, CompleteRow(db, no), no)
  {
    var db' := CompleteRow(db, no);
    forall n ensures OrderOk(db', n) {
      assert OrderOk(db, n);
      Append(db.ledger, Moved(no, Pending, Success), n);
      Append(db.ledger + [Moved(no, Pending, Success)], Credited(no, db.topUps[no].quota), n);
    }
  }

  /** A pending subscription order is granted and mirrored by a finished row without quota. */
  lemma GrantOk(db: Db, no: TradeNo)
    requires AllOk(db) && no in db.subs && db.subs[no].status == Pending
    ensures no !in db.topUps
    ensures GoodCall(db, Db(db.topUps[no := TopUp(Unset, Success, 0)], db.subs[no := db.subs[no].(status := Success)],
                            db.ledger + [Granted(no)]), no)
  {
    assert OrderOk(db, no);
    var db' := Db(db.topUps[no := TopUp(Unset, Success, 0)], db.subs[no := db.subs[no].(status := Success)],
                  db.ledger + [Granted(no)]);
    forall n ensures OrderOk(db', n) {
      assert OrderOk(db, n);
      Append(db.ledger, Granted(no), n);
    }
  }

  lemma CompleteSubscriptionOk(db: Db, no: TradeNo, provider: Provider, methodsAgree: bool)
    requires AllOk(db)
    ensures GoodCall(db, CompleteSubscription(db, no, provider, methodsAgree).0, no)
  {
    if no in db.subs && db.subs[no].status == Pending {
      GrantOk(db, no);
    }
  }

  lemma ExpireSubscriptionOk(db: Db, no: TradeNo, provider: Provider)
    requires AllOk(db)
    ensures GoodCall(db, ExpireSubscription(db, no, provider).0, no)
  {
    var db' := ExpireSubscription(db, no, provider).0;
    forall n ensures OrderOk(db', n) {
      assert OrderOk(db, n);
    }
  }

  /** The database call of a lock holder whose snapshot, if it has one, is current. */
  lemma CallOk(db: Db, h: Handler, methodsAgree: bool)
    requires !h.pc.Waiting? && !h.pc.Leaving?
    requires AllOk(db)
    requires h.kind.PaymentFailed? && h.pc.HasRead? && h.pc.row.provider == Stripe ==>
               h.no in db.topUps && db.topUps[h.no] == h.pc.row
    ensures GoodCall(db, Call(db, h, methodsAgree).0, h.no)
  {
    if h.kind.Fulfill? && h.pc == First {
      CompleteSubscriptionOk(db, h.no, Stripe, methodsAgree);
    } else if h.kind.CheckoutCompleted? && h.pc == First {
      CompleteSubscriptionOk(db, h.no, Creem, methodsAgree);
    } else if h.kind.Expire? && h.pc == First {
      ExpireSubscriptionOk(db, h.no, Stripe);
    } else if h.kind.SubscriptionPaid? {
      CompleteSubscriptionOk(db, h.no, h.kind.provider, methodsAgree);
    } else if h.no in db.topUps && db.topUps[h.no].status == Pending {
      if h.kind.PaymentFailed? || h.kind.Expire? {
        LeavePendingOk(db, h.no, if h.kind.PaymentFailed? then Failed else Expired);
      } else {
        CompleteRowOk(db, h.no);
      }
    }
  }

  // ----- every run on one process -----

  /** A call on one order keeps what the handlers and requests know, on one process. */
  lemma CallKeepsRequests(s: State, db': Db, no: TradeNo, t: Thread)
    requires t in s.requests && RequestOk(s, t) && GoodCall(s.db, db', no)
    ensures RequestOk(s.(db := db'), t)
  {
    assert s.requests[t].no != no ==> SameRows(s.db, db', s.requests[t].no);
  }

  lemma WorkKeepsHandler(s: State, e: Event, t: Thread, processes: set<Process>)
    requires e.Work? && CanDo(s, e) && OneProcess(s, processes) && t in s.handlers
    requires HandlerOk(s, e.t) && HandlerOk(s, t) && GoodCall(s.db, Do(s, e).db, s.handlers[e.t].no)
    ensures HandlerOk(Do(s, e), t)
  {
    assert t != e.t && !s.handlers[t].pc.Waiting? ==> SameRows(s.db, Do(s, e).db, s.handlers[t].no);
  }

  lemma WorkKeepsInv(s: State, e: Event, processes: set<Process>)
    requires Inv(s) && OneProcess(s, processes) && e.Work? && CanDo(s, e)
    ensures Inv(Do(s, e))
  {
    var s', h := Do(s, e), s.handlers[e.t];
    assert HandlerOk(s, e.t);
    CallOk(s.db, h, e.methodsAgree);
    assert GoodCall(s.db, s'.db, h.no);
    forall t | t in s'.handlers ensures HandlerOk(s', t) {
      assert HandlerOk(s, t);
      WorkKeepsHandler(s, e, t, processes);
    }
    forall t | t in s'.requests ensures RequestOk(s', t) {
      assert RequestOk(s, t);
      CallKeepsRequests(s, s'.db, h.no, t);
    }
  }

  lemma LockingKeepsInv(s: State, e: Event, processes: set<Process>)
    requires Inv(s) && OneProcess(s, processes) && (e.Lock? || e.Unlock?) && CanDo(s, e)
    ensures Inv(Do(s, e))
  {
    var s' := Do(s, e);
    assert HandlerOk(s, e.t);
    forall t | t in s'.handlers ensures HandlerOk(s', t) {
      assert HandlerOk(s, t);
    }
    forall t | t in s'.requests ensures RequestOk(s', t) {
      assert RequestOk(s, t);
    }
  }

  /** An event that places an order, or brings or moves a handler without a database call. */
  predicate Quiet(e: Event) { e.PlaceTopUp? || e.PlaceSubscription? || e.Arrive? || e.LookupFails? || e.OpenWaffo? }

  lemma QuietKeepsOrders(s: State, e: Event)
    requires AllOk(s.db) && Quiet(e) && CanDo(s, e)
    ensures AllOk(Do(s, e).db)
  {
    forall n ensures OrderOk(Do(s, e).db, n) {
      assert OrderOk(s.db, n);
    }
  }

  lemma QuietKeepsInv(s: State, e: Event)
    requires Inv(s) && Quiet(e) && CanDo(s, e)
    ensures Inv(Do(s, e))
  {
    var s' := Do(s, e);
    QuietKeepsOrders(s, e);
    forall t | t in s'.handlers ensures HandlerOk(s', t) {
      assert t in s.handlers ==> HandlerOk(s, t);
    }
    forall t | t in s'.requests ensures RequestOk(s', t) {
      assert t in s.requests ==> RequestOk(s, t);
    }
  }

  /** The event saves a stale row only while the order is pending. */
  predicate Timely(s: State, e: Event)
    requires CanDo(s, e)
  {
    e.WaffoAnswers? && e.refused ==>
      var no := s.requests[e.t].no; no in s.db.topUps && s.db.topUps[no].status == Pending
  }

  /** An event that writes to the tables without the lock. */
  predicate Unlocked(e: Event) {
    e.Reconcile? || e.ReconcileSubscription? || e.ExpireUnpaid? || e.RefuseSubscription? || e.WaffoAnswers? ||
    e.WaffoRejected?
  }

  /** The order that it is about. */
  function OrderOf(s: State, e: Event): TradeNo
    requires Unlocked(e) && CanDo(s, e)
  {
    if e.WaffoAnswers? then s.requests[e.t].no else e.no
  }

  lemma RefuseOk(db: Db, no: TradeNo)
    requires AllOk(db) && no in db.subs
    ensures GoodCall(db, db.(subs := db.subs[no := SubscriptionOrder(Waffo, Failed)]), no)
  {
    var db' := db.(subs := db.subs[no := SubscriptionOrder(Waffo, Failed)]);
    forall n ensures OrderOk(db', n) {
      assert OrderOk(db, n);
    }
  }

  /** An unlocked event is a good call on its order. */
  lemma UnlockedIsGood(s: State, e: Event)
    requires Inv(s) && Unlocked(e) && CanDo(s, e) && Timely(s, e)
    ensures GoodCall(s.db, Do(s, e).db, OrderOf(s, e))
  {
    var no := OrderOf(s, e);
    if e.ReconcileSubscription? {
      CompleteSubscriptionOk(s.db, no, Epay, e.methodsAgree);
    } else if e.ExpireUnpaid? {
      ExpireSubscriptionOk(s.db, no, Epay);
    } else if e.RefuseSubscription? {
      RefuseOk(s.db, no);
    } else {
      assert e.WaffoAnswers? ==> RequestOk(s, e.t);
      if no in s.db.topUps && s.db.topUps[no].status == Pending {
        CompleteRowOk(s.db, no);
        LeavePendingOk(s.db, no, Failed);
      }
    }
  }

  lemma UnlockedKeepsHandler(s: State, e: Event, t: Thread)
    requires Unlocked(e) && CanDo(s, e) && t in s.handlers && HandlerOk(s, t) && OrderOk(s.db, s.handlers[t].no)
    requires e.WaffoAnswers? ==> RequestOk(s, e.t) && Timely(s, e)
    requires forall u :: u in s.requests ==> s.requests[u].row.provider == Waffo
    ensures HandlerOk(Do(s, e), t)
  {
  }

  ghost predicate WaffoRequests(s: State) { forall u :: u in s.requests ==> s.requests[u].row.provider == Waffo }

  lemma UnlockedKeepsInv(s: State, e: Event)
    requires Inv(s) && WaffoRequests(s) && Unlocked(e) && CanDo(s, e) && Timely(s, e)
    ensures Inv(Do(s, e))
  {
    var s' := Do(s, e);
    UnlockedIsGood(s, e);
    forall t | t in s'.handlers ensures HandlerOk(s', t) {
      assert HandlerOk(s, t) && OrderOk(s.db, s.handlers[t].no) && (e.WaffoAnswers? ==> RequestOk(s, e.t));
      UnlockedKeepsHandler(s, e, t);
    }
    forall t | t in s'.requests ensures RequestOk(s', t) {
      assert RequestOk(s, t);
      CallKeepsRequests(s, s'.db, OrderOf(s, e), t);
    }
  }

  lemma DoKeepsInv(s: State, e: Event, processes: set<Process>)
    requires Inv(s) && WaffoRequests(s) && OneProcess(s, processes)
    requires CanDo(s, e) && ServedBy(e, processes) && Timely(s, e)
    ensures Inv(Do(s, e)) && WaffoRequests(Do(s, e)) && OneProcess(Do(s, e), processes)
  {
    if e.Work? {
      WorkKeepsInv(s, e, processes);
    } else if e.Lock? || e.Unlock? {
      LockingKeepsInv(s, e, processes);
    } else if Quiet(e) {
      QuietKeepsInv(s, e);
    } else {
      UnlockedKeepsInv(s, e);
    }
  }

  /** Every stale row of the run is saved while its order is pending. */
  predicate AllTimely(s: State, es: seq<Event>, processes: set<Process>)
    requires IsRun(s, es, processes)
    decreases |es|
  {
    es == [] || (Timely(s, es[0]) && AllTimely(Do(s, es[0]), es[1..], processes))
  }

  lemma {:induction false} RunKeepsInv(s: State, es: seq<Event>, processes: set<Process>)
    requires Inv(s) && WaffoRequests(s) && OneProcess(s, processes)
    requires IsRun(s, es, processes) && AllTimely(s, es, processes)
    ensures Inv(After(s, es, processes))
    decreases |es|
  {
    if es != [] {
      DoKeepsInv(s, es[0], processes);
      RunKeepsInv(Do(s, es[0]), es[1..], processes);
    }
  }

  ghost predicate AllSafe(db: Db) { forall no :: Safe(db, no) }

  /** On one process, whatever the interleaving, as long as stale rows are saved in time: an order leaves pending at
      most once, is credited at most once, and is credited exactly when it ended in success. */
  lemma {:induction false} OneProcessIsSafe(es: seq<Event>, processes: set<Process>, no: TradeNo)
    requires forall p, q :: p in processes && q in processes ==> p == q
    requires IsRun(Init, es, processes) && AllTimely(Init, es, processes)
    ensures var db := After(Init, es, processes).db;
            && Safe(db, no)
            && (no in db.topUps && no !in db.subs ==>
                  (TallyOf(db.ledger, no).credits == 1 <==> db.topUps[no].status == Success))
            && (no in db.subs ==> (TallyOf(db.ledger, no).grants == 1 <==> no in db.topUps))
  {
    RunKeepsInv(Init, es, processes);
    assert OrderOk(After(Init, es, processes).db, no);
  }

  lemma FinishedStaysOnce(s: State, e: Event, no: TradeNo)
    requires Inv(s) && CanDo(s, e) && Timely(s, e) && no in s.db.topUps && s.db.topUps[no].status != Pending
    ensures no in Do(s, e).db.topUps && Do(s, e).db.topUps[no] == s.db.topUps[no]
  {
    if e.Work? {
      assert HandlerOk(s, e.t);
      CallOk(s.db, s.handlers[e.t], e.methodsAgree);
      assert no != s.handlers[e.t].no ==> SameRows(s.db, Do(s, e).db, no);
    } else if Unlocked(e) {
      UnlockedIsGood(s, e);
      assert no != OrderOf(s, e) ==> SameRows(s.db, Do(s, e).db, no);
    }
  }

  /** A finished order keeps its row through every later event. */
  lemma {:induction false} FinishedStays(s: State, es: seq<Event>, processes: set<Process>, no: TradeNo)
    requires Inv(s) && WaffoRequests(s) && OneProcess(s, processes)
    requires IsRun(s, es, processes) && AllTimely(s, es, processes)
    requires no in s.db.topUps && s.db.topUps[no].status != Pending
    ensures no in After(s, es, processes).db.topUps && After(s, es, processes).db.topUps[no] == s.db.topUps[no]
    decreases |es|
  {
    if es != [] {
      DoKeepsInv(s, es[0], processes);
      FinishedStaysOnce(s, es[0], no);
      FinishedStays(Do(s, es[0]), es[1..], processes, no);
    }
  }

  // ----- a stale row saved too late -----

  lemma {:induction false} ReopenedGrows(ledger: seq<Entry>, more: seq<Entry>, no: TradeNo)
    ensures TallyOf(ledger, no).reopened <= TallyOf(ledger + more, no).reopened
    decreases |more|
  {
    if more == [] {
      assert ledger + more == ledger;
    } else {
      var init, last := more[..|more| - 1], more[|more| - 1];
      ReopenedGrows(ledger, init, no);
      Append(ledger + init, last, no);
      assert ledger + more == ledger + init + [last];
    }
  }

  lemma CallAppends(db: Db, h: Handler, methodsAgree: bool)
    requires !h.pc.Waiting? && !h.pc.Leaving?
    ensures db.ledger <= Call(db, h, methodsAgree).0.ledger
  {
  }

  lemma DoAppends(s: State, e: Event)
    requires CanDo(s, e)
    ensures s.db.ledger <= Do(s, e).db.ledger
  {
    if e.Work? {
      CallAppends(s.db, s.handlers[e.t], e.methodsAgree);
    }
  }

  lemma {:induction false} RunKeepsReopened(s: State, es: seq<Event>, processes: set<Process>, no: TradeNo)
    requires IsRun(s, es, processes)
    ensures TallyOf(s.db.ledger, no).reopened <= TallyOf(After(s, es, processes).db.ledger, no).reopened
    decreases |es|
  {
    if es != [] {
      DoAppends(s, es[0]);
      var db' := Do(s, es[0]).db;
      ReopenedGrows(s.db.ledger, db'.ledger[|s.db.ledger|..], no);
      assert db'.ledger == s.db.ledger + db'.ledger[|s.db.ledger|..];
      RunKeepsReopened(Do(s, es[0]), es[1..], processes, no);
    }
  }

  lemma LateSaveReopens(s: State, e: Event)
    requires CanDo(s, e) && !Timely(s, e) && s.requests[e.t].no in s.db.topUps
    ensures TallyOf(Do(s, e).db.ledger, s.requests[e.t].no).reopened >= 1
  {
    var no := s.requests[e.t].no;
    Append(s.db.ledger, Moved(no, s.db.topUps[no].status, Failed), no);
  }

  lemma {:induction false} LateRunIsUnsafe(s: State, es: seq<Event>, processes: set<Process>)
    requires Inv(s) && WaffoRequests(s) && OneProcess(s, processes)
    requires IsRun(s, es, processes) && !AllTimely(s, es, processes)
    ensures !AllSafe(After(s, es, processes).db)
    decreases |es|
  {
    var e := es[0];
    if Timely(s, e) {
      DoKeepsInv(s, e, processes);
      LateRunIsUnsafe(Do(s, e), es[1..], processes);
    } else {
      assert RequestOk(s, e.t);
      LateSaveReopens(s, e);
      RunKeepsReopened(Do(s, e), es[1..], processes, s.requests[e.t].no);
      assert !Safe(After(s, es, processes).db, s.requests[e.t].no);
    }
  }

  /** On one process a run is safe for all orders if and only if every Waffo request that the gateway refuses saves its
      row while the order is still pending, which the code does not test. */
  lemma {:induction false} SafeIffTimely(es: seq<Event>, processes: set<Process>)
    requires forall p, q :: p in processes && q in processes ==> p == q
    requires IsRun(Init, es, processes)
    ensures AllSafe(After(Init, es, processes).db) <==> AllTimely(Init, es, processes)
  {
    if AllTimely(Init, es, processes) {
      forall no ensures Safe(After(Init, es, processes).db, no) {
        OneProcessIsSafe(es, processes, no);
      }
    } else {
      LateRunIsUnsafe(Init, es, processes);
    }
  }

  // ----- granted subscriptions -----

  /** A subscription order shows success exactly if its subscription was granted. */
  ghost predicate GrantsShown(db: Db) {
    forall no :: no in db.subs ==> (TallyOf(db.ledger, no).grants == 1 <==> db.subs[no].status == Success)
  }

  /** The event does not save a stale subscription order over a completed one. */
  predicate Prompt(s: State, e: Event)
    requires CanDo(s, e)
  {
    e.RefuseSubscription? ==> s.db.subs[e.no].status != Success
  }

  predicate AllPrompt(s: State, es: seq<Event>, processes: set<Process>)
    requires IsRun(s, es, processes)
    decreases |es|
  {
    es == [] || (Prompt(s, es[0]) && AllPrompt(Do(s, es[0]), es[1..], processes))
  }

  /** The order was granted, as its mirror row says, but does not show success. */
  ghost predicate Hidden(db: Db, no: TradeNo) { no in db.subs && no in db.topUps && db.subs[no].status != Success }

  ghost predicate NoneHidden(db: Db) { forall no :: !Hidden(db, no) }

  lemma ShownIffNoneHidden(db: Db)
    requires AllOk(db)
    ensures GrantsShown(db) <==> NoneHidden(db)
  {
    forall no ensures no in db.subs ==> (Hidden(db, no) <==> (TallyOf(db.ledger, no).grants == 1 <==>
                                                              db.subs[no].status != Success))
    {
      assert OrderOk(db, no);
    }
  }

  lemma CompleteAndHidden(db: Db, n: TradeNo, provider: Provider, methodsAgree: bool, no: TradeNo)
    requires OrderOk(db, no)
    ensures Hidden(CompleteSubscription(db, n, provider, methodsAgree).0, no) <==> Hidden(db, no)
  {
  }

  lemma ExpireAndHidden(db: Db, n: TradeNo, provider: Provider, no: TradeNo)
    requires OrderOk(db, no)
    ensures Hidden(ExpireSubscription(db, n, provider).0, no) <==> Hidden(db, no)
  {
  }

  /** The rows of the same orders, and the subscription orders untouched. */
  lemma SameAndHidden(db: Db, db': Db, no: TradeNo)
    requires db'.subs == db.subs && db'.topUps.Keys == db.topUps.Keys
    ensures Hidden(db', no) <==> Hidden(db, no)
  {
    assert no in db'.topUps.Keys <==> no in db.topUps.Keys;
  }

  /** No call of a lock holder hides an order, and none brings a hidden one back. */
  lemma CallAndHidden(db: Db, h: Handler, methodsAgree: bool, no: TradeNo)
    requires !h.pc.Waiting? && !h.pc.Leaving? && OrderOk(db, no)
    requires h.kind.PaymentFailed? && h.pc.HasRead? && h.pc.row.provider == Stripe ==> h.no in db.topUps
    ensures Hidden(Call(db, h, methodsAgree).0, no) <==> Hidden(db, no)
  {
    if h.kind.Fulfill? && h.pc == First {
      CompleteAndHidden(db, h.no, Stripe, methodsAgree, no);
    } else if h.kind.CheckoutCompleted? && h.pc == First {
      CompleteAndHidden(db, h.no, Creem, methodsAgree, no);
    } else if h.kind.Expire? && h.pc == First {
      ExpireAndHidden(db, h.no, Stripe, no);
    } else if h.kind.SubscriptionPaid? {
      CompleteAndHidden(db, h.no, h.kind.provider, methodsAgree, no);
    } else {
      SameAndHidden(db, Call(db, h, methodsAgree).0, no);
    }
  }

  lemma DoAndHidden(s: State, e: Event, no: TradeNo)
    requires Inv(s) && CanDo(s, e) && (Prompt(s, e) || Hidden(s.db, no))
    ensures Hidden(Do(s, e).db, no) <==> Hidden(s.db, no)
  {
    assert OrderOk(s.db, no);
    if e.Work? {
      assert HandlerOk(s, e.t);
      CallAndHidden(s.db, s.handlers[e.t], e.methodsAgree, no);
    } else if e.ReconcileSubscription? {
      CompleteAndHidden(s.db, e.no, Epay, e.methodsAgree, no);
    } else if e.ExpireUnpaid? {
      ExpireAndHidden(s.db, e.no, Epay, no);
    } else if e.Reconcile? || e.WaffoAnswers? || e.WaffoRejected? {
      assert e.WaffoAnswers? ==> RequestOk(s, e.t);
      SameAndHidden(s.db, Do(s, e).db, no);
    }
  }

  lemma {:induction false} HiddenStays(s: State, es: seq<Event>, processes: set<Process>, no: TradeNo)
    requires Inv(s) && WaffoRequests(s) && OneProcess(s, processes) && Hidden(s.db, no)
    requires IsRun(s, es, processes) && AllTimely(s, es, processes)
    ensures Hidden(After(s, es, processes).db, no)
    decreases |es|
  {
    if es != [] {
      DoAndHidden(s, es[0], no);
      DoKeepsInv(s, es[0], processes);
      HiddenStays(Do(s, es[0]), es[1..], processes, no);
    }
  }

  lemma {:induction false} NoneHiddenIffPrompt(s: State, es: seq<Event>, processes: set<Process>)
    requires Inv(s) && WaffoRequests(s) && OneProcess(s, processes) && NoneHidden(s.db)
    requires IsRun(s, es, processes) && AllTimely(s, es, processes)
    ensures NoneHidden(After(s, es, processes).db) <==> AllPrompt(s, es, processes)
    decreases |es|
  {
    if es != [] {
      var e := es[0];
      DoKeepsInv(s, e, processes);
      if Prompt(s, e) {
        forall no ensures !Hidden(Do(s, e).db, no) {
          DoAndHidden(s, e, no);
        }
        NoneHiddenIffPrompt(Do(s, e), es[1..], processes);
      } else {
        assert OrderOk(s.db, e.no);
        HiddenStays(Do(s, e), es[1..], processes, e.no);
      }
    }
  }

  /** On one process, with timely saves, subscription orders show success exactly if they were granted, if and only if
      no refused checkout saves its order after it was completed, which the code does not test. */
  lemma {:induction false} GrantsShownIffPrompt(es: seq<Event>, processes: set<Process>)
    requires forall p, q :: p in processes && q in processes ==> p == q
    requires IsRun(Init, es, processes) && AllTimely(Init, es, processes)
    ensures GrantsShown(After(Init, es, processes).db) <==> AllPrompt(Init, es, processes)
  {
    RunKeepsInv(Init, es, processes);
    NoneHiddenIffPrompt(Init, es, processes);
    ShownIffNoneHidden(After(Init, es, processes).db);
  }

  // ----- which processes and providers -----

  /** No Waffo payment is requested. */
  predicate NoWaffo(es: seq<Event>) { forall i :: 0 <= i < |es| ==> !es[i].OpenWaffo? }

  lemma {:induction false} NoWaffoIsTimely(s: State, es: seq<Event>, processes: set<Process>)
    requires IsRun(s, es, processes) && NoWaffo(es) && s.requests == map[]
    ensures AllTimely(s, es, processes)
    decreases |es|
  {
    if es != [] {
      NoWaffoIsTimely(Do(s, es[0]), es[1..], processes);
    }
  }

  /** All runs on the processes are safe; `waffo` is whether Waffo payments can be requested. */
  ghost predicate AllRunsSafe(processes: set<Process>, waffo: bool) {
    forall es :: IsRun(Init, es, processes) && (waffo || NoWaffo(es)) ==> AllSafe(After(Init, es, processes).db)
  }

  ghost predicate Leads(es: seq<Event>, s: State, processes: set<Process>) {
    IsRun(Init, es, processes) && After(Init, es, processes) == s
  }

  lemma {:induction false} RunSnoc(s: State, es: seq<Event>, e: Event, processes: set<Process>)
    requires IsRun(s, es, processes) && CanDo(After(s, es, processes), e) && ServedBy(e, processes)
    ensures IsRun(s, es + [e], processes) && After(s, es + [e], processes) == Do(After(s, es, processes), e)
    decreases |es|
  {
    if es == [] {
      assert es + [e] == [e] && [e][1..] == [];
    } else {
      assert (es + [e])[1..] == es[1..] + [e];
      RunSnoc(Do(s, es[0]), es[1..], e, processes);
    }
  }

  ghost predicate StepsTo(s: State, e: Event, s': State) { CanDo(s, e) && Do(s, e) == s' }

  lemma LeadsOn(es: seq<Event>, s: State, e: Event, s': State, processes: set<Process>) returns (es': seq<Event>)
    requires Leads(es, s, processes) && ServedBy(e, processes) && StepsTo(s, e, s')
    ensures Leads(es', s', processes) && (NoWaffo(es) && !e.OpenWaffo? ==> NoWaffo(es'))
  {
    RunSnoc(Init, es, e, processes);
    es' := es + [e];
  }

  const Ordered := TopUp(Stripe, Pending, 5)
  const Placed := Db(map["o" := Ordered], map[], [])
  const Paid := Db(map["o" := Ordered.(status := Success)], map[], [Moved("o", Pending, Success), Credited("o", 5)])

  /** The failed-payment handler on p. */
  function WithOne(p: Process, pc: Pc): State {
    State(if pc.Waiting? then map[] else map[p := map["o" := 0]],
          map[0 := Handler(p, PaymentFailed, "o", pc)], map[], Placed)
  }

  lemma OneArrives(p: Process)
    ensures StepsTo(Init, PlaceTopUp("o", Stripe, 5), Init.(db := Placed))
    ensures StepsTo(Init.(db := Placed), Arrive(0, p, PaymentFailed, "o"), WithOne(p, Waiting))
  {
  }

  lemma OneReads(p: Process)
    ensures StepsTo(WithOne(p, Waiting), Lock(0), WithOne(p, First))
    ensures StepsTo(WithOne(p, First), Work(0, true, true), WithOne(p, HasRead(Ordered)))
  {
  }

  /** It holds a row it read as pending. */
  lemma RaceRead(p: Process, processes: set<Process>) returns (es: seq<Event>)
    requires p in processes
    ensures Leads(es, WithOne(p, HasRead(Ordered)), processes) && NoWaffo(es)
  {
    OneArrives(p);
    OneReads(p);
    es := LeadsOn([], Init, PlaceTopUp("o", Stripe, 5), Init.(db := Placed), processes);
    es := LeadsOn(es, Init.(db := Placed), Arrive(0, p, PaymentFailed, "o"), WithOne(p, Waiting), processes);
    es := LeadsOn(es, WithOne(p, Waiting), Lock(0), WithOne(p, First), processes);
    es := LeadsOn(es, WithOne(p, First), Work(0, true, true), WithOne(p, HasRead(Ordered)), processes);
  }

  /** A second handler fulfils the order on q. */
  function WithBoth(p: Process, q: Process, pc: Pc, db: Db): State {
    State(if pc.Waiting? then map[p := map["o" := 0]] else map[p := map["o" := 0], q := map["o" := 1]],
          map[0 := Handler(p, PaymentFailed, "o", HasRead(Ordered)), 1 := Handler(q, Fulfill, "o", pc)], map[], db)
  }

  lemma SecondArrives(p: Process, q: Process)
    requires p != q
    ensures StepsTo(WithOne(p, HasRead(Ordered)), Arrive(1, q, Fulfill, "o"), WithBoth(p, q, Waiting, Placed))
  {
  }

  lemma SecondLocks(p: Process, q: Process)
    requires p != q
    ensures StepsTo(WithBoth(p, q, Waiting, Placed), Lock(1), WithBoth(p, q, First, Placed))
  {
  }

  lemma SecondLooks(p: Process, q: Process)
    ensures StepsTo(WithBoth(p, q, First, Placed), Work(1, true, true), WithBoth(p, q, Second, Placed))
  {
  }

  lemma SecondPays(p: Process, q: Process)
    ensures StepsTo(WithBoth(p, q, Second, Placed), Work(1, true, true), WithBoth(p, q, Leaving, Paid))
  {
    assert Recharge(Placed, "o", Stripe) == Paid;
  }

  lemma RaceCredited(p: Process, q: Process, processes: set<Process>) returns (es: seq<Event>)
    requires p in processes && q in processes && p != q
    ensures Leads(es, WithBoth(p, q, Leaving, Paid), processes) && NoWaffo(es)
  {
    es := RaceRead(p, processes);
    SecondArrives(p, q);
    es := LeadsOn(es, WithOne(p, HasRead(Ordered)), Arrive(1, q, Fulfill, "o"), WithBoth(p, q, Waiting, Placed),
                  processes);
    SecondLocks(p, q);
    es := LeadsOn(es, WithBoth(p, q, Waiting, Placed), Lock(1), WithBoth(p, q, First, Placed), processes);
    SecondLooks(p, q);
    es := LeadsOn(es, WithBoth(p, q, First, Placed), Work(1, true, true), WithBoth(p, q, Second, Placed), processes);
    SecondPays(p, q);
    es := LeadsOn(es, WithBoth(p, q, Second, Placed), Work(1, true, true), WithBoth(p, q, Leaving, Paid), processes);
  }

  /** With two processes the stale row overwrites a credited order. */
  lemma RaceIsUnsafe(p: Process, q: Process, processes: set<Process>, waffo: bool)
    requires p in processes && q in processes && p != q
    ensures !AllRunsSafe(processes, waffo)
  {
    var es := RaceCredited(p, q, processes);
    var s, s' := WithBoth(p, q, Leaving, Paid), Do(WithBoth(p, q, Leaving, Paid), Work(0, true, true));
    es := LeadsOn(es, s, Work(0, true, true), s', processes);
    assert s'.db == Save(Paid, "o", Ordered.(status := Failed));
    Append(Paid.ledger, Moved("o", Success, Failed), "o");
    assert !Safe(s'.db, "o");
  }

  const WaffoRow := TopUp(Waffo, Pending, 5)
  const WaffoPlaced := Db(map["o" := WaffoRow], map[], [])
  const WaffoDone := Db(map["o" := WaffoRow.(status := Success)], map[],
                        [Moved("o", Pending, Success), Credited("o", 5)])

  /** A Waffo request waits for the gateway while the administrator completes its order on p. */
  function WithRequest(p: Process, pc: Pc, db: Db): State {
    State(if pc.Waiting? then map[] else map[p := map["o" := 1]], map[1 := Handler(p, AdminComplete, "o", pc)],
          map[0 := Request("o", WaffoRow)], db)
  }

  const Asked := State(map[], map[], map[0 := Request("o", WaffoRow)], WaffoPlaced)

  lemma RequestWaits(p: Process)
    ensures StepsTo(Init, OpenWaffo(0, p, "o", 5), Asked)
    ensures StepsTo(Asked, Arrive(1, p, AdminComplete, "o"), WithRequest(p, Waiting, WaffoPlaced))
  {
  }

  lemma AdminLocks(p: Process)
    ensures StepsTo(WithRequest(p, Waiting, WaffoPlaced), Lock(1), WithRequest(p, First, WaffoPlaced))
  {
  }

  lemma AdminPays(p: Process)
    ensures StepsTo(WithRequest(p, First, WaffoPlaced), Work(1, true, true), WithRequest(p, Leaving, WaffoDone))
  {
    assert ManualComplete(WaffoPlaced, "o") == WaffoDone;
  }

  lemma WaffoPaidFirst(p: Process, processes: set<Process>) returns (es: seq<Event>)
    requires p in processes
    ensures Leads(es, WithRequest(p, Leaving, WaffoDone), processes)
  {
    RequestWaits(p);
    es := LeadsOn([], Init, OpenWaffo(0, p, "o", 5), Asked, processes);
    es := LeadsOn(es, Asked, Arrive(1, p, AdminComplete, "o"), WithRequest(p, Waiting, WaffoPlaced), processes);
    AdminLocks(p);
    es := LeadsOn(es, WithRequest(p, Waiting, WaffoPlaced), Lock(1), WithRequest(p, First, WaffoPlaced), processes);
    AdminPays(p);
    es := LeadsOn(es, WithRequest(p, First, WaffoPlaced), Work(1, true, true), WithRequest(p, Leaving, WaffoDone),
                  processes);
  }

  /** One process is not enough for Waffo: a refused request overwrites an order that was credited meanwhile. */
  lemma WaffoIsUnsafe(p: Process, processes: set<Process>)
    requires p in processes
    ensures !AllRunsSafe(processes, true)
  {
    var es := WaffoPaidFirst(p, processes);
    var s, e := WithRequest(p, Leaving, WaffoDone), WaffoAnswers(0, true);
    es := LeadsOn(es, s, e, Do(s, e), processes);
    LateSaveReopens(s, e);
    assert !Safe(Do(s, e).db, "o");
  }

  const SubPlaced := Db(map[], map["o" := SubscriptionOrder(Waffo, Pending)], [])
  const SubGranted := Db(map["o" := TopUp(Unset, Success, 0)], map["o" := SubscriptionOrder(Waffo, Success)],
                         [Granted("o")])

  /** The Pancake webhook completes a subscription order on p. */
  function WithSubscription(p: Process, pc: Pc, db: Db): State {
    State(if pc.Waiting? then map[] else map[p := map["o" := 1]],
          map[1 := Handler(p, SubscriptionPaid(Waffo), "o", pc)], map[], db)
  }

  lemma SubscriptionWaits(p: Process)
    ensures StepsTo(Init, PlaceSubscription("o", Waffo), State(map[], map[], map[], SubPlaced))
    ensures StepsTo(State(map[], map[], map[], SubPlaced), Arrive(1, p, SubscriptionPaid(Waffo), "o"),
                    WithSubscription(p, Waiting, SubPlaced))
  {
  }

  lemma SubscriptionLocks(p: Process)
    ensures StepsTo(WithSubscription(p, Waiting, SubPlaced), Lock(1), WithSubscription(p, First, SubPlaced))
  {
  }

  lemma SubscriptionPays(p: Process)
    ensures StepsTo(WithSubscription(p, First, SubPlaced), Work(1, true, true),
                    WithSubscription(p, Leaving, SubGranted))
  {
    assert CompleteSubscription(SubPlaced, "o", Waffo, true).0 == SubGranted;
  }

  /** A checkout that is refused after its order was paid for hides the granted subscription. */
  lemma RefusalHidesGrant(p: Process, processes: set<Process>) returns (es: seq<Event>)
    requires p in processes
    ensures IsRun(Init, es, processes) && !GrantsShown(After(Init, es, processes).db)
  {
    var s0 := State(map[], map[], map[], SubPlaced);
    SubscriptionWaits(p);
    SubscriptionLocks(p);
    SubscriptionPays(p);
    es := LeadsOn([], Init, PlaceSubscription("o", Waffo), s0, processes);
    var s1, s2 := WithSubscription(p, Waiting, SubPlaced), WithSubscription(p, First, SubPlaced);
    es := LeadsOn(es, s0, Arrive(1, p, SubscriptionPaid(Waffo), "o"), s1, processes);
    es := LeadsOn(es, s1, Lock(1), s2, processes);
    var s := WithSubscription(p, Leaving, SubGranted);
    es := LeadsOn(es, s2, Work(1, true, true), s, processes);
    es := LeadsOn(es, s, RefuseSubscription("o"), Do(s, RefuseSubscription("o")), processes);
    Append([], Granted("o"), "o");
    assert Do(s, RefuseSubscription("o")).db.subs["o"].status == Failed;
  }

  lemma AtMostOne(processes: set<Process>)
    ensures |processes| <= 1 <==> forall p, q :: p in processes && q in processes ==> p == q
  {
    if p :| p in processes {
      assert |processes| == |processes - {p}| + 1;
      if |processes| > 1 {
        var q :| q in processes - {p};
      }
    }
  }

  lemma {:induction false} UnservedHasNoWaffo(s: State, es: seq<Event>)
    requires IsRun(s, es, {})
    ensures NoWaffo(es)
    decreases |es|
  {
    if es != [] {
      UnservedHasNoWaffo(Do(s, es[0]), es[1..]);
      assert forall i :: 0 < i < |es| ==> es[i] == es[1..][i - 1];
    }
  }

  /** The order lock lives in one process, and that is exactly enough while no Waffo payment can be requested. */
  lemma SafeExactlyOnOneProcess(processes: set<Process>, waffo: bool)
    ensures AllRunsSafe(processes, waffo) <==> |processes| <= 1 && (waffo ==> processes == {})
  {
    AtMostOne(processes);
    if |processes| <= 1 && !waffo {
      forall es | IsRun(Init, es, processes) && NoWaffo(es) ensures AllSafe(After(Init, es, processes).db) {
        NoWaffoIsTimely(Init, es, processes);
        SafeIffTimely(es, processes);
      }
    } else if processes == {} {
      forall es | IsRun(Init, es, processes) ensures AllSafe(After(Init, es, processes).db) {
        UnservedHasNoWaffo(Init, es);
        NoWaffoIsTimely(Init, es, processes);
        SafeIffTimely(es, processes);
      }
    } else if |processes| > 1 {
      var p, q :| p in processes && q in processes && p != q;
      RaceIsUnsafe(p, q, processes, waffo);
    } else {
      var p :| p in processes;
      WaffoIsUnsafe(p, processes);
    }
  }

  // ----- the tables, updated in place -----

  /** The top-up and subscription tables; each method is one transaction of model/topup.go or
      model/subscription.go and keeps every order consistent. */
  class OrderStore {
    var topUps: map<TradeNo, TopUp>
    var subs: map<TradeNo, SubscriptionOrder>
    var ledger: seq<Entry>

    function View(): Db
      reads this
    {
      Db(topUps, subs, ledger)
    }

    constructor ()
      ensures View() == Init.db && AllOk(View())
    {
      topUps, subs, ledger := map[], map[], [];
    }

    method RechargeOrder(no: TradeNo, provider: Provider) returns (ok: bool)
      requires AllOk(View())
      modifies this
      ensures View() == Recharge(old(View()), no, provider) && GoodCall(old(View()), View(), no)
      ensures ok <==> TallyOf(ledger, no).credits == TallyOf(old(ledger), no).credits + 1
    {
      assert OrderOk(View(), no);
      if no !in topUps || topUps[no].provider != provider || topUps[no].status != Pending {
        return false;
      }
      CompleteRowOk(View(), no);
      topUps := topUps[no := topUps[no].(status := Success)];
      ledger := ledger + [Moved(no, Pending, Success)];
      ledger := ledger + [Credited(no, topUps[no].quota)];
      assert View() == CompleteRow(old(View()), no);
      assert OrderOk(View(), no);
      ok := true;
    }

    method UpdatePendingTopUpStatus(no: TradeNo, provider: Provider, target: Status) returns (ok: bool)
      requires AllOk(View()) && (target == Failed || target == Expired)
      modifies this
      ensures View() == UpdatePending(old(View()), no, provider, target) && GoodCall(old(View()), View(), no)
      ensures ok <==> no in old(topUps) && old(topUps)[no].provider == provider && old(topUps)[no].status == Pending
    {
      if no !in topUps || topUps[no].provider != provider || topUps[no].status != Pending {
        return false;
      }
      LeavePendingOk(View(), no, target);
      ledger := ledger + [Moved(no, topUps[no].status, target)];
      topUps := topUps[no := topUps[no].(status := target)];
      ok := true;
    }

    method CompleteSubscriptionOrder(no: TradeNo, provider: Provider, methodsAgree: bool) returns (r: SubResult)
      requires AllOk(View())
      modifies this
      ensures (View(), r) == CompleteSubscription(old(View()), no, provider, methodsAgree)
      ensures GoodCall(old(View()), View(), no)
    {
      CompleteSubscriptionOk(View(), no, provider, methodsAgree);
      if no !in subs {
        return NotFound;
      }
      var order := subs[no];
      if order.provider != provider {
        return Refused;
      }
      if order.status == Success {
        return Done;
      }
      if order.status != Pending || (no in topUps && !methodsAgree) {
        return Refused;
      }
      if no in topUps {
        ledger := ledger + [Moved(no, topUps[no].status, Success)];
        topUps := topUps[no := topUps[no].(status := Success)];
      } else {
        topUps := topUps[no := TopUp(Unset, Success, 0)];
      }
      subs := subs[no := order.(status := Success)];
      ledger := ledger + [Granted(no)];
      r := Done;
    }
  }
}
