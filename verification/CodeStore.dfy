/** The bounded store of verification codes of common/verification.go. Times are in nanoseconds. */
module CodeStore {
  import opened Base

  datatype Value = Value(code: string, time: int)
  type Store = map<string, Value>

  const MaxSize := 10000
  const Lifetime := 10 * 60 * 1_000_000_000

  predicate Expired(v: Value, now: int) { now - v.time >= Lifetime }

  /** The key under which the code of a purpose is kept. */
  function FullKey(purpose: string, key: string): string { purpose + key }

  // ----- which entry the size limit drops -----

  predicate Enumerates(store: Store, order: seq<string>) {
    && (forall i :: 0 <= i < |order| ==> order[i] in store)
    && (forall i, j :: 0 <= i < j < |order| ==> order[i] != order[j])
    && (forall k :: k in store ==> k in order)
  }

  /** The scan of trimVerificationMap over the entries in the given order; "" stands for "none yet". */
  function Scan(store: Store, order: seq<string>): string
    requires forall i :: 0 <= i < |order| ==> order[i] in store
    ensures order != [] ==> Scan(store, order) in order
  {
    if order == [] then ""
    else
      var best, k := Scan(store, order[..|order| - 1]), order[|order| - 1];
      if best == "" || store[k].time < store[best].time then k else best
  }

  predicate IsOldest(store: Store, key: string) {
    key in store && forall k :: k in store ==> store[key].time <= store[k].time
  }

  /** An entry with the empty key that is older than all others. */
  predicate EmptyKeyIsOldest(store: Store) {
    "" in store && forall k :: k in store && k != "" ==> store[""].time < store[k].time
  }

  lemma {:induction false} ScanReaches(store: Store, order: seq<string>, oldest: string)
    requires forall i :: 0 <= i < |order| ==> order[i] in store
    requires IsOldest(store, oldest) && oldest != "" && oldest in order
    ensures Scan(store, order) != "" && store[Scan(store, order)].time == store[oldest].time
  {
    var n := |order| - 1;
    if oldest in order[..n] {
      ScanReaches(store, order[..n], oldest);
    } else {
      assert order[n] == oldest;
    }
  }

  /** Some oldest entry has a non-empty key. */
  lemma OldestNamed(store: Store, order: seq<string>) returns (oldest: string)
    requires Enumerates(store, order) && order != [] && !EmptyKeyIsOldest(store)
    ensures IsOldest(store, oldest) && oldest != ""
  {
    oldest := order[0];
    for i := 1 to |order|
      invariant oldest in order
      invariant forall j :: 0 <= j < i ==> store[oldest].time <= store[order[j]].time
    {
      if store[order[i]].time < store[oldest].time {
        oldest := order[i];
      }
    }
    assert IsOldest(store, oldest);
    if oldest == "" {
      oldest :| oldest in store && oldest != "" && store[oldest].time <= store[""].time;
    }
  }

  /** The scan finds an oldest entry, unless the empty key is the oldest one and is not seen last. */
  lemma {:induction false} ScanIsOldestIff(store: Store, order: seq<string>)
    requires Enumerates(store, order) && order != []
    ensures IsOldest(store, Scan(store, order)) <==> !(EmptyKeyIsOldest(store) && order[|order| - 1] != "")
  {
    var n := |order| - 1;
    if EmptyKeyIsOldest(store) {
      assert n > 0 ==> Scan(store, order[..n]) in order[..n];
      assert order[n] == "" ==> "" !in order[..n];
    } else {
      var oldest := OldestNamed(store, order);
      ScanReaches(store, order, oldest);
    }
  }

  // ----- runs -----

  predicate Accepts(store: Store, key: string, code: string, now: int) {
    key in store && !Expired(store[key], now) && store[key].code == code
  }

  function Unexpired(store: Store, now: int): Store { map k | k in store && !Expired(store[k], now) :: store[k] }

  /** The entries other than the empty key that are no younger than it. */
  function Elders(store: Store): set<string> {
    set k | k in store && k != "" && "" in store && store[k].time <= store[""].time
  }

  /** While the store is trimmed, the empty key never becomes older than all others. */
  predicate Orderly(store: Store) { "" in store && |store| > MaxSize ==> |Elders(store)| >= |store| - MaxSize }

  /** One entry too many: exactly when the empty key is not the oldest. */
  lemma OrderlyByOne(store: Store)
    requires |store| == MaxSize + 1 && "" in store
    ensures Orderly(store) <==> !EmptyKeyIsOldest(store)
  {
    if k :| k in store && k != "" && store[k].time <= store[""].time {
      assert k in Elders(store);
    }
    if EmptyKeyIsOldest(store) {
      assert Elders(store) == {};
    }
  }

  /** Nothing dropped is newer than anything kept. */
  ghost predicate InOrder(store: Store, kept: Store) {
    kept.Keys <= store.Keys && forall k, d :: k in kept && d in store && d !in kept ==> store[d].time <= store[k].time
  }

  /** `kept` is what is left of a store by dropping oldest entries until it fits. */
  ghost predicate Trimmed(store: Store, kept: Store) {
    && kept.Keys <= store.Keys && (forall k :: k in kept ==> kept[k] == store[k])
    && |kept| == (if |store| <= MaxSize then |store| else MaxSize)
    && (Orderly(store) ==> InOrder(store, kept))
  }

  datatype Op =
    | Register(key: string, code: string, now: int, sweptAt: int)
    | Verify(key: string, code: string, now: int, ok: bool)
    | Consume(key: string, code: string, now: int, ok: bool)
    | Delete(key: string)

  ghost predicate Does(store: Store, op: Op, store': Store) {
    match op
    case Register(key, code, now, sweptAt) => Trimmed(Unexpired(store[key := Value(code, now)], sweptAt), store')
    case Verify(key, code, now, ok) => store' == store && ok == Accepts(store, key, code, now)
    case Consume(key, code, now, ok) =>
      ok == Accepts(store, key, code, now) && store' == if ok then store - {key} else store
    case Delete(key) => store' == store - {key}
  }

  ghost predicate DoesAt(ops: seq<Op>, stores: seq<Store>, i: nat)
    requires i < |ops| && |stores| == |ops| + 1
  {
    Does(stores[i], ops[i], stores[i + 1])
  }

  /** A run from the empty store; `stores[i]` is the store before the i-th call. */
  ghost predicate IsRun(ops: seq<Op>, stores: seq<Store>) {
    |stores| == |ops| + 1 && stores[0] == map[] && forall i :: 0 <= i < |ops| ==> DoesAt(ops, stores, i)
  }

  /** The registration of a key that has been neither used, deleted nor replaced, as an index into the run. */
  function Live(ops: seq<Op>, key: string): (r: Option<nat>)
    ensures r.Some? ==> r.value < |ops| && ops[r.value].Register? && ops[r.value].key == key
  {
    if ops == [] then None
    else
      var n := |ops| - 1;
      match ops[n]
      case Register(k, _, _, _) => if k == key then Some(n) else Live(ops[..n], key)
      case Consume(k, _, _, ok) => if k == key && ok then None else Live(ops[..n], key)
      case Delete(k) => if k == key then None else Live(ops[..n], key)
      case _ => Live(ops[..n], key)
  }

  function Registrations(ops: seq<Op>, key: string): nat {
    if ops == [] then 0
    else Registrations(ops[..|ops| - 1], key) + if ops[|ops| - 1].Register? && ops[|ops| - 1].key == key then 1 else 0
  }

  predicate IsConsume(op: Op, key: string) { op.Consume? && op.ok && op.key == key }

  function Consumes(ops: seq<Op>, key: string): nat {
    if ops == [] then 0 else Consumes(ops[..|ops| - 1], key) + if IsConsume(ops[|ops| - 1], key) then 1 else 0
  }

  /** What is stored is the live registration. */
  ghost predicate HoldsLive(ops: seq<Op>, store: Store) {
    forall key :: key in store ==>
      Live(ops, key).Some? && var op := ops[Live(ops, key).value]; store[key] == Value(op.code, op.now)
  }

  lemma DoKeepsLive(ops: seq<Op>, store: Store, op: Op, store': Store)
    requires HoldsLive(ops, store) && Does(store, op, store')
    ensures HoldsLive(ops + [op], store')
  {
    var ops' := ops + [op];
    assert ops'[..|ops|] == ops;
    forall key | key in store'
      ensures Live(ops', key).Some? && var o := ops'[Live(ops', key).value]; store'[key] == Value(o.code, o.now)
    {
      assert key in store || (op.Register? && op.key == key);
    }
  }

  lemma RunPrefix(ops: seq<Op>, stores: seq<Store>, n: nat)
    requires IsRun(ops, stores) && n <= |ops|
    ensures IsRun(ops[..n], stores[..n + 1])
  {
    var ops', stores' := ops[..n], stores[..n + 1];
    forall i | 0 <= i < n ensures DoesAt(ops', stores', i) {
      assert DoesAt(ops, stores, i);
    }
  }

  lemma {:induction false} RunHoldsLive(ops: seq<Op>, stores: seq<Store>)
    requires IsRun(ops, stores)
    ensures HoldsLive(ops, stores[|ops|])
    decreases |ops|
  {
    if ops != [] {
      var n := |ops| - 1;
      RunPrefix(ops, stores, n);
      RunHoldsLive(ops[..n], stores[..n + 1]);
      assert DoesAt(ops, stores, n);
      DoKeepsLive(ops[..n], stores[n], ops[n], stores[n + 1]);
      assert ops == ops[..n] + [ops[n]];
    }
  }

  /** A successful consume uses the latest registration of its key, which has the same code, is younger than the
      lifetime, and was not used, deleted or replaced before; no later consume can use it again. */
  lemma ConsumeUsesLatest(ops: seq<Op>, stores: seq<Store>, i: nat)
    requires IsRun(ops, stores) && i < |ops| && ops[i].Consume? && ops[i].ok
    ensures var r := Live(ops[..i], ops[i].key);
            && r.Some? && ops[r.value].code == ops[i].code && ops[i].now - ops[r.value].now < Lifetime
            && Live(ops[..i + 1], ops[i].key) == None
  {
    RunPrefix(ops, stores, i);
    RunHoldsLive(ops[..i], stores[..i + 1]);
    assert DoesAt(ops, stores, i);
    assert ops[..i + 1][..i] == ops[..i];
  }

  lemma {:induction false} LiveRemains(ops: seq<Op>, m: nat, n: nat, key: string)
    requires m <= n <= |ops| && Live(ops[..n], key).Some? && Live(ops[..n], key).value < m
    ensures Live(ops[..m], key) == Live(ops[..n], key)
    decreases n - m
  {
    if m < n {
      assert ops[..n][..n - 1] == ops[..n - 1];
      LiveRemains(ops, m, n - 1, key);
    }
  }

  /** Two successful consumes of a key use two different registrations. */
  lemma ConsumesAreDistinct(ops: seq<Op>, stores: seq<Store>, i: nat, j: nat)
    requires IsRun(ops, stores) && i < j < |ops| && IsConsume(ops[i], ops[i].key) && IsConsume(ops[j], ops[i].key)
    ensures Live(ops[..i], ops[i].key) != Live(ops[..j], ops[i].key)
  {
    var key := ops[i].key;
    ConsumeUsesLatest(ops, stores, i);
    ConsumeUsesLatest(ops, stores, j);
    if Live(ops[..j], key).value < i + 1 {
      LiveRemains(ops, i + 1, j, key);
    }
  }

  /** Codes are used at most as often as they were registered. */
  lemma {:induction false} ConsumesAtMostRegistrations(ops: seq<Op>, stores: seq<Store>, key: string)
    requires IsRun(ops, stores)
    ensures Consumes(ops, key) + (if Live(ops, key).Some? then 1 else 0) <= Registrations(ops, key)
    decreases |ops|
  {
    if ops != [] {
      var n := |ops| - 1;
      RunPrefix(ops, stores, n);
      ConsumesAtMostRegistrations(ops[..n], stores[..n + 1], key);
      if IsConsume(ops[n], key) {
        ConsumeUsesLatest(ops, stores, n);
      }
    }
  }

  function Swept(store: Store, op: Op): Store
    requires op.Register?
  {
    Unexpired(store[op.key := Value(op.code, op.now)], op.sweptAt)
  }

  /** After a registration the store fits and holds nothing expired; unless the empty key becomes the oldest one,
      nothing newer than a kept entry was dropped for its size. */
  lemma AfterRegistration(store: Store, op: Op, store': Store)
    requires op.Register? && Does(store, op, store')
    ensures |store'| <= MaxSize
    ensures forall k :: k in store' ==> !Expired(store'[k], op.sweptAt)
    ensures Orderly(Swept(store, op)) ==>
              forall k, d :: k in store' && d in store && d !in store' && d != op.key ==>
                Expired(store[d], op.sweptAt) || store[d].time <= store'[k].time
    ensures "" !in store && op.key != "" ==> Orderly(Swept(store, op))
  {
    assert forall d :: d in store && d != op.key && !Expired(store[d], op.sweptAt) ==> d in Swept(store, op);
  }

  // ----- with room for all -----

  /** The clock reading at the end of a call, given the one before it. */
  function Clock(op: Op, before: int): int {
    match op
    case Register(_, _, _, sweptAt) => sweptAt
    case Verify(_, _, now, _) => now
    case Consume(_, _, now, _) => now
    case Delete(_) => before
  }

  function ClockAfter(ops: seq<Op>, start: int): int {
    if ops == [] then start else Clock(ops[|ops| - 1], ClockAfter(ops[..|ops| - 1], start))
  }

  /** The clock does not run backwards and the registration, if it is one, needs no trimming. */
  predicate FitsIn(op: Op, before: int, store: Store) {
    match op
    case Register(key, code, now, sweptAt) =>
      before <= now <= sweptAt && |Unexpired(store[key := Value(code, now)], sweptAt)| <= MaxSize
    case Delete(_) => true
    case _ => before <= op.now
  }

  ghost predicate Roomy(ops: seq<Op>, stores: seq<Store>, start: int)
    requires |stores| == |ops| + 1
  {
    forall i :: 0 <= i < |ops| ==> FitsIn(ops[i], ClockAfter(ops[..i], start), stores[i])
  }

  /** A live registration that is not stored has expired. */
  ghost predicate MissingIsExpired(ops: seq<Op>, store: Store, now: int) {
    forall key :: Live(ops, key).Some? && key !in store ==> now - ops[Live(ops, key).value].now >= Lifetime
  }

  lemma {:induction false} Smaller(a: set<string>, b: set<string>)
    requires a <= b
    ensures |a| <= |b|
    decreases a
  {
    if x :| x in a {
      Smaller(a - {x}, b - {x});
    }
  }

  lemma NothingTrimmed(store: Store, kept: Store)
    requires Trimmed(store, kept) && |store| <= MaxSize
    ensures kept == store
  {
    if d :| d in store.Keys && d !in kept.Keys {
      assert kept.Keys <= store.Keys - {d};
      Smaller(kept.Keys, store.Keys - {d});
    }
  }

  lemma DoKeepsMissing(ops: seq<Op>, store: Store, op: Op, store': Store, before: int)
    requires HoldsLive(ops, store) && MissingIsExpired(ops, store, before) && Does(store, op, store')
    requires FitsIn(op, before, store)
    ensures MissingIsExpired(ops + [op], store', Clock(op, before))
  {
    var ops' := ops + [op];
    assert ops'[..|ops|] == ops;
    if op.Register? {
      NothingTrimmed(Unexpired(store[op.key := Value(op.code, op.now)], op.sweptAt), store');
    }
  }

  lemma {:induction false} RunKeepsMissing(ops: seq<Op>, stores: seq<Store>, start: int)
    requires IsRun(ops, stores) && Roomy(ops, stores, start)
    ensures MissingIsExpired(ops, stores[|ops|], ClockAfter(ops, start))
    decreases |ops|
  {
    if ops != [] {
      var n := |ops| - 1;
      var init, before := ops[..n], stores[..n + 1];
      RunPrefix(ops, stores, n);
      assert Roomy(init, before, start) by {
        forall i | 0 <= i < n ensures FitsIn(init[i], ClockAfter(init[..i], start), before[i]) {
          assert init[..i] == ops[..i];
        }
      }
      RunKeepsMissing(init, before, start);
      RunHoldsLive(init, before);
      assert DoesAt(ops, stores, n);
      DoKeepsMissing(init, stores[n], ops[n], stores[n + 1], ClockAfter(init, start));
      assert ops == init + [ops[n]];
    }
  }

  /** While the store has room, a check or use succeeds exactly when the code is that of the latest registration,
      which was not used or deleted since and is younger than the lifetime. */
  lemma {:induction false} VerdictIsExact(ops: seq<Op>, stores: seq<Store>, start: int, op: Op, store': Store)
    requires IsRun(ops, stores) && Roomy(ops, stores, start) && (op.Verify? || op.Consume?)
    requires Does(stores[|ops|], op, store') && ClockAfter(ops, start) <= op.now
    ensures op.ok <==> var r := Live(ops, op.key);
                       r.Some? && ops[r.value].code == op.code && op.now - ops[r.value].now < Lifetime
  {
    RunHoldsLive(ops, stores);
    RunKeepsMissing(ops, stores, start);
  }

  // ----- the store itself -----

  /** removeExpiredPairs, visiting the keys in any order. */
  method RemoveExpired(store: Store, now: int) returns (kept: Store)
    ensures kept == Unexpired(store, now)
  {
    kept := store;
    var todo := store.Keys;
    while todo != {}
      invariant todo <= store.Keys
      invariant kept == map k | k in store && (k in todo || !Expired(store[k], now)) :: store[k]
      decreases |todo|
    {
      var k :| k in todo;
      if Expired(store[k], now) {
        kept := kept - {k};
      }
      todo := todo - {k};
    }
  }

  /** The keys seen so far, each once, and those to come. */
  ghost predicate Visiting(store: Store, todo: set<string>, order: seq<string>) {
    && todo <= store.Keys && (forall i :: 0 <= i < |order| ==> order[i] in store && order[i] !in todo)
    && (forall i, j :: 0 <= i < j < |order| ==> order[i] != order[j])
    && (forall k :: k in store ==> k in todo || k in order)
  }

  lemma {:induction false} VisitOne(store: Store, todo: set<string>, order: seq<string>, k: string)
    requires Visiting(store, todo, order) && k in todo
    ensures Visiting(store, todo - {k}, order + [k])
    ensures var best := Scan(store, order);
            Scan(store, order + [k]) == if best == "" || store[k].time < store[best].time then k else best
  {
    assert (order + [k])[..|order|] == order;
  }

  /** The inner loop of trimVerificationMap, visiting the keys in any order. */
  method FindOldest(store: Store) returns (oldestKey: string)
    requires |store| > 0
    ensures oldestKey in store
    ensures !EmptyKeyIsOldest(store) ==> IsOldest(store, oldestKey) && oldestKey != ""
  {
    oldestKey := "";
    var oldest := 0;
    var todo := store.Keys;
    ghost var order: seq<string> := [];
    while todo != {}
      invariant Visiting(store, todo, order)
      invariant oldestKey == Scan(store, order) && (order != [] ==> oldest == store[oldestKey].time)
      decreases |todo|
    {
      var k :| k in todo;
      VisitOne(store, todo, order, k);
      if oldestKey == "" || store[k].time < oldest {
        oldestKey, oldest := k, store[k].time;
      }
      order := order + [k];
      todo := todo - {k};
    }
    if !EmptyKeyIsOldest(store) {
      var named := OldestNamed(store, order);
      ScanReaches(store, order, named);
    }
  }

  /** Dropping an oldest entry keeps the empty key from becoming the oldest. */
  lemma DropKeepsOrder(store: Store, oldest: string)
    requires |store| > MaxSize && Orderly(store) && !EmptyKeyIsOldest(store)
    requires IsOldest(store, oldest) && oldest != ""
    ensures Orderly(store - {oldest})
  {
    var kept := store - {oldest};
    assert kept.Keys == store.Keys - {oldest};
    if "" in store {
      assert Elders(kept) == Elders(store) - {oldest};
    }
  }

  lemma OrderlyIsNamed(store: Store)
    requires |store| > MaxSize && Orderly(store)
    ensures !EmptyKeyIsOldest(store)
  {
    if "" in store {
      assert Elders(store) != {};
      var k :| k in Elders(store);
    }
  }

  /** trimVerificationMap. */
  method Trim(store: Store) returns (kept: Store)
    ensures Trimmed(store, kept)
  {
    kept := store;
    while |kept| > MaxSize
      invariant kept.Keys <= store.Keys && forall k :: k in kept ==> kept[k] == store[k]
      invariant |kept| == |store| || MaxSize <= |kept| < |store|
      invariant Orderly(store) ==> Orderly(kept) && InOrder(store, kept)
      decreases |kept|
    {
      var oldest := FindOldest(kept);
      if Orderly(store) {
        OrderlyIsNamed(kept);
        DropKeepsOrder(kept, oldest);
      }
      assert (kept - {oldest}).Keys == kept.Keys - {oldest};
      kept := kept - {oldest};
    }
  }

  class VerificationStore {
    var store: Store

    constructor ()
      ensures store == map[]
    {
      store := map[];
    }

    method RegisterVerificationCode(key: string, code: string, purpose: string, now: int, sweptAt: int)
      modifies this
      ensures Does(old(store), Register(FullKey(purpose, key), code, now, sweptAt), store)
    {
      store := store[FullKey(purpose, key) := Value(code, now)];
      store := RemoveExpired(store, sweptAt);
      store := Trim(store);
    }

    method VerifyCode(key: string, code: string, purpose: string, now: int) returns (ok: bool)
      ensures Does(store, Verify(FullKey(purpose, key), code, now, ok), store)
    {
      var k := FullKey(purpose, key);
      if k !in store || Expired(store[k], now) {
        return false;
      }
      return code == store[k].code;
    }

    method ConsumeVerificationCode(key: string, code: string, purpose: string, now: int) returns (ok: bool)
      modifies this
      ensures Does(old(store), Consume(FullKey(purpose, key), code, now, ok), store)
    {
      var k := FullKey(purpose, key);
      if k !in store || Expired(store[k], now) || code != store[k].code {
        return false;
      }
      store := store - {k};
      return true;
    }

    method DeleteKey(key: string, purpose: string)
      modifies this
      ensures Does(old(store), Delete(FullKey(purpose, key)), store)
    {
      store := store - {FullKey(purpose, key)};
    }
  }
}
