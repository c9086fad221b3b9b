/** The sliding-window limiter of common/rate-limit.go: a bounded queue for each key, swept in the
    background, against the full history of accepted requests. Times are whole seconds. */
module RateLimit {

  /** The acceptance times still queued, oldest first, by key. */
  type Store = map<string, seq<int>>

  function At(m: Store, key: string): seq<int> { if key in m then m[key] else [] }

  /** The branch structure of Request: the new store and the decision. */
  function Request(store: Store, key: string, limit: int, duration: int, now: int): (Store, bool) {
    if limit <= 0 then (store, true)
    else if duration <= 0 then (store, false)
    else if key !in store then (store[key := [now]], true)
    else
      var queue := store[key];
      if |queue| < limit then (store[key := queue + [now]], true)
      else if now - queue[0] >= duration then (store[key := queue[1..] + [now]], true)
      else (store, false)
  }

  predicate Stale(queue: seq<int>, expiration: int, now: int) {
    |queue| == 0 || now - queue[|queue| - 1] > expiration
  }

  /** One pass of clearExpiredItems. */
  function Sweep(store: Store, expiration: int, now: int): Store {
    map key | key in store && !Stale(store[key], expiration, now) :: store[key]
  }

  // ----- runs with their full history -----

  datatype Op = Ask(key: string, limit: int, duration: int, now: int) | Clear(now: int)

  /** The limiter, and beside it what only an observer knows: every acceptance ever. */
  datatype World = World(store: Store, history: Store, clock: int)

  const Start := World(map[], map[], 0)

  /** An ask that reaches the queue. */
  predicate Queued(op: Op) { op.Ask? && op.limit > 0 && op.duration > 0 }

  function Decision(w: World, op: Op): bool
    requires op.Ask?
  {
    Request(w.store, op.key, op.limit, op.duration, op.now).1
  }

  function Do(w: World, op: Op, expiration: int): World {
    match op
    case Clear(now) => World(Sweep(w.store, expiration, now), w.history, now)
    case Ask(key, limit, duration, now) =>
      World(Request(w.store, key, limit, duration, now).0,
            if Queued(op) && Decision(w, op) then w.history[key := At(w.history, key) + [now]] else w.history,
            now)
  }

  /** The clock does not run backwards. */
  predicate IsRun(w: World, ops: seq<Op>, expiration: int)
    decreases |ops|
  {
    ops == [] || (w.clock <= ops[0].now && IsRun(Do(w, ops[0], expiration), ops[1..], expiration))
  }

  function After(w: World, ops: seq<Op>, expiration: int): World
    decreases |ops|
  {
    if ops == [] then w else After(Do(w, ops[0], expiration), ops[1..], expiration)
  }

  /** How many of the times lie in the last `duration` seconds. */
  function Recent(times: seq<int>, now: int, duration: int): nat {
    if times == [] then 0
    else (if now - times[0] < duration then 1 else 0) + Recent(times[1..], now, duration)
  }

  /** What the limiter promises: fewer than `limit` acceptances in the window of the full history. */
  predicate ShouldAccept(w: World, op: Op)
    requires op.Ask?
  {
    op.limit <= 0 || (op.duration > 0 && Recent(At(w.history, op.key), op.now, op.duration) < op.limit)
  }

  predicate Agrees(w: World, op: Op) { op.Ask? ==> (Decision(w, op) <==> ShouldAccept(w, op)) }

  predicate Exact(w: World, ops: seq<Op>, expiration: int)
    decreases |ops|
  {
    ops == [] || (Agrees(w, ops[0]) && Exact(Do(w, ops[0], expiration), ops[1..], expiration))
  }

  // ----- counting -----

  lemma {:induction false} RecentSplit(a: seq<int>, b: seq<int>, now: int, duration: int)
    ensures Recent(a + b, now, duration) == Recent(a, now, duration) + Recent(b, now, duration)
  {
    if a == [] {
      assert a + b == b;
    } else {
      RecentSplit(a[1..], b, now, duration);
      assert (a + b)[1..] == a[1..] + b;
    }
  }

  lemma {:induction false} RecentNone(times: seq<int>, now: int, duration: int)
    requires forall i :: 0 <= i < |times| ==> now - times[i] >= duration
    ensures Recent(times, now, duration) == 0
  {
    if times != [] {
      RecentNone(times[1..], now, duration);
    }
  }

  lemma {:induction false} RecentAll(times: seq<int>, now: int, duration: int)
    requires forall i :: 0 <= i < |times| ==> now - times[i] < duration
    ensures Recent(times, now, duration) == |times|
  {
    if times != [] {
      RecentAll(times[1..], now, duration);
    }
  }

  lemma {:induction false} RecentAtMost(times: seq<int>, now: int, duration: int)
    ensures Recent(times, now, duration) <= |times|
  {
    if times != [] {
      RecentAtMost(times[1..], now, duration);
    }
  }

  // ----- the policies a key may be asked with -----

  datatype Policy = Policy(limit: int, duration: int)

  /** What the earlier asks of a key allow: the current limit, the longest window that a queue short of it still
      answers for, and the shortest window asked at this limit. */
  datatype Terms = Terms(limit: int, bound: int, least: int)

  type Book = map<string, Terms>

  function Min(a: int, b: int): int { if a <= b then a else b }

  /** At the same limit every window up to the bound; at a larger one, windows that no earlier ask undercut. */
  predicate Allows(t: Terms, policy: Policy) {
    || (policy.limit == t.limit && policy.duration <= t.bound)
    || (policy.limit > t.limit && policy.duration <= Min(t.bound, t.least))
  }

  function Extend(t: Terms, policy: Policy): Terms {
    if policy.limit == t.limit then t.(least := Min(t.least, policy.duration))
    else Terms(policy.limit, Min(t.bound, t.least), policy.duration)
  }

  predicate Allowed(book: Book, op: Op, expiration: int) {
    Queued(op) ==>
      if op.key in book then Allows(book[op.key], Policy(op.limit, op.duration)) else op.duration <= expiration + 1
  }

  function Record(book: Book, op: Op, expiration: int): Book {
    if !Queued(op) then book
    else if op.key in book then book[op.key := Extend(book[op.key], Policy(op.limit, op.duration))]
    else book[op.key := Terms(op.limit, expiration + 1, op.duration)]
  }

  predicate AllAllowed(book: Book, ops: seq<Op>, expiration: int)
    decreases |ops|
  {
    ops == [] ||
    (Allowed(book, ops[0], expiration) && AllAllowed(Record(book, ops[0], expiration), ops[1..], expiration))
  }

  // ----- one queue -----

  ghost predicate Sorted(times: seq<int>) { forall i, j :: 0 <= i < j < |times| ==> times[i] <= times[j] }

  /** The queue is the end of the history, in time order. */
  ghost predicate Tracks(queue: seq<int>, history: seq<int>, clock: int) {
    && Sorted(history)
    && (forall i :: 0 <= i < |history| ==> history[i] <= clock)
    && |queue| <= |history| && history[|history| - |queue|..] == queue
  }

  /** What is in the history but not in the queue is outside the window for good. */
  ghost predicate RestIsGone(queue: seq<int>, history: seq<int>, clock: int, duration: int) {
    forall i :: 0 <= i < |history| - |queue| ==> clock - history[i] >= duration
  }

  /** A queue is full, or answers for every window up to the bound; a full one dropped nothing younger than the
      shortest window asked. */
  ghost predicate QueueOk(queue: seq<int>, history: seq<int>, clock: int, t: Terms, expiration: int) {
    && Tracks(queue, history, clock)
    && 0 < t.limit && |queue| <= t.limit && t.bound <= expiration + 1
    && (|queue| == t.limit || RestIsGone(queue, history, clock, t.bound))
    && RestIsGone(queue, history, clock, Min(t.bound, t.least))
  }

  lemma LaterIsOk(queue: seq<int>, history: seq<int>, clock: int, now: int, t: Terms, expiration: int)
    requires QueueOk(queue, history, clock, t, expiration) && clock <= now
    ensures QueueOk(queue, history, now, t, expiration)
  {
  }

  lemma ExtendIsOk(queue: seq<int>, history: seq<int>, clock: int, t: Terms, policy: Policy, expiration: int)
    requires QueueOk(queue, history, clock, t, expiration) && Allows(t, policy)
    ensures QueueOk(queue, history, clock, Extend(t, policy), expiration)
  {
  }

  /** A queue short of the limit takes another time. */
  lemma RoomIsOk(queue: seq<int>, history: seq<int>, now: int, t: Terms, expiration: int)
    requires QueueOk(queue, history, now, t, expiration) && |queue| < t.limit
    ensures QueueOk(queue + [now], history + [now], now, t, expiration)
  {
    var queue', history' := queue + [now], history + [now];
    assert history'[|history'| - |queue'|..] == queue';
  }

  /** A full queue lets its oldest time go once that is outside the window. */
  lemma FullIsOk(queue: seq<int>, history: seq<int>, now: int, t: Terms, expiration: int)
    requires QueueOk(queue, history, now, t, expiration) && |queue| == t.limit && now - queue[0] >= t.least
    ensures QueueOk(queue[1..] + [now], history + [now], now, t, expiration)
  {
    var queue', history' := queue[1..] + [now], history + [now];
    assert history'[|history'| - |queue'|..] == queue';
    var first := |history| - |queue|;
    assert history[first] == history[first..][0] == queue[0];
  }

  /** A full queue with its oldest time in the window leaves no room. */
  lemma {:induction false} FullInWindow(queue: seq<int>, now: int, duration: int)
    requires Sorted(queue) && queue != [] && now - queue[0] < duration
    ensures Recent(queue, now, duration) == |queue|
  {
    RecentAll(queue, now, duration);
  }

  lemma TailSorted(queue: seq<int>, history: seq<int>, clock: int)
    requires Tracks(queue, history, clock) && queue != []
    ensures Sorted(queue)
    ensures forall i :: 0 <= i < |history| - |queue| ==> history[i] <= queue[0]
  {
    var first := |history| - |queue|;
    assert forall i :: 0 <= i < |queue| ==> queue[i] == history[first + i];
    assert queue[0] == history[first];
  }

  lemma {:induction false} FullDecides(queue: seq<int>, history: seq<int>, now: int, policy: Policy)
    requires Tracks(queue, history, now) && |queue| == policy.limit > 0
    ensures now - queue[0] >= policy.duration <==> Recent(history, now, policy.duration) < policy.limit
  {
    var gone := history[..|history| - |queue|];
    assert history == gone + queue;
    TailSorted(queue, history, now);
    RecentSplit(gone, queue, now, policy.duration);
    if now - queue[0] < policy.duration {
      FullInWindow(queue, now, policy.duration);
    } else {
      RecentNone(gone, now, policy.duration);
      RecentAtMost(queue[1..], now, policy.duration);
    }
  }

  /** The decision on one queue is the one on its full history. */
  lemma {:induction false} QueueDecides(queue: seq<int>, history: seq<int>, now: int, t: Terms, policy: Policy,
                                        expiration: int)
    requires QueueOk(queue, history, now, t, expiration) && Allows(t, policy) && 0 < policy.duration
    ensures |queue| < policy.limit || now - queue[0] >= policy.duration <==>
            Recent(history, now, policy.duration) < policy.limit
  {
    var gone := history[..|history| - |queue|];
    assert history == gone + queue;
    RecentSplit(gone, queue, now, policy.duration);
    RecentAtMost(queue, now, policy.duration);
    if |queue| < policy.limit {
      RecentNone(gone, now, policy.duration);
    } else {
      FullDecides(queue, history, now, policy);
    }
  }

  // ----- every run -----

  ghost predicate KeyOk(w: World, book: Book, key: string, expiration: int) {
    && (key in w.store ==> w.store[key] != [])
    && (key !in book ==> key !in w.store && key !in w.history)
    && (key in book ==> QueueOk(At(w.store, key), At(w.history, key), w.clock, book[key], expiration))
  }

  ghost predicate Inv(w: World, book: Book, expiration: int) { forall key :: KeyOk(w, book, key, expiration) }

  /** The terms that hold for a key during an ask. */
  function TermsOf(book: Book, op: Op, expiration: int): Terms
    requires Queued(op)
  {
    if op.key in book then book[op.key] else Terms(op.limit, expiration + 1, op.duration)
  }

  lemma AskedIsOk(w: World, book: Book, op: Op, expiration: int)
    requires Queued(op) && KeyOk(w, book, op.key, expiration) && w.clock <= op.now && Allowed(book, op, expiration)
    ensures var t, queue, history := TermsOf(book, op, expiration), At(w.store, op.key), At(w.history, op.key);
            Allows(t, Policy(op.limit, op.duration)) && QueueOk(queue, history, op.now, t, expiration) &&
            QueueOk(queue, history, op.now, Record(book, op, expiration)[op.key], expiration)
  {
    var t, queue, history := TermsOf(book, op, expiration), At(w.store, op.key), At(w.history, op.key);
    if op.key in book {
      LaterIsOk(queue, history, w.clock, op.now, t, expiration);
    }
    ExtendIsOk(queue, history, op.now, t, Policy(op.limit, op.duration), expiration);
  }

  lemma DecisionIsExact(w: World, book: Book, op: Op, expiration: int)
    requires op.Ask? && KeyOk(w, book, op.key, expiration) && w.clock <= op.now && Allowed(book, op, expiration)
    ensures Decision(w, op) <==> ShouldAccept(w, op)
  {
    if Queued(op) {
      AskedIsOk(w, book, op, expiration);
      QueueDecides(At(w.store, op.key), At(w.history, op.key), op.now, TermsOf(book, op, expiration),
                   Policy(op.limit, op.duration), expiration);
    }
  }

  lemma OtherKeyUntouched(w: World, book: Book, op: Op, key: string, expiration: int)
    requires op.Ask? && (key != op.key || !Queued(op))
    ensures var w' := Do(w, op, expiration);
            && (key in w'.store <==> key in w.store) && At(w'.store, key) == At(w.store, key)
            && (key in w'.history <==> key in w.history) && At(w'.history, key) == At(w.history, key)
    ensures var book' := Record(book, op, expiration);
            (key in book' <==> key in book) && (key in book ==> book'[key] == book[key])
  {
  }

  lemma OtherKeyStaysOk(w: World, book: Book, op: Op, key: string, expiration: int)
    requires KeyOk(w, book, key, expiration) && op.Ask? && w.clock <= op.now && (key != op.key || !Queued(op))
    ensures KeyOk(Do(w, op, expiration), Record(book, op, expiration), key, expiration)
  {
    OtherKeyUntouched(w, book, op, key, expiration);
    if key in book {
      LaterIsOk(At(w.store, key), At(w.history, key), w.clock, op.now, book[key], expiration);
    }
  }

  lemma AskedKeyStaysOk(w: World, book: Book, op: Op, expiration: int)
    requires Queued(op) && KeyOk(w, book, op.key, expiration) && w.clock <= op.now && Allowed(book, op, expiration)
    ensures KeyOk(Do(w, op, expiration), Record(book, op, expiration), op.key, expiration)
  {
    AskedIsOk(w, book, op, expiration);
    var t, queue, history := Record(book, op, expiration)[op.key], At(w.store, op.key), At(w.history, op.key);
    if |queue| < op.limit {
      RoomIsOk(queue, history, op.now, t, expiration);
      assert [] + [op.now] == [op.now];
    } else if op.now - queue[0] >= op.duration {
      FullIsOk(queue, history, op.now, t, expiration);
    }
  }

  lemma ClearKeepsKey(w: World, book: Book, now: int, key: string, expiration: int)
    requires KeyOk(w, book, key, expiration) && w.clock <= now
    ensures KeyOk(Do(w, Clear(now), expiration), book, key, expiration)
  {
    if key in book {
      var queue, history := At(w.store, key), At(w.history, key);
      LaterIsOk(queue, history, w.clock, now, book[key], expiration);
      if key in w.store && Stale(queue, expiration, now) {
        assert queue[|queue| - 1] == history[|history| - 1];
        assert history[|history|..] == [];
      }
    }
  }

  lemma DoKeepsInv(w: World, book: Book, op: Op, expiration: int)
    requires Inv(w, book, expiration) && w.clock <= op.now && Allowed(book, op, expiration)
    ensures Inv(Do(w, op, expiration), Record(book, op, expiration), expiration)
  {
    forall key ensures KeyOk(Do(w, op, expiration), Record(book, op, expiration), key, expiration) {
      assert KeyOk(w, book, key, expiration);
      if op.Clear? {
        ClearKeepsKey(w, book, op.now, key, expiration);
      } else if Queued(op) && key == op.key {
        AskedKeyStaysOk(w, book, op, expiration);
      } else {
        OtherKeyStaysOk(w, book, op, key, expiration);
      }
    }
  }

  lemma {:induction false} RunIsExact(w: World, book: Book, ops: seq<Op>, expiration: int)
    requires Inv(w, book, expiration) && IsRun(w, ops, expiration) && AllAllowed(book, ops, expiration)
    ensures Exact(w, ops, expiration)
    decreases |ops|
  {
    if ops != [] {
      var op := ops[0];
      if op.Ask? {
        assert KeyOk(w, book, op.key, expiration);
        DecisionIsExact(w, book, op, expiration);
      }
      DoKeepsInv(w, book, op, expiration);
      RunIsExact(Do(w, op, expiration), Record(book, op, expiration), ops[1..], expiration);
    }
  }

  /** Whatever is asked in between and however often the background pass runs, every decision agrees with the
      full history. Windows may grow and shrink at one limit; limits may grow with windows that no earlier ask
      undercut. */
  lemma {:induction false} LimiterIsExact(ops: seq<Op>, expiration: int)
    requires IsRun(Start, ops, expiration) && AllAllowed(map[], ops, expiration)
    ensures Exact(Start, ops, expiration)
  {
    RunIsExact(Start, map[], ops, expiration);
  }

  // ----- one policy after another: exactly when -----

  predicate Asks(op: Op, policy: Policy) { op.Ask? ==> op.limit == policy.limit && op.duration == policy.duration }

  /** The first n operations ask with p, the others with q. */
  predicate Phased(ops: seq<Op>, n: nat, p: Policy, q: Policy) {
    n <= |ops| && forall i :: 0 <= i < |ops| ==> Asks(ops[i], if i < n then p else q)
  }

  ghost predicate AlwaysExact(p: Policy, q: Policy, expiration: int) {
    forall ops, n: nat :: Phased(ops, n, p, q) && IsRun(Start, ops, expiration) ==> Exact(Start, ops, expiration)
  }

  predicate Proper(p: Policy) { 0 < p.limit && 0 < p.duration }

  /** The window exceeds the expiration by at most one second; other policies never reach the queue. */
  predicate Fits(p: Policy, expiration: int) { Proper(p) ==> p.duration <= expiration + 1 }

  predicate Compatible(p: Policy, q: Policy, expiration: int) {
    && Fits(p, expiration) && Fits(q, expiration)
    && (Proper(p) && Proper(q) ==> p.limit <= q.limit && (p.limit < q.limit ==> q.duration <= p.duration))
  }

  // ----- any number of policies, one after another -----

  /** Operation i asks with the policy numbered order[i]; the numbers do not go back. */
  predicate InOrder(ops: seq<Op>, order: seq<nat>, policies: seq<Policy>) {
    && |order| == |ops| && (forall i :: 0 <= i < |ops| ==> order[i] < |policies| && Asks(ops[i], policies[order[i]]))
    && (forall i, j :: 0 <= i < j < |ops| ==> order[i] <= order[j])
  }

  /** Every policy is compatible with itself and with each later one. */
  predicate AllCompatible(policies: seq<Policy>, expiration: int) {
    forall i, j :: 0 <= i <= j < |policies| ==> Compatible(policies[i], policies[j], expiration)
  }

  /** Every policy from number k on is allowed for the keys asked so far. */
  ghost predicate AllowsFrom(t: Terms, policies: seq<Policy>, k: nat) {
    forall j :: k <= j < |policies| && Proper(policies[j]) ==> Allows(t, policies[j])
  }

  ghost predicate BookAllows(book: Book, policies: seq<Policy>, k: nat) {
    forall key :: key in book ==> AllowsFrom(book[key], policies, k)
  }

  lemma ExtendAllows(t: Terms, policies: seq<Policy>, k: nat, m: nat, expiration: int)
    requires AllCompatible(policies, expiration) && AllowsFrom(t, policies, k) && k <= m < |policies|
    requires Proper(policies[m])
    ensures AllowsFrom(Extend(t, policies[m]), policies, m)
  {
    forall j | m <= j < |policies| && Proper(policies[j]) ensures Allows(Extend(t, policies[m]), policies[j]) {
      assert Compatible(policies[m], policies[j], expiration);
      assert Allows(t, policies[m]) && Allows(t, policies[j]);
    }
  }

  lemma RecordAllows(book: Book, op: Op, policies: seq<Policy>, k: nat, m: nat, expiration: int)
    requires AllCompatible(policies, expiration) && BookAllows(book, policies, k) && k <= m < |policies|
    requires Asks(op, policies[m])
    ensures Allowed(book, op, expiration) && BookAllows(Record(book, op, expiration), policies, m)
  {
    if Queued(op) {
      assert Compatible(policies[m], policies[m], expiration);
      if op.key in book {
        ExtendAllows(book[op.key], policies, k, m, expiration);
      } else {
        forall j | m <= j < |policies| && Proper(policies[j])
          ensures Allows(Terms(op.limit, expiration + 1, op.duration), policies[j])
        {
          assert Compatible(policies[m], policies[j], expiration) && Compatible(policies[j], policies[j], expiration);
        }
      }
    }
  }

  lemma {:induction false} InOrderIsAllowed(book: Book, ops: seq<Op>, order: seq<nat>, policies: seq<Policy>, k: nat,
                                            expiration: int)
    requires AllCompatible(policies, expiration) && InOrder(ops, order, policies) && BookAllows(book, policies, k)
    requires ops != [] ==> k <= order[0]
    ensures AllAllowed(book, ops, expiration)
    decreases |ops|
  {
    if ops != [] {
      RecordAllows(book, ops[0], policies, k, order[0], expiration);
      assert forall i :: 0 <= i < |ops| - 1 ==> ops[1..][i] == ops[i + 1] && order[1..][i] == order[i + 1];
      InOrderIsAllowed(Record(book, ops[0], expiration), ops[1..], order[1..], policies, order[0], expiration);
    }
  }

  lemma {:induction false} RunAppend(w: World, a: seq<Op>, b: seq<Op>, expiration: int)
    ensures IsRun(w, a + b, expiration) <==> IsRun(w, a, expiration) && IsRun(After(w, a, expiration), b, expiration)
    ensures Exact(w, a + b, expiration) <==> Exact(w, a, expiration) && Exact(After(w, a, expiration), b, expiration)
    ensures After(w, a + b, expiration) == After(After(w, a, expiration), b, expiration)
    decreases |a|
  {
    if a == [] {
      assert a + b == b;
    } else {
      assert (a + b)[1..] == a[1..] + b && (a + b)[0] == a[0];
      RunAppend(Do(w, a[0], expiration), a[1..], b, expiration);
    }
  }

  function Repeat(x: int, n: nat): seq<int> { if n == 0 then [] else [x] + Repeat(x, n - 1) }

  /** The queue and the history of the key "k", at a time. */
  ghost predicate Holds(w: World, queue: seq<int>, history: seq<int>, now: int) {
    && (if queue == [] then "k" !in w.store else "k" in w.store && w.store["k"] == queue)
    && At(w.history, "k") == history && w.clock == now
  }

  lemma {:induction false} RepeatMeans(x: int, n: nat)
    ensures |Repeat(x, n)| == n && forall i :: 0 <= i < n ==> Repeat(x, n)[i] == x
  {
    if n > 0 {
      RepeatMeans(x, n - 1);
    }
  }

  lemma RepeatCons(times: seq<int>, x: int, n: nat)
    requires n > 0
    ensures times + [x] + Repeat(x, n - 1) == times + Repeat(x, n)
  {
  }

  /** The operations run from the start, ask with p up to n and with q from there on, and leave the key so. */
  ghost predicate Reaches(ops: seq<Op>, n: nat, p: Policy, q: Policy, queue: seq<int>, history: seq<int>, now: int,
                          expiration: int)
  {
    Phased(ops, n, p, q) && IsRun(Start, ops, expiration) && Holds(After(Start, ops, expiration), queue, history, now)
  }

  lemma {:induction false} ReachOne(ops: seq<Op>, op: Op, expiration: int)
    requires IsRun(Start, ops, expiration) && After(Start, ops, expiration).clock <= op.now
    ensures IsRun(Start, ops + [op], expiration)
    ensures After(Start, ops + [op], expiration) == Do(After(Start, ops, expiration), op, expiration)
    ensures Exact(Start, ops + [op], expiration) ==> Agrees(After(Start, ops, expiration), op)
  {
    RunAppend(Start, ops, [op], expiration);
    assert [op][1..] == [];
  }

  lemma PhasedSnoc(ops: seq<Op>, n: nat, p: Policy, q: Policy, op: Op, first: bool)
    requires Phased(ops, n, p, q) && Asks(op, if first then p else q) && (first ==> n == |ops|)
    ensures Phased(ops + [op], if first then n + 1 else n, p, q)
  {
    var ops', n' := ops + [op], if first then n + 1 else n;
    forall i | 0 <= i < |ops'| ensures Asks(ops'[i], if i < n' then p else q) {
      if i < |ops| {
        assert Asks(ops[i], if i < n then p else q);
      }
    }
  }

  lemma AskWithRoom(w: World, queue: seq<int>, history: seq<int>, clock: int, r: Policy, now: int, expiration: int)
    requires Holds(w, queue, history, clock) && clock <= now && Proper(r) && |queue| < r.limit
    ensures Holds(Do(w, Ask("k", r.limit, r.duration, now), expiration), queue + [now], history + [now], now)
  {
    assert [] + [now] == [now];
  }

  lemma AskWhenFull(w: World, queue: seq<int>, history: seq<int>, clock: int, r: Policy, now: int, expiration: int)
    requires Holds(w, queue, history, clock) && Proper(r) && |queue| == r.limit && now - queue[0] >= r.duration
    ensures Holds(Do(w, Ask("k", r.limit, r.duration, now), expiration), queue[1..] + [now], history + [now], now)
  {
  }

  /** Asking while there is room fills queue and history. */
  lemma {:induction false} FillUp(ops: seq<Op>, n: nat, p: Policy, q: Policy, queue: seq<int>, history: seq<int>,
                                  clock: int, times: nat, now: int, first: bool, expiration: int)
    returns (ops': seq<Op>, n': nat)
    requires Reaches(ops, n, p, q, queue, history, clock, expiration) && clock <= now
    requires Proper(if first then p else q)
    requires (first ==> n == |ops|) && |queue| + times <= (if first then p else q).limit
    ensures Reaches(ops', n', p, q, queue + Repeat(now, times), history + Repeat(now, times),
                    if times == 0 then clock else now, expiration)
    ensures n' == if first then |ops'| else n
    decreases times
  {
    ops', n' := ops, n;
    if times == 0 {
      assert queue + [] == queue && history + [] == history;
    } else {
      var r := if first then p else q;
      var op := Ask("k", r.limit, r.duration, now);
      ReachOne(ops, op, expiration);
      PhasedSnoc(ops, n, p, q, op, first);
      AskWithRoom(After(Start, ops, expiration), queue, history, clock, r, now, expiration);
      ops', n' := FillUp(ops + [op], if first then n + 1 else n, p, q,
                         queue + [now], history + [now], now, times - 1, now,
                         first, expiration);
      RepeatCons(queue, now, times);
      RepeatCons(history, now, times);
    }
  }

  lemma ReachNothing(p: Policy, q: Policy, expiration: int)
    ensures Reaches([], 0, p, q, [], [], 0, expiration)
  {
  }

  /** Fill the window, let the sweep drop the queue one second late, ask again. */
  lemma LongWindowIsInexact(p: Policy, q: Policy, expiration: int) returns (ops: seq<Op>)
    requires Proper(q) && 0 <= expiration && expiration + 1 < q.duration
    ensures Phased(ops, 0, p, q) && IsRun(Start, ops, expiration) && !Exact(Start, ops, expiration)
  {
    var late, zeros := expiration + 1, Repeat(0, q.limit);
    ReachNothing(p, q, expiration);
    var fill, n := FillUp([], 0, p, q, [], [], 0, q.limit, 0, false, expiration);
    assert [] + zeros == zeros;
    RepeatMeans(0, q.limit);
    ReachOne(fill, Clear(late), expiration);
    PhasedSnoc(fill, n, p, q, Clear(late), false);
    var op := Ask("k", q.limit, q.duration, late);
    ReachOne(fill + [Clear(late)], op, expiration);
    PhasedSnoc(fill + [Clear(late)], n, p, q, op, false);
    RecentAll(zeros, late, q.duration);
    ops := fill + [Clear(late)] + [op];
  }

  lemma AcceptedOnOldest(w: World, times: seq<int>, q: Policy)
    requires Proper(q) && Holds(w, [0] + times, [0] + times, q.duration)
    requires |times| >= q.limit && forall i :: 0 <= i < |times| ==> times[i] == q.duration
    ensures !Agrees(w, Ask("k", q.limit, q.duration, q.duration))
  {
    RecentSplit([0], times, q.duration, q.duration);
    RecentAll(times, q.duration, q.duration);
  }

  /** One old and many new acceptances under a large limit: a smaller limit looks at the old one only. */
  lemma ShrinkingLimitIsInexact(p: Policy, q: Policy, expiration: int) returns (ops: seq<Op>, n: nat)
    requires Proper(p) && Proper(q) && q.limit < p.limit
    ensures Phased(ops, n, p, q) && IsRun(Start, ops, expiration) && !Exact(Start, ops, expiration)
  {
    var t, times := q.duration, Repeat(q.duration, p.limit - 1);
    ReachNothing(p, q, expiration);
    ops, n := FillUp([], 0, p, q, [], [], 0, 1, 0, true, expiration);
    assert [] + Repeat(0, 1) == [0];
    ops, n := FillUp(ops, n, p, q, [0], [0], 0, p.limit - 1, t, true, expiration);
    RepeatMeans(t, p.limit - 1);
    var op := Ask("k", q.limit, q.duration, t);
    AcceptedOnOldest(After(Start, ops, expiration), times, q);
    ReachOne(ops, op, expiration);
    PhasedSnoc(ops, n, p, q, op, false);
    ops := ops + [op];
  }

  lemma DropOne(ops: seq<Op>, n: nat, p: Policy, q: Policy, queue: seq<int>, history: seq<int>, expiration: int)
    returns (ops': seq<Op>, n': nat)
    requires Reaches(ops, n, p, q, queue, history, 0, expiration) && n == |ops| && Proper(p)
    requires |queue| == p.limit && queue[0] == 0
    ensures Reaches(ops', n', p, q, queue[1..] + [p.duration], history + [p.duration], p.duration, expiration)
  {
    var op := Ask("k", p.limit, p.duration, p.duration);
    ReachOne(ops, op, expiration);
    PhasedSnoc(ops, n, p, q, op, true);
    AskWhenFull(After(Start, ops, expiration), queue, history, 0, p, p.duration, expiration);
    ops', n' := ops + [op], n + 1;
  }

  /** A full queue drops a time that a longer window under a larger limit still has to count. */
  lemma GrowingWindowIsInexact(p: Policy, q: Policy, expiration: int) returns (ops: seq<Op>, n: nat)
    requires Proper(p) && Proper(q) && p.limit < q.limit && p.duration < q.duration
    ensures Phased(ops, n, p, q) && IsRun(Start, ops, expiration) && !Exact(Start, ops, expiration)
  {
    var t, zeros, more := p.duration, Repeat(0, p.limit), q.limit - p.limit - 1;
    ReachNothing(p, q, expiration);
    ops, n := FillUp([], 0, p, q, [], [], 0, p.limit, 0, true, expiration);
    assert [] + zeros == zeros;
    RepeatMeans(0, p.limit);
    ops, n := DropOne(ops, n, p, q, zeros, zeros, expiration);
    ops, n := FillUp(ops, n, p, q, zeros[1..] + [t], zeros + [t], t, more, t, false, expiration);
    RepeatMeans(t, more);
    RecentAll(zeros + [t] + Repeat(t, more), t, q.duration);
    var op := Ask("k", q.limit, q.duration, t);
    ReachOne(ops, op, expiration);
    PhasedSnoc(ops, n, p, q, op, false);
    ops := ops + [op];
  }

  lemma PhasedEither(ops: seq<Op>, p: Policy, q: Policy)
    requires Phased(ops, 0, q, p)
    ensures Phased(ops, |ops|, p, q)
  {
    forall i | 0 <= i < |ops| ensures Asks(ops[i], if i < |ops| then p else q) {
      assert Asks(ops[i], if i < 0 then q else p);
    }
  }

  /** The first n operations have number i, the others j. */
  function Switch(size: nat, n: nat, i: nat, j: nat): (order: seq<nat>)
    ensures |order| == size && forall k :: 0 <= k < size ==> order[k] == if k < n then i else j
  {
    seq(size, k => if k < n then i else j)
  }

  /** Asks under one policy and then another: the limiter is exact on all runs if and only if both windows exceed
      the expiration by at most one second, the limit does not shrink, and a limit that grows comes with a window
      that does not. */
  lemma ExactIffCompatible(p: Policy, q: Policy, expiration: int)
    requires 0 <= expiration
    ensures AlwaysExact(p, q, expiration) <==> Compatible(p, q, expiration)
  {
    if Compatible(p, q, expiration) {
      forall ops, n: nat | Phased(ops, n, p, q) && IsRun(Start, ops, expiration) ensures Exact(Start, ops, expiration) {
        InOrderIsAllowed(map[], ops, Switch(|ops|, n, 0, 1), [p, q], 0, expiration);
        LimiterIsExact(ops, expiration);
      }
    } else if !Fits(p, expiration) {
      var ops := LongWindowIsInexact(q, p, expiration);
      PhasedEither(ops, p, q);
    } else if !Fits(q, expiration) {
      var ops := LongWindowIsInexact(p, q, expiration);
    } else if q.limit < p.limit {
      var ops, n := ShrinkingLimitIsInexact(p, q, expiration);
    } else {
      var ops, n := GrowingWindowIsInexact(p, q, expiration);
    }
  }

  ghost predicate AlwaysExactInOrder(policies: seq<Policy>, expiration: int) {
    forall ops, order ::
      InOrder(ops, order, policies) && IsRun(Start, ops, expiration) ==> Exact(Start, ops, expiration)
  }

  /** Asks under any number of policies, one after another: the limiter is exact on all runs if and only if every two
      of them are compatible in their order. */
  lemma ExactIffAllCompatible(policies: seq<Policy>, expiration: int)
    requires 0 <= expiration
    ensures AlwaysExactInOrder(policies, expiration) <==> AllCompatible(policies, expiration)
  {
    if AllCompatible(policies, expiration) {
      forall ops, order | InOrder(ops, order, policies) && IsRun(Start, ops, expiration)
        ensures Exact(Start, ops, expiration)
      {
        InOrderIsAllowed(map[], ops, order, policies, 0, expiration);
        LimiterIsExact(ops, expiration);
      }
    } else {
      var i, j :| 0 <= i <= j < |policies| && !Compatible(policies[i], policies[j], expiration);
      ExactIffCompatible(policies[i], policies[j], expiration);
      var ops, n: nat :| Phased(ops, n, policies[i], policies[j]) && IsRun(Start, ops, expiration)
                         && !Exact(Start, ops, expiration);
      assert InOrder(ops, Switch(|ops|, n, i, j), policies);
    }
  }

  /** With one policy for every ask, the limiter is exact on all runs if and only if the duration exceeds the
      expiration by at most one second. */
  lemma ExactIffDurationFits(policy: Policy, expiration: int)
    requires 0 <= expiration
    ensures AlwaysExact(policy, policy, expiration) <==> Fits(policy, expiration)
  {
    ExactIffCompatible(policy, policy, expiration);
  }

  // ----- the limiter object -----

  class InMemoryRateLimiter {
    var store: Store
    const expiration: int

    constructor (expiration: int)
      ensures store == Start.store && this.expiration == expiration
    {
      store := map[];
      this.expiration := expiration;
    }

    method RequestAt(key: string, maxRequestNum: int, duration: int, now: int) returns (accepted: bool)
      modifies this
      ensures (store, accepted) == Request(old(store), key, maxRequestNum, duration, now)
    {
      if maxRequestNum <= 0 {
        return true;
      }
      if duration <= 0 {
        return false;
      }
      if key in store {
        if |store[key]| < maxRequestNum {
          store := store[key := store[key] + [now]];
          return true;
        } else if now - store[key][0] >= duration {
          var queue := store[key][1..];
          store := store[key := queue + [now]];
          return true;
        } else {
          return false;
        }
      }
      var queue := [];
      store := store[key := queue + [now]];
      assert queue + [now] == [now];
      return true;
    }

    method ClearExpiredItems(now: int)
      modifies this
      ensures store == Sweep(old(store), expiration, now)
    {
      var keys := store.Keys;
      while keys != {}
        invariant keys <= store.Keys <= old(store).Keys
        invariant forall key :: key in store ==> store[key] == old(store)[key]
        invariant forall key :: key in old(store) && key !in keys ==>
                    (key in store <==> !Stale(old(store)[key], expiration, now))
        decreases |keys|
      {
        var key :| key in keys;
        var size := |store[key]|;
        if size == 0 || now - store[key][size - 1] > expiration {
          store := store - {key};
        }
        keys := keys - {key};
      }
    }
  }
}
