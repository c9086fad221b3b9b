/** The reference-counted per-order lock of controller/topup.go.

    Any number of threads interleave the atomic steps of LockOrder and UnlockOrder. Addresses
    stand for *refCountedMutex values, so "the very same mutex" is equality of addresses. */
module OrderLock {
  import opened Base

  type Thread = nat
  type TradeNo = string
  type Addr = nat

  /** A refCountedMutex; `holder` records who locked `mu`, which unlocking never consults. */
  datatype Mutex = Mutex(refCount: int, holder: Option<Thread>)

  /** The next atomic step of a thread inside LockOrder, its caller's body or UnlockOrder. */
  datatype Pc =
    | WantCreate(no: TradeNo)                          // createLock.Lock() of LockOrder
    | Lookup(no: TradeNo)                              // orderLocks.Load
    | Publish(no: TradeNo)                             // allocate and orderLocks.Store
    | Increment(no: TradeNo, rcm: Addr)                // rcm.refCount++
    | LeaveCreate(no: TradeNo, rcm: Addr)              // createLock.Unlock()
    | WantMutex(no: TradeNo, rcm: Addr)                // rcm.mu.Lock()
    | Critical(no: TradeNo, rcm: Addr)                 // the caller's body, then UnlockOrder's Load
    | Unlocking(no: TradeNo, rcm: Addr, locked: Addr)  // rcm.mu.Unlock(); `locked` is what LockOrder locked
    | WantCreateAgain(no: TradeNo, rcm: Addr)          // createLock.Lock() of UnlockOrder
    | Decrement(no: TradeNo, rcm: Addr)                // rcm.refCount--
    | MaybeDelete(no: TradeNo, rcm: Addr)              // if rcm.refCount == 0 then orderLocks.Delete
    | LeaveAgain(no: TradeNo)                          // createLock.Unlock()
    | Leaked(no: TradeNo)                              // UnlockOrder returned early: mutex never released
    | Crashed(no: TradeNo)                             // unlock of an unlocked mutex is a fatal error

  /** Threads absent from `threads` are outside LockOrder/UnlockOrder. */
  datatype State = State(
    orderLocks: map<TradeNo, Addr>,
    mutexes: map<Addr, Mutex>,
    createLock: Option<Thread>,
    threads: map<Thread, Pc>,
    nextAddr: Addr)

  const Init := State(map[], map[], None, map[], 0)

  predicate InCreate(pc: Pc) {
    pc.Lookup? || pc.Publish? || pc.Increment? || pc.LeaveCreate? ||
    pc.Decrement? || pc.MaybeDelete? || pc.LeaveAgain?
  }

  /** The thread is between its increment and its decrement of refCount. */
  predicate Counted(pc: Pc) {
    pc.LeaveCreate? || pc.WantMutex? || pc.Critical? || pc.Unlocking? || pc.WantCreateAgain? || pc.Decrement?
  }

  predicate Holds(pc: Pc) { pc.Critical? || pc.Unlocking? }

  function Users(threads: map<Thread, Pc>, no: TradeNo): set<Thread> {
    set t | t in threads && Counted(threads[t]) && threads[t].no == no
  }

  // ----- steps -----

  predicate Enabled(s: State, t: Thread) {
    t in s.threads &&
    match s.threads[t]
    case WantCreate(_) => s.createLock == None
    case WantCreateAgain(_, _) => s.createLock == None
    case WantMutex(_, a) => a in s.mutexes && s.mutexes[a].holder == None
    case Increment(_, a) => a in s.mutexes
    case Unlocking(_, a, _) => a in s.mutexes
    case Decrement(_, a) => a in s.mutexes
    case MaybeDelete(_, a) => a in s.mutexes
    case Leaked(_) => false
    case Crashed(_) => false
    case _ => true
  }

  function Goto(s: State, t: Thread, pc: Pc): State { s.(threads := s.threads[t := pc]) }

  function SetMutex(s: State, a: Addr, m: Mutex): State { s.(mutexes := s.mutexes[a := m]) }

  /** One atomic step of a thread inside the lock code. */
  function Step(s: State, t: Thread): State
    requires Enabled(s, t)
  {
    match s.threads[t]
    case WantCreate(no) => Goto(s, t, Lookup(no)).(createLock := Some(t))
    case Lookup(no) =>
      if no in s.orderLocks then Goto(s, t, Increment(no, s.orderLocks[no])) else Goto(s, t, Publish(no))
    case Publish(no) =>
      SetMutex(Goto(s, t, Increment(no, s.nextAddr)), s.nextAddr, Mutex(0, None))
      .(orderLocks := s.orderLocks[no := s.nextAddr], nextAddr := s.nextAddr + 1)
    case Increment(no, a) =>
      SetMutex(Goto(s, t, LeaveCreate(no, a)), a, s.mutexes[a].(refCount := s.mutexes[a].refCount + 1))
    case LeaveCreate(no, a) => Goto(s, t, WantMutex(no, a)).(createLock := None)
    case WantMutex(no, a) => SetMutex(Goto(s, t, Critical(no, a)), a, s.mutexes[a].(holder := Some(t)))
    case Critical(no, a) =>
      if no in s.orderLocks then Goto(s, t, Unlocking(no, s.orderLocks[no], a)) else Goto(s, t, Leaked(no))
    case Unlocking(no, a, _) =>
      if s.mutexes[a].holder == None then Goto(s, t, Crashed(no))
      else SetMutex(Goto(s, t, WantCreateAgain(no, a)), a, s.mutexes[a].(holder := None))
    case WantCreateAgain(no, a) => Goto(s, t, Decrement(no, a)).(createLock := Some(t))
    case Decrement(no, a) =>
      SetMutex(Goto(s, t, MaybeDelete(no, a)), a, s.mutexes[a].(refCount := s.mutexes[a].refCount - 1))
    case MaybeDelete(no, a) =>
      if s.mutexes[a].refCount == 0 then Goto(s, t, LeaveAgain(no)).(orderLocks := s.orderLocks - {no})
      else Goto(s, t, LeaveAgain(no))
    case LeaveAgain(no) => s.(threads := s.threads - {t}, createLock := None)
  }

  /** A thread calls LockOrder. */
  function Begin(s: State, t: Thread, no: TradeNo): State { Goto(s, t, WantCreate(no)) }

  ghost predicate Next(s: State, s': State) {
    || (exists t :: Enabled(s, t) && s' == Step(s, t))
    || (exists t, no :: t !in s.threads && s' == Begin(s, t, no))
  }

  ghost predicate IsRun(run: seq<State>) {
    |run| > 0 && run[0] == Init && forall i :: 0 <= i < |run| - 1 ==> Next(run[i], run[i + 1])
  }

  // ----- the invariant -----

  ghost predicate Published(s: State, no: TradeNo, a: Addr) {
    no in s.orderLocks && s.orderLocks[no] == a
  }

  /** What is known about one thread. */
  ghost predicate ThreadOk(s: State, t: Thread)
    requires t in s.threads
  {
    var pc := s.threads[t];
    && (InCreate(pc) <==> s.createLock == Some(t))
    && (Counted(pc) || pc.Increment? || pc.MaybeDelete? ==> Published(s, pc.no, pc.rcm))
    && (pc.Publish? ==> pc.no !in s.orderLocks)
    && (Holds(pc) ==> pc.rcm in s.mutexes && s.mutexes[pc.rcm].holder == Some(t))
    && (pc.Unlocking? ==> pc.rcm == pc.locked)
    && !pc.Leaked? && !pc.Crashed?
  }

  /** The thread that may keep an entry whose reference count is zero: it holds createLock. */
  ghost predicate Transient(s: State, no: TradeNo) {
    && s.createLock.Some? && s.createLock.value in s.threads
    && var pc := s.threads[s.createLock.value];
    && (pc.Increment? || pc.MaybeDelete?) && pc.no == no
  }

  /** What is known about one published entry. */
  ghost predicate EntryOk(s: State, no: TradeNo)
    requires no in s.orderLocks
  {
    var a := s.orderLocks[no];
    && a in s.mutexes
    && s.mutexes[a].refCount == |Users(s.threads, no)|
    && (Users(s.threads, no) == {} ==> Transient(s, no))
    && (s.mutexes[a].holder.Some? ==>
          var t := s.mutexes[a].holder.value;
          t in s.threads && Holds(s.threads[t]) && s.threads[t].no == no)
  }

  ghost predicate Inv(s: State) {
    && (forall t :: t in s.threads ==> ThreadOk(s, t))
    && (forall no :: no in s.orderLocks ==> EntryOk(s, no))
    && (forall no, no' :: no in s.orderLocks && no' in s.orderLocks && s.orderLocks[no] == s.orderLocks[no'] ==>
        no == no')
    && (forall a :: a in s.mutexes ==> a < s.nextAddr)
    && (s.createLock.Some? ==> s.createLock.value in s.threads)
  }

  // ----- counting users -----

  lemma UsersAfterGoto(threads: map<Thread, Pc>, t: Thread, pc: Pc, no: TradeNo)
    ensures Users(threads[t := pc], no) ==
            if Counted(pc) && pc.no == no then Users(threads, no) + {t} else Users(threads, no) - {t}
  {
  }

  lemma UsersUnchanged(s: State, t: Thread, pc: Pc)
    requires t in s.threads ==> Counted(s.threads[t]) == Counted(pc) && s.threads[t].no == pc.no
    requires t !in s.threads ==> !Counted(pc)
    ensures forall no :: Users(s.threads[t := pc], no) == Users(s.threads, no)
  {
    forall no ensures Users(s.threads[t := pc], no) == Users(s.threads, no) {
      UsersAfterGoto(s.threads, t, pc, no);
    }
  }

  // ----- preservation, one lemma for each way the shared state changes -----

  lemma BeginKeepsInv(s: State, t: Thread, no: TradeNo)
    requires Inv(s) && t !in s.threads
    ensures Inv(Begin(s, t, no))
  {
    var s' := Begin(s, t, no);
    UsersUnchanged(s, t, WantCreate(no));
    forall n | n in s'.orderLocks ensures EntryOk(s', n) {
      assert EntryOk(s, n);
    }
    forall u | u in s'.threads ensures ThreadOk(s', u) {
      assert u != t ==> ThreadOk(s, u);
    }
  }

  /** createLock.Lock(). */
  lemma TakeCreateKeepsInv(s: State, t: Thread)
    requires Inv(s) && Enabled(s, t) && (s.threads[t].WantCreate? || s.threads[t].WantCreateAgain?)
    ensures Inv(Step(s, t))
  {
    var s' := Step(s, t);
    assert ThreadOk(s, t);
    UsersUnchanged(s, t, s'.threads[t]);
    forall n | n in s'.orderLocks ensures EntryOk(s', n) {
      assert EntryOk(s, n);
    }
    forall u | u in s'.threads ensures ThreadOk(s', u) {
      assert ThreadOk(s, u);
    }
  }

  lemma LoadKeepsEntry(s: State, t: Thread, n: TradeNo)
    requires Enabled(s, t) && (s.threads[t].Lookup? || s.threads[t].Critical?) && ThreadOk(s, t)
    requires n in s.orderLocks && EntryOk(s, n)
    ensures EntryOk(Step(s, t), n)
  {
    UsersUnchanged(s, t, Step(s, t).threads[t]);
  }

  lemma LoadKeepsThread(s: State, t: Thread, u: Thread)
    requires Enabled(s, t) && (s.threads[t].Lookup? || s.threads[t].Critical?) && ThreadOk(s, t)
    requires u in s.threads && ThreadOk(s, u)
    ensures ThreadOk(Step(s, t), u)
  {
  }

  /** orderLocks.Load, with and without createLock. */
  lemma LoadKeepsInv(s: State, t: Thread)
    requires Inv(s) && Enabled(s, t) && (s.threads[t].Lookup? || s.threads[t].Critical?)
    ensures Inv(Step(s, t))
  {
    var s' := Step(s, t);
    assert ThreadOk(s, t);
    forall n | n in s'.orderLocks ensures EntryOk(s', n) {
      assert EntryOk(s, n);
      LoadKeepsEntry(s, t, n);
    }
    forall u | u in s'.threads ensures ThreadOk(s', u) {
      assert ThreadOk(s, u);
      LoadKeepsThread(s, t, u);
    }
  }

  /** createLock.Unlock() of LockOrder. */
  lemma GiveCreateKeepsInv(s: State, t: Thread)
    requires Inv(s) && Enabled(s, t) && s.threads[t].LeaveCreate?
    ensures Inv(Step(s, t))
  {
    var s' := Step(s, t);
    assert ThreadOk(s, t);
    UsersUnchanged(s, t, s'.threads[t]);
    forall n | n in s'.orderLocks ensures EntryOk(s', n) {
      assert EntryOk(s, n);
    }
    forall u | u in s'.threads ensures ThreadOk(s', u) {
      assert ThreadOk(s, u);
    }
  }

  lemma PublishKeepsEntry(s: State, t: Thread, n: TradeNo)
    requires Enabled(s, t) && s.threads[t].Publish? && ThreadOk(s, t) && n in Step(s, t).orderLocks
    requires forall a :: a in s.mutexes ==> a < s.nextAddr
    requires if n == s.threads[t].no then Users(s.threads, n) == {} else n in s.orderLocks && EntryOk(s, n)
    ensures EntryOk(Step(s, t), n)
  {
    UsersUnchanged(s, t, Increment(s.threads[t].no, s.nextAddr));
  }

  lemma PublishKeepsThread(s: State, t: Thread, u: Thread)
    requires Enabled(s, t) && s.threads[t].Publish? && ThreadOk(s, t) && u in s.threads && ThreadOk(s, u)
    requires forall a :: a in s.mutexes ==> a < s.nextAddr
    ensures ThreadOk(Step(s, t), u)
  {
  }

  lemma PublishKeepsInv(s: State, t: Thread)
    requires Inv(s) && Enabled(s, t) && s.threads[t].Publish?
    ensures Inv(Step(s, t))
  {
    var s' := Step(s, t);
    assert ThreadOk(s, t);
    forall n | n in s'.orderLocks ensures EntryOk(s', n) {
      if n == s.threads[t].no {
        forall u | u in s.threads ensures u !in Users(s.threads, n) {
          assert ThreadOk(s, u);
        }
      } else {
        assert EntryOk(s, n);
      }
      PublishKeepsEntry(s, t, n);
    }
    forall u | u in s'.threads ensures ThreadOk(s', u) {
      assert ThreadOk(s, u);
      PublishKeepsThread(s, t, u);
    }
    assert forall no :: no in s.orderLocks ==> EntryOk(s, no);
  }

  lemma OneMoreUser(threads: map<Thread, Pc>, t: Thread, pc: Pc)
    requires t in threads && !Counted(threads[t]) && Counted(pc)
    ensures |Users(threads[t := pc], pc.no)| == |Users(threads, pc.no)| + 1
    ensures forall n :: n != pc.no ==> Users(threads[t := pc], n) == Users(threads, n)
  {
    forall n ensures n != pc.no ==> Users(threads[t := pc], n) == Users(threads, n) {
      UsersAfterGoto(threads, t, pc, n);
    }
    UsersAfterGoto(threads, t, pc, pc.no);
    assert t !in Users(threads, pc.no);
  }

  lemma IncrementKeepsEntry(s: State, t: Thread, n: TradeNo)
    requires Enabled(s, t) && s.threads[t].Increment? && ThreadOk(s, t) && n in s.orderLocks && EntryOk(s, n)
    requires s.orderLocks[n] == s.threads[t].rcm ==> n == s.threads[t].no
    ensures EntryOk(Step(s, t), n)
  {
    OneMoreUser(s.threads, t, LeaveCreate(s.threads[t].no, s.threads[t].rcm));
  }

  lemma IncrementKeepsThread(s: State, t: Thread, u: Thread)
    requires Enabled(s, t) && s.threads[t].Increment? && ThreadOk(s, t) && u in s.threads && ThreadOk(s, u)
    ensures ThreadOk(Step(s, t), u)
  {
  }

  /** rcm.refCount++. */
  lemma IncrementKeepsInv(s: State, t: Thread)
    requires Inv(s) && Enabled(s, t) && s.threads[t].Increment?
    ensures Inv(Step(s, t))
  {
    var s' := Step(s, t);
    assert ThreadOk(s, t) && EntryOk(s, s.threads[t].no);
    forall n | n in s'.orderLocks ensures EntryOk(s', n) {
      assert EntryOk(s, n);
      IncrementKeepsEntry(s, t, n);
    }
    forall u | u in s'.threads ensures ThreadOk(s', u) {
      assert ThreadOk(s, u);
      IncrementKeepsThread(s, t, u);
    }
  }

  /** rcm.refCount--. */
  lemma DecrementKeepsInv(s: State, t: Thread)
    requires Inv(s) && Enabled(s, t) && s.threads[t].Decrement?
    ensures Inv(Step(s, t))
  {
    var s' := Step(s, t);
    assert ThreadOk(s, t);
    var no := s.threads[t].no;
    assert EntryOk(s, no);
    assert t in Users(s.threads, no);
    forall n | n in s'.orderLocks ensures EntryOk(s', n) {
      assert EntryOk(s, n);
      UsersAfterGoto(s.threads, t, s'.threads[t], n);
    }
    forall u | u in s'.threads ensures ThreadOk(s', u) {
      assert ThreadOk(s, u);
    }
  }

  lemma LockKeepsEntry(s: State, t: Thread, n: TradeNo)
    requires Enabled(s, t) && s.threads[t].WantMutex? && ThreadOk(s, t) && n in s.orderLocks && EntryOk(s, n)
    requires s.orderLocks[n] == s.threads[t].rcm ==> n == s.threads[t].no
    ensures EntryOk(Step(s, t), n)
  {
    UsersUnchanged(s, t, Critical(s.threads[t].no, s.threads[t].rcm));
  }

  lemma LockKeepsThread(s: State, t: Thread, u: Thread)
    requires Enabled(s, t) && s.threads[t].WantMutex? && ThreadOk(s, t) && u in s.threads && ThreadOk(s, u)
    ensures ThreadOk(Step(s, t), u)
  {
  }

  /** rcm.mu.Lock(). */
  lemma LockMutexKeepsInv(s: State, t: Thread)
    requires Inv(s) && Enabled(s, t) && s.threads[t].WantMutex?
    ensures Inv(Step(s, t))
  {
    var s' := Step(s, t);
    assert ThreadOk(s, t) && EntryOk(s, s.threads[t].no);
    forall n | n in s'.orderLocks ensures EntryOk(s', n) {
      assert EntryOk(s, n);
      LockKeepsEntry(s, t, n);
    }
    forall u | u in s'.threads ensures ThreadOk(s', u) {
      assert ThreadOk(s, u);
      LockKeepsThread(s, t, u);
    }
  }

  lemma UnlockKeepsEntry(s: State, t: Thread, n: TradeNo)
    requires Enabled(s, t) && s.threads[t].Unlocking? && ThreadOk(s, t) && n in s.orderLocks && EntryOk(s, n)
    requires s.orderLocks[n] == s.threads[t].rcm ==> n == s.threads[t].no
    ensures EntryOk(Step(s, t), n)
  {
    UsersUnchanged(s, t, WantCreateAgain(s.threads[t].no, s.threads[t].rcm));
  }

  /** Only the thread that unlocks holds this mutex. */
  lemma UnlockKeepsThread(s: State, t: Thread, u: Thread)
    requires Enabled(s, t) && s.threads[t].Unlocking? && ThreadOk(s, t) && u in s.threads && ThreadOk(s, u)
    ensures ThreadOk(Step(s, t), u)
  {
  }

  /** rcm.mu.Unlock(). */
  lemma UnlockMutexKeepsInv(s: State, t: Thread)
    requires Inv(s) && Enabled(s, t) && s.threads[t].Unlocking?
    ensures Inv(Step(s, t))
  {
    var s' := Step(s, t);
    assert ThreadOk(s, t) && EntryOk(s, s.threads[t].no);
    forall n | n in s'.orderLocks ensures EntryOk(s', n) {
      assert EntryOk(s, n);
      UnlockKeepsEntry(s, t, n);
    }
    forall u | u in s'.threads ensures ThreadOk(s', u) {
      assert ThreadOk(s, u);
      UnlockKeepsThread(s, t, u);
    }
  }

  lemma DeleteKeepsEntry(s: State, t: Thread, n: TradeNo)
    requires Enabled(s, t) && s.threads[t].MaybeDelete? && ThreadOk(s, t) && n in Step(s, t).orderLocks
    requires n in s.orderLocks && EntryOk(s, n)
    ensures EntryOk(Step(s, t), n)
  {
    UsersUnchanged(s, t, LeaveAgain(s.threads[t].no));
  }

  /** An entry that goes has no user whose thread could miss it. */
  lemma DeleteKeepsThread(s: State, t: Thread, u: Thread)
    requires Enabled(s, t) && s.threads[t].MaybeDelete? && ThreadOk(s, t) && EntryOk(s, s.threads[t].no)
    requires u in s.threads && ThreadOk(s, u)
    ensures ThreadOk(Step(s, t), u)
  {
    assert u in Users(s.threads, s.threads[u].no) <==> Counted(s.threads[u]);
  }

  lemma DeleteKeepsInv(s: State, t: Thread)
    requires Inv(s) && Enabled(s, t) && s.threads[t].MaybeDelete?
    ensures Inv(Step(s, t))
  {
    var s' := Step(s, t);
    assert ThreadOk(s, t) && EntryOk(s, s.threads[t].no);
    forall n | n in s'.orderLocks ensures EntryOk(s', n) {
      assert EntryOk(s, n);
      DeleteKeepsEntry(s, t, n);
    }
    forall u | u in s'.threads ensures ThreadOk(s', u) {
      assert ThreadOk(s, u);
      DeleteKeepsThread(s, t, u);
    }
  }

  lemma LeaveKeepsInv(s: State, t: Thread)
    requires Inv(s) && Enabled(s, t) && s.threads[t].LeaveAgain?
    ensures Inv(Step(s, t))
  {
    var s' := Step(s, t);
    assert ThreadOk(s, t);
    forall n | n in s'.orderLocks ensures EntryOk(s', n) {
      assert EntryOk(s, n);
      assert Users(s'.threads, n) == Users(s.threads, n);
    }
    forall u | u in s'.threads ensures ThreadOk(s', u) {
      assert ThreadOk(s, u);
    }
  }

  lemma StepKeepsInv(s: State, t: Thread)
    requires Inv(s) && Enabled(s, t)
    ensures Inv(Step(s, t))
  {
    match s.threads[t]
    case WantCreate(_) => TakeCreateKeepsInv(s, t);
    case Lookup(_) => LoadKeepsInv(s, t);
    case Publish(_) => PublishKeepsInv(s, t);
    case Increment(_, _) => IncrementKeepsInv(s, t);
    case LeaveCreate(_, _) => GiveCreateKeepsInv(s, t);
    case WantMutex(_, _) => LockMutexKeepsInv(s, t);
    case Critical(_, _) => LoadKeepsInv(s, t);
    case Unlocking(_, _, _) => UnlockMutexKeepsInv(s, t);
    case WantCreateAgain(_, _) => TakeCreateKeepsInv(s, t);
    case Decrement(_, _) => DecrementKeepsInv(s, t);
    case MaybeDelete(_, _) => DeleteKeepsInv(s, t);
    case LeaveAgain(_) => LeaveKeepsInv(s, t);
  }

  lemma {:induction false} RunKeepsInv(run: seq<State>)
    requires IsRun(run)
    ensures Inv(run[|run| - 1])
  {
    if |run| > 1 {
      var prefix := run[..|run| - 1];
      forall i | 0 <= i < |prefix| - 1 ensures Next(prefix[i], prefix[i + 1]) {
        assert Next(run[i], run[i + 1]);
      }
      RunKeepsInv(prefix);
      var s, s' := run[|run| - 2], run[|run| - 1];
      assert Next(run[|run| - 2], run[|run| - 2 + 1]);
      if t :| Enabled(s, t) && s' == Step(s, t) {
        StepKeepsInv(s, t);
      } else {
        var t, no :| t !in s.threads && s' == Begin(s, t, no);
        BeginKeepsInv(s, t, no);
      }
    }
  }

  // ----- theorems about every reachable state -----

  /** At most one thread is inside the critical section of a trade number. */
  lemma MutualExclusion(run: seq<State>, t: Thread, u: Thread)
    requires IsRun(run)
    requires var s := run[|run| - 1];
             t in s.threads && u in s.threads && Holds(s.threads[t]) && Holds(s.threads[u]) &&
             s.threads[t].no == s.threads[u].no
    ensures t == u
  {
    var s := run[|run| - 1];
    RunKeepsInv(run);
    assert ThreadOk(s, t) && ThreadOk(s, u);
  }

  /** The Load of UnlockOrder, taken without createLock, finds the mutex its own thread locked; the
      thread therefore neither leaks the mutex nor unlocks an unlocked one. */
  lemma UnlockFindsItsMutex(run: seq<State>, t: Thread)
    requires IsRun(run) && t in run[|run| - 1].threads
    ensures var s := run[|run| - 1]; var pc := s.threads[t];
            && (pc.Critical? ==> Enabled(s, t) && Step(s, t).threads[t] == Unlocking(pc.no, pc.rcm, pc.rcm))
            && (pc.Unlocking? ==> pc.rcm == pc.locked && Enabled(s, t) && s.mutexes[pc.rcm].holder == Some(t))
            && !pc.Leaked? && !pc.Crashed?
  {
    RunKeepsInv(run);
    assert ThreadOk(run[|run| - 1], t);
  }

  /** refCount counts the threads between increment and decrement; outside createLock sections an
      entry exists exactly while that number is positive. */
  lemma RefCountCountsUsers(run: seq<State>, no: TradeNo)
    requires IsRun(run)
    ensures var s := run[|run| - 1];
            && (no in s.orderLocks ==>
                  s.orderLocks[no] in s.mutexes &&
                  s.mutexes[s.orderLocks[no]].refCount == |Users(s.threads, no)|)
            && (Users(s.threads, no) != {} ==> no in s.orderLocks)
            && (s.createLock == None && no in s.orderLocks ==> Users(s.threads, no) != {})
  {
    var s := run[|run| - 1];
    RunKeepsInv(run);
    if no in s.orderLocks {
      assert EntryOk(s, no);
    }
    if t :| t in Users(s.threads, no) {
      assert ThreadOk(s, t);
    }
  }

  /** Nothing is left behind: once no thread is inside the lock code the table is empty. */
  lemma QuiescentTableIsEmpty(run: seq<State>)
    requires IsRun(run) && run[|run| - 1].threads == map[]
    ensures run[|run| - 1].orderLocks == map[] && run[|run| - 1].createLock == None
  {
    var s := run[|run| - 1];
    RunKeepsInv(run);
    forall no | no in s.orderLocks ensures Users(s.threads, no) != {} {
      assert EntryOk(s, no);
    }
  }

  /** No deadlock: while any thread is inside the lock code, some thread can take a step. */
  lemma SomeThreadCanStep(run: seq<State>)
    requires IsRun(run) && run[|run| - 1].threads != map[]
    ensures var s := run[|run| - 1]; exists t :: Enabled(s, t)
  {
    var s := run[|run| - 1];
    RunKeepsInv(run);
    var t :| t in s.threads;
    assert ThreadOk(s, t);
    if s.createLock.Some? {
      var c := s.createLock.value;
      assert ThreadOk(s, c);
      assert s.threads[c].no in s.orderLocks ==> EntryOk(s, s.threads[c].no);
      assert Enabled(s, c);
    } else if Enabled(s, t) {
    } else {
      // t waits for a mutex, and its holder is in the critical section.
      assert EntryOk(s, s.threads[t].no);
      var h := s.mutexes[s.threads[t].rcm].holder.value;
      assert ThreadOk(s, h);
      assert Enabled(s, h);
    }
  }

  // ----- refinement of a plain lock for each trade number -----

  /** Who is inside the critical section of which trade number. */
  type Owners = map<TradeNo, Thread>

  function HolderOf(s: State, no: TradeNo): Option<Thread> {
    if no in s.orderLocks && s.orderLocks[no] in s.mutexes then s.mutexes[s.orderLocks[no]].holder else None
  }

  function OwnersOf(s: State): Owners {
    map no | no in s.orderLocks && HolderOf(s, no).Some? :: HolderOf(s, no).value
  }

  predicate CanAcquire(o: Owners, no: TradeNo) { no !in o }

  function Acquire(o: Owners, no: TradeNo, t: Thread): Owners { o[no := t] }

  function Release(o: Owners, no: TradeNo): Owners { o - {no} }

  /** A step of the specification: nothing, taking a free lock, or its owner giving it back. */
  ghost predicate SpecNext(o: Owners, o': Owners) {
    || o' == o
    || (exists t, no :: CanAcquire(o, no) && o' == Acquire(o, no, t))
    || (exists no :: no in o && o' == Release(o, no))
  }

  /** Deleting an entry takes no holder away: a held entry has a user. */
  lemma DeleteKeepsHolders(s: State, t: Thread, no: TradeNo)
    requires Enabled(s, t) && s.threads[t].MaybeDelete? && ThreadOk(s, t) && (no in s.orderLocks ==> EntryOk(s, no))
    ensures HolderOf(Step(s, t), no) == HolderOf(s, no)
  {
    if s.threads[t].no == no && HolderOf(s, no).Some? {
      assert HolderOf(s, no).value in Users(s.threads, no);
    }
  }

  lemma QuietStepKeepsHolders(s: State, t: Thread, no: TradeNo)
    requires Enabled(s, t) && !s.threads[t].WantMutex? && !s.threads[t].Unlocking? && ThreadOk(s, t)
    requires (no in s.orderLocks ==> EntryOk(s, no)) && forall a :: a in s.mutexes ==> a < s.nextAddr
    ensures HolderOf(Step(s, t), no) == HolderOf(s, no)
  {
    if s.threads[t].MaybeDelete? {
      DeleteKeepsHolders(s, t, no);
    }
  }

  lemma MutexStepSetsHolder(s: State, t: Thread, no: TradeNo)
    requires Inv(s) && Enabled(s, t) && (s.threads[t].WantMutex? || s.threads[t].Unlocking?)
    ensures var pc := s.threads[t];
            HolderOf(Step(s, t), no) ==
            if no != pc.no then HolderOf(s, no) else if pc.WantMutex? then Some(t) else None
  {
    assert ThreadOk(s, t);
    if no in s.orderLocks {
      assert EntryOk(s, no);
    }
  }

  /** Who holds an order's mutex after the step. */
  function HolderAfter(s: State, t: Thread, no: TradeNo): Option<Thread>
    requires t in s.threads
  {
    var pc := s.threads[t];
    if no == pc.no && pc.WantMutex? then Some(t) else if no == pc.no && pc.Unlocking? then None else HolderOf(s, no)
  }

  lemma StepSetsHolder(s: State, t: Thread, no: TradeNo)
    requires Inv(s) && Enabled(s, t)
    ensures HolderOf(Step(s, t), no) == HolderAfter(s, t, no)
  {
    if s.threads[t].WantMutex? || s.threads[t].Unlocking? {
      MutexStepSetsHolder(s, t, no);
    } else {
      assert ThreadOk(s, t) && (no in s.orderLocks ==> EntryOk(s, no));
      QuietStepKeepsHolders(s, t, no);
    }
  }

  lemma EqualHoldersEqualOwners(s: State, o: Owners)
    requires forall no :: no in o <==> HolderOf(s, no).Some?
    requires forall no :: no in o ==> o[no] == HolderOf(s, no).value
    ensures OwnersOf(s) == o
  {
  }

  /** Only rcm.mu.Lock() and rcm.mu.Unlock() are visible, as Acquire of a free lock and Release by its owner. */
  lemma StepRefinesSpec(s: State, t: Thread)
    requires Inv(s) && Enabled(s, t)
    ensures var o, o', pc := OwnersOf(s), OwnersOf(Step(s, t)), s.threads[t];
            if pc.WantMutex? then CanAcquire(o, pc.no) && o' == Acquire(o, pc.no, t)
            else if pc.Unlocking? then pc.no in o && o[pc.no] == t && o' == Release(o, pc.no)
            else o' == o
  {
    var s', o, pc := Step(s, t), OwnersOf(s), s.threads[t];
    assert ThreadOk(s, t);
    forall no ensures HolderOf(s', no) == HolderAfter(s, t, no) {
      StepSetsHolder(s, t, no);
    }
    EqualHoldersEqualOwners(s', if pc.WantMutex? then Acquire(o, pc.no, t)
                                else if pc.Unlocking? then Release(o, pc.no)
                                else o);
  }

  lemma BeginRefinesSpec(s: State, t: Thread, no: TradeNo)
    ensures OwnersOf(Begin(s, t, no)) == OwnersOf(s)
  {
    assert forall n :: HolderOf(Begin(s, t, no), n) == HolderOf(s, n);
  }

  lemma NextRefinesSpec(s: State, s': State)
    requires Inv(s) && Next(s, s')
    ensures SpecNext(OwnersOf(s), OwnersOf(s'))
  {
    if t :| Enabled(s, t) && s' == Step(s, t) {
      StepRefinesSpec(s, t);
    } else {
      var t, no :| t !in s.threads && s' == Begin(s, t, no);
      BeginRefinesSpec(s, t, no);
    }
  }

  lemma PrefixIsRun(run: seq<State>, n: nat)
    requires IsRun(run) && 0 < n <= |run|
    ensures IsRun(run[..n])
  {
    forall i | 0 <= i < n - 1 ensures Next(run[..n][i], run[..n][i + 1]) {
      assert Next(run[i], run[i + 1]);
    }
  }

  /** Every run of the reference-counted lock is, seen through OwnersOf, a run of the plain lock. */
  lemma RunRefinesSpec(run: seq<State>, i: nat)
    requires IsRun(run) && i + 1 < |run|
    ensures SpecNext(OwnersOf(run[i]), OwnersOf(run[i + 1]))
  {
    PrefixIsRun(run, i + 1);
    RunKeepsInv(run[..i + 1]);
    NextRefinesSpec(run[i], run[i + 1]);
  }

  // ----- the shared variables, updated in place -----

  lemma KeepsInv(s: State, t: Thread)
    requires Enabled(s, t)
    ensures Inv(s) ==> Inv(Step(s, t))
  {
    if Inv(s) {
      StepKeepsInv(s, t);
    }
  }

  /** The package variables of controller/topup.go and the threads that run over them. */
  class LockTable {
    var orderLocks: map<TradeNo, Addr>
    var mutexes: map<Addr, Mutex>
    var createLock: Option<Thread>
    var threads: map<Thread, Pc>
    var nextAddr: Addr

    function View(): State
      reads this
    {
      State(orderLocks, mutexes, createLock, threads, nextAddr)
    }

    constructor ()
      ensures View() == Init
    {
      orderLocks, mutexes, createLock, threads, nextAddr := map[], map[], None, map[], 0;
    }

    method CallLockOrder(t: Thread, no: TradeNo)
      requires Inv(View()) && t !in threads
      modifies this
      ensures View() == Begin(old(View()), t, no) && Inv(View())
    {
      BeginKeepsInv(View(), t, no);
      threads := threads[t := WantCreate(no)];
    }

    /** LockOrder up to rcm.mu.Lock(): the steps of thread t in program order. */
    method AdvanceLock(t: Thread)
      requires Enabled(View(), t)
      requires var pc := threads[t];
               pc.WantCreate? || pc.Lookup? || pc.Publish? || pc.Increment? || pc.LeaveCreate? || pc.WantMutex?
      modifies this
      ensures View() == Step(old(View()), t) && (Inv(old(View())) ==> Inv(View()))
    {
      KeepsInv(View(), t);
      match threads[t]
      case WantCreate(no) =>
        createLock, threads := Some(t), threads[t := Lookup(no)];
      case Lookup(no) =>
        if no in orderLocks {
          threads := threads[t := Increment(no, orderLocks[no])];
        } else {
          threads := threads[t := Publish(no)];
        }
      case Publish(no) =>
        mutexes := mutexes[nextAddr := Mutex(0, None)];
        orderLocks := orderLocks[no := nextAddr];
        threads := threads[t := Increment(no, nextAddr)];
        nextAddr := nextAddr + 1;
      case Increment(no, rcm) =>
        mutexes := mutexes[rcm := mutexes[rcm].(refCount := mutexes[rcm].refCount + 1)];
        threads := threads[t := LeaveCreate(no, rcm)];
      case LeaveCreate(no, rcm) =>
        createLock, threads := None, threads[t := WantMutex(no, rcm)];
      case WantMutex(no, rcm) =>
        mutexes := mutexes[rcm := mutexes[rcm].(holder := Some(t))];
        threads := threads[t := Critical(no, rcm)];
    }

    /** UnlockOrder: the steps of thread t in program order. */
    method AdvanceUnlock(t: Thread)
      requires Enabled(View(), t)
      requires var pc := threads[t];
               pc.Critical? || pc.Unlocking? || pc.WantCreateAgain? || pc.Decrement? || pc.MaybeDelete?
               || pc.LeaveAgain?
      modifies this
      ensures View() == Step(old(View()), t) && (Inv(old(View())) ==> Inv(View()))
    {
      KeepsInv(View(), t);
      match threads[t]
      case Critical(no, locked) =>
        if no in orderLocks {
          threads := threads[t := Unlocking(no, orderLocks[no], locked)];
        } else {
          threads := threads[t := Leaked(no)];
        }
      case Unlocking(no, rcm, _) =>
        if mutexes[rcm].holder == None {
          threads := threads[t := Crashed(no)];
        } else {
          mutexes := mutexes[rcm := mutexes[rcm].(holder := None)];
          threads := threads[t := WantCreateAgain(no, rcm)];
        }
      case WantCreateAgain(no, rcm) =>
        createLock, threads := Some(t), threads[t := Decrement(no, rcm)];
      case Decrement(no, rcm) =>
        mutexes := mutexes[rcm := mutexes[rcm].(refCount := mutexes[rcm].refCount - 1)];
        threads := threads[t := MaybeDelete(no, rcm)];
      case MaybeDelete(no, rcm) =>
        if mutexes[rcm].refCount == 0 {
          orderLocks := orderLocks - {no};
        }
        threads := threads[t := LeaveAgain(no)];
      case LeaveAgain(no) =>
        createLock, threads := None, threads - {t};
    }
  }
}
