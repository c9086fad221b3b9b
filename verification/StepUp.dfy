/** Step-up verification: the session markers written by controller/secure_verification.go and
    controller/passkey.go, and the check that reads them.

    The session is held by the server and its requests come one after another. Requests that are turned away
    before they touch a marker are not part of a run. Times are Unix seconds. */
module StepUp {
  import opened Base

  const VerifiedTimeout := 300
  const ReadyTimeout := 60

  datatype Factor = TwoFactor | Passkey

  /** The session's markers: an unconsumed passkey finish, and the last verification with its method. */
  datatype Session = Session(readyAt: Option<int>, verifiedAt: Option<int>, verifiedMethod: Option<Factor>)

  const Empty := Session(None, None, None)

  /** A request; `saved` and `dropped` tell whether the session store accepted the respective save. */
  datatype Op =
    | Finish(now: int, saved: bool)                                   // a WebAuthn assertion was accepted
    | VerifyCode(correct: bool, now: int, saved: bool)                // /api/verify with a 2FA code
    | VerifyPasskey(readAt: int, dropped: bool, now: int, saved: bool)  // /api/verify with a passkey
    | Check(factor: Factor, now: int, saved: bool)                    // requireSecureVerificationMethod

  function Verified(factor: Factor, now: int): Session { Session(None, Some(now), Some(factor)) }

  /** consumePasskeyReady: what is stored afterwards. */
  function Dropped(s: Session, dropped: bool): Session { if s.readyAt.Some? && dropped then s.(readyAt := None) else s }

  predicate ReadyOk(s: Session, readAt: int, dropped: bool) {
    s.readyAt.Some? && dropped && readAt - s.readyAt.value < ReadyTimeout
  }

  predicate Stale(s: Session, now: int) { s.verifiedAt == None || now - s.verifiedAt.value >= VerifiedTimeout }

  /** The stored session after a request. */
  function After(s: Session, op: Op): Session {
    match op
    case Finish(now, saved) => if saved then Session(Some(now), None, None) else s
    case VerifyCode(correct, now, saved) => if correct && saved then Verified(TwoFactor, now) else s
    case VerifyPasskey(readAt, dropped, now, saved) =>
      if ReadyOk(s, readAt, dropped) && saved then Verified(Passkey, now) else Dropped(s, dropped)
    case Check(_, now, saved) => if Stale(s, now) && saved then s.(verifiedAt := None, verifiedMethod := None) else s
  }

  /** Whether the request is answered positively. */
  predicate Passes(s: Session, op: Op) {
    match op
    case Finish(_, saved) => saved
    case VerifyCode(correct, _, saved) => correct && saved
    case VerifyPasskey(readAt, dropped, _, saved) => ReadyOk(s, readAt, dropped) && saved
    case Check(factor, now, _) => !Stale(s, now) && s.verifiedMethod == Some(factor)
  }

  function Run(ops: seq<Op>): Session {
    if ops == [] then Empty else After(Run(ops[..|ops| - 1]), ops[|ops| - 1])
  }

  // ----- the history alone -----

  /** The passkey finish that a verification could use now, as an index into the history. */
  function Usable(ops: seq<Op>): (r: Option<nat>)
    ensures r.Some? ==> r.value < |ops| && ops[r.value].Finish? && ops[r.value].saved
  {
    if ops == [] then None
    else
      var n := |ops| - 1;
      match ops[n]
      case Finish(_, saved) => if saved then Some(n) else Usable(ops[..n])
      case VerifyCode(correct, _, saved) => if correct && saved then None else Usable(ops[..n])
      case VerifyPasskey(_, dropped, _, _) => if dropped then None else Usable(ops[..n])
      case Check(_, _, _) => Usable(ops[..n])
  }

  /** A passkey verification succeeds on a usable finish less than a minute old. */
  predicate PasskeySucceeds(ops: seq<Op>, op: Op) {
    op.VerifyPasskey? && op.dropped && op.saved && Usable(ops).Some?
    && op.readAt - ops[Usable(ops).value].now < ReadyTimeout
  }

  predicate IsVerification(op: Op) { op.VerifyCode? || op.VerifyPasskey? }

  function FactorOf(op: Op): Factor
    requires IsVerification(op)
  {
    if op.VerifyCode? then TwoFactor else Passkey
  }

  /** The latest successful verification with no passkey finish since. */
  function Latest(ops: seq<Op>): (r: Option<nat>)
    ensures r.Some? ==> r.value < |ops| && IsVerification(ops[r.value])
  {
    if ops == [] then None
    else
      var n := |ops| - 1;
      match ops[n]
      case Finish(_, saved) => if saved then None else Latest(ops[..n])
      case VerifyCode(correct, _, saved) => if correct && saved then Some(n) else Latest(ops[..n])
      case VerifyPasskey(_, _, _, _) => if PasskeySucceeds(ops[..n], ops[n]) then Some(n) else Latest(ops[..n])
      case Check(_, _, _) => Latest(ops[..n])
  }

  function TimeAfter(ops: seq<Op>, start: int): int { if ops == [] then start else ops[|ops| - 1].now }

  /** The clock does not run backwards. */
  predicate Clocked(ops: seq<Op>, start: int) {
    ops != [] ==>
      var n := |ops| - 1;
      Clocked(ops[..n], start) && TimeAfter(ops[..n], start) <= ops[n].now &&
      (ops[n].VerifyPasskey? ==> TimeAfter(ops[..n], start) <= ops[n].readAt <= ops[n].now)
  }

  // ----- the session against the history -----

  /** The markers say what the history says, except that an overdue verification may have been cleared. */
  ghost predicate Agrees(ops: seq<Op>, s: Session, now: int) {
    && s.readyAt == (if Usable(ops).Some? then Some(ops[Usable(ops).value].now) else None)
    && (s.verifiedAt.Some? <==> s.verifiedMethod.Some?)
    && (s.verifiedAt.Some? ==>
          Latest(ops).Some? && var op := ops[Latest(ops).value];
          s.verifiedAt == Some(op.now) && s.verifiedMethod == Some(FactorOf(op)))
    && (s.verifiedAt == None && Latest(ops).Some? ==> now - ops[Latest(ops).value].now >= VerifiedTimeout)
  }

  lemma {:induction false} RunAgrees(ops: seq<Op>, start: int)
    requires Clocked(ops, start)
    ensures Agrees(ops, Run(ops), TimeAfter(ops, start))
  {
    if ops != [] {
      RunAgrees(ops[..|ops| - 1], start);
    }
  }

  /** In every run, a check passes exactly when the latest verification with no passkey finish since used that
      method less than 300 seconds ago. */
  lemma {:induction false} CheckIffRecentlyVerified(ops: seq<Op>, start: int, factor: Factor, now: int, saved: bool)
    requires Clocked(ops, start) && TimeAfter(ops, start) <= now
    ensures Passes(Run(ops), Check(factor, now, saved)) <==>
            && Latest(ops).Some?
            && var op := ops[Latest(ops).value];
               FactorOf(op) == factor && now - op.now < VerifiedTimeout
  {
    RunAgrees(ops, start);
  }

  /** In every run, a passkey verification passes exactly when it uses up a finish that nothing used before, less
      than 60 seconds old. */
  lemma {:induction false} PasskeyIffUsableFinish(ops: seq<Op>, start: int, op: Op)
    requires Clocked(ops, start) && op.VerifyPasskey?
    ensures Passes(Run(ops), op) <==> PasskeySucceeds(ops, op)
  {
    RunAgrees(ops, start);
  }

  /** What `Latest` finds: a request that passed, with no accepted passkey finish and no passing verification after
      it. */
  lemma {:induction false} LatestMeans(ops: seq<Op>, start: int, k: nat)
    requires Clocked(ops, start) && Latest(ops).Some? && k < |ops|
    ensures var i := Latest(ops).value;
            && Passes(Run(ops[..i]), ops[i])
            && (i < k ==> !(ops[k].Finish? && ops[k].saved))
            && (i < k && IsVerification(ops[k]) ==> !Passes(Run(ops[..k]), ops[k]))
            && (ops[i].VerifyPasskey? ==> PasskeySucceeds(ops[..i], ops[i]))
    decreases |ops|
  {
    var n := |ops| - 1;
    RunAgrees(ops[..n], start);
    if Latest(ops).value < n {
      var i := Latest(ops).value;
      LatestMeans(ops[..n], start, if k < n then k else 0);
      assert ops[..n][..i] == ops[..i] && (k < n ==> ops[..n][..k] == ops[..k]);
    }
  }

  lemma {:induction false} UsableRemains(ops: seq<Op>, m: nat, n: nat)
    requires m <= n <= |ops| && Usable(ops[..n]).Some? && Usable(ops[..n]).value < m
    ensures Usable(ops[..m]) == Usable(ops[..n])
    decreases n - m
  {
    if m < n {
      assert ops[..n][..n - 1] == ops[..n - 1];
      UsableRemains(ops, m, n - 1);
    }
  }

  /** Two successful passkey verifications use two different finishes. */
  lemma FinishesAreUsedOnce(ops: seq<Op>, i: nat, j: nat)
    requires i < j < |ops| && PasskeySucceeds(ops[..i], ops[i]) && PasskeySucceeds(ops[..j], ops[j])
    ensures Usable(ops[..i]) != Usable(ops[..j])
  {
    assert ops[..i + 1][..i] == ops[..i];
    assert Usable(ops[..i + 1]) == None;
    if Usable(ops[..j]).value < i + 1 {
      UsableRemains(ops, i + 1, j);
    }
  }

  // ----- the handlers -----

  /** The stored session, as the handlers load, change and save it. */
  class SessionStore {
    var stored: Session

    constructor ()
      ensures stored == Empty
    {
      stored := Empty;
    }

    method Save(session: Session, accepted: bool) returns (ok: bool)
      modifies this
      ensures ok == accepted && stored == if accepted then session else old(stored)
    {
      if accepted {
        stored := session;
      }
      return accepted;
    }

    /** The end of PasskeyVerifyFinish. */
    method PasskeyVerifyFinish(now: int, saved: bool) returns (ok: bool)
      modifies this
      ensures stored == After(old(stored), Finish(now, saved)) && ok == Passes(old(stored), Finish(now, saved))
    {
      var session := stored;
      session := session.(readyAt := Some(now));
      session := session.(verifiedAt := None);
      session := session.(verifiedMethod := None);
      ok := Save(session, saved);
    }

    method ConsumePasskeyReady(readAt: int, accepted: bool) returns (ok: bool)
      modifies this
      ensures stored == Dropped(old(stored), accepted) && ok == ReadyOk(old(stored), readAt, accepted)
    {
      var session := stored;
      if session.readyAt == None {
        return false;
      }
      var readyAt := session.readyAt.value;
      ok := Save(session.(readyAt := None), accepted);
      if !ok || readAt - readyAt >= ReadyTimeout {
        return false;
      }
    }

    method SetSecureVerification(factor: Factor, now: int, accepted: bool) returns (ok: bool)
      modifies this
      ensures ok == accepted && stored == if accepted then Verified(factor, now) else old(stored)
    {
      var session := stored.(readyAt := None);
      session := session.(verifiedAt := Some(now));
      session := session.(verifiedMethod := Some(factor));
      ok := Save(session, accepted);
    }

    /** UniversalVerify for a user who may use the method; `op` says which request it is. */
    method UniversalVerify(op: Op) returns (ok: bool)
      requires IsVerification(op)
      modifies this
      ensures stored == After(old(stored), op) && ok == Passes(old(stored), op)
    {
      var verified: bool;
      if op.VerifyCode? {
        verified := op.correct;
      } else {
        verified := ConsumePasskeyReady(op.readAt, op.dropped);
      }
      if !verified {
        return false;
      }
      ok := SetSecureVerification(FactorOf(op), op.now, op.saved);
    }

    method RequireSecureVerificationMethod(factor: Factor, now: int, saved: bool) returns (ok: bool)
      modifies this
      ensures stored == After(old(stored), Check(factor, now, saved))
      ensures ok == Passes(old(stored), Check(factor, now, saved))
    {
      var session := stored;
      if session.verifiedAt == None || now - session.verifiedAt.value >= VerifiedTimeout {
        var _ := Save(session.(verifiedAt := None, verifiedMethod := None), saved);
        return false;
      }
      return session.verifiedMethod == Some(factor);
    }
  }
}
