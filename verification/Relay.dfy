/** The retry loops of controller/relay.go (Relay and RelayTask) over the channel selection of
    service/channel_select.go.

    What the loops observe (disconnects, selection results, rate limits, attempt outcomes) is an
    arbitrary list of answers, one per iteration; when the list runs out the client has gone. */
module Relay {
  import opened Base

  /** An error, with what the operator's retry settings say about it. */
  datatype Error = Error(code: int, channelError: bool, skipRetry: bool, alwaysSkip: bool, statusRetries: bool,
                         local: bool)

  /** What model.GetRandomSatisfiedChannel and the cooldown check say of one group. */
  datatype Pick = Missing | Cooling | Found(channel: int)

  datatype Permit = Unavailable | Limited | Acquired

  datatype Body = Readable | TooLarge | Unreadable

  datatype Answer = Answer(
    gone: bool,              // the client is seen to have disconnected before the iteration
    current: int,            // the channel already in the request context
    picks: seq<Pick>,        // selection result per group; groups beyond the list have no channel
    setupFails: bool,
    body: Body,
    permit: Permit,
    outcome: Option<Error>,  // of the upstream attempt
    billed: bool,            // billing exists after the attempt
    quota: int,              // what a successful task submission costs
    goneAfter: bool,
    semantic: bool,          // the attempt has sent semantic output
    affinity: bool)          // channel affinity forbids a retry

  /** One request: which loop, the configured retries, and how channels are chosen. */
  datatype Config = Config(task: bool, retryTimes: int, auto: bool, groups: nat, crossGroup: bool, specific: bool,
                           locked: Option<int>)

  predicate Locked(cfg: Config) { cfg.task && cfg.locked.Some? }

  // ----- retry decisions -----

  function ShouldRetry(e: Error, affinity: bool, retryTimes: int, specific: bool): bool {
    if affinity then false
    else if e.channelError then true
    else if e.skipRetry then false
    else if retryTimes <= 0 then false
    else if specific then false
    else if 200 <= e.code < 300 then false
    else if e.code < 100 || e.code > 599 then true
    else if e.alwaysSkip then false
    else e.statusRetries
  }

  /** Go's integer division, which truncates toward zero. */
  function Hundreds(code: int): int { if code >= 0 then code / 100 else -(-code / 100) }

  function ShouldRetryTask(e: Error, affinity: bool, retryTimes: int, specific: bool): bool {
    if affinity || retryTimes <= 0 || specific then false
    else if e.code == 429 || e.code == 307 then true
    else if Hundreds(e.code) == 5 then !e.alwaysSkip
    else if e.code == 400 || e.code == 408 then false
    else if e.local then false
    else Hundreds(e.code) != 2
  }

  /** The errors after which another channel may be tried, whatever the retries left. */
  predicate Retriable(cfg: Config, e: Error) {
    if cfg.task then
      !cfg.specific &&
      (e.code in {429, 307} || (500 <= e.code < 600 && !e.alwaysSkip) ||
       (!e.local && e.code !in {400, 408} && !(200 <= e.code < 300) && !(500 <= e.code < 600)))
    else
      e.channelError ||
      (!cfg.specific && !e.skipRetry && !(200 <= e.code < 300) &&
       (100 <= e.code <= 599 ==> !e.alwaysSkip && e.statusRetries))
  }

  /** Both decisions: a retriable error is retried unless affinity forbids it, and with no retries left only a
      channel error of Relay is. */
  lemma RetryDecisions(cfg: Config, e: Error, affinity: bool, retryTimes: int)
    ensures (if cfg.task then ShouldRetryTask(e, affinity, retryTimes, cfg.specific)
             else ShouldRetry(e, affinity, retryTimes, cfg.specific)) <==>
            Retriable(cfg, e) && !affinity && (retryTimes > 0 || (!cfg.task && e.channelError))
  {
  }

  // ----- channel selection -----

  /** RetryParam and the group index kept in the request context. */
  datatype Selector = Selector(retry: int, resetNext: bool, group: nat)

  function Increase(s: Selector): Selector {
    if s.resetNext then s.(resetNext := false) else s.(retry := s.retry + 1)
  }

  function PickAt(a: Answer, i: nat): Pick { if i < |a.picks| then a.picks[i] else Missing }

  /** The group loop of CacheGetRandomSatisfiedChannel at group i, having started at group `start`. */
  function SelectAuto(cfg: Config, a: Answer, s: Selector, start: nat, i: nat): (Selector, Option<int>)
    decreases cfg.groups - i
  {
    if i >= cfg.groups then (s, None)
    else
      var priorityRetry := if i > start then 0 else s.retry;
      match PickAt(a, i)
      case Missing => SelectAuto(cfg, a, s.(group := i + 1, retry := 0), start, i + 1)
      case Cooling => SelectAuto(cfg, a, s.(retry := s.retry + 1), start, i + 1)
      case Found(c) =>
        (if cfg.crossGroup && priorityRetry >= cfg.retryTimes then Selector(0, true, i + 1)
         else s.(group := i), Some(c))
  }

  function Select(cfg: Config, a: Answer, s: Selector): (Selector, Option<int>) {
    if cfg.auto then SelectAuto(cfg, a, s, s.group, s.group)
    else (s, match PickAt(a, 0) case Found(c) => Some(c) case _ => None)
  }

  /** Group i is the first one from `start` on that has a usable channel. */
  ghost predicate FirstUsable(cfg: Config, a: Answer, start: nat, i: nat) {
    start <= i < cfg.groups && PickAt(a, i).Found? && forall j: nat :: start <= j < i ==> !PickAt(a, j).Found?
  }

  /** The channel of the first usable group i. The selection stays there, unless that group has had its retries and
      the next one is due. */
  ghost predicate ChosenAt(cfg: Config, a: Answer, s: Selector, start: nat, s': Selector, channel: int, i: nat) {
    FirstUsable(cfg, a, start, i) && PickAt(a, i) == Found(channel) &&
    var moves := cfg.crossGroup && (if i > s.group then 0 else s.retry) >= cfg.retryTimes;
    s'.group == (if moves then i + 1 else i) && (moves ==> s'.retry == 0) && s'.resetNext == (moves || s.resetNext)
  }

  ghost predicate Chosen(cfg: Config, a: Answer, s: Selector, start: nat, s': Selector, channel: Option<int>) {
    match channel
    case None => forall i: nat :: start <= i < cfg.groups ==> !PickAt(a, i).Found?
    case Some(c) => exists i: nat :: ChosenAt(cfg, a, s, start, s', c, i)
  }

  lemma ChosenLater(cfg: Config, a: Answer, s: Selector, start: nat, s': Selector, channel: Option<int>)
    requires Chosen(cfg, a, s, start + 1, s', channel) && !PickAt(a, start).Found?
    ensures Chosen(cfg, a, s, start, s', channel)
  {
    if channel.Some? {
      var i: nat :| ChosenAt(cfg, a, s, start + 1, s', channel.value, i);
      assert ChosenAt(cfg, a, s, start, s', channel.value, i);
    }
  }

  lemma {:induction false} SelectAutoMeans(cfg: Config, a: Answer, s0: Selector, s: Selector, i: nat)
    requires s0.group <= i && s.resetNext == s0.resetNext && (i == s0.group ==> s == s0)
    ensures var (s', channel) := SelectAuto(cfg, a, s, s0.group, i); Chosen(cfg, a, s0, i, s', channel)
    decreases cfg.groups - i
  {
    if i < cfg.groups {
      match PickAt(a, i) {
        case Missing =>
          SelectAutoMeans(cfg, a, s0, s.(group := i + 1, retry := 0), i + 1);
          ChosenLater(cfg, a, s0, i, SelectAuto(cfg, a, s, s0.group, i).0, SelectAuto(cfg, a, s, s0.group, i).1);
        case Cooling =>
          SelectAutoMeans(cfg, a, s0, s.(retry := s.retry + 1), i + 1);
          ChosenLater(cfg, a, s0, i, SelectAuto(cfg, a, s, s0.group, i).0, SelectAuto(cfg, a, s, s0.group, i).1);
        case Found(c) =>
          assert ChosenAt(cfg, a, s0, i, SelectAuto(cfg, a, s, s0.group, i).0, c, i);
      }
    }
  }

  /** CacheGetRandomSatisfiedChannel, as the loop it is. */
  method CacheGetRandomSatisfiedChannel(cfg: Config, a: Answer, s: Selector)
    returns (s': Selector, channel: Option<int>)
    ensures (s', channel) == Select(cfg, a, s)
    ensures cfg.auto ==> Chosen(cfg, a, s, s.group, s', channel)
    ensures !cfg.auto ==> s' == s && forall c :: channel == Some(c) <==> PickAt(a, 0) == Found(c)
  {
    s', channel := s, None;
    if cfg.auto {
      SelectAutoMeans(cfg, a, s, s, s.group);
      var start := s.group;
      var i := start;
      while i < cfg.groups
        invariant start <= i && channel == None
        invariant SelectAuto(cfg, a, s', start, i) == SelectAuto(cfg, a, s, start, start)
      {
        var priorityRetry := if i > start then 0 else s'.retry;
        match PickAt(a, i) {
          case Missing =>
            s' := s'.(group := i + 1, retry := 0);
          case Cooling =>
            s' := s'.(retry := s'.retry + 1);
          case Found(c) =>
            channel := Some(c);
            if cfg.crossGroup && priorityRetry >= cfg.retryTimes {
              s' := Selector(0, true, i + 1);
            } else {
              s' := s'.(group := i);
            }
            return;
        }
        i := i + 1;
      }
    } else {
      match PickAt(a, 0) {
        case Found(c) => channel := Some(c);
        case _ =>
      }
    }
  }

  // ----- one iteration -----

  /** What an iteration did. */
  datatype Step =
    | Gone                   // saw the client gone and stopped
    | Refused(error: Error)  // no channel, no body or no permit: stopped with an error
    | Skipped                // the channel is locally rate limited
    | Attempted(channel: int, outcome: Option<Error>, semantic: bool, gone: bool, billed: bool, quota: int)

  /** A run so far: the selector, what the iterations did, and whether the loop was left. */
  datatype State = State(sel: Selector, log: seq<Step>, done: bool)

  /** The channels attempted, in order. */
  function Channels(log: seq<Step>): seq<int> {
    if log == [] then []
    else
      var last := log[|log| - 1];
      if last.Attempted? then Channels(log[..|log| - 1]) + [last.channel] else Channels(log[..|log| - 1])
  }

  function Refusal(code: int): Step { Refused(Error(code, false, true, false, false, true)) }

  /** The channel of an iteration: the locked one, the one already in the context until an attempt has been
      made, or a newly selected one. */
  function Choose(cfg: Config, a: Answer, s: State): (Selector, Option<int>) {
    if a.gone then (s.sel, None)
    else if Locked(cfg) then (s.sel, if s.sel.retry > 0 && a.setupFails then None else cfg.locked)
    else if Channels(s.log) == [] then (s.sel, Some(a.current))
    else
      var (sel, channel) := Select(cfg, a, s.sel);
      (sel, if a.setupFails then None else channel)
  }

  function StepOf(a: Answer, channel: Option<int>): Step {
    if a.gone then Gone
    else if channel == None then Refusal(500)
    else if a.body == TooLarge then Refusal(413)
    else if a.body == Unreadable then Refusal(400)
    else if a.permit == Unavailable then Refusal(503)
    else if a.permit == Limited then Skipped
    else Attempted(channel.value, a.outcome, a.semantic, a.goneAfter, a.billed, a.quota)
  }

  /** Whether the loop goes on after the step. */
  function GoesOn(cfg: Config, a: Answer, step: Step, retry: int): bool {
    match step
    case Skipped => true
    case Attempted(_, Some(e), semantic, gone, _, _) =>
      !gone && if cfg.task then ShouldRetryTask(e, a.affinity, cfg.retryTimes - retry, cfg.specific)
               else !semantic && ShouldRetry(e, a.affinity, cfg.retryTimes - retry, cfg.specific)
    case _ => false
  }

  /** One pass of the loop body and of the increment. */
  function Turn(cfg: Config, a: Answer, s: State): State {
    var (sel, channel) := Choose(cfg, a, s);
    var step := StepOf(a, channel);
    var on := GoesOn(cfg, a, step, sel.retry);
    State(if on then Increase(sel) else sel, s.log + [step], !on)
  }

  const Disconnected := Answer(true, 0, [], false, Readable, Acquired, None, false, 0, false, false, false)

  function AnswerAt(env: seq<Answer>, k: nat): Answer { if k < |env| then env[k] else Disconnected }

  // ----- termination and the number of attempts -----

  function Max(a: int, b: int): int { if a >= b then a else b }

  /** Groups that can still be tried; without group selection the request counts as one group. */
  function GroupsLeft(cfg: Config, sel: Selector, metaSet: bool): nat {
    if !cfg.auto || Locked(cfg) then 1
    else if metaSet then Max(0, cfg.groups - sel.group)
    else Max(1, cfg.groups - sel.group)
  }

  /** `each` attempts for every group: groups * each. */
  function Times(groups: nat, each: int): int { if groups == 0 then 0 else each + Times(groups - 1, each) }

  /** What a group is good for: with cross-group retries it is left after its retries are used up, otherwise only
      when it has no channel, and then only the last one gets an attempt beyond the retries. */
  function Each(cfg: Config): int { if cfg.crossGroup then cfg.retryTimes + 1 else cfg.retryTimes }

  function Spare(cfg: Config): nat { if cfg.crossGroup then 0 else 1 }

  /** Attempts that can still follow. */
  function Budget(cfg: Config, sel: Selector, metaSet: bool): int {
    Times(GroupsLeft(cfg, sel, metaSet), Each(cfg)) + Spare(cfg) - sel.retry
  }

  predicate Fresh(sel: Selector) { 0 <= sel.retry && !sel.resetNext }

  lemma {:induction false} TimesIsProduct(groups: nat, each: int)
    ensures Times(groups, each) == groups * each
  {
    if groups > 0 {
      TimesIsProduct(groups - 1, each);
    }
  }

  lemma {:induction false} MoreGroups(fewer: nat, more: nat, each: nat)
    requires fewer <= more
    ensures Times(fewer, each) <= Times(more, each)
    decreases more
  {
    if fewer < more {
      MoreGroups(fewer, more - 1, each);
    }
  }

  /** Moving on to group i or a later one. */
  lemma {:induction false} LaterGroup(cfg: Config, a: Answer, s: Selector, start: nat, i: nat)
    requires start < i && Fresh(s) && 0 <= cfg.retryTimes
    requires SelectAuto(cfg, a, s, start, i).1.Some?
    ensures var s' := Increase(SelectAuto(cfg, a, s, start, i).0);
            && Fresh(s') && i <= s'.group <= cfg.groups && i < cfg.groups
            && Times(cfg.groups - s'.group, Each(cfg)) + Spare(cfg) - s'.retry <
               Times(cfg.groups - i, Each(cfg)) + Spare(cfg)
    decreases cfg.groups - i
  {
    match PickAt(a, i) {
      case Missing => LaterGroup(cfg, a, s.(group := i + 1, retry := 0), start, i + 1);
      case Cooling => LaterGroup(cfg, a, s.(retry := s.retry + 1), start, i + 1);
      case Found(c) =>
    }
  }

  /** Every successful selection uses up budget, although it may set the retry counter back to zero. */
  lemma SelectionSpends(cfg: Config, a: Answer, s: Selector)
    requires cfg.auto && Fresh(s) && s.retry <= cfg.retryTimes && Select(cfg, a, s).1.Some?
    ensures var s' := Increase(Select(cfg, a, s).0);
            && Fresh(s') && s.group < cfg.groups && s'.group <= cfg.groups
            && Times(cfg.groups - s'.group, Each(cfg)) - s'.retry < Times(cfg.groups - s.group, Each(cfg)) - s.retry
  {
    var i := s.group;
    match PickAt(a, i) {
      case Missing => LaterGroup(cfg, a, s.(group := i + 1, retry := 0), i, i + 1);
      case Cooling => LaterGroup(cfg, a, s.(retry := s.retry + 1), i, i + 1);
      case Found(c) =>
    }
  }

  /** Using a channel needs budget and leaves less of it, whether or not an attempt is made on it. */
  lemma ChoiceSpends(cfg: Config, a: Answer, s: State, attempted: bool)
    requires Fresh(s.sel) && s.sel.retry <= cfg.retryTimes && Choose(cfg, a, s).1.Some?
    ensures var sel := Increase(Choose(cfg, a, s).0);
            && Fresh(sel) && Budget(cfg, s.sel, Channels(s.log) != []) >= 1
            && Budget(cfg, sel, Channels(s.log) != [] || attempted) < Budget(cfg, s.sel, Channels(s.log) != [])
  {
    if cfg.auto && !Locked(cfg) && Channels(s.log) != [] {
      SelectionSpends(cfg, a, s.sel);
      MoreGroups(1, cfg.groups - s.sel.group, Each(cfg));
    } else {
      MoreGroups(1, GroupsLeft(cfg, s.sel, Channels(s.log) != []), Each(cfg));
      if cfg.auto && !Locked(cfg) {
        MoreGroups(GroupsLeft(cfg, s.sel, true), GroupsLeft(cfg, s.sel, false), Each(cfg));
      }
    }
  }

  lemma {:induction false} ChannelsSnoc(log: seq<Step>, step: Step)
    ensures Channels(log + [step]) == if step.Attempted? then Channels(log) + [step.channel] else Channels(log)
  {
    assert (log + [step])[..|log|] == log;
  }

  /** An iteration after which the loop goes on had budget and has less of it now. */
  lemma TurnSpends(cfg: Config, a: Answer, s: State, s': State)
    requires !s.done && Fresh(s.sel) && s.sel.retry <= cfg.retryTimes && s' == Turn(cfg, a, s)
    ensures |Channels(s.log)| <= |Channels(s'.log)| <= |Channels(s.log)| + 1
    ensures |Channels(s'.log)| > |Channels(s.log)| || !s'.done ==> Budget(cfg, s.sel, Channels(s.log) != []) >= 1
    ensures !s'.done ==>
              Fresh(s'.sel) &&
              Budget(cfg, s'.sel, Channels(s'.log) != []) < Budget(cfg, s.sel, Channels(s.log) != [])
  {
    var step := StepOf(a, Choose(cfg, a, s).1);
    ChannelsSnoc(s.log, step);
    if Choose(cfg, a, s).1.Some? {
      ChoiceSpends(cfg, a, s, step.Attempted?);
    }
  }

  /** The loop from its k-th iteration on. */
  function Loop(cfg: Config, env: seq<Answer>, s: State, k: nat): State
    requires Fresh(s.sel)
    decreases Max(0, Budget(cfg, s.sel, Channels(s.log) != []))
  {
    if s.done || s.sel.retry > cfg.retryTimes then s
    else
      var s' := Turn(cfg, AnswerAt(env, k), s);
      if s'.done then s'
      else
        TurnSpends(cfg, AnswerAt(env, k), s, s');
        Loop(cfg, env, s', k + 1)
  }

  /** The whole loop; `group` is the auto group that the first channel was taken from. */
  function Run(cfg: Config, env: seq<Answer>, group: nat): State {
    Loop(cfg, env, State(Selector(0, false, group), [], false), 0)
  }

  lemma {:induction false} LoopAttempts(cfg: Config, env: seq<Answer>, s: State, k: nat)
    requires Fresh(s.sel) && !s.done
    ensures |Channels(Loop(cfg, env, s, k).log)| <=
            |Channels(s.log)| + Max(0, Budget(cfg, s.sel, Channels(s.log) != []))
    decreases Max(0, Budget(cfg, s.sel, Channels(s.log) != []))
  {
    if s.sel.retry <= cfg.retryTimes {
      var s' := Turn(cfg, AnswerAt(env, k), s);
      TurnSpends(cfg, AnswerAt(env, k), s, s');
      if !s'.done {
        LoopAttempts(cfg, env, s', k + 1);
      }
    }
  }

  /** The groups that a request can draw on. */
  function Groups(cfg: Config, group: nat): nat { GroupsLeft(cfg, Selector(0, false, group), false) }

  lemma AttemptBudget(cfg: Config, env: seq<Answer>, group: nat)
    ensures |Channels(Run(cfg, env, group).log)| <= Max(0, Times(Groups(cfg, group), Each(cfg)) + Spare(cfg))
  {
    LoopAttempts(cfg, env, State(Selector(0, false, group), [], false), 0);
  }

  /** The most attempts that a request can make. */
  function Bound(cfg: Config, group: nat): int {
    if cfg.crossGroup then Groups(cfg, group) * (cfg.retryTimes + 1) else Groups(cfg, group) * cfg.retryTimes + 1
  }

  /** With cross-group retries a request makes at most RetryTimes + 1 attempts for every group it can draw on, without
      them RetryTimes for every group and one more. */
  lemma AttemptBound(cfg: Config, env: seq<Answer>, group: nat)
    ensures |Channels(Run(cfg, env, group).log)| <= Max(0, Bound(cfg, group))
  {
    AttemptBudget(cfg, env, group);
    TimesIsProduct(Groups(cfg, group), Each(cfg));
  }

  // ----- how runs end -----

  /** A step after which another iteration may follow. */
  predicate MayGoOn(cfg: Config, step: Step) {
    step.Skipped? ||
    (step.Attempted? && step.outcome.Some? && !step.gone && Retriable(cfg, step.outcome.value) &&
     (cfg.task || !step.semantic))
  }

  predicate WellFormed(cfg: Config, s: State) {
    && (forall i :: 0 <= i < |s.log| - 1 ==> MayGoOn(cfg, s.log[i]))
    && (s.log != [] && !s.done ==> MayGoOn(cfg, s.log[|s.log| - 1]))
  }

  lemma GoesOnMeans(cfg: Config, a: Answer, step: Step, retry: int)
    requires GoesOn(cfg, a, step, retry)
    ensures MayGoOn(cfg, step)
  {
    if step.Attempted? {
      RetryDecisions(cfg, step.outcome.value, a.affinity, cfg.retryTimes - retry);
    }
  }

  lemma TurnIsWellFormed(cfg: Config, a: Answer, s: State)
    requires !s.done && WellFormed(cfg, s)
    ensures WellFormed(cfg, Turn(cfg, a, s)) && s.log <= Turn(cfg, a, s).log
  {
    var (sel, channel) := Choose(cfg, a, s);
    var step := StepOf(a, channel);
    assert Turn(cfg, a, s).log == s.log + [step];
    if GoesOn(cfg, a, step, sel.retry) {
      GoesOnMeans(cfg, a, step, sel.retry);
    }
  }

  lemma {:induction false} LoopIsWellFormed(cfg: Config, env: seq<Answer>, s: State, k: nat)
    requires Fresh(s.sel) && !s.done && WellFormed(cfg, s)
    ensures WellFormed(cfg, Loop(cfg, env, s, k)) && s.log <= Loop(cfg, env, s, k).log
    decreases Max(0, Budget(cfg, s.sel, Channels(s.log) != []))
  {
    if s.sel.retry <= cfg.retryTimes {
      var s' := Turn(cfg, AnswerAt(env, k), s);
      TurnIsWellFormed(cfg, AnswerAt(env, k), s);
      TurnSpends(cfg, AnswerAt(env, k), s, s');
      if !s'.done {
        LoopIsWellFormed(cfg, env, s', k + 1);
      }
    }
  }

  lemma LoopTurns(cfg: Config, env: seq<Answer>, s: State, k: nat, s': State)
    requires Fresh(s.sel) && !s.done && s.sel.retry <= cfg.retryTimes
    requires s' == Turn(cfg, AnswerAt(env, k), s) && !s'.done
    ensures Fresh(s'.sel) && Loop(cfg, env, s, k) == Loop(cfg, env, s', k + 1)
  {
    TurnSpends(cfg, AnswerAt(env, k), s, s');
  }

  /** The first entry of the log is what the first iteration did. */
  lemma FirstTurn(cfg: Config, a: Answer, s: State)
    requires s.log == []
    ensures |Turn(cfg, a, s).log| == 1 && (Turn(cfg, a, s).log[0] == Gone <==> a.gone)
  {
  }

  lemma {:induction false} FirstStep(cfg: Config, env: seq<Answer>, s: State)
    requires Fresh(s.sel) && !s.done && s.log == [] && s.sel.retry <= cfg.retryTimes
    ensures var log := Loop(cfg, env, s, 0).log; log != [] && (log[0] == Gone <==> AnswerAt(env, 0).gone)
  {
    var s' := Turn(cfg, AnswerAt(env, 0), s);
    FirstTurn(cfg, AnswerAt(env, 0), s);
    if !s'.done {
      LoopTurns(cfg, env, s, 0, s');
      TurnIsWellFormed(cfg, AnswerAt(env, 0), s);
      LoopIsWellFormed(cfg, env, s', 1);
    }
  }

  lemma RunIsWellFormed(cfg: Config, env: seq<Answer>, group: nat)
    ensures var s := Run(cfg, env, group);
            && WellFormed(cfg, s)
            && (s.log == [] <==> cfg.retryTimes < 0)
            && (cfg.retryTimes >= 0 ==> (s.log[0] == Gone <==> AnswerAt(env, 0).gone))
  {
    var s := State(Selector(0, false, group), [], false);
    LoopIsWellFormed(cfg, env, s, 0);
    if cfg.retryTimes >= 0 {
      FirstStep(cfg, env, s);
    }
  }

  /** The error variable after the loop: that of the last attempt or refusal. */
  function ErrorOf(log: seq<Step>): Option<Error> {
    if log == [] then None
    else
      match log[|log| - 1]
      case Refused(e) => Some(e)
      case Attempted(_, outcome, _, _, _, _) => outcome
      case _ => ErrorOf(log[..|log| - 1])
  }

  const AllLimited := Error(429, false, true, false, false, true)

  /** The error that the request ends with. */
  function FinalError(log: seq<Step>): Option<Error> {
    if ErrorOf(log) == None && Skipped in log && Channels(log) == [] then Some(AllLimited) else ErrorOf(log)
  }

  predicate Succeeded(log: seq<Step>) { log != [] && log[|log| - 1].Attempted? && log[|log| - 1].outcome == None }

  /** Channel selection was reached. */
  predicate Reached(log: seq<Step>) { log != [] && log[0] != Gone }

  lemma {:induction false} ErrorWhileGoingOn(cfg: Config, log: seq<Step>)
    requires forall i :: 0 <= i < |log| ==> MayGoOn(cfg, log[i])
    ensures ErrorOf(log) == None <==> Channels(log) == []
    ensures log != [] && Channels(log) == [] ==> Skipped in log
  {
    if log != [] {
      var n := |log| - 1;
      assert MayGoOn(cfg, log[n]);
      ErrorWhileGoingOn(cfg, log[..n]);
    }
  }

  /** A run that reaches channel selection ends without an error exactly when its last step is a successful
      attempt; a run that does not reach it makes no attempt and yet ends without an error. */
  lemma NoErrorIffSuccess(cfg: Config, env: seq<Answer>, group: nat)
    ensures var log := Run(cfg, env, group).log;
            && (Reached(log) <==> cfg.retryTimes >= 0 && !AnswerAt(env, 0).gone)
            && (Reached(log) ==> (FinalError(log) == None <==> Succeeded(log)))
            && (!Reached(log) ==> FinalError(log) == None && !Succeeded(log) && Channels(log) == [])
  {
    RunIsWellFormed(cfg, env, group);
    var s := Run(cfg, env, group);
    var log := s.log;
    if log != [] {
      var n := |log| - 1;
      assert log == log[..n] + [log[n]];
      ErrorWhileGoingOn(cfg, log[..n]);
      ChannelsSnoc(log[..n], log[n]);
      assert 0 < n ==> MayGoOn(cfg, log[0]);
    }
  }

  /** Nothing follows a success, an observed disconnect, an error that is not retriable or, in Relay, semantic
      output. */
  lemma NothingAfterTheEnd(cfg: Config, env: seq<Answer>, group: nat, i: nat, j: nat)
    requires i < j < |Run(cfg, env, group).log| && Run(cfg, env, group).log[i].Attempted?
    ensures var step := Run(cfg, env, group).log[i];
            && step.outcome.Some? && !step.gone && (!cfg.task ==> !step.semantic)
            && Retriable(cfg, step.outcome.value)
  {
    RunIsWellFormed(cfg, env, group);
    assert MayGoOn(cfg, Run(cfg, env, group).log[i]);
  }

  // ----- when RetryTimes + 1 attempts is the limit -----

  ghost predicate AtMostRetriesPlusOne(cfg: Config, group: nat) {
    forall env: seq<Answer> :: |Channels(Run(cfg, env, group).log)| <= Max(0, cfg.retryTimes + 1)
  }

  /** With no retry to be had, or with a task pinned to one channel, one attempt ends the run. */
  lemma {:induction false} PinnedTask(cfg: Config, log: seq<Step>)
    requires cfg.task && cfg.specific && forall i :: 0 <= i < |log| ==> MayGoOn(cfg, log[i])
    ensures Channels(log) == []
  {
    if log != [] {
      assert MayGoOn(cfg, log[|log| - 1]);
      PinnedTask(cfg, log[..|log| - 1]);
    }
  }

  lemma PinnedTaskOnce(cfg: Config, env: seq<Answer>, group: nat)
    requires cfg.task && cfg.specific
    ensures |Channels(Run(cfg, env, group).log)| <= 1
  {
    RunIsWellFormed(cfg, env, group);
    var log := Run(cfg, env, group).log;
    if log != [] {
      assert log == log[..|log| - 1] + [log[|log| - 1]];
      PinnedTask(cfg, log[..|log| - 1]);
      ChannelsSnoc(log[..|log| - 1], log[|log| - 1]);
    }
  }

  /** Without retries there is one iteration, on the channel already in the context. */
  lemma SingleTurn(cfg: Config, env: seq<Answer>, group: nat)
    requires cfg.retryTimes == 0
    ensures |Channels(Run(cfg, env, group).log)| <= 1
  {
    var s := State(Selector(0, false, group), [], false);
    var s' := Turn(cfg, AnswerAt(env, 0), s);
    TurnSpends(cfg, AnswerAt(env, 0), s, s');
    assert !s'.done ==> s'.sel == Increase(s.sel);
    if !s'.done {
      assert Loop(cfg, env, s', 1) == s';
    }
  }

  const Overload := Error(429, true, false, false, true, false)

  /** An attempt on whatever is found, which fails in a way that is retried. */
  function Failing(picks: seq<Pick>): Answer {
    Answer(false, 1, picks, false, Readable, Acquired, Some(Overload), true, 0, false, false, false)
  }

  lemma SelectHere(cfg: Config, a: Answer, s: Selector, channel: int)
    requires cfg.auto && s.group < cfg.groups && PickAt(a, s.group) == Found(channel)
    ensures Select(cfg, a, s) ==
            (if cfg.crossGroup && s.retry >= cfg.retryTimes then Selector(0, true, s.group + 1) else s, Some(channel))
  {
  }

  lemma {:induction false} LoopGrows(cfg: Config, env: seq<Answer>, s: State, k: nat)
    requires Fresh(s.sel) && !s.done
    ensures |Channels(Loop(cfg, env, s, k).log)| >= |Channels(s.log)|
    decreases Max(0, Budget(cfg, s.sel, Channels(s.log) != []))
  {
    if s.sel.retry <= cfg.retryTimes {
      var s' := Turn(cfg, AnswerAt(env, k), s);
      TurnSpends(cfg, AnswerAt(env, k), s, s');
      if !s'.done {
        LoopGrows(cfg, env, s', k + 1);
      }
    }
  }

  /** The loop makes at least the attempts of its next iteration. */
  lemma {:induction false} LoopGrowsOn(cfg: Config, env: seq<Answer>, s: State, k: nat)
    requires Fresh(s.sel) && !s.done && s.sel.retry <= cfg.retryTimes
    ensures |Channels(Loop(cfg, env, s, k).log)| >= |Channels(Turn(cfg, AnswerAt(env, k), s).log)|
  {
    var s' := Turn(cfg, AnswerAt(env, k), s);
    if !s'.done {
      LoopTurns(cfg, env, s, k, s');
      LoopGrows(cfg, env, s', k + 1);
    }
  }

  lemma {:induction false} LastAttempt(cfg: Config, env: seq<Answer>, s: State, k: nat, channel: int)
    requires Fresh(s.sel) && !s.done && s.sel.retry <= cfg.retryTimes
    requires AnswerAt(env, k) == Failing(AnswerAt(env, k).picks) && Choose(cfg, AnswerAt(env, k), s).1 == Some(channel)
    ensures |Channels(Loop(cfg, env, s, k).log)| >= |Channels(s.log)| + 1
  {
    ChannelsSnoc(s.log, StepOf(AnswerAt(env, k), Some(channel)));
    LoopGrowsOn(cfg, env, s, k);
  }

  predicate GivesGroup(env: seq<Answer>, j: nat, group: nat) {
    j < |env| && env[j] == Failing(env[j].picks) && PickAt(env[j], group) == Found(2)
  }

  /** A failing attempt that is retried moves the loop on. */
  lemma FailingTurn(cfg: Config, a: Answer, s: State, sel: Selector, channel: int)
    requires a == Failing(a.picks) && Choose(cfg, a, s) == (sel, Some(channel)) && Fresh(s.sel) && !s.done
    requires s.sel.retry <= cfg.retryTimes && sel.retry < cfg.retryTimes && !(cfg.task && cfg.specific)
    ensures var s' := Turn(cfg, a, s);
            s'.sel == Increase(sel) && !s'.done && |Channels(s'.log)| == |Channels(s.log)| + 1
  {
    ChannelsSnoc(s.log, StepOf(a, Some(channel)));
  }

  /** Once a group serves every selection, failures use up the remaining retries in it. */
  lemma {:induction false} Grind(cfg: Config, env: seq<Answer>, s: State, k: nat)
    requires cfg.auto && !Locked(cfg) && !(cfg.task && cfg.specific) && s.sel.group < cfg.groups
    requires Fresh(s.sel) && !s.done && Channels(s.log) != [] && s.sel.retry <= cfg.retryTimes
    requires forall j :: k <= j <= k + cfg.retryTimes - s.sel.retry ==> GivesGroup(env, j, s.sel.group)
    ensures |Channels(Loop(cfg, env, s, k).log)| >= |Channels(s.log)| + cfg.retryTimes - s.sel.retry + 1
    decreases cfg.retryTimes - s.sel.retry
  {
    assert GivesGroup(env, k, s.sel.group);
    var a := AnswerAt(env, k);
    SelectHere(cfg, a, s.sel, 2);
    if s.sel.retry < cfg.retryTimes {
      FailingTurn(cfg, a, s, s.sel, 2);
      LoopTurns(cfg, env, s, k, Turn(cfg, a, s));
      Grind(cfg, env, Turn(cfg, a, s), k + 1);
    } else {
      LastAttempt(cfg, env, s, k, 2);
    }
  }

  /** Every answer is the failing attempt on whatever is found. */
  predicate AllFailing(env: seq<Answer>, a: Answer) {
    a == Failing(a.picks) && forall j :: 0 <= j < |env| ==> env[j] == a
  }

  /** The state after the first attempt, which takes the channel of the context. */
  lemma FirstAttempt(cfg: Config, env: seq<Answer>, group: nat, a: Answer) returns (s: State)
    requires !Locked(cfg) && !(cfg.task && cfg.specific) && cfg.retryTimes >= 1
    requires |env| > 0 && env[0] == a == Failing(a.picks)
    ensures !s.done && s.sel == Selector(1, false, group) && |Channels(s.log)| == 1
    ensures Run(cfg, env, group) == Loop(cfg, env, s, 1)
  {
    var s0 := State(Selector(0, false, group), [], false);
    s := Turn(cfg, a, s0);
    FailingTurn(cfg, a, s0, s0.sel, a.current);
    LoopTurns(cfg, env, s0, 0, s);
  }

  lemma SelectSecond(cfg: Config, a: Answer, s: Selector)
    requires cfg.auto && cfg.retryTimes >= 1 && s.group + 1 < cfg.groups && !s.resetNext
    requires PickAt(a, s.group) == Missing && PickAt(a, s.group + 1) == Found(2)
    ensures Select(cfg, a, s) == (Selector(0, false, s.group + 1), Some(2))
  {
    assert SelectAuto(cfg, a, s.(group := s.group + 1, retry := 0), s.group, s.group + 1) ==
           (Selector(0, false, s.group + 1), Some(2));
  }

  /** With a second group to move to, a run makes more attempts than there are retries. */
  lemma MovingOn(cfg: Config, group: nat, env: seq<Answer>, a: Answer)
    requires cfg.auto && !Locked(cfg) && !(cfg.task && cfg.specific) && cfg.groups - group >= 2 && cfg.retryTimes >= 1
    requires AllFailing(env, a) && |env| == cfg.retryTimes + 2
    requires PickAt(a, group) == Missing && PickAt(a, group + 1) == Found(2)
    ensures |Channels(Run(cfg, env, group).log)| >= cfg.retryTimes + 2
  {
    var s1 := FirstAttempt(cfg, env, group, a);
    SelectSecond(cfg, a, s1.sel);
    FailingTurn(cfg, a, s1, Selector(0, false, group + 1), 2);
    var s2 := Turn(cfg, a, s1);
    LoopTurns(cfg, env, s1, 1, s2);
    Grind(cfg, env, s2, 2);
  }

  // ----- the bound is reached -----

  /** A failing attempt while the groups before g have no channel. */
  function Open(cfg: Config, g: nat): Answer { Failing(seq(cfg.groups, i => if i < g then Missing else Found(2))) }

  lemma OpenPicks(cfg: Config, g: nat)
    ensures var a := Open(cfg, g);
            && a == Failing(a.picks) && (forall i: nat :: g <= i < cfg.groups ==> PickAt(a, i) == Found(2))
            && (0 < g <= cfg.groups ==> PickAt(a, g - 1) == Missing)
  {
  }

  /** Channel selection works in an automatic group, and one more attempt may follow a failed one. */
  predicate Roaming(cfg: Config) { cfg.auto && !Locked(cfg) && !(cfg.task && cfg.specific) && cfg.retryTimes >= 1 }

  /** The loop is about to select, with an attempt made and a retry to go. */
  predicate Selecting(cfg: Config, s: State) {
    Fresh(s.sel) && s.sel.retry <= cfg.retryTimes && !s.done && Channels(s.log) != [] && s.sel.group < cfg.groups
  }

  /** The iteration makes one attempt and leaves the selector so. */
  ghost predicate Spends(cfg: Config, env: seq<Answer>, s: State, k: nat, s': State, sel: Selector)
    requires Fresh(s.sel) && Fresh(s'.sel)
  {
    && s'.sel == sel && !s'.done && |Channels(s'.log)| == |Channels(s.log)| + 1
    && Loop(cfg, env, s, k) == Loop(cfg, env, s', k + 1)
  }

  /** With cross-group retries, an attempt in the group at hand moves on to the next one after the last retry. */
  function NextSpend(cfg: Config, sel: Selector): Selector {
    if sel.retry >= cfg.retryTimes then Selector(0, false, sel.group + 1) else sel.(retry := sel.retry + 1)
  }

  lemma SpendStep(cfg: Config, env: seq<Answer>, s: State, k: nat) returns (s': State)
    requires Roaming(cfg) && cfg.crossGroup && Selecting(cfg, s) && AnswerAt(env, k) == Open(cfg, 0)
    ensures Fresh(s'.sel) && Spends(cfg, env, s, k, s', NextSpend(cfg, s.sel))
  {
    var a := Open(cfg, 0);
    OpenPicks(cfg, 0);
    SelectHere(cfg, a, s.sel, 2);
    FailingTurn(cfg, a, s, Select(cfg, a, s.sel).0, 2);
    s' := Turn(cfg, a, s);
    LoopTurns(cfg, env, s, k, s');
  }

  /** It costs exactly one unit. */
  lemma SpendCosts(cfg: Config, sel: Selector)
    requires Roaming(cfg) && cfg.crossGroup && Fresh(sel) && sel.retry <= cfg.retryTimes && sel.group < cfg.groups
    ensures Budget(cfg, NextSpend(cfg, sel), true) == Budget(cfg, sel, true) - 1 >= 0
  {
    MoreGroups(1, cfg.groups - sel.group, cfg.retryTimes + 1);
  }

  /** The n answers from the k-th on find a channel in every group and fail. */
  ghost predicate Failures(cfg: Config, env: seq<Answer>, k: nat, n: int) {
    forall j :: k <= j < k + n ==> AnswerAt(env, j) == Open(cfg, 0)
  }

  /** With cross-group retries and a channel in every group, failures use up the whole budget, one unit an attempt. */
  lemma {:induction false} SpendAll(cfg: Config, env: seq<Answer>, s: State, k: nat)
    requires Roaming(cfg) && cfg.crossGroup && Fresh(s.sel) && !s.done && Channels(s.log) != []
    requires Selecting(cfg, s) || (s.sel.retry == 0 && s.sel.group == cfg.groups)
    requires Failures(cfg, env, k, Budget(cfg, s.sel, true))
    ensures |Channels(Loop(cfg, env, s, k).log)| >= |Channels(s.log)| + Budget(cfg, s.sel, true)
    decreases cfg.groups - s.sel.group, cfg.retryTimes - s.sel.retry
  {
    if s.sel.group == cfg.groups {
      LoopGrows(cfg, env, s, k);
    } else {
      SpendCosts(cfg, s.sel);
      var s' := SpendStep(cfg, env, s, k);
      SpendAll(cfg, env, s', k + 1);
    }
  }

  lemma BudgetIsSpent(cfg: Config, group: nat) returns (env: seq<Answer>)
    requires Roaming(cfg) && cfg.crossGroup && group < cfg.groups
    ensures |Channels(Run(cfg, env, group).log)| == Times(Groups(cfg, group), cfg.retryTimes + 1)
  {
    MoreGroups(1, cfg.groups - group, cfg.retryTimes + 1);
    env := seq(Times(cfg.groups - group, cfg.retryTimes + 1), _ => Open(cfg, 0));
    var s := FirstAttempt(cfg, env, group, Open(cfg, 0));
    SpendAll(cfg, env, s, 1);
    AttemptBudget(cfg, env, group);
  }

  /** Whether the plan stays in group g: up to its last retry, and in the last group to the end. */
  predicate Stays(cfg: Config, g: nat, retry: nat) { retry < cfg.retryTimes || g + 1 >= cfg.groups }

  /** The answers that use up every group in turn without cross-group retries. */
  function Plan(cfg: Config, g: nat, retry: nat): seq<Answer>
    decreases cfg.groups - g, cfg.retryTimes - retry
  {
    if retry > cfg.retryTimes then []
    else if Stays(cfg, g, retry) then [Open(cfg, g)] + Plan(cfg, g, retry + 1)
    else [Open(cfg, g + 1)] + Plan(cfg, g + 1, 1)
  }

  /** The answers from the k-th on are those of the plan. */
  predicate Follows(cfg: Config, env: seq<Answer>, k: nat, g: nat, retry: nat)
    decreases cfg.groups - g, cfg.retryTimes - retry
  {
    retry <= cfg.retryTimes ==>
      if Stays(cfg, g, retry) then AnswerAt(env, k) == Open(cfg, g) && Follows(cfg, env, k + 1, g, retry + 1)
      else AnswerAt(env, k) == Open(cfg, g + 1) && Follows(cfg, env, k + 1, g + 1, 1)
  }

  lemma {:induction false} PlanFollows(cfg: Config, before: seq<Answer>, g: nat, retry: nat)
    ensures Follows(cfg, before + Plan(cfg, g, retry), |before|, g, retry)
    decreases cfg.groups - g, cfg.retryTimes - retry
  {
    if retry <= cfg.retryTimes {
      var (g', retry') := if Stays(cfg, g, retry) then (g, retry + 1) else (g + 1, 1);
      var before' := before + [Plan(cfg, g, retry)[0]];
      assert before + Plan(cfg, g, retry) == before' + Plan(cfg, g', retry');
      PlanFollows(cfg, before', g', retry');
    }
  }

  /** One more attempt in the group at hand. */
  lemma StayStep(cfg: Config, env: seq<Answer>, s: State, k: nat) returns (s': State)
    requires Roaming(cfg) && Selecting(cfg, s) && s.sel.retry < cfg.retryTimes
    requires AnswerAt(env, k) == Open(cfg, s.sel.group)
    ensures Fresh(s'.sel) && Spends(cfg, env, s, k, s', s.sel.(retry := s.sel.retry + 1))
  {
    var a := Open(cfg, s.sel.group);
    OpenPicks(cfg, s.sel.group);
    SelectHere(cfg, a, s.sel, 2);
    FailingTurn(cfg, a, s, s.sel, 2);
    s' := Turn(cfg, a, s);
    LoopTurns(cfg, env, s, k, s');
  }

  /** The first attempt in the next group. */
  lemma MoveStep(cfg: Config, env: seq<Answer>, s: State, k: nat) returns (s': State)
    requires Roaming(cfg) && Selecting(cfg, s) && s.sel.group + 1 < cfg.groups
    requires AnswerAt(env, k) == Open(cfg, s.sel.group + 1)
    ensures Fresh(s'.sel) && Spends(cfg, env, s, k, s', Selector(1, false, s.sel.group + 1))
  {
    var a := Open(cfg, s.sel.group + 1);
    OpenPicks(cfg, s.sel.group + 1);
    SelectSecond(cfg, a, s.sel);
    FailingTurn(cfg, a, s, Selector(0, false, s.sel.group + 1), 2);
    s' := Turn(cfg, a, s);
    LoopTurns(cfg, env, s, k, s');
  }

  /** The last attempt in the last group. */
  lemma {:induction false} LastStep(cfg: Config, env: seq<Answer>, s: State, k: nat)
    requires Roaming(cfg) && Selecting(cfg, s) && AnswerAt(env, k) == Open(cfg, s.sel.group)
    ensures |Channels(Loop(cfg, env, s, k).log)| >= |Channels(s.log)| + 1
  {
    OpenPicks(cfg, s.sel.group);
    SelectHere(cfg, Open(cfg, s.sel.group), s.sel, 2);
    LastAttempt(cfg, env, s, k, 2);
  }

  /** What the plan costs: every answer one unit of the budget. */
  lemma PlanCosts(cfg: Config, sel: Selector)
    requires cfg.auto && !cfg.crossGroup && !Locked(cfg) && sel.group < cfg.groups
    ensures Budget(cfg, sel.(retry := sel.retry + 1), true) == Budget(cfg, sel, true) - 1
    ensures sel.retry == cfg.retryTimes ==>
              Budget(cfg, Selector(1, false, sel.group + 1), true) == Budget(cfg, sel, true) - 1
    ensures sel.retry == cfg.retryTimes && sel.group + 1 == cfg.groups ==> Budget(cfg, sel, true) == 1
  {
  }

  /** An answer of the plan but for the last is one attempt and one unit, and the plan goes on. */
  lemma PlanStep(cfg: Config, env: seq<Answer>, s: State, k: nat) returns (s': State)
    requires Roaming(cfg) && !cfg.crossGroup && Selecting(cfg, s) && 1 <= s.sel.retry
    requires Follows(cfg, env, k, s.sel.group, s.sel.retry)
    requires s.sel.retry < cfg.retryTimes || s.sel.group + 1 < cfg.groups
    ensures Selecting(cfg, s') && 1 <= s'.sel.retry && Spends(cfg, env, s, k, s', s'.sel)
    ensures Follows(cfg, env, k + 1, s'.sel.group, s'.sel.retry)
    ensures Budget(cfg, s'.sel, true) == Budget(cfg, s.sel, true) - 1
    ensures s.sel.group < s'.sel.group || (s.sel.group == s'.sel.group && s.sel.retry < s'.sel.retry)
  {
    PlanCosts(cfg, s.sel);
    if s.sel.retry < cfg.retryTimes {
      s' := StayStep(cfg, env, s, k);
    } else {
      s' := MoveStep(cfg, env, s, k);
    }
  }

  lemma {:induction false} FollowPlan(cfg: Config, env: seq<Answer>, s: State, k: nat)
    requires Roaming(cfg) && !cfg.crossGroup && Selecting(cfg, s) && 1 <= s.sel.retry
    requires Follows(cfg, env, k, s.sel.group, s.sel.retry)
    ensures |Channels(Loop(cfg, env, s, k).log)| >= |Channels(s.log)| + Budget(cfg, s.sel, true)
    decreases cfg.groups - s.sel.group, cfg.retryTimes - s.sel.retry
  {
    if s.sel.retry < cfg.retryTimes || s.sel.group + 1 < cfg.groups {
      var s' := PlanStep(cfg, env, s, k);
      FollowPlan(cfg, env, s', k + 1);
    } else {
      PlanCosts(cfg, s.sel);
      LastStep(cfg, env, s, k);
    }
  }

  lemma {:induction false} PlanAttempts(cfg: Config, env: seq<Answer>, group: nat)
    requires Roaming(cfg) && !cfg.crossGroup && group < cfg.groups
    requires |env| > 0 && env[0] == Open(cfg, group) && Follows(cfg, env, 1, group, 1)
    ensures |Channels(Run(cfg, env, group).log)| >= Times(Groups(cfg, group), cfg.retryTimes) + 1
  {
    var s := FirstAttempt(cfg, env, group, Open(cfg, group));
    FollowPlan(cfg, env, s, 1);
  }

  lemma PlanIsSpent(cfg: Config, group: nat) returns (env: seq<Answer>)
    requires Roaming(cfg) && !cfg.crossGroup && group < cfg.groups
    ensures |Channels(Run(cfg, env, group).log)| == Times(Groups(cfg, group), cfg.retryTimes) + 1
  {
    env := [Open(cfg, group)] + Plan(cfg, group, 1);
    PlanFollows(cfg, [Open(cfg, group)], group, 1);
    PlanAttempts(cfg, env, group);
    AttemptBudget(cfg, env, group);
    MoreGroups(0, Groups(cfg, group), cfg.retryTimes);
  }

  /** The bound is attained, with and without cross-group retries. */
  lemma BoundIsReached(cfg: Config, group: nat) returns (env: seq<Answer>)
    requires Roaming(cfg) && group < cfg.groups
    ensures |Channels(Run(cfg, env, group).log)| == Bound(cfg, group)
  {
    TimesIsProduct(Groups(cfg, group), Each(cfg));
    if cfg.crossGroup {
      env := BudgetIsSpent(cfg, group);
    } else {
      env := PlanIsSpent(cfg, group);
    }
  }

  /** Exactly when at most RetryTimes + 1 attempts are made: no group to move on to, no retries, or a task that
      is pinned to its channel. */
  lemma RetriesPlusOneIff(cfg: Config, group: nat)
    ensures AtMostRetriesPlusOne(cfg, group) <==>
            !cfg.auto || cfg.groups - group <= 1 || cfg.retryTimes <= 0
            || (cfg.task && (cfg.locked.Some? || cfg.specific))
  {
    if !cfg.auto || cfg.groups - group <= 1 || cfg.retryTimes <= 0 || (cfg.task && (cfg.locked.Some? || cfg.specific)) {
      forall env: seq<Answer> ensures |Channels(Run(cfg, env, group).log)| <= Max(0, cfg.retryTimes + 1) {
        if cfg.retryTimes == 0 {
          SingleTurn(cfg, env, group);
        } else if cfg.retryTimes < 0 {
          RunIsWellFormed(cfg, env, group);
        } else if cfg.task && cfg.specific {
          PinnedTaskOnce(cfg, env, group);
        } else {
          AttemptBudget(cfg, env, group);
        }
      }
    } else {
      var a := Failing(seq(group + 2, i => if i == group then Missing else Found(2)));
      MovingOn(cfg, group, seq(cfg.retryTimes + 2, _ => a), a);
    }
  }

  // ----- the loops -----

  /** getChannel: the channel in the context until an attempt has been made, then a selected one. */
  method GetChannel(cfg: Config, a: Answer, sel: Selector, attempted: bool, ghost log: seq<Step>)
    returns (sel': Selector, channel: Option<int>)
    requires !a.gone && !Locked(cfg) && (attempted <==> Channels(log) != [])
    ensures (sel', channel) == Choose(cfg, a, State(sel, log, false))
  {
    if !attempted {
      return sel, Some(a.current);
    }
    sel', channel := CacheGetRandomSatisfiedChannel(cfg, a, sel);
    if a.setupFails {
      channel := None;
    }
  }

  /** The channel of a RelayTask iteration: the locked one, set up again on a retry, or a selected one. */
  method GetTaskChannel(cfg: Config, a: Answer, sel: Selector, attempted: bool, ghost log: seq<Step>)
    returns (sel': Selector, channel: Option<int>)
    requires cfg.task && !a.gone && (attempted <==> Channels(log) != [])
    ensures (sel', channel) == Choose(cfg, a, State(sel, log, false))
  {
    sel', channel := sel, cfg.locked;
    if cfg.locked == None {
      sel', channel := GetChannel(cfg, a, sel, attempted, log);
    } else if sel.retry > 0 && a.setupFails {
      channel := None;
    }
  }

  /** The part of a loop body that reads the request body, takes a permit and makes the attempt. */
  method TryChannel(a: Answer, channel: Option<int>) returns (step: Step)
    requires !a.gone
    ensures step == StepOf(a, channel)
  {
    if channel == None {
      return Refusal(500);
    }
    if a.body != Readable {
      return Refusal(if a.body == TooLarge then 413 else 400);
    }
    match a.permit {
      case Unavailable => return Refusal(503);
      case Limited => return Skipped;
      case Acquired => return Attempted(channel.value, a.outcome, a.semantic, a.goneAfter, a.billed, a.quota);
    }
  }

  /** How the variables of a loop reflect what its iterations did. */
  ghost predicate Reflects(log: seq<Step>, error: Option<Error>, used: seq<int>, attempted: bool, limited: bool) {
    error == ErrorOf(log) && used == Channels(log) && (attempted <==> used != []) && (limited <==> Skipped in log)
  }

  lemma ReflectsStep(log: seq<Step>, step: Step, error: Option<Error>, used: seq<int>, attempted: bool, limited: bool)
    requires Reflects(log, error, used, attempted, limited)
    ensures Reflects(log + [step],
                     match step {
                       case Refused(e) => Some(e)
                       case Attempted(_, outcome, _, _, _, _) => outcome
                       case _ => error
                     },
                     if step.Attempted? then used + [step.channel] else used,
                     attempted || step.Attempted?, limited || step.Skipped?)
  {
    ChannelsSnoc(log, step);
    assert (log + [step])[..|log|] == log;
  }

  /** What the rest of the run amounts to after an iteration. */
  lemma RunTurns(cfg: Config, env: seq<Answer>, group: nat, s: State, k: nat)
    requires Fresh(s.sel) && !s.done && s.sel.retry <= cfg.retryTimes && Loop(cfg, env, s, k) == Run(cfg, env, group)
    ensures var s' := Turn(cfg, AnswerAt(env, k), s);
            if s'.done then Run(cfg, env, group) == s'
            else Fresh(s'.sel) && Loop(cfg, env, s', k + 1) == Run(cfg, env, group) &&
                 Max(0, Budget(cfg, s'.sel, Channels(s'.log) != [])) < Max(0, Budget(cfg, s.sel, Channels(s.log) != []))
  {
    TurnSpends(cfg, AnswerAt(env, k), s, Turn(cfg, AnswerAt(env, k), s));
  }

  /** The loop body of Relay; `stop` is a break or the return after a success. */
  method RelayBody(cfg: Config, a: Answer, sel: Selector, error: Option<Error>, used: seq<int>, attempted: bool,
                   limited: bool, ghost log: seq<Step>)
    returns (sel': Selector, error': Option<Error>, used': seq<int>, attempted': bool, limited': bool, stop: bool)
    requires !cfg.task && Reflects(log, error, used, attempted, limited)
    ensures var s' := Turn(cfg, a, State(sel, log, false));
            Reflects(s'.log, error', used', attempted', limited') && stop == s'.done &&
            s'.sel == if stop then sel' else Increase(sel')
  {
    ghost var chosen := Choose(cfg, a, State(sel, log, false));
    ReflectsStep(log, StepOf(a, chosen.1), error, used, attempted, limited);
    sel', error', used', attempted', limited', stop := sel, error, used, attempted, limited, true;
    if a.gone {
      return;
    }
    var channel: Option<int>;
    sel', channel := GetChannel(cfg, a, sel, attempted, log);
    var step := TryChannel(a, channel);
    match step {
      case Gone =>
      case Refused(e) =>
        error' := Some(e);
      case Skipped =>
        limited', stop := true, false;
      case Attempted(c, outcome, semantic, gone, _, _) =>
        attempted', used', error' := true, used + [c], outcome;
        if outcome.Some? && !gone {
          stop := semantic || !ShouldRetry(outcome.value, a.affinity, cfg.retryTimes - sel'.retry, cfg.specific);
        }
    }
  }

  /** Relay from the retry loop on, with its deferred refund; `billing` is whether quota was pre-consumed. */
  method Relay(cfg: Config, env: seq<Answer>, group: nat, billing: bool)
    returns (error: Option<Error>, used: seq<int>, refunds: nat)
    requires !cfg.task
    ensures var log := Run(cfg, env, group).log;
            && error == FinalError(log) && used == Channels(log)
            && (Reached(log) ==> refunds == if billing && !Succeeded(log) then 1 else 0)
            && (!Reached(log) ==> refunds == 0)
  {
    var sel := Selector(0, false, group);
    var attempted, limited, stop := false, false, false;
    error, used, refunds := None, [], 0;
    ghost var s := State(sel, [], false);
    var k := 0;
    while !stop && sel.retry <= cfg.retryTimes
      invariant s.done == stop && Reflects(s.log, error, used, attempted, limited)
      invariant if stop then s == Run(cfg, env, group)
                else s.sel == sel && Fresh(sel) && Loop(cfg, env, s, k) == Run(cfg, env, group)
      decreases !stop, Max(0, Budget(cfg, s.sel, Channels(s.log) != []))
    {
      RunTurns(cfg, env, group, s, k);
      sel, error, used, attempted, limited, stop :=
        RelayBody(cfg, AnswerAt(env, k), sel, error, used, attempted, limited, s.log);
      s := Turn(cfg, AnswerAt(env, k), s);
      if !stop {
        sel := Increase(sel);
        k := k + 1;
      }
    }
    if error == None && limited && !attempted {
      error := Some(AllLimited);
    }
    NoErrorIffSuccess(cfg, env, group);
    if error.Some? && billing {
      refunds := 1;
    }
  }

  /** The loop body of RelayTask; `stop` is a break. */
  method TaskBody(cfg: Config, a: Answer, sel: Selector, error: Option<Error>, used: seq<int>, attempted: bool,
                   limited: bool, ghost log: seq<Step>)
    returns (sel': Selector, error': Option<Error>, used': seq<int>, attempted': bool, limited': bool, stop: bool,
             step: Step)
    requires cfg.task && Reflects(log, error, used, attempted, limited)
    ensures var s' := Turn(cfg, a, State(sel, log, false));
            s'.log == log + [step] && Reflects(s'.log, error', used', attempted', limited') &&
            stop == s'.done && s'.sel == if stop then sel' else Increase(sel')
  {
    ghost var chosen := Choose(cfg, a, State(sel, log, false));
    ReflectsStep(log, StepOf(a, chosen.1), error, used, attempted, limited);
    sel', error', used', attempted', limited', stop := sel, error, used, attempted, limited, true;
    if a.gone {
      step := Gone;
      return;
    }
    var channel: Option<int>;
    sel', channel := GetTaskChannel(cfg, a, sel, attempted, log);
    step := TryChannel(a, channel);
    match step {
      case Gone =>
      case Refused(e) =>
        error' := Some(e);
      case Skipped =>
        limited', stop := true, false;
      case Attempted(c, outcome, semantic, gone, _, _) =>
        attempted', used', error' := true, used + [c], outcome;
        if outcome.Some? && !gone {
          stop := !ShouldRetryTask(outcome.value, a.affinity, cfg.retryTimes - sel'.retry, cfg.specific);
        }
    }
  }

  /** Billing exists once some submission set it up. */
  predicate Billed(log: seq<Step>) { exists step :: step in log && step.Attempted? && step.billed }

  lemma BilledSnoc(log: seq<Step>, step: Step)
    ensures Billed(log + [step]) <==> Billed(log) || (step.Attempted? && step.billed)
  {
    assert step in log + [step];
    assert forall x :: x in log ==> x in log + [step];
  }

  /** RelayTask from the retry loop on. A success settles the quota of the last submission, an error refunds;
      with neither, the settlement dereferences a missing result and the handler crashes. */
  method RelayTask(cfg: Config, env: seq<Answer>, group: nat)
    returns (error: Option<Error>, used: seq<int>, settled: Option<int>, refunds: nat, crashed: bool)
    requires cfg.task
    ensures var log := Run(cfg, env, group).log;
            && error == FinalError(log) && used == Channels(log)
            && (Reached(log) ==>
                  && settled == (if Succeeded(log) then Some(log[|log| - 1].quota) else None)
                  && refunds == (if !Succeeded(log) && Billed(log) then 1 else 0)
                  && !crashed)
            && (!Reached(log) ==> settled == None && refunds == 0 && crashed)
  {
    var sel := Selector(0, false, group);
    var attempted, limited, stop, billing := false, false, false, false;
    var result: Option<int> := None;
    error, used := None, [];
    ghost var s := State(sel, [], false);
    var k := 0;
    while !stop && sel.retry <= cfg.retryTimes
      invariant s.done == stop && Reflects(s.log, error, used, attempted, limited)
      invariant if stop then s == Run(cfg, env, group)
                else s.sel == sel && Fresh(sel) && Loop(cfg, env, s, k) == Run(cfg, env, group)
      invariant billing <==> Billed(s.log)
      invariant result.Some? ==> attempted
      invariant Succeeded(s.log) ==> result == Some(s.log[|s.log| - 1].quota)
      decreases !stop, Max(0, Budget(cfg, s.sel, Channels(s.log) != []))
    {
      RunTurns(cfg, env, group, s, k);
      var step: Step;
      sel, error, used, attempted, limited, stop, step :=
        TaskBody(cfg, AnswerAt(env, k), sel, error, used, attempted, limited, s.log);
      BilledSnoc(s.log, step);
      if step.Attempted? {
        result := if step.outcome == None then Some(step.quota) else None;
        billing := billing || step.billed;
      }
      s := Turn(cfg, AnswerAt(env, k), s);
      if !stop {
        sel := Increase(sel);
        k := k + 1;
      }
    }
    if error == None && limited && !attempted {
      error := Some(AllLimited);
    }
    NoErrorIffSuccess(cfg, env, group);
    settled, refunds, crashed := None, 0, false;
    if error == None {
      crashed, settled := result == None, result;
    } else if billing {
      refunds := 1;
    }
  }
}
