/**
  The sequential breakout lifecycle: one decision at each completed close, every order
  filled at a later open, and a cash/units account marked at every close.

  Not-a-number entries of the source's arrays are `None`.
 */
module BreakoutEngine {
  import opened Common

  datatype Side = Buy | Sell

  datatype Reason = StopHit | TimeLimit | ChannelBreak | AgeLimit

  /** A fresh range breakout at a close: the frozen upper band and the crossing level. */
  datatype Crossing = Crossing(upper: real, boundary: real)

  /** Everything the engine reads about one session. */
  datatype Bar = Bar(
    open: real, close: real, volume: real,
    atr: Option<real>, volumeMedian: Option<real>,
    cross: Option<Crossing>, channelExit: Option<real>)

  /** The fitted parameter vector, with menu indices already looked up. */
  datatype Rules = Rules(
    confirmSessions: int, volumeShortcut: bool, volumeRatio: real,
    initialStopAtr: real, bandFailAtr: real,
    trailPercent: bool, trailAtr: real, trailPct: real, trailActivateAtr: real,
    heatEnabled: bool, heatExtAtr: real, heatVolRatio: real, heatNearHighAtr: real, heatTrailMult: real,
    timeLimit: nat, timeExitGainAtr: real, cooldown: nat,
    reentryEnabled: bool, reentryBufferAtr: real, reentryWait: int,
    maxHold: nat)

  /** A breakout waiting for its confirming closes. */
  datatype Candidate = Candidate(crossing: nat, count: int, u: real, trigger: real, reentry: bool)

  /** A confirmed breakout; the average true range is frozen here. */
  datatype Signal = Signal(candidate: Candidate, confirmation: nat, atr: real)

  datatype Decision = Decision(day: nat, reason: Reason)

  datatype Close = Close(index: nat, price: real)

  /** One trade; `decision` and `exit` are filled in when they happen. */
  datatype Episode = Episode(
    signal: Signal, entryIndex: nat, entry: real,
    peak: real, stop: real, heated: bool,
    decision: Option<Decision>, exit: Option<Close>)

  /** What a closed trade leaves behind for a continuation re-entry. */
  datatype Continuation = Continuation(peak: real, u: real, exitSignal: nat)

  datatype Pending = NoOrder | BuyOrder(fill: nat, signal: Signal) | SellOrder(fill: nat)

  datatype Order = Order(day: nat, side: Side, fill: nat)

  /** The engine's variables after a session; `mark`, `stop` and `level` are that session's outputs. */
  datatype State = State(
    cash: real, units: real, pending: Pending,
    candidate: Option<Candidate>, episode: Option<Episode>, continuation: Option<Continuation>,
    cooldownUntil: int,
    closed: seq<Episode>, events: seq<Order>,
    mark: real, stop: Option<real>, level: Option<real>)
  {
    predicate Held() { units > 0.0 }

    predicate Desired() {
      if pending.NoOrder? then units > 0.0 else pending.BuyOrder?
    }

    /** Closed trades in order, then the one still open. */
    function Trades(): seq<Episode> {
      if episode.Some? then closed + [episode.value] else closed
    }
  }

  datatype Error = InvalidDelay | InvalidTargetOrCost | UnsupportedAtr

  datatype Setup = Setup(bars: seq<Bar>, rules: Rules, fee: real, target: real, delay: nat, start: int, end: int)
  {
    /** What the feature builder and the argument checks guarantee. */
    ghost predicate Valid() {
      && 0.0 <= target <= 1.0 && 0.0 <= fee < 1.0
      && forall t :: 0 <= t < |bars| ==> bars[t].open > 0.0 && bars[t].close > 0.0
    }

    function First(): nat { if start > 1 then start else 1 }

    /** One past the last simulated session. */
    function Last(): nat {
      MaxInt(First(), MinInt(end, |bars|))
    }
  }

  function InitialState(): State {
    State(1.0, 0.0, NoOrder, None, None, None, -1, [], [], 1.0, None, None)
  }

  /** The shape without which the source's dictionary updates would fail. */
  predicate WellFormed(s: State) {
    && (s.units != 0.0 ==> s.episode.Some?)
    && (s.pending.SellOrder? ==> s.episode.Some? && s.episode.value.decision.Some?)
  }

  // ---------------------------------------------------------------- fills at the open

  function InitialStop(r: Rules, g: Signal, entry: real): real {
    var initial := entry - r.initialStopAtr * g.atr;
    if r.bandFailAtr >= 0.0 then MaxReal(initial, g.candidate.u - r.bandFailAtr * g.atr) else initial
  }

  /** The purchase that leaves its fee payable from the target's share of the cash. */
  function Sized(target: real, fee: real, cash: real): real
    requires target >= 0.0 && fee >= 0.0
  {
    assert target * fee >= 0.0;
    target * cash / (1.0 + target * fee)
  }

  function Notional(k: Setup, cash: real): real
    requires k.Valid()
  {
    Sized(k.target, k.fee, cash)
  }

  function Outlay(notional: real, fee: real): real { notional * (1.0 + fee) }

  function Lot(notional: real, open: real): real
    requires open > 0.0
  {
    notional / open
  }

  function SaleValue(units: real, open: real, fee: real): real { units * open * (1.0 - fee) }

  /** Session `t` executes the pending order when it is due. */
  function Fill(k: Setup, s: State, t: nat): (r: State)
    requires k.Valid() && WellFormed(s) && t < |k.bars|
    ensures WellFormed(r)
  {
    var bar := k.bars[t];
    match s.pending
    case BuyOrder(fill, g) =>
      if fill != t then s else
      s.(cash := s.cash - Outlay(Notional(k, s.cash), k.fee),
         units := Lot(Notional(k, s.cash), bar.open),
         pending := NoOrder,
         episode := Some(Episode(g, t, bar.open, bar.close, InitialStop(k.rules, g, bar.open), false, None, None)))
    case SellOrder(fill) =>
      if fill != t then s else
      var e := s.episode.value.(exit := Some(Close(t, bar.open)));
      s.(cash := s.cash + SaleValue(s.units, bar.open, k.fee),
         units := 0.0,
         pending := NoOrder,
         episode := None,
         closed := s.closed + [e],
         continuation := if k.rules.reentryEnabled then Some(Continuation(e.peak, e.signal.candidate.u, e.decision.value.day)) else None,
         cooldownUntil := t + k.rules.cooldown - 1)
    case NoOrder => s
  }

  // ---------------------------------------------------------------- managing an open trade

  predicate Overheats(r: Rules, bar: Bar, g: Signal, peak: real) {
    && r.heatEnabled && bar.atr.Some? && bar.volumeMedian.Some?
    && bar.close >= g.candidate.u + r.heatExtAtr * g.atr
    && bar.volume >= r.heatVolRatio * bar.volumeMedian.value
    && bar.close >= peak - r.heatNearHighAtr * bar.atr.value
  }

  function TrailMult(r: Rules, heated: bool): real {
    if heated then r.heatTrailMult else 1.0
  }

  function PercentTrail(r: Rules, peak: real, heated: bool): real {
    peak * (1.0 - r.trailPct * TrailMult(r, heated))
  }

  function RangeTrail(r: Rules, atr: real, peak: real, heated: bool): real {
    peak - r.trailAtr * TrailMult(r, heated) * atr
  }

  function Trail(r: Rules, atr: real, peak: real, heated: bool): real {
    if r.trailPercent then PercentTrail(r, peak, heated) else RangeTrail(r, atr, peak, heated)
  }

  /** The peak that arms the trail. */
  function Activation(r: Rules, g: Signal, entry: real): real {
    entry + r.trailActivateAtr * g.atr
  }

  predicate Armed(r: Rules, e: Episode, peak: real) {
    peak >= Activation(r, e.signal, e.entry)
  }

  /** The close of a session without a queued exit moves peak, heat and the ratcheting stop. */
  function Ratchet(r: Rules, bar: Bar, e: Episode): Episode {
    var peak := MaxReal(e.peak, bar.close);
    var heated := e.heated || Overheats(r, bar, e.signal, peak);
    var stop := if Armed(r, e, peak) && bar.atr.Some?
                then MaxReal(e.stop, Trail(r, bar.atr.value, peak, heated)) else e.stop;
    e.(peak := peak, heated := heated, stop := stop)
  }

  function ExitReason(r: Rules, bar: Bar, e: Episode, t: nat): Option<Reason> {
    if bar.close < e.stop then Some(StopHit)
    else if r.timeLimit != 0 && t - e.entryIndex >= r.timeLimit
            && e.peak < e.entry + r.timeExitGainAtr * e.signal.atr then Some(TimeLimit)
    else if bar.channelExit.Some? && bar.close < bar.channelExit.value then Some(ChannelBreak)
    else if r.maxHold != 0 && t - e.entryIndex >= r.maxHold then Some(AgeLimit)
    else None
  }

  function Manage(k: Setup, s: State, t: nat): (r: State)
    requires WellFormed(s) && s.episode.Some? && t < |k.bars|
    ensures WellFormed(r)
  {
    if s.pending != NoOrder then
      s.(stop := Some(s.episode.value.stop), level := Some(s.episode.value.signal.candidate.trigger))
    else
      var e := Ratchet(k.rules, k.bars[t], s.episode.value);
      var reason := ExitReason(k.rules, k.bars[t], e, t);
      var shown := s.(stop := Some(e.stop), level := Some(e.signal.candidate.trigger));
      if reason.None? then shown.(episode := Some(e))
      else shown.(episode := Some(e.(decision := Some(Decision(t, reason.value)))),
                  pending := SellOrder(t + 1 + k.delay),
                  events := s.events + [Order(t, Sell, t + 1 + k.delay)])
  }

  // ---------------------------------------------------------------- looking for an entry

  /** The waiting breakout after this close: cancelled at or below its trigger, else counted once more. */
  function Recount(c: Option<Candidate>, close: real): Option<Candidate> {
    if c.None? || close <= c.value.trigger then None
    else Some(c.value.(count := c.value.count + 1))
  }

  function Surviving(r: Rules, c: Option<Continuation>, t: nat): Option<Continuation> {
    if c.Some? && (r.reentryWait <= 0 || t - c.value.exitSignal > r.reentryWait) then None else c
  }

  function ContinuationTrigger(r: Rules, c: Continuation, atrBefore: real): real {
    c.peak + r.reentryBufferAtr * atrBefore
  }

  /** A continuation close above the old peak comes before a fresh range crossing. */
  function Fresh(k: Setup, c: Option<Continuation>, t: nat): Option<Candidate>
    requires 1 <= t < |k.bars|
  {
    var bar, before := k.bars[t], k.bars[t - 1].atr;
    if c.Some? && before.Some? && bar.close > ContinuationTrigger(k.rules, c.value, before.value) then
      Some(Candidate(t, k.rules.confirmSessions, c.value.u, ContinuationTrigger(k.rules, c.value, before.value), true))
    else if bar.cross.Some? then
      Some(Candidate(t, 1, bar.cross.value.upper, bar.cross.value.boundary, false))
    else None
  }

  predicate Confirms(r: Rules, bar: Bar, c: Candidate) {
    || c.count >= r.confirmSessions
    || (r.volumeShortcut && bar.volumeMedian.Some? && bar.volume >= r.volumeRatio * bar.volumeMedian.value)
  }

  function Scan(k: Setup, s: State, t: nat): (r: Result<State, Error>)
    requires WellFormed(s) && s.pending.NoOrder? && 1 <= t < |k.bars|
    ensures r.Ok? ==> WellFormed(r.value)
  {
    var kept := Recount(s.candidate, k.bars[t].close);
    var continuation := if kept.Some? then s.continuation else Surviving(k.rules, s.continuation, t);
    var candidate := if kept.Some? then kept else Fresh(k, continuation, t);
    var level := if candidate.Some? then Some(candidate.value.trigger) else None;
    if candidate.None? || !Confirms(k.rules, k.bars[t], candidate.value) then
      Ok(s.(candidate := candidate, continuation := continuation, stop := None, level := level))
    else if k.bars[t].atr.None? || k.bars[t].atr.value <= 0.0 then
      Err(UnsupportedAtr)
    else
      var g := Signal(candidate.value, t, k.bars[t].atr.value);
      Ok(s.(candidate := None, continuation := None, stop := None, level := level,
            pending := BuyOrder(t + 1 + k.delay, g),
            events := s.events + [Order(t, Buy, t + 1 + k.delay)]))
  }

  // ---------------------------------------------------------------- whole sessions and whole runs

  function Decide(k: Setup, s: State, t: nat): (r: Result<State, Error>)
    requires WellFormed(s) && 1 <= t < |k.bars|
    ensures r.Ok? ==> WellFormed(r.value)
  {
    if s.units != 0.0 then Ok(Manage(k, s, t))
    else if s.pending.NoOrder? && t > s.cooldownUntil then Scan(k, s, t)
    else Ok(s.(stop := None, level := None))
  }

  function Marked(s: State, close: real): State {
    s.(mark := s.cash + s.units * close)
  }

  function Session(k: Setup, s: State, t: nat): (r: Result<State, Error>)
    requires k.Valid() && WellFormed(s) && 1 <= t < |k.bars|
    ensures r.Ok? ==> WellFormed(r.value)
  {
    match Decide(k, Fill(k, s, t), t)
    case Err(e) => Err(e)
    case Ok(d) => Ok(Marked(d, k.bars[t].close))
  }

  /** The state after all sessions before `t`. */
  function After(k: Setup, t: nat): (r: Result<State, Error>)
    requires k.Valid() && k.First() <= t <= k.Last()
    ensures r.Ok? ==> WellFormed(r.value)
  {
    if t == k.First() then Ok(InitialState()) else
    match After(k, t - 1)
    case Err(e) => Err(e)
    case Ok(s) => Session(k, s, t - 1)
  }

  /** The engine gets through every session before `t`. */
  ghost predicate Reaches(k: Setup, t: nat) {
    k.Valid() && k.First() <= t <= k.Last() && After(k, t).Ok?
  }

  ghost function At(k: Setup, t: nat): (s: State)
    requires Reaches(k, t)
    ensures WellFormed(s)
  {
    After(k, t).value
  }

  /** The arrays and lists the engine returns; sessions outside the run hold `None` or `false`. */
  datatype Run = Run(
    nav: seq<Option<real>>, desired: seq<bool>, held: seq<bool>,
    stop: seq<Option<real>>, level: seq<Option<real>>,
    episodes: seq<Episode>, events: seq<Order>)

  /** Session `d` of a run that has got to session `t`. */
  ghost predicate Row(k: Setup, run: Run, d: nat, t: nat)
    requires d < |run.nav| && |run.nav| == |run.desired| == |run.held| == |run.stop| == |run.level|
  {
    if k.First() <= d < t then
      && Reaches(k, d + 1)
      && run.nav[d] == Some(At(k, d + 1).mark)
      && run.desired[d] == At(k, d + 1).Desired()
      && run.held[d] == At(k, d + 1).Held()
      && run.stop[d] == At(k, d + 1).stop
      && run.level[d] == At(k, d + 1).level
    else
      run.nav[d].None? && !run.desired[d] && !run.held[d] && run.stop[d].None? && run.level[d].None?
  }

  ghost predicate Records(k: Setup, run: Run, t: nat) {
    && Reaches(k, t)
    && |run.nav| == |run.desired| == |run.held| == |run.stop| == |run.level| == |k.bars|
    && forall d :: 0 <= d < |k.bars| ==> Row(k, run, d, t)
  }

  /** A complete run: every session's row, the closed and open trades, and the order list. */
  ghost predicate Produces(k: Setup, run: Run) {
    && k.Valid()
    && Records(k, run, k.Last())
    && run.episodes == At(k, k.Last()).Trades()
    && run.events == At(k, k.Last()).events
  }

  lemma {:induction false} ReachesEarlier(k: Setup, t: nat, u: nat)
    requires Reaches(k, u) && k.First() <= t <= u
    ensures Reaches(k, t)
    decreases u - t
  {
    if t < u {
      assert After(k, u - 1).Ok?;
      ReachesEarlier(k, t, u - 1);
    }
  }

  /** The open: a pending order that is due trades the whole account. */
  method PlayOpen(k: Setup, s: State, t: nat) returns (r: State)
    requires k.Valid() && WellFormed(s) && t < |k.bars|
    ensures r == Fill(k, s, t)
  {
    r := s;
    var rules, bar := k.rules, k.bars[t];
    if s.pending == NoOrder || s.pending.fill != t { return; }
    if s.pending.BuyOrder? {
      var g := s.pending.signal;
      var notional := Notional(k, s.cash);
      var stop := bar.open - rules.initialStopAtr * g.atr;
      if rules.bandFailAtr >= 0.0 {
        stop := MaxReal(stop, g.candidate.u - rules.bandFailAtr * g.atr);
      }
      assert stop == InitialStop(rules, g, bar.open);
      assert notional / bar.open == Lot(notional, bar.open) && notional * (1.0 + k.fee) == Outlay(notional, k.fee);
      r := r.(units := notional / bar.open, cash := s.cash - notional * (1.0 + k.fee),
              episode := Some(Episode(g, t, bar.open, bar.close, stop, false, None, None)));
    } else {
      assert s.units * bar.open * (1.0 - k.fee) == SaleValue(s.units, bar.open, k.fee);
      var done := s.episode.value.(exit := Some(Close(t, bar.open)));
      r := r.(cash := s.cash + s.units * bar.open * (1.0 - k.fee), units := 0.0,
              closed := s.closed + [done], cooldownUntil := t + rules.cooldown - 1, episode := None);
      if rules.reentryEnabled {
        r := r.(continuation := Some(Continuation(done.peak, done.signal.candidate.u, done.decision.value.day)));
      } else {
        r := r.(continuation := None);
      }
    }
    r := r.(pending := NoOrder);
  }

  /** The four exit tests in turn; the first that holds is the reason. */
  method TestExits(rules: Rules, bar: Bar, e: Episode, t: nat) returns (reason: Option<Reason>)
    ensures reason == ExitReason(rules, bar, e, t)
  {
    reason := None;
    if bar.close < e.stop {
      reason := Some(StopHit);
    }
    var age := t - e.entryIndex;
    if reason.None? && rules.timeLimit != 0 && age >= rules.timeLimit && e.peak < e.entry + rules.timeExitGainAtr * e.signal.atr {
      reason := Some(TimeLimit);
    }
    if reason.None? && bar.channelExit.Some? && bar.close < bar.channelExit.value {
      reason := Some(ChannelBreak);
    }
    if reason.None? && rules.maxHold != 0 && age >= rules.maxHold {
      reason := Some(AgeLimit);
    }
  }

  /** The close while a trade is open. */
  method PlayHeld(k: Setup, s: State, t: nat) returns (r: State)
    requires WellFormed(s) && s.episode.Some? && t < |k.bars|
    ensures r == Manage(k, s, t)
  {
    var rules, bar, e := k.rules, k.bars[t], s.episode.value;
    var pending, events := s.pending, s.events;
    if pending == NoOrder {
      var peak := MaxReal(e.peak, bar.close);
      e := e.(peak := peak);
      if Overheats(rules, bar, e.signal, peak) {
        e := e.(heated := true);
      }
      if peak >= Activation(rules, e.signal, e.entry) && bar.atr.Some? {
        e := e.(stop := MaxReal(e.stop, Trail(rules, bar.atr.value, peak, e.heated)));
      }
      assert e == Ratchet(rules, bar, s.episode.value);
      var reason := TestExits(rules, bar, e, t);
      if reason.Some? {
        e := e.(decision := Some(Decision(t, reason.value)));
        pending := SellOrder(t + 1 + k.delay);
        events := events + [Order(t, Sell, t + 1 + k.delay)];
      }
    }
    r := s.(episode := Some(e), pending := pending, events := events,
            stop := Some(e.stop), level := Some(e.signal.candidate.trigger));
  }

  /** The breakout that starts at this close: a continuation of the last trade, else a crossing of the range. */
  method StartCandidate(k: Setup, continuation: Option<Continuation>, t: nat) returns (c: Option<Candidate>)
    requires 1 <= t < |k.bars|
    ensures c == Fresh(k, continuation, t)
  {
    var bar, before := k.bars[t], k.bars[t - 1].atr;
    var trigger: Option<real> := None;
    if continuation.Some? && before.Some? {
      trigger := Some(continuation.value.peak + k.rules.reentryBufferAtr * before.value);
      assert trigger.value == ContinuationTrigger(k.rules, continuation.value, before.value);
    }
    c := None;
    if trigger.Some? && bar.close > trigger.value {
      c := Some(Candidate(t, k.rules.confirmSessions, continuation.value.u, trigger.value, true));
    } else if bar.cross.Some? {
      c := Some(Candidate(t, 1, bar.cross.value.upper, bar.cross.value.boundary, false));
    }
  }

  /** Enough closes above the trigger, or enough volume. */
  method TestConfirmation(rules: Rules, bar: Bar, c: Candidate) returns (confirms: bool)
    ensures confirms == Confirms(rules, bar, c)
  {
    var volumeConfirms := rules.volumeShortcut && bar.volumeMedian.Some? && bar.volume >= rules.volumeRatio * bar.volumeMedian.value;
    confirms := c.count >= rules.confirmSessions || volumeConfirms;
  }

  /** The close while flat, unqueued and out of cooldown. */
  method PlayFlat(k: Setup, s: State, t: nat) returns (r: Result<State, Error>)
    requires WellFormed(s) && s.pending.NoOrder? && 1 <= t < |k.bars|
    ensures r == Scan(k, s, t)
  {
    var rules, bar, confirmation, continuation := k.rules, k.bars[t], s.candidate, s.continuation;
    var pending, events := s.pending, s.events;
    var level: Option<real> := None;
    if confirmation.Some? {
      if bar.close <= confirmation.value.trigger {
        confirmation := None;
      } else {
        confirmation := Some(confirmation.value.(count := confirmation.value.count + 1));
      }
    }
    if confirmation.None? {
      if continuation.Some? && (rules.reentryWait <= 0 || t - continuation.value.exitSignal > rules.reentryWait) {
        continuation := None;
      }
      confirmation := StartCandidate(k, continuation, t);
    }
    if confirmation.Some? {
      level := Some(confirmation.value.trigger);
      var confirms := TestConfirmation(rules, bar, confirmation.value);
      if confirms {
        if bar.atr.None? || bar.atr.value <= 0.0 {
          return Err(UnsupportedAtr);
        }
        pending := BuyOrder(t + 1 + k.delay, Signal(confirmation.value, t, bar.atr.value));
        events := events + [Order(t, Buy, t + 1 + k.delay)];
        continuation, confirmation := None, None;
      }
    }
    r := Ok(s.(candidate := confirmation, continuation := continuation, pending := pending, events := events,
               stop := None, level := level));
  }

  /** One session: fill at the open, decide at the close, mark the account. */
  method PlaySession(k: Setup, s: State, t: nat) returns (r: Result<State, Error>)
    requires k.Valid() && WellFormed(s) && 1 <= t < |k.bars|
    ensures r == Session(k, s, t)
    ensures r.Err? ==> r.error == UnsupportedAtr
  {
    var now := PlayOpen(k, s, t);
    if now.units != 0.0 {
      now := PlayHeld(k, now, t);
    } else if now.pending == NoOrder && t > now.cooldownUntil {
      var scanned := PlayFlat(k, now, t);
      if scanned.Err? { return scanned; }
      now := scanned.value;
    } else {
      now := now.(stop := None, level := None);
    }
    r := Ok(Marked(now, k.bars[t].close));
  }

  /** The next session of a run; its failure is the failure of the run. */
  method PlayNext(k: Setup, s: State, t: nat) returns (r: Result<State, Error>)
    requires k.Valid() && k.First() <= t < k.Last() && After(k, t) == Ok(s)
    ensures r == After(k, t + 1)
    ensures r.Err? ==> After(k, k.Last()).Err? && r.error == UnsupportedAtr
  {
    r := PlaySession(k, s, t);
    if r.Err? { EngineStopsAt(k, s, t); }
  }

  /** The output arrays before the first session. */
  method EmptyRun(k: Setup) returns (run: Run)
    requires k.Valid()
    ensures Records(k, run, k.First())
  {
    var n := |k.bars|;
    run := Run(seq(n, _ => None), seq(n, _ => false), seq(n, _ => false), seq(n, _ => None), seq(n, _ => None), [], []);
  }

  /** The session's entries in the output arrays. */
  method WriteRow(k: Setup, run: Run, s: State, t: nat) returns (next: Run)
    requires Records(k, run, t) && t < k.Last() && After(k, t + 1) == Ok(s)
    ensures Records(k, next, t + 1)
  {
    next := run.(nav := run.nav[t := Some(s.mark)], held := run.held[t := s.Held()], desired := run.desired[t := s.Desired()],
                 stop := run.stop[t := s.stop], level := run.level[t := s.level]);
    RecordsExtend(k, run, next, t);
  }

  /** One turn of the loop: the session, then its entries. */
  method PlayAndWrite(k: Setup, run: Run, s: State, t: nat) returns (r: Result<(Run, State), Error>)
    requires k.Valid() && k.First() <= t < k.Last() && After(k, t) == Ok(s) && Records(k, run, t)
    ensures r.Ok? ==> After(k, t + 1) == Ok(r.value.1) && Records(k, r.value.0, t + 1)
    ensures r.Err? ==> After(k, k.Last()).Err? && r.error == UnsupportedAtr
  {
    var played := PlayNext(k, s, t);
    if played.Err? {
      return Err(played.error);
    }
    var next := WriteRow(k, run, played.value, t);
    r := Ok((next, played.value));
  }

  /** The loop over sessions. It fails exactly when a confirmation meets an unusable range. */
  method PlaySessions(k: Setup) returns (r: Result<Run, Error>)
    requires k.Valid()
    ensures r.Ok? <==> Reaches(k, k.Last())
    ensures r.Ok? ==> Produces(k, r.value)
    ensures r.Err? ==> r.error == UnsupportedAtr
  {
    var run := EmptyRun(k);
    var s := InitialState();
    var t := k.First();
    while t < k.Last()
      invariant k.First() <= t <= k.Last() && After(k, t) == Ok(s)
      invariant Records(k, run, t)
    {
      var played := PlayAndWrite(k, run, s, t);
      if played.Err? {
        return Err(played.error);
      }
      run, s := played.value.0, played.value.1;
      t := t + 1;
    }
    RecordsKeep(k, run, s);
    r := Ok(run.(episodes := s.Trades(), events := s.events));
  }

  lemma RecordsKeep(k: Setup, run: Run, s: State)
    requires Records(k, run, k.Last()) && After(k, k.Last()) == Ok(s)
    ensures Produces(k, run.(episodes := s.Trades(), events := s.events))
  {
    var full, t := run.(episodes := s.Trades(), events := s.events), k.Last();
    forall d | 0 <= d < |k.bars| ensures Row(k, full, d, t) {
      assert Row(k, run, d, t);
    }
  }

  /** The whole simulation: arguments are refused in the source's order, then the loop runs. */
  method Simulate(bars: seq<Bar>, rules: Rules, start: int, end: Option<int>, costBp: real, delay: int, target: real)
    returns (r: Result<Run, Error>)
    requires forall t :: 0 <= t < |bars| ==> bars[t].open > 0.0 && bars[t].close > 0.0
    ensures delay < 0 <==> r == Err(InvalidDelay)
    ensures delay >= 0 ==> (!(0.0 <= target <= 1.0 && 0.0 <= costBp < 10000.0) <==> r == Err(InvalidTargetOrCost))
    ensures delay >= 0 && 0.0 <= target <= 1.0 && 0.0 <= costBp < 10000.0 ==>
      var k := Setup(bars, rules, costBp / 10000.0, target, delay, start, if end.None? then |bars| else end.value);
      && k.Valid()
      && (r.Ok? <==> Reaches(k, k.Last()))
      && (r.Ok? ==> Produces(k, r.value))
  {
    if delay < 0 { return Err(InvalidDelay); }
    if !(0.0 <= target <= 1.0 && 0.0 <= costBp < 10000.0) { return Err(InvalidTargetOrCost); }
    r := PlaySessions(Setup(bars, rules, costBp / 10000.0, target, delay, start, if end.None? then |bars| else end.value));
  }

  lemma RecordsExtend(k: Setup, run: Run, next: Run, t: nat)
    requires Records(k, run, t) && t < k.Last() && Reaches(k, t + 1)
    requires var s := At(k, t + 1);
      && next.nav == run.nav[t := Some(s.mark)] && next.held == run.held[t := s.Held()]
      && next.desired == run.desired[t := s.Desired()]
      && next.stop == run.stop[t := s.stop] && next.level == run.level[t := s.level]
    ensures Records(k, next, t + 1)
  {
    forall d {:trigger Row(k, next, d, t + 1)} | 0 <= d < |k.bars| ensures Row(k, next, d, t + 1) {
      assert Row(k, run, d, t);
    }
  }

  /** An error at one session is an error of every longer run. */
  lemma {:induction false} ErrorStays(k: Setup, t: nat, u: nat)
    requires k.Valid() && k.First() <= t <= u <= k.Last() && After(k, t).Err?
    ensures After(k, u).Err?
    decreases u
  {
    if t < u { ErrorStays(k, t, u - 1); }
  }

  lemma EngineStopsAt(k: Setup, s: State, t: nat)
    requires k.Valid() && k.First() <= t < k.Last() && After(k, t) == Ok(s) && Session(k, s, t).Err?
    ensures After(k, k.Last()).Err?
  {
    assert After(k, t + 1).Err?;
    ErrorStays(k, t + 1, k.Last());
  }
}
