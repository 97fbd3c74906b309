/** The heartbeat task's timer loop (node/connection/src/lib.rs, `start_heartbeat`).

    Times are in milliseconds. The interval fires at its deadline and, when late, catches up
    in a burst: each tick moves the deadline by exactly one period. */
module HeartbeatTimer {
  import opened Wrappers

  datatype Phase =
    | Waiting   // in the select
    | Sending   // saw a connection, about to publish
    | Quit      // the publish failed: the task panicked

  datatype Mark = ResetAt(time: int) | SentAt(time: int)

  datatype Timer = Timer(
    period: nat,
    started: int,
    now: int,
    deadline: int,
    permit: bool,      // the notification stored by `notify_one`
    phase: Phase,
    marks: seq<Mark>)  // processed resets and successful publishes, in order

  datatype Event =
    | Elapse(delta: nat)
    | Tick(connected: bool)   // `connected`: the registry was not empty
    | Publish(heard: bool)    // `heard`: the channel had a receiver
    | NotifyOne
    | Reset

  function Start(now: int, period: nat): Timer {
    Timer(period, now, now, now, false, Waiting, [])
  }

  predicate Enabled(t: Timer, e: Event) {
    match e
    case Elapse(_) => true
    case Tick(_) => t.phase.Waiting? && t.deadline <= t.now
    case Publish(_) => t.phase.Sending?
    case NotifyOne => true
    case Reset => t.phase.Waiting? && t.permit
  }

  function Next(t: Timer, e: Event): Timer
    requires Enabled(t, e)
  {
    match e
    case Elapse(d) => t.(now := t.now + d)
    case Tick(connected) =>
      t.(deadline := t.deadline + t.period, phase := if connected then Sending else Waiting)
    case Publish(heard) =>
      if heard then t.(phase := Waiting, marks := t.marks + [SentAt(t.now)])
      else t.(phase := Quit)
    case NotifyOne => t.(permit := true)
    case Reset =>
      t.(permit := false, deadline := t.now + t.period, marks := t.marks + [ResetAt(t.now)])
  }

  /** The publishes among `marks`. */
  function Sends(marks: seq<Mark>): nat {
    if marks == [] then 0
    else Sends(marks[..|marks| - 1]) + (if marks[|marks| - 1].SentAt? then 1 else 0)
  }

  lemma SendsAppend(marks: seq<Mark>, m: Mark)
    ensures Sends(marks + [m]) == Sends(marks) + (if m.SentAt? then 1 else 0)
  {
    assert (marks + [m])[..|marks|] == marks;
  }

  /** The length of `k` periods. */
  function Periods(period: nat, k: nat): nat {
    if k == 0 then 0 else Periods(period, k - 1) + period
  }

  lemma {:induction false} PeriodsProduct(period: nat, k: nat)
    ensures Periods(period, k) == period * k
  {
    if k > 0 {
      PeriodsProduct(period, k - 1);
      assert period * k == period * (k - 1) + period;
    }
  }

  lemma PeriodsFit(period: nat, k: nat, x: nat)
    requires period >= 1 && Periods(period, k) <= x
    ensures k <= x / period
  {
    PeriodsProduct(period, k);
    var q := x / period;
    assert x < period * (q + 1);
    assert period * (q + 1 - k) == period * (q + 1) - period * k;
  }

  /** The timer is consistent with `n` publishes since a restart at time `r`: the next tick
      is at least one period beyond everything already fired. */
  ghost predicate Paced(t: Timer, r: int, n: nat) {
    var fired := Periods(t.period, n + (if t.phase.Sending? then 1 else 0));
    t.deadline >= r + fired + t.period && t.now >= r + fired
  }

  /** If mark `i` is a reset, the timer is paced since then. */
  ghost predicate PacedSince(t: Timer, i: nat)
    requires i < |t.marks|
  {
    t.marks[i].ResetAt? ==> Paced(t, t.marks[i].time, Sends(t.marks[i + 1..]))
  }

  /** Starting the interval counts as a restart one period before it, because the first tick
      is immediate. */
  ghost predicate Inv(t: Timer) {
    && t.started <= t.now
    && t.deadline <= t.now + t.period
    && Paced(t, t.started - t.period, Sends(t.marks))
    && forall i :: 0 <= i < |t.marks| ==> PacedSince(t, i)
  }

  lemma PacedStep(t: Timer, e: Event, r: int, n: nat)
    requires Paced(t, r, n) && Enabled(t, e) && t.deadline <= t.now + t.period
    ensures Paced(Next(t, e), r, if e == Publish(true) then n + 1 else n)
  {
  }

  lemma SinceStep(t: Timer, e: Event, i: nat)
    requires Enabled(t, e) && t.deadline <= t.now + t.period
    requires i < |t.marks| && PacedSince(t, i)
    ensures PacedSince(Next(t, e), i)
  {
    var next := Next(t, e);
    if t.marks[i].ResetAt? {
      PacedStep(t, e, t.marks[i].time, Sends(t.marks[i + 1..]));
      if next.marks != t.marks {
        var m := next.marks[|t.marks|];
        assert next.marks[i + 1..] == t.marks[i + 1..] + [m];
        SendsAppend(t.marks[i + 1..], m);
      }
    }
  }

  lemma WholeLifeStep(t: Timer, e: Event)
    requires Paced(t, t.started - t.period, Sends(t.marks))
    requires Enabled(t, e) && t.deadline <= t.now + t.period
    ensures Paced(Next(t, e), t.started - t.period, Sends(Next(t, e).marks))
  {
    PacedStep(t, e, t.started - t.period, Sends(t.marks));
    if e == Publish(true) {
      SendsAppend(t.marks, SentAt(t.now));
    } else if e == Reset {
      SendsAppend(t.marks, ResetAt(t.now));
    }
  }

  lemma NewMark(t: Timer, e: Event)
    requires Enabled(t, e) && |Next(t, e).marks| == |t.marks| + 1
    ensures PacedSince(Next(t, e), |t.marks|)
  {
    assert Next(t, e).marks[|t.marks| + 1..] == [];
  }

  /** Every turn of the timer's loop keeps the pace. */
  lemma NextInv(t: Timer, e: Event)
    requires Inv(t) && Enabled(t, e)
    ensures Inv(Next(t, e))
  {
    WholeLifeStep(t, e);
    forall i | 0 <= i < |Next(t, e).marks| ensures PacedSince(Next(t, e), i) {
      if i < |t.marks| {
        SinceStep(t, e, i);
      } else {
        NewMark(t, e);
      }
    }
  }

  /** Over the timer's whole life at most one heartbeat per elapsed period, plus the first. */
  lemma SendsBounded(t: Timer)
    requires Inv(t) && t.period >= 1
    ensures t.started <= t.now && Sends(t.marks) <= (t.now - t.started) / t.period + 1
  {
    var n := Sends(t.marks);
    assert n > 0 ==> Periods(t.period, n) == Periods(t.period, n - 1) + t.period;
    assert Periods(t.period, n + 1) == Periods(t.period, n) + t.period;
    if n > 0 {
      PeriodsFit(t.period, n - 1, t.now - t.started);
    }
  }

  /** After any processed reset at most one heartbeat per period elapsed since, hence none
      within a period of it, however late or bunched the ticks were before. */
  lemma SendsAfterReset(t: Timer, i: nat)
    requires Inv(t) && t.period >= 1 && i < |t.marks| && t.marks[i].ResetAt?
    ensures t.marks[i].time <= t.now
    ensures Sends(t.marks[i + 1..]) <= (t.now - t.marks[i].time) / t.period
    ensures t.now - t.marks[i].time < t.period ==> Sends(t.marks[i + 1..]) == 0
  {
    var r, n := t.marks[i].time, Sends(t.marks[i + 1..]);
    assert PacedSince(t, i) && Paced(t, r, n);
    PeriodsFit(t.period, n, t.now - r);
  }

  function Run(t: Timer, es: seq<Event>): Option<Timer>
    decreases |es|
  {
    if es == [] then Some(t)
    else if Enabled(t, es[0]) then Run(Next(t, es[0]), es[1..])
    else None
  }

  lemma {:induction false} RunConcat(t: Timer, es: seq<Event>, more: seq<Event>)
    requires Run(t, es).Some?
    ensures Run(t, es + more) == Run(Run(t, es).value, more)
    decreases |es|
  {
    if es == [] {
      assert es + more == more;
    } else {
      assert (es + more)[1..] == es[1..] + more;
      RunConcat(Next(t, es[0]), es[1..], more);
    }
  }

  lemma {:induction false} RunInv(t: Timer, es: seq<Event>)
    requires Inv(t) && Run(t, es).Some?
    ensures Inv(Run(t, es).value)
    ensures Run(t, es).value.period == t.period && Run(t, es).value.started == t.started
    decreases |es|
  {
    if es != [] {
      NextInv(t, es[0]);
      RunInv(Next(t, es[0]), es[1..]);
    }
  }

  /** Nothing put the timer off, and every tick led to a publish that was heard. */
  ghost predicate Undisturbed(es: seq<Event>) {
    forall e :: e in es ==> e != Reset && e != Tick(false) && e != Publish(false)
  }

  /** The deadline is as many periods after the start as ticks have been made. */
  ghost predicate OnTime(t: Timer) {
    && !t.phase.Quit?
    && t.deadline == t.started + Periods(t.period, Sends(t.marks) + (if t.phase.Sending? then 1 else 0))
  }

  lemma OnTimeStep(t: Timer, e: Event)
    requires OnTime(t) && Enabled(t, e) && e != Reset && e != Tick(false) && e != Publish(false)
    ensures OnTime(Next(t, e))
  {
    if e == Publish(true) {
      SendsAppend(t.marks, SentAt(t.now));
    }
  }

  lemma {:induction false} OnTimeRun(t: Timer, es: seq<Event>)
    requires OnTime(t) && Undisturbed(es) && Run(t, es).Some?
    ensures OnTime(Run(t, es).value)
    decreases |es|
  {
    if es != [] {
      assert es[0] in es && forall e :: e in es[1..] ==> e in es;
      OnTimeStep(t, es[0]);
      OnTimeRun(Next(t, es[0]), es[1..]);
    }
  }

  lemma StartInv(now: int, period: nat)
    ensures Inv(Start(now, period)) && OnTime(Start(now, period))
  {
  }

  /** The bound on sends is met: left undisturbed, a timer that waits with nothing due has sent
      exactly one heartbeat per elapsed period, and the first. */
  lemma SendsExactly(now: int, period: nat, es: seq<Event>)
    requires period >= 1 && Undisturbed(es) && Run(Start(now, period), es).Some?
    requires var t := Run(Start(now, period), es).value; t.phase.Waiting? && t.now < t.deadline
    ensures var t := Run(Start(now, period), es).value;
            now <= t.now && Sends(t.marks) == (t.now - now) / period + 1
  {
    StartInv(now, period);
    OnTimeRun(Start(now, period), es);
    RunInv(Start(now, period), es);
    var t := Run(Start(now, period), es).value;
    SendsBounded(t);
    SentAll(period, Sends(t.marks), t.now - now);
  }

  lemma SentAll(period: nat, n: nat, x: nat)
    requires period >= 1 && x < Periods(period, n)
    ensures n >= x / period + 1
  {
    var q := x / period;
    PeriodsProduct(period, q);
    assert period * q <= x;
    if n <= q {
      PeriodsGrow(period, n, q);
    }
  }

  lemma {:induction false} PeriodsGrow(period: nat, n: nat, q: nat)
    requires n <= q
    ensures Periods(period, n) <= Periods(period, q)
  {
    if n < q {
      PeriodsGrow(period, n, q - 1);
    }
  }

  /** One pass of the loop per flag, without sleeping: a tick and, when it finds somebody
      connected, the publish. */
  function Passes(connected: seq<bool>): seq<Event> {
    if connected == [] then []
    else (if connected[0] then [Tick(true), Publish(true)] else [Tick(false)]) + Passes(connected[1..])
  }

  function Trues(flags: seq<bool>): nat {
    if flags == [] then 0 else (if flags[0] then 1 else 0) + Trues(flags[1..])
  }

  /** One pass at or after the deadline. */
  lemma PassRun(t: Timer, connected: bool, rest: seq<Event>)
    requires t.phase.Waiting? && t.deadline <= t.now
    ensures var marks := if connected then t.marks + [SentAt(t.now)] else t.marks;
            var next := t.(deadline := t.deadline + t.period, marks := marks);
            && Run(t, Passes([connected]) + rest) == Run(next, rest)
            && Sends(marks) == Sends(t.marks) + (if connected then 1 else 0)
  {
    assert [connected][1..] == [] && Passes([]) == [];
    var es := Passes([connected]) + rest;
    var ticked := Next(t, Tick(connected));
    if connected {
      assert es == [Tick(true), Publish(true)] + rest;
      assert es[1..] == [Publish(true)] + rest && es[1..][1..] == rest;
      assert Run(ticked, es[1..]) == Run(Next(ticked, Publish(true)), rest);
      SendsAppend(t.marks, SentAt(t.now));
    } else {
      assert es == [Tick(false)] + rest && es[1..] == rest;
    }
  }

  /** A late interval makes up for every missed deadline: k whole periods late, it fires k + 1
      times without any time passing, publishing each time somebody is connected, and only then
      waits again. */
  lemma {:induction false} LateTicksBurst(t: Timer, connected: seq<bool>)
    requires t.phase.Waiting?
    requires connected != [] ==> t.deadline + Periods(t.period, |connected| - 1) <= t.now
    ensures Run(t, Passes(connected)).Some?
    ensures var next := Run(t, Passes(connected)).value;
            && next.now == t.now && next.permit == t.permit && next.phase.Waiting?
            && next.deadline == t.deadline + Periods(t.period, |connected|)
            && Sends(next.marks) == Sends(t.marks) + Trues(connected)
            && (Enabled(next, Tick(true)) <==> t.deadline + Periods(t.period, |connected|) <= t.now)
    decreases |connected|
  {
    if connected != [] {
      var first, rest := connected[0], connected[1..];
      PeriodsFirst(t.period, |connected|);
      PeriodsFirst(t.period, |connected| - 1);
      assert Passes(connected) == Passes([first]) + Passes(rest) by {
        assert [first][1..] == [] && Passes([]) == [];
      }
      PassRun(t, first, Passes(rest));
      var marks := if first then t.marks + [SentAt(t.now)] else t.marks;
      LateTicksBurst(t.(deadline := t.deadline + t.period, marks := marks), rest);
    }
  }

  lemma PeriodsFirst(period: nat, k: nat)
    ensures k > 0 ==> Periods(period, k) == period + Periods(period, k - 1) && Periods(period, k) >= period
  {
  }

  function Resets(es: seq<Event>): nat {
    if es == [] then 0 else (if es[0] == Reset then 1 else 0) + Resets(es[1..])
  }

  function Notifications(es: seq<Event>): nat {
    if es == [] then 0 else (if es[0] == NotifyOne then 1 else 0) + Notifications(es[1..])
  }

  /** Each reset uses up a notification of its own, and at most one is ever in store: however
      many arrive while one is pending, they put the heartbeat off once. */
  lemma {:induction false} ResetsNeedNotifications(t: Timer, es: seq<Event>)
    requires Run(t, es).Some?
    ensures Resets(es) + (if Run(t, es).value.permit then 1 else 0)
            <= Notifications(es) + (if t.permit then 1 else 0)
    decreases |es|
  {
    if es != [] {
      ResetsNeedNotifications(Next(t, es[0]), es[1..]);
    }
  }
}
