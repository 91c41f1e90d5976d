/**
 * The idle-session monitor of the admin shell (src/lib/sessionTimeout.ts).
 *
 * Timers and DOM listeners are replaced by a logical clock in milliseconds: the pending
 * `timeoutId` timer is its deadline, the window's listeners are the set of event types
 * the monitor's handler is attached to, and each run of `onTimeout` adds one to `fired`.
 * `Monitor` and `Step` are the specification; `IdleSession` is the module state updated in
 * place, and each of its methods is proved to take the step `Step` describes.
 */
module SessionTimeout {
  import opened Wrappers

  /** `SESSION_TIMEOUT_MS`: fifteen minutes. */
  const SESSION_TIMEOUT_MS: nat := 15 * 60 * 1000

  /** The activity events listened to, in registration order. */
  const EVENTS: seq<string> := ["mousedown", "keydown", "scroll", "touchstart", "click"]

  function EventSet(): set<string> {
    set j | 0 <= j < |EVENTS| :: EVENTS[j]
  }

  datatype Monitor = Monitor(
    deadline: Option<nat>,   // when the pending timer fires, if one is pending
    lastArmed: nat,          // time of the most recent arming
    attached: set<string>,   // event types with the monitor's handler attached
    fired: nat,              // how many times `onTimeout` has run
    clock: nat)              // current time

  /** What can happen to the monitor: a DOM event, time passing, `clearSessionTimeout`, teardown. */
  datatype Input = Activity(t: nat, event: string) | Advance(t: nat) | Clear | Teardown

  /**
   * At most one timer is pending, always a full window after the last arming and still in
   * the future; the handler is attached to all five events or to none.
   */
  predicate Invariant(m: Monitor) {
    && (m.attached == {} || m.attached == EventSet())
    && (m.deadline.Some? ==>
          m.deadline.value == m.lastArmed + SESSION_TIMEOUT_MS && m.clock < m.deadline.value)
  }

  predicate Listening(m: Monitor) {
    m.attached == EventSet()
  }

  /** `initializeSessionTimeout` at time `t`: listeners attached, first timer armed at once. */
  function Initial(t: nat): (m: Monitor)
    ensures Invariant(m) && Listening(m) && m.fired == 0
    ensures m.deadline == Some(t + SESSION_TIMEOUT_MS)
  {
    Monitor(Some(t + SESSION_TIMEOUT_MS), t, EventSet(), 0, t)
  }

  /** The clock never runs backwards: a time stamp earlier than the clock reads as the clock. */
  function Now(m: Monitor, t: nat): (now: nat)
    ensures now >= m.clock && now >= t && (now == t || now == m.clock)
  {
    if t < m.clock then m.clock else t
  }

  /** Time reaches `t`; the pending timer fires if its deadline has come. */
  function Tick(m: Monitor, t: nat): (r: Monitor)
    ensures r.clock == Now(m, t) && r.attached == m.attached && r.lastArmed == m.lastArmed
    ensures r.fired == m.fired + 1 <==> m.deadline.Some? && m.deadline.value <= r.clock
    ensures r.fired == m.fired || r.fired == m.fired + 1
    ensures r.fired == m.fired ==> r.deadline == m.deadline
    ensures r.fired != m.fired ==> r.deadline.None?
  {
    var now := Now(m, t);
    if m.deadline.Some? && m.deadline.value <= now then
      m.(deadline := None, fired := m.fired + 1, clock := now)
    else
      m.(clock := now)
  }

  /** `resetTimeout`: cancel the pending timer and arm a fresh one for a full window from now. */
  function Rearm(m: Monitor): (r: Monitor)
    ensures r.deadline == Some(m.clock + SESSION_TIMEOUT_MS) && r.lastArmed == m.clock
    ensures r.fired == m.fired && r.attached == m.attached && r.clock == m.clock
  {
    m.(deadline := Some(m.clock + SESSION_TIMEOUT_MS), lastArmed := m.clock)
  }

  function Step(m: Monitor, i: Input): Monitor {
    match i
    case Advance(t) => Tick(m, t)
    case Activity(t, e) =>
      var m1 := Tick(m, t);
      if e in m1.attached then Rearm(m1) else m1
    case Clear => m.(deadline := None)
    case Teardown => m.(attached := m.attached - EventSet(), deadline := None)
  }

  function Run(m: Monitor, trace: seq<Input>): Monitor
    decreases |trace|
  {
    if trace == [] then m else Run(Step(m, trace[0]), trace[1..])
  }

  function Pending(m: Monitor): nat {
    if m.deadline.Some? then 1 else 0
  }

  /** The number of events of the five listened-to types: the only inputs that arm a timer. */
  function ActivityCount(trace: seq<Input>): nat {
    if trace == [] then 0
    else (if trace[0].Activity? && trace[0].event in EVENTS then 1 else 0) + ActivityCount(trace[1..])
  }

  /** Every step keeps the monitor valid. */
  lemma StepInvariant(m: Monitor, i: Input)
    requires Invariant(m)
    ensures Invariant(Step(m, i))
  {
  }

  lemma {:induction false} RunInvariant(m: Monitor, trace: seq<Input>)
    requires Invariant(m)
    ensures Invariant(Run(m, trace))
    decreases |trace|
  {
    if trace != [] {
      StepInvariant(m, trace[0]);
      RunInvariant(Step(m, trace[0]), trace[1..]);
    }
  }

  /**
   * A listened-to event before the pending deadline re-arms the timer with a whole fresh
   * window from the event's time, and nothing fires.
   */
  lemma ActivityRearms(m: Monitor, t: nat, e: string)
    requires Invariant(m) && Listening(m) && e in EVENTS
    requires m.clock <= t && (m.deadline.Some? ==> t < m.deadline.value)
    ensures Step(m, Activity(t, e)) ==
            m.(deadline := Some(t + SESSION_TIMEOUT_MS), lastArmed := t, clock := t)
  {
  }

  /** Events outside the five listened-to types change nothing but the clock. */
  lemma OtherEventsIgnored(m: Monitor, t: nat, e: string)
    requires Invariant(m) && e !in EVENTS
    ensures Step(m, Activity(t, e)) == Tick(m, t)
  {
  }

  /** Clearing cancels the timer and keeps the listeners, so the next activity re-arms. */
  lemma ClearKeepsListening(m: Monitor, t: nat, e: string)
    requires Invariant(m) && Listening(m) && e in EVENTS
    ensures Step(m, Clear).deadline == None && Listening(Step(m, Clear))
    ensures Step(Step(m, Clear), Activity(t, e)).deadline == Some(Now(m, t) + SESSION_TIMEOUT_MS)
    ensures Step(Step(m, Clear), Activity(t, e)).fired == m.fired
  {
  }

  /** Expiry leaves the listeners attached as well, so activity after it re-arms the timer. */
  lemma ExpiryKeepsListening(m: Monitor, t: nat, later: nat, e: string)
    requires Invariant(m) && Listening(m) && m.deadline.Some? && m.deadline.value <= t
    requires e in EVENTS
    ensures Listening(Step(m, Advance(t)))
    ensures Step(Step(m, Advance(t)), Activity(later, e)).deadline ==
            Some(Now(Step(m, Advance(t)), later) + SESSION_TIMEOUT_MS)
  {
  }

  /** Clear and teardown are idempotent. */
  lemma ClearAndTeardownIdempotent(m: Monitor)
    ensures Step(Step(m, Clear), Clear) == Step(m, Clear)
    ensures Step(Step(m, Teardown), Teardown) == Step(m, Teardown)
  {
  }

  /** `fired` never decreases. */
  lemma {:induction false} FiredMonotone(m: Monitor, trace: seq<Input>)
    ensures Run(m, trace).fired >= m.fired
    decreases |trace|
  {
    if trace != [] {
      FiredMonotone(Step(m, trace[0]), trace[1..]);
    }
  }

  /**
   * One firing per arming: firings plus timers still pending never exceed the timers
   * pending at the start plus the listened-to events seen.
   */
  lemma {:induction false} OneFiringPerArming(m: Monitor, trace: seq<Input>)
    requires Invariant(m)
    ensures Run(m, trace).fired + Pending(Run(m, trace)) <=
            m.fired + Pending(m) + ActivityCount(trace)
    decreases |trace|
  {
    if trace != [] {
      StepInvariant(m, trace[0]);
      OneFiringPerArming(Step(m, trace[0]), trace[1..]);
    }
  }

  /**
   * Listened-to activity, each event less than a window after the one before, with time
   * observed in between, also less than a window after the last event.
   */
  predicate ActiveTrace(last: nat, trace: seq<Input>)
    decreases |trace|
  {
    || trace == []
    || (&& trace[0].Activity?
        && trace[0].event in EVENTS
        && trace[0].t < last + SESSION_TIMEOUT_MS
        && ActiveTrace(trace[0].t, trace[1..]))
    || (&& trace[0].Advance?
        && trace[0].t < last + SESSION_TIMEOUT_MS
        && ActiveTrace(last, trace[1..]))
  }

  /** While activity keeps coming less than a window apart, `onTimeout` never runs. */
  lemma {:induction false} NoExpiryWhileActive(m: Monitor, last: nat, trace: seq<Input>)
    requires Invariant(m) && Listening(m) && m.deadline.Some?
    requires last + SESSION_TIMEOUT_MS <= m.deadline.value
    requires ActiveTrace(last, trace)
    ensures Run(m, trace).fired == m.fired
    decreases |trace|
  {
    if trace != [] {
      var t := trace[0].t;
      var m1 := Step(m, trace[0]);
      if trace[0].Activity? && trace[0].event in EVENTS && ActiveTrace(t, trace[1..]) {
        assert m1.fired == m.fired && Listening(m1);
        assert m1.deadline == Some(Now(m, t) + SESSION_TIMEOUT_MS);
        NoExpiryWhileActive(m1, t, trace[1..]);
      } else {
        assert trace[0].Advance? && ActiveTrace(last, trace[1..]);
        assert m1 == m.(clock := Now(m, t));
        NoExpiryWhileActive(m1, last, trace[1..]);
      }
    }
  }

  /** From initialisation, activity spaced less than a window apart never signs the user out. */
  lemma ActiveSessionNeverExpires(t0: nat, trace: seq<Input>)
    requires ActiveTrace(t0, trace)
    ensures Run(Initial(t0), trace).fired == 0
  {
    NoExpiryWhileActive(Initial(t0), t0, trace);
  }

  predicate OnlyTime(trace: seq<Input>) {
    forall i :: 0 <= i < |trace| ==> trace[i].Advance?
  }

  lemma {:induction false} NoActivityInTimeOnly(trace: seq<Input>)
    requires OnlyTime(trace)
    ensures ActivityCount(trace) == 0
    decreases |trace|
  {
    if trace != [] {
      NoActivityInTimeOnly(trace[1..]);
    }
  }

  /**
   * A window without activity after the last arming makes `onTimeout` run, and however long
   * time then passes without activity it runs exactly once.
   */
  lemma IdleExpiresExactlyOnce(m: Monitor, t: nat, later: seq<Input>)
    requires Invariant(m) && m.deadline.Some? && m.deadline.value <= t
    requires OnlyTime(later)
    ensures Step(m, Advance(t)).fired == m.fired + 1
    ensures Run(m, [Advance(t)] + later).fired == m.fired + 1
  {
    var m1 := Step(m, Advance(t));
    StepInvariant(m, Advance(t));
    assert ([Advance(t)] + later)[1..] == later;
    NoActivityInTimeOnly(later);
    OneFiringPerArming(m1, later);
    FiredMonotone(m1, later);
  }

  /** No listeners and no pending timer: nothing can make `onTimeout` run any more. */
  predicate Inert(m: Monitor) {
    m.attached == {} && m.deadline.None?
  }

  lemma {:induction false} InertStaysSilent(m: Monitor, trace: seq<Input>)
    requires Inert(m)
    ensures Inert(Run(m, trace)) && Run(m, trace).fired == m.fired
    decreases |trace|
  {
    if trace != [] {
      InertStaysSilent(Step(m, trace[0]), trace[1..]);
    }
  }

  /** After teardown neither activity nor time passing ever invokes `onTimeout`. */
  lemma TeardownSilences(m: Monitor, trace: seq<Input>)
    requires Invariant(m)
    ensures Inert(Step(m, Teardown))
    ensures Run(Step(m, Teardown), trace).fired == m.fired
  {
    InertStaysSilent(Step(m, Teardown), trace);
  }

  /**
   * Idle for 810 s, a click, 810 s more: still signed in (only 810 s since the click);
   * at 1800 s, 990 s after the click, the callback has run once.
   */
  lemma ClickPostponesExpiry()
    ensures Run(Initial(0), [Advance(810000), Activity(810000, "click"), Advance(1620000)]).fired == 0
    ensures Run(Initial(0), [Advance(810000), Activity(810000, "click"), Advance(1800000)]).fired == 1
  {
    var m1 := Step(Initial(0), Advance(810000));
    assert "click" == EVENTS[4] && "click" in EventSet();
    var m2 := Step(m1, Activity(810000, "click"));
    assert m2.deadline == Some(1710000);
  }

  /** Teardown right after initialisation: the callback never runs. */
  lemma ImmediateTeardown()
    ensures Run(Initial(0), [Teardown, Advance(1800000), Activity(1800000, "click")]).fired == 0
  {
  }

  /**
   * The module state of sessionTimeout.ts after one `initializeSessionTimeout`.
   * `activityTimeout` is declared beside `timeoutId` but never assigned, so every
   * cancellation of it is a no-op.
   */
  class IdleSession {
    var deadline: Option<nat>
    var activityTimeout: Option<nat>
    var lastArmed: nat
    var attached: set<string>
    var fired: nat
    var clock: nat

    function State(): Monitor
      reads this
    {
      Monitor(deadline, lastArmed, attached, fired, clock)
    }

    ghost predicate Valid()
      reads this
    {
      activityTimeout == None && Invariant(State())
    }

    /** `initializeSessionTimeout(onTimeout)` at time `t`. */
    constructor Init(t: nat)
      ensures Valid() && State() == Initial(t)
    {
      deadline, activityTimeout := None, None;
      lastArmed, attached, fired, clock := t, {}, 0, t;
      new;
      var i := 0;
      while i < |EVENTS|
        invariant 0 <= i <= |EVENTS|
        invariant attached == set j | 0 <= j < i :: EVENTS[j]
        invariant deadline == None && activityTimeout == None
        invariant lastArmed == t && fired == 0 && clock == t
      {
        attached := attached + {EVENTS[i]};
        i := i + 1;
      }
      ResetTimeout();
    }

    /** Cancel `timeoutId` and `activityTimeout` when they are set. */
    method CancelTimers()
      modifies this
      ensures State() == old(State()).(deadline := None)
      ensures activityTimeout == None
    {
      if deadline.Some? {
        deadline := None;
      }
      if activityTimeout.Some? {
        activityTimeout := None;
      }
    }

    /** `resetTimeout`: cancel what is pending, then arm a fresh timer for a full window. */
    method ResetTimeout()
      modifies this
      ensures State() == Rearm(old(State()))
      ensures activityTimeout == None
    {
      CancelTimers();
      deadline := Some(clock + SESSION_TIMEOUT_MS);
      lastArmed := clock;
    }

    /** Time passes to `t`; the pending timer runs `onTimeout` when its deadline has come. */
    method Advance(t: nat)
      requires Valid()
      modifies this
      ensures Valid() && State() == Step(old(State()), Input.Advance(t))
      ensures activityTimeout == old(activityTimeout)
    {
      var now := if t < clock then clock else t;
      if deadline.Some? && deadline.value <= now {
        deadline := None;
        fired := fired + 1;
      }
      clock := now;
    }

    /** A DOM event of type `event` at time `t`; `handleActivity` runs if it is attached. */
    method Activity(t: nat, event: string)
      requires Valid()
      modifies this
      ensures Valid() && State() == Step(old(State()), Input.Activity(t, event))
    {
      Advance(t);
      if event in attached {
        ResetTimeout();
      }
    }

    /** `clearSessionTimeout()`: cancel the pending timer, keep the listeners. */
    method Clear()
      requires Valid()
      modifies this
      ensures Valid() && State() == Step(old(State()), Input.Clear)
    {
      CancelTimers();
    }

    /** The teardown function returned by `initializeSessionTimeout`. */
    method Teardown()
      requires Valid()
      modifies this
      ensures Valid() && State() == Step(old(State()), Input.Teardown)
    {
      var i := 0;
      while i < |EVENTS|
        invariant 0 <= i <= |EVENTS|
        invariant attached == old(attached) - set j | 0 <= j < i :: EVENTS[j]
        invariant State() == old(State()).(attached := attached)
        invariant activityTimeout == None
      {
        attached := attached - {EVENTS[i]};
        i := i + 1;
      }
      CancelTimers();
    }
  }

  /** The admin shell's unmount sequence: teardown, then `clearSessionTimeout`. */
  method UnmountAfterActivity(t: nat, u: nat) returns (fired: nat)
    ensures fired == 0
  {
    var s := new IdleSession.Init(t);
    s.Activity(t + 1000, "keydown");
    s.Teardown();
    s.Clear();
    s.Advance(u);
    s.Activity(u, "click");
    TeardownSilences(Step(Initial(t), Activity(t + 1000, "keydown")), [Clear, Advance(u), Activity(u, "click")]);
    fired := s.fired;
  }
}
