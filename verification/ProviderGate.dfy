/**
 The provider cooldown: launchers look at the stored backoff and launch under one
 file lock, finishers store a backoff under the same lock, and readers without the
 lock may replace a value they judge out of policy.
 */
module ProviderGate {
  import opened Common

  type Pid = nat

  const SECOND: Time := 1_000_000
  const DAY: Time := 86_400 * SECOND

  /** Configured cooldown and maximum, before clamping; `flaky` allows a database read to fail. */
  datatype Config = Config(cooldownSetting: int, maximumSetting: int, flaky: bool)

  function Maximum(cfg: Config): int {
    Max(SECOND, Min(cfg.maximumSetting, DAY))
  }

  function Cooldown(cfg: Config): int {
    Max(SECOND, Min(cfg.cooldownSetting, Maximum(cfg)))
  }

  /** A stored backoff; `measuredFrom` is the clock reading its retry time was computed from. */
  datatype Stored = Stored(retry: Time, measuredFrom: Time, quota: bool, legacy: bool)

  predicate InRange(cfg: Config, v: Stored) {
    Cooldown(cfg) <= v.retry - v.measuredFrom <= Maximum(cfg)
  }

  /** The retry time a finisher stores: the provider's own hint, clamped, or a fallback by kind of failure. */
  function BackoffFrom(cfg: Config, hint: Option<Time>, quota: bool, looked: Time, now: Time): Stored {
    var retry :=
      if hint.Some? && hint.value - looked > 0 then now + Max(Cooldown(cfg), Min(hint.value - looked, Maximum(cfg)))
      else if quota then now + Maximum(cfg)
      else now + Cooldown(cfg);
    Stored(retry, now, quota, false)
  }

  predicate Active(store: Option<Stored>, now: Time) {
    store.Some? && store.value.retry > now
  }

  /** An active value without a policy revision, or one further off than the maximum. */
  predicate OutOfPolicy(cfg: Config, store: Option<Stored>, now: Time) {
    Active(store, now) && (store.value.legacy || store.value.retry - now > Maximum(cfg))
  }

  function Replacement(cfg: Config, v: Stored, now: Time): Stored {
    var retry := if v.legacy && !v.quota then now + Cooldown(cfg) else now + Maximum(cfg);
    Stored(retry, now, v.quota, false)
  }

  /** `Judged` has found a value out of policy and not yet read the clock its replacement counts from. */
  datatype Proc = Idle | Locked | Cleared | Setting(value: Stored) | Judged(found: Stored) | Replacing(value: Stored)

  datatype State = State(now: Time, store: Option<Stored>, lock: Option<Pid>, procs: map<Pid, Proc>)

  datatype Action =
    | Tick(delta: nat)
    | Acquire(p: Pid)
    | Check(p: Pid, readable: bool)
    | Launch(p: Pid)
    | Compute(p: Pid, hint: Option<Time>, quota: bool, looked: Time)
    | Commit(p: Pid)
    | Peek(p: Pid, readable: bool)
    | Bound(p: Pid)
    | Replace(p: Pid)
    | Stop(p: Pid)

  function ProcOf(s: State, p: Pid): Proc {
    if p in s.procs then s.procs[p] else Idle
  }

  predicate Enabled(cfg: Config, s: State, a: Action) {
    match a
    case Tick(_) => true
    case Acquire(p) => s.lock.None? && ProcOf(s, p) == Idle
    case Check(p, readable) => ProcOf(s, p) == Locked && (readable || cfg.flaky)
    case Launch(p) => ProcOf(s, p) == Cleared
    case Compute(p, _, _, looked) => ProcOf(s, p) == Locked && looked <= s.now
    case Commit(p) => ProcOf(s, p).Setting?
    case Peek(p, readable) => ProcOf(s, p) == Idle && (readable || cfg.flaky)
    case Bound(p) => ProcOf(s, p).Judged?
    case Replace(p) => ProcOf(s, p).Replacing?
    case Stop(_) => true
  }

  function SetProc(s: State, p: Pid, proc: Proc): State {
    s.(procs := s.procs[p := proc])
  }

  /** Leaving the guard, by return, exception or death, closes the lock's descriptor. */
  function Leave(s: State, p: Pid): State {
    SetProc(s, p, Idle).(lock := if s.lock == Some(p) then None else s.lock)
  }

  function Step(cfg: Config, s: State, a: Action): State
    requires Enabled(cfg, s, a)
  {
    match a
    case Tick(delta) => s.(now := s.now + delta)
    case Acquire(p) => SetProc(s, p, Locked).(lock := Some(p))
    case Check(p, readable) =>
      if !readable || !Active(s.store, s.now) then SetProc(s, p, Cleared)
      else if OutOfPolicy(cfg, s.store, s.now) then SetProc(s, p, Judged(s.store.value))
      else Leave(s, p)
    case Launch(p) => Leave(s, p)
    case Compute(p, hint, quota, looked) => SetProc(s, p, Setting(BackoffFrom(cfg, hint, quota, looked, s.now)))
    case Commit(p) => Leave(s.(store := Some(s.procs[p].value)), p)
    case Peek(p, readable) =>
      if readable && OutOfPolicy(cfg, s.store, s.now)
      then SetProc(s, p, Judged(s.store.value)) else s
    case Bound(p) => SetProc(s, p, Replacing(Replacement(cfg, s.procs[p].found, s.now)))
    case Replace(p) => Leave(s.(store := Some(s.procs[p].value)), p)
    case Stop(p) => Leave(s, p)
  }

  ghost predicate Reaches(cfg: Config, init: State, actions: seq<Action>, s: State) {
    if actions == [] then s == init
    else
      var n := |actions| - 1;
      exists before ::
        Reaches(cfg, init, actions[..n], before) && Enabled(cfg, before, actions[n]) &&
            s == Step(cfg, before, actions[n])
  }

  function Fresh(store: Option<Stored>, now: Time): State {
    State(now, store, None, map[])
  }

  /** No guarded launch happens before the retry time last stored. */
  ghost predicate Gated(cfg: Config, init: State) {
    forall actions, s, p :: Reaches(cfg, init, actions, s) && Enabled(cfg, s, Launch(p)) ==> !Active(s.store, s.now)
  }

  // ----- every stored retry time is in range -----

  lemma BackoffInRange(cfg: Config, hint: Option<Time>, quota: bool, looked: Time, now: Time)
    ensures InRange(cfg, BackoffFrom(cfg, hint, quota, looked, now))
  {
  }

  /** Both settings are honoured between a second and a day, the cooldown up to the maximum, and clamped outside. */
  lemma LimitsMean(cfg: Config)
    ensures SECOND <= Cooldown(cfg) <= Maximum(cfg) <= DAY
    ensures SECOND <= cfg.maximumSetting <= DAY ==> Maximum(cfg) == cfg.maximumSetting
    ensures cfg.maximumSetting < SECOND ==> Maximum(cfg) == SECOND
    ensures cfg.maximumSetting > DAY ==> Maximum(cfg) == DAY
    ensures SECOND <= cfg.cooldownSetting <= Maximum(cfg) ==> Cooldown(cfg) == cfg.cooldownSetting
    ensures cfg.cooldownSetting < SECOND ==> Cooldown(cfg) == SECOND
    ensures cfg.cooldownSetting > Maximum(cfg) ==> Cooldown(cfg) == Maximum(cfg)
  {
  }

  /**
   The retry time a finisher stores: a hint still ahead when looked at is honoured within
   the range and clamped to it; without one a quota failure waits the maximum and any other
   failure the cooldown.
   */
  lemma BackoffMeans(cfg: Config, hint: Option<Time>, quota: bool, looked: Time, now: Time)
    ensures var stored := BackoffFrom(cfg, hint, quota, looked, now);
            var wait := stored.retry - now;
            && stored.measuredFrom == now && stored.quota == quota && !stored.legacy
            && (hint.None? || hint.value <= looked ==> wait == if quota then Maximum(cfg) else Cooldown(cfg))
            && (forall t :: hint == Some(t) && t > looked ==>
                  && (Cooldown(cfg) <= t - looked <= Maximum(cfg) ==> wait == t - looked)
                  && (t - looked < Cooldown(cfg) ==> wait == Cooldown(cfg))
                  && (t - looked > Maximum(cfg) ==> wait == Maximum(cfg)))
  {
    assert Cooldown(cfg) <= Maximum(cfg);
  }

  /** A value out of policy waits the maximum from now on, unless it is an old one that no quota failure left. */
  lemma ReplacementMeans(cfg: Config, v: Stored, now: Time)
    requires OutOfPolicy(cfg, Some(v), now)
    ensures var r := Replacement(cfg, v, now);
            && InRange(cfg, r) && r.measuredFrom == now && r.quota == v.quota && !OutOfPolicy(cfg, Some(r), now)
            && (v.quota || !v.legacy ==> r.retry == now + Maximum(cfg))
            && (!v.quota && v.legacy ==> r.retry == now + Cooldown(cfg))
            && (!v.legacy ==> r.retry < v.retry)
  {
  }

  ghost predicate RangeInv(cfg: Config, init: State, s: State) {
    && (s.store == init.store || (s.store.Some? && InRange(cfg, s.store.value)))
    && (forall p :: p in s.procs && (s.procs[p].Setting? || s.procs[p].Replacing?) ==> InRange(cfg, s.procs[p].value))
  }

  lemma RangeStep(cfg: Config, init: State, s: State, a: Action)
    requires RangeInv(cfg, init, s) && Enabled(cfg, s, a)
    ensures RangeInv(cfg, init, Step(cfg, s, a))
  {
    if a.Compute? {
      BackoffInRange(cfg, a.hint, a.quota, a.looked, s.now);
    }
  }

  /** Whatever is stored after the start lies between the cooldown and the maximum from its recording. */
  lemma {:induction false} StoredInRange(cfg: Config, init: State, actions: seq<Action>, s: State)
    requires init == Fresh(init.store, init.now) && Reaches(cfg, init, actions, s)
    ensures RangeInv(cfg, init, s)
  {
    if actions != [] {
      var n := |actions| - 1;
      var before :| Reaches(cfg, init, actions[..n], before) && Enabled(cfg, before, actions[n])
                    && s == Step(cfg, before, actions[n]);
      StoredInRange(cfg, init, actions[..n], before);
      RangeStep(cfg, init, before, actions[n]);
    }
  }

  // ----- the gate -----

  predicate HoldsLock(proc: Proc) {
    proc.Locked? || proc.Cleared? || proc.Setting?
  }

  ghost predicate GateInv(cfg: Config, s: State) {
    && !OutOfPolicy(cfg, s.store, s.now)
    && (forall p :: p in s.procs && HoldsLock(s.procs[p]) ==> s.lock == Some(p))
    && (forall p :: p in s.procs ==> !s.procs[p].Judged? && !s.procs[p].Replacing?)
    && (forall p :: p in s.procs && s.procs[p].Cleared? ==> !Active(s.store, s.now))
    && (forall p :: p in s.procs && s.procs[p].Setting? ==>
          !s.procs[p].value.legacy && s.procs[p].value.measuredFrom <= s.now && InRange(cfg, s.procs[p].value))
  }

  lemma GateStep(cfg: Config, s: State, a: Action)
    requires !cfg.flaky && GateInv(cfg, s) && Enabled(cfg, s, a)
    ensures GateInv(cfg, Step(cfg, s, a))
  {
  }

  lemma {:induction false} GateHolds(cfg: Config, init: State, actions: seq<Action>, s: State)
    requires !cfg.flaky && GateInv(cfg, init) && Reaches(cfg, init, actions, s)
    ensures GateInv(cfg, s)
  {
    if actions != [] {
      var n := |actions| - 1;
      var before :| Reaches(cfg, init, actions[..n], before) && Enabled(cfg, before, actions[n])
                    && s == Step(cfg, before, actions[n]);
      GateHolds(cfg, init, actions[..n], before);
      GateStep(cfg, before, actions[n]);
    }
  }

  // ----- runs through the gate -----

  lemma ReachesSnoc(cfg: Config, init: State, actions: seq<Action>, s: State, a: Action)
    requires Reaches(cfg, init, actions, s) && Enabled(cfg, s, a)
    ensures Reaches(cfg, init, actions + [a], Step(cfg, s, a))
  {
    assert (actions + [a])[..|actions|] == actions;
  }

  /** A finisher can always store a quota backoff from a state in which nobody is active. */
  lemma FinisherStores(cfg: Config, init: State) returns (actions: seq<Action>, s: State)
    requires init == Fresh(init.store, init.now)
    ensures Reaches(cfg, init, actions, s)
    ensures s.lock.None? && ProcOf(s, 0) == Idle && Active(s.store, s.now)
  {
    actions, s := [], init;
    ReachesSnoc(cfg, init, actions, s, Acquire(0));
    actions, s := actions + [Acquire(0)], Step(cfg, s, Acquire(0));
    var compute := Compute(0, None, true, init.now);
    ReachesSnoc(cfg, init, actions, s, compute);
    actions, s := actions + [compute], Step(cfg, s, compute);
    ReachesSnoc(cfg, init, actions, s, Commit(0));
    actions, s := actions + [Commit(0)], Step(cfg, s, Commit(0));
  }

  /** A launcher whose read fails does not see the backoff a finisher has just stored. */
  lemma FailedReadLaunches(cfg: Config, init: State) returns (actions: seq<Action>, s: State)
    requires cfg.flaky && init == Fresh(init.store, init.now)
    ensures Reaches(cfg, init, actions, s) && Enabled(cfg, s, Launch(0)) && Active(s.store, s.now)
  {
    actions, s := FinisherStores(cfg, init);
    ReachesSnoc(cfg, init, actions, s, Acquire(0));
    actions, s := actions + [Acquire(0)], Step(cfg, s, Acquire(0));
    ReachesSnoc(cfg, init, actions, s, Check(0, false));
    actions, s := actions + [Check(0, false)], Step(cfg, s, Check(0, false));
  }

  /** A launcher finds the value expired while a reader without the lock still means to replace it. */
  lemma JudgedThenCleared(cfg: Config, init: State) returns (actions: seq<Action>, s: State)
    requires init == Fresh(init.store, init.now) && OutOfPolicy(cfg, init.store, init.now)
    ensures Reaches(cfg, init, actions, s)
    ensures s.now == init.store.value.retry && ProcOf(s, 0) == Cleared && ProcOf(s, 1) == Judged(init.store.value)
  {
    var wait := init.store.value.retry - init.now;
    actions, s := [], init;
    ReachesSnoc(cfg, init, actions, s, Peek(1, true));
    actions, s := actions + [Peek(1, true)], Step(cfg, s, Peek(1, true));
    ReachesSnoc(cfg, init, actions, s, Tick(wait));
    actions, s := actions + [Tick(wait)], Step(cfg, s, Tick(wait));
    ReachesSnoc(cfg, init, actions, s, Acquire(0));
    actions, s := actions + [Acquire(0)], Step(cfg, s, Acquire(0));
    ReachesSnoc(cfg, init, actions, s, Check(0, true));
    actions, s := actions + [Check(0, true)], Step(cfg, s, Check(0, true));
  }

  /** The replacement lands between the launcher's look and its launch. */
  lemma LateReplacementLaunches(cfg: Config, init: State) returns (actions: seq<Action>, s: State)
    requires init == Fresh(init.store, init.now) && OutOfPolicy(cfg, init.store, init.now)
    ensures Reaches(cfg, init, actions, s) && Enabled(cfg, s, Launch(0)) && Active(s.store, s.now)
  {
    actions, s := JudgedThenCleared(cfg, init);
    ReachesSnoc(cfg, init, actions, s, Bound(1));
    actions, s := actions + [Bound(1)], Step(cfg, s, Bound(1));
    ReachesSnoc(cfg, init, actions, s, Replace(1));
    actions, s := actions + [Replace(1)], Step(cfg, s, Replace(1));
  }

  /** The gate holds on every run exactly when reads work and the first stored value is within policy. */
  lemma GateHoldsIff(cfg: Config, store: Option<Stored>, now: Time)
    ensures Gated(cfg, Fresh(store, now)) <==> !cfg.flaky && !OutOfPolicy(cfg, store, now)
  {
    var init := Fresh(store, now);
    if cfg.flaky {
      var actions, s := FailedReadLaunches(cfg, init);
    } else if OutOfPolicy(cfg, store, now) {
      var actions, s := LateReplacementLaunches(cfg, init);
    } else {
      forall actions, s, p | Reaches(cfg, init, actions, s) && Enabled(cfg, s, Launch(p))
        ensures !Active(s.store, s.now)
      {
        GateHolds(cfg, init, actions, s);
      }
    }
  }
}
