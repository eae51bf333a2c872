/** Evidence retry debt: how long a failed evidence build waits, and how its debt row changes. */
module RetryDebt {
  import opened Common

  /** Incident ids numbered in the order of their text; 0 is the blank id. */
  type IncidentId = nat

  /** Blank identities are `None` in a debt; only memory-owned identities are ever recorded. */
  datatype Identity =
    | Memory(incident: IncidentId, position: string, crossing: string, revision: int, settings: string)
    | MemoryFallback(incident: IncidentId)
    | Canonical(fingerprint: string)

  datatype Status = RetryPending | Resolved | OtherStatus

  datatype Debt = Debt(status: Status, identity: Option<Identity>, next: Option<Time>, attempts: int)

  /** Configured backoff range, in microseconds. */
  datatype Backoff = Backoff(baseSetting: int, maximumSetting: int)

  function Base(b: Backoff): (base: int)
    ensures base >= 1000
  {
    Max(1000, b.baseSetting)
  }

  function Maximum(b: Backoff): int {
    Max(Base(b), b.maximumSetting)
  }

  function Pow2(n: nat): (p: int)
    ensures p >= 1
  {
    if n == 0 then 1 else 2 * Pow2(n - 1)
  }

  /** Exponential backoff, saturating at the maximum. */
  function Delay(b: Backoff, attempts: int): int {
    Min(Maximum(b), Base(b) * Pow2(Max(0, attempts - 1)))
  }

  lemma DelayPositive(b: Backoff, attempts: int)
    ensures 1000 <= Delay(b, attempts) <= Maximum(b)
  {
    assert Base(b) * Pow2(Max(0, attempts - 1)) >= Base(b) * 1;
  }

  /** The delay starts at the base and doubles with each attempt until it reaches the maximum. */
  lemma DelayDoubles(b: Backoff, attempts: nat)
    ensures Delay(b, 1) == Base(b) <= Maximum(b)
    ensures attempts >= 1 ==> Delay(b, attempts + 1) == Min(Maximum(b), 2 * Delay(b, attempts))
  {
    if attempts >= 1 {
      var p := Pow2(attempts - 1);
      assert Pow2(attempts) == 2 * p;
      assert Base(b) * (2 * p) == 2 * (Base(b) * p);
      DelayPositive(b, attempts);
    }
    assert Base(b) * 1 == Base(b);
  }

  /** Repeated doubling, as the loop does it. */
  function Doubled(base: int, n: nat): int {
    if n == 0 then base else 2 * Doubled(base, n - 1)
  }

  lemma {:induction false} DoubledIs(base: int, n: nat)
    ensures Doubled(base, n) == base * Pow2(n)
  {
    if n > 0 {
      DoubledIs(base, n - 1);
      assert base * (2 * Pow2(n - 1)) == 2 * (base * Pow2(n - 1));
    }
  }

  lemma {:induction false} DoubledMonotone(base: int, m: nat, n: nat)
    requires base >= 0 && m <= n
    ensures 0 <= Doubled(base, m) <= Doubled(base, n)
    decreases n
  {
    if m < n {
      DoubledMonotone(base, m, n - 1);
    } else if n > 0 {
      DoubledMonotone(base, n - 1, n - 1);
    }
  }

  /** Doubles until saturation; `doublings` is the work done, which the counter cannot blow up. */
  method EvidenceRetryDelay(b: Backoff, attempts: int) returns (delay: int, doublings: nat)
    ensures delay == Delay(b, attempts)
    ensures doublings > 0 ==> Base(b) * Pow2(doublings - 1) < Maximum(b)
  {
    var base, maximum := Base(b), Maximum(b);
    delay, doublings := base, 0;
    var total := Max(0, attempts - 1);
    var remaining := total;
    while remaining > 0 && delay < maximum
      invariant 0 <= remaining == total - doublings
      invariant delay == Min(maximum, Doubled(base, doublings))
      invariant doublings > 0 ==> Doubled(base, doublings - 1) < maximum
    {
      delay := Min(maximum, delay * 2);
      remaining, doublings := remaining - 1, doublings + 1;
    }
    DoubledMonotone(base, doublings, total);
    DoubledIs(base, total);
    if doublings > 0 {
      DoubledIs(base, doublings - 1);
    }
  }

  // ----- the debt of one incident -----

  /** The three clock readings of one recording: the stamp, the retry check, the write. */
  datatype Clock = Clock(stamp: Time, checked: Time, written: Time)

  predicate Suppressed(debt: Option<Debt>, identity: Identity, checked: Time) {
    && debt.Some? && debt.value.identity == Some(identity)
    && debt.value.next.Some? && checked < debt.value.next.value
  }

  function Recorded(b: Backoff, debt: Option<Debt>, identity: Identity, backoff: bool, clock: Clock): Debt {
    if Suppressed(debt, identity, clock.checked) then debt.value
    else
      var attempts := (if debt.Some? then debt.value.attempts else 0) + (if backoff then 1 else 0);
      Debt(RetryPending, Some(identity),
           Some(if backoff then clock.written + Delay(b, attempts) else clock.stamp), attempts)
  }

  predicate Counted(debt: Option<Debt>, identity: Identity, backoff: bool, clock: Clock) {
    backoff && !Suppressed(debt, identity, clock.checked)
  }

  /** A pending row without identity or retry time, written before those columns existed. */
  predicate Legacy(debt: Debt) {
    debt.status.RetryPending? && (debt.identity.None? || debt.next.None?)
  }

  function Migrated(b: Backoff, debt: Debt, stable: Identity, now: Time): Debt {
    debt.(identity := Some(stable), next := Some(now + Delay(b, Max(1, debt.attempts))))
  }

  function ResolvedDebt(debt: Debt): Debt {
    debt.(status := Resolved, next := None)
  }

  /**
   What a recording does: under the identity it was recorded for, a debt whose time has not
   come stays as it was; otherwise it is pending under the identity now given, its counter
   grows by one if it backs off, and its time is the delay for that counter away, or at once.
   */
  lemma RecordingMeans(b: Backoff, debt: Option<Debt>, identity: Identity, backoff: bool, clock: Clock)
    ensures var before := if debt.Some? then debt.value.attempts else 0;
            var after := Recorded(b, debt, identity, backoff, clock);
            if debt.Some? && debt.value.identity == Some(identity) && debt.value.next.Some?
               && clock.checked < debt.value.next.value
            then after == debt.value
            else
              && after.status == RetryPending && after.identity == Some(identity) && after.next.Some?
              && (backoff ==> after.attempts == before + 1
                              && after.next.value == clock.written + Delay(b, before + 1))
              && (!backoff ==> after.attempts == before && after.next.value == clock.stamp)
  {
  }

  /**
   When a recording keeps the retry time from moving back: it backs off, or the stamp it
   read first had already reached the old retry time.
   */
  lemma NextNotEarlierIff(b: Backoff, debt: Debt, identity: Identity, backoff: bool, clock: Clock)
    requires clock.stamp <= clock.checked <= clock.written
    requires debt.identity == Some(identity) && debt.next.Some? && !Suppressed(Some(debt), identity, clock.checked)
    ensures Recorded(b, Some(debt), identity, backoff, clock).next.value >= debt.next.value
            <==> backoff || clock.stamp >= debt.next.value
  {
    DelayPositive(b, debt.attempts + 1);
  }

  // ----- runs over one unresolved debt -----

  /** A recording under the run's one identity, or a due filter looking at the debt. */
  datatype Event = Record(backoff: bool, clock: Clock) | Filter(at: Time)

  function StartOf(e: Event): Time {
    match e case Record(_, clock) => clock.stamp case Filter(at) => at
  }

  function EndOf(e: Event): Time {
    match e case Record(_, clock) => clock.written case Filter(at) => at
  }

  predicate ClockForward(events: seq<Event>) {
    && (forall i :: 0 <= i < |events| && events[i].Record? ==>
          events[i].clock.stamp <= events[i].clock.checked <= events[i].clock.written)
    && (forall i, j :: 0 <= i < j < |events| ==> EndOf(events[i]) <= StartOf(events[j]))
  }

  function Apply(b: Backoff, debt: Option<Debt>, identity: Identity, e: Event): Option<Debt> {
    match e
    case Record(backoff, clock) => Some(Recorded(b, debt, identity, backoff, clock))
    case Filter(at) => if debt.Some? && Legacy(debt.value) then Some(Migrated(b, debt.value, identity, at)) else debt
  }

  function After(b: Backoff, debt: Option<Debt>, identity: Identity, events: seq<Event>): Option<Debt> {
    if events == [] then debt
    else
      var n := |events| - 1;
      Apply(b, After(b, debt, identity, events[..n]), identity, events[n])
  }

  /** The recording at `i` was a counted attempt. */
  predicate CountedAt(b: Backoff, debt: Option<Debt>, identity: Identity, events: seq<Event>, i: nat)
    requires i < |events|
  {
    events[i].Record? && Counted(After(b, debt, identity, events[..i]), identity, events[i].backoff, events[i].clock)
  }

  /** Nothing is counted before `until`: the debt still waits for it, or it has passed. */
  predicate Waits(debt: Option<Debt>, identity: Identity, until: Time, now: Time) {
    debt.Some? && debt.value.status.RetryPending? && debt.value.identity == Some(identity) && debt.value.next.Some?
    && (debt.value.next.value >= until || now >= until)
  }

  lemma AfterSnoc(b: Backoff, debt: Option<Debt>, identity: Identity, events: seq<Event>, n: nat)
    requires n < |events|
    ensures After(b, debt, identity, events[..n + 1])
            == Apply(b, After(b, debt, identity, events[..n]), identity, events[n])
  {
    assert events[..n + 1][..n] == events[..n];
  }

  lemma {:induction false} CountedWaits(b: Backoff, debt: Option<Debt>, identity: Identity, events: seq<Event>,
                                        i: nat, j: nat)
    requires ClockForward(events) && i < j <= |events| && CountedAt(b, debt, identity, events, i)
    ensures After(b, debt, identity, events[..i + 1]).Some?
    ensures var attempts := After(b, debt, identity, events[..i + 1]).value.attempts;
            Waits(After(b, debt, identity, events[..j]), identity,
                  events[i].clock.written + Delay(b, attempts), EndOf(events[j - 1]))
    decreases j
  {
    AfterSnoc(b, debt, identity, events, i);
    if i + 1 < j {
      CountedWaits(b, debt, identity, events, i, j - 1);
      AfterSnoc(b, debt, identity, events, j - 1);
      assert EndOf(events[j - 2]) <= StartOf(events[j - 1]);
    }
  }

  /** Two counted attempts are at least the earlier one's delay apart. */
  lemma AttemptsAreSpaced(b: Backoff, debt: Option<Debt>, identity: Identity, events: seq<Event>, i: nat, j: nat)
    requires ClockForward(events) && i < j < |events|
    requires CountedAt(b, debt, identity, events, i) && CountedAt(b, debt, identity, events, j)
    ensures After(b, debt, identity, events[..i + 1]).Some?
    ensures events[j].clock.written - events[i].clock.written
            >= Delay(b, After(b, debt, identity, events[..i + 1]).value.attempts)
  {
    CountedWaits(b, debt, identity, events, i, j);
    assert EndOf(events[j - 1]) <= StartOf(events[j]);
  }

  /** The number of counted attempts is what the row says, so the delay grows with each of them. */
  lemma {:induction false} AttemptsGrow(b: Backoff, debt: Option<Debt>, identity: Identity, events: seq<Event>,
                                        i: nat, j: nat)
    requires i <= j <= |events| && After(b, debt, identity, events[..i]).Some?
    ensures After(b, debt, identity, events[..j]).Some?
    ensures After(b, debt, identity, events[..i]).value.attempts <= After(b, debt, identity, events[..j]).value.attempts
    ensures i < j && CountedAt(b, debt, identity, events, i) ==>
              After(b, debt, identity, events[..i]).value.attempts < After(b, debt, identity,
                  events[..j]).value.attempts
    decreases j
  {
    if i < j {
      AfterSnoc(b, debt, identity, events, j - 1);
      AttemptsGrow(b, debt, identity, events, i, j - 1);
    }
  }

  function CountedIn(b: Backoff, debt: Option<Debt>, identity: Identity, events: seq<Event>, i: nat, j: nat): nat
    requires i <= j <= |events|
    decreases j
  {
    if i == j then 0
    else CountedIn(b, debt, identity, events, i, j - 1)
         + (if CountedAt(b, debt, identity, events, j - 1) then 1 else 0)
  }

  /** The row's counter counts exactly the counted attempts: suppressed, plain and migrating steps cost none. */
  lemma {:induction false} AttemptsAreCounted(b: Backoff, debt: Option<Debt>, identity: Identity, events: seq<Event>,
                                              i: nat, j: nat)
    requires i <= j <= |events| && After(b, debt, identity, events[..i]).Some?
    ensures After(b, debt, identity, events[..j]).Some?
    ensures After(b, debt, identity, events[..j]).value.attempts
            == After(b, debt, identity, events[..i]).value.attempts + CountedIn(b, debt, identity, events, i, j)
    decreases j
  {
    if i < j {
      AttemptsAreCounted(b, debt, identity, events, i, j - 1);
      AfterSnoc(b, debt, identity, events, j - 1);
    }
  }

  /** The debt waits under the run's identity for some retry time. */
  predicate Pending(debt: Option<Debt>, identity: Identity) {
    debt.Some? && debt.value.identity == Some(identity) && debt.value.next.Some?
  }

  /** A recording that does not fall behind: suppressed, backing off, or stamped at or past the retry time. */
  predicate KeepsPace(debt: Option<Debt>, identity: Identity, e: Event)
    requires Pending(debt, identity)
  {
    e.Record? ==> Suppressed(debt, identity, e.clock.checked) || e.backoff || e.clock.stamp >= debt.value.next.value
  }

  function NextAt(b: Backoff, debt: Option<Debt>, identity: Identity, events: seq<Event>, k: nat): Time
    requires k <= |events| && Pending(After(b, debt, identity, events[..k]), identity)
  {
    After(b, debt, identity, events[..k]).value.next.value
  }

  lemma StepKeepsPace(b: Backoff, debt: Option<Debt>, identity: Identity, events: seq<Event>, k: nat)
    requires ClockForward(events) && k < |events| && Pending(After(b, debt, identity, events[..k]), identity)
    ensures Pending(After(b, debt, identity, events[..k + 1]), identity)
    ensures NextAt(b, debt, identity, events, k) <= NextAt(b, debt, identity, events, k + 1)
            <==> KeepsPace(After(b, debt, identity, events[..k]), identity, events[k])
  {
    AfterSnoc(b, debt, identity, events, k);
    var now := After(b, debt, identity, events[..k]).value;
    var e := events[k];
    if e.Record? && !Suppressed(Some(now), identity, e.clock.checked) {
      NextNotEarlierIff(b, now, identity, e.backoff, e.clock);
    }
  }

  ghost predicate AllKeepPace(b: Backoff, debt: Option<Debt>, identity: Identity, events: seq<Event>, i: nat)
    requires i <= |events|
  {
    forall k :: i <= k < |events| && Pending(After(b, debt, identity, events[..k]), identity) ==>
      KeepsPace(After(b, debt, identity, events[..k]), identity, events[k])
  }

  lemma PaceStep(b: Backoff, debt: Option<Debt>, identity: Identity, events: seq<Event>, i: nat, k: nat)
    requires ClockForward(events) && i <= k < |events| && AllKeepPace(b, debt, identity, events, i)
    requires Pending(After(b, debt, identity, events[..k]), identity)
    ensures Pending(After(b, debt, identity, events[..k + 1]), identity)
    ensures NextAt(b, debt, identity, events, k) <= NextAt(b, debt, identity, events, k + 1)
  {
    StepKeepsPace(b, debt, identity, events, k);
  }

  lemma {:induction false} NextNeverMovesBack(b: Backoff, debt: Option<Debt>, identity: Identity, events: seq<Event>,
                                              i: nat, j: nat, k: nat)
    requires ClockForward(events) && i <= j <= k <= |events| && AllKeepPace(b, debt, identity, events, i)
    requires Pending(After(b, debt, identity, events[..j]), identity)
    ensures Pending(After(b, debt, identity, events[..k]), identity)
    ensures NextAt(b, debt, identity, events, j) <= NextAt(b, debt, identity, events, k)
    decreases k - j
  {
    if j < k {
      PaceStep(b, debt, identity, events, i, j);
      NextNeverMovesBack(b, debt, identity, events, i, j + 1, k);
    }
  }

  /** From a pending debt on, the retry time never moves back over the run exactly when every recording keeps pace. */
  lemma NextNeverMovesBackIff(b: Backoff, debt: Option<Debt>, identity: Identity, events: seq<Event>, i: nat)
    requires ClockForward(events) && i <= |events| && Pending(After(b, debt, identity, events[..i]), identity)
    ensures (forall j, k :: i <= j <= k <= |events|
                            && Pending(After(b, debt, identity, events[..j]), identity)
                            && Pending(After(b, debt, identity, events[..k]), identity) ==>
               NextAt(b, debt, identity, events, j) <= NextAt(b, debt, identity, events, k))
            <==> AllKeepPace(b, debt, identity, events, i)
  {
    if AllKeepPace(b, debt, identity, events, i) {
      forall j, k | i <= j <= k <= |events|
                    && Pending(After(b, debt, identity, events[..j]), identity)
                    && Pending(After(b, debt, identity, events[..k]), identity)
        ensures NextAt(b, debt, identity, events, j) <= NextAt(b, debt, identity, events, k)
      {
        NextNeverMovesBack(b, debt, identity, events, i, j, k);
      }
    } else {
      var k :| i <= k < |events| && Pending(After(b, debt, identity, events[..k]), identity)
               && !KeepsPace(After(b, debt, identity, events[..k]), identity, events[k]);
      StepKeepsPace(b, debt, identity, events, k);
    }
  }
}
