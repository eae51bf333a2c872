/** The memory-only gate that picks which evidence work may open the canonical databases this cycle. */
module DueFilter {
  import opened Common
  import opened RetryDebt

  /** A hard incident as the gate reads it. */
  datatype Incident = Incident(position: string, crossing: string, revision: int, priority: real,
                               detectedAt: Option<Time>)

  type Incidents = map<IncidentId, Incident>
  type Debts = map<IncidentId, Debt>

  /** Where one candidate belongs this cycle. */
  datatype Lane = Unknown | New | Done | Upgrade | Waiting | Due

  function StableIdentity(settings: string, id: IncidentId, incident: Incident): Identity {
    Memory(id, incident.position, incident.crossing, incident.revision, settings)
  }

  predicate IdentityMoved(settings: string, id: IncidentId, incident: Incident, debt: Debt) {
    debt.identity.Some? && !debt.identity.value.Canonical?
    && debt.identity.value != StableIdentity(settings, id, incident)
  }

  function LaneOf(settings: string, incidents: Incidents, debts: Debts, id: IncidentId, now: Time): Lane {
    if id !in incidents then Unknown
    else if id !in debts then New
    else if debts[id].status.Resolved? then Done
    else if !debts[id].status.RetryPending? then New
    else if Legacy(debts[id]) then Upgrade
    else if IdentityMoved(settings, id, incidents[id], debts[id]) then Due
    else if now < debts[id].next.value then Waiting
    else Due
  }

  // ----- ordering -----

  datatype Rank = Created(index: nat) | Indebted(order: int) | Ordinary(priority: real, detected: Time)

  function Kind(r: Rank): nat {
    match r case Created(_) => 0 case Indebted(_) => 1 case Ordinary(_, _) => 2
  }

  predicate RankBelow(a: Rank, b: Rank) {
    || Kind(a) < Kind(b)
    || (a.Created? && b.Created? && a.index < b.index)
    || (a.Indebted? && b.Indebted? && a.order < b.order)
    || (a.Ordinary? && b.Ordinary?
        && (a.priority > b.priority || (a.priority == b.priority && a.detected > b.detected)))
  }

  /** The sort key's order: rank first, then the id. */
  predicate Precedes(rank: IncidentId -> Rank, a: IncidentId, b: IncidentId) {
    RankBelow(rank(a), rank(b)) || (rank(a) == rank(b) && a <= b)
  }

  predicate SortedBy(rank: IncidentId -> Rank, ids: seq<IncidentId>) {
    forall i, j :: 0 <= i < j < |ids| ==> Precedes(rank, ids[i], ids[j])
  }

  lemma PrecedesTransitive(rank: IncidentId -> Rank, a: IncidentId, b: IncidentId, c: IncidentId)
    requires Precedes(rank, a, b) && Precedes(rank, b, c)
    ensures Precedes(rank, a, c)
  {
  }

  /** The position of the first occurrence, for the created-order rank. */
  function IndexIn(ids: seq<IncidentId>, id: IncidentId): nat
    requires id in ids
  {
    if ids[0] == id then 0 else 1 + IndexIn(ids[1..], id)
  }

  function RankOf(incidents: Incidents, created: seq<IncidentId>, debtOrder: map<IncidentId, int>,
                  id: IncidentId): Rank {
    if id != 0 && id in created then Created(IndexIn(Distinct(created), id))
    else if id in debtOrder then Indebted(debtOrder[id])
    else if id in incidents then
      Ordinary(incidents[id].priority, if incidents[id].detectedAt.Some? then incidents[id].detectedAt.value else 0)
    else Ordinary(0.0, 0)
  }

  /** Non-blank ids, each at its first occurrence. */
  function Distinct(ids: seq<IncidentId>): (d: seq<IncidentId>)
    ensures forall id :: id in d <==> id in ids && id != 0
    ensures forall i, j :: 0 <= i < j < |d| ==> d[i] != d[j]
  {
    if ids == [] then []
    else
      var n := |ids| - 1;
      var rest := Distinct(ids[..n]);
      assert ids == ids[..n] + [ids[n]];
      if ids[n] == 0 || ids[n] in rest then rest else rest + [ids[n]]
  }

  function Insert(rank: IncidentId -> Rank, ids: seq<IncidentId>, id: IncidentId): seq<IncidentId> {
    if ids == [] || Precedes(rank, ids[|ids| - 1], id) then ids + [id]
    else Insert(rank, ids[..|ids| - 1], id) + [ids[|ids| - 1]]
  }

  function Sorted(rank: IncidentId -> Rank, ids: seq<IncidentId>): seq<IncidentId> {
    if ids == [] then [] else Insert(rank, Sorted(rank, ids[..|ids| - 1]), ids[|ids| - 1])
  }

  lemma {:induction false} InsertPermutes(rank: IncidentId -> Rank, ids: seq<IncidentId>, id: IncidentId)
    ensures multiset(Insert(rank, ids, id)) == multiset(ids) + multiset{id}
  {
    if ids != [] && !Precedes(rank, ids[|ids| - 1], id) {
      InsertPermutes(rank, ids[..|ids| - 1], id);
      assert ids == ids[..|ids| - 1] + [ids[|ids| - 1]];
    }
  }

  lemma InsertHas(rank: IncidentId -> Rank, ids: seq<IncidentId>, id: IncidentId, x: IncidentId)
    requires x in Insert(rank, ids, id)
    ensures x == id || x in ids
  {
    InsertPermutes(rank, ids, id);
    assert x in multiset(Insert(rank, ids, id));
  }

  lemma {:induction false} InsertSorts(rank: IncidentId -> Rank, ids: seq<IncidentId>, id: IncidentId)
    requires SortedBy(rank, ids)
    ensures SortedBy(rank, Insert(rank, ids, id))
  {
    if ids != [] {
      var n := |ids| - 1;
      if Precedes(rank, ids[n], id) {
        forall i | 0 <= i < n ensures Precedes(rank, ids[i], id) {
          PrecedesTransitive(rank, ids[i], ids[n], id);
        }
      } else {
        InsertSorts(rank, ids[..n], id);
        var rest := Insert(rank, ids[..n], id);
        forall i | 0 <= i < |rest| ensures Precedes(rank, rest[i], ids[n]) {
          InsertHas(rank, ids[..n], id, rest[i]);
        }
      }
    }
  }

  lemma {:induction false} SortedSorts(rank: IncidentId -> Rank, ids: seq<IncidentId>)
    ensures multiset(Sorted(rank, ids)) == multiset(ids) && SortedBy(rank, Sorted(rank, ids))
  {
    if ids != [] {
      var n := |ids| - 1;
      SortedSorts(rank, ids[..n]);
      InsertPermutes(rank, Sorted(rank, ids[..n]), ids[n]);
      InsertSorts(rank, Sorted(rank, ids[..n]), ids[n]);
      assert ids == ids[..n] + [ids[n]];
    }
  }

  lemma SortedHas(rank: IncidentId -> Rank, ids: seq<IncidentId>)
    ensures forall id :: id in Sorted(rank, ids) <==> id in ids
  {
    SortedSorts(rank, ids);
    forall id ensures id in Sorted(rank, ids) <==> id in ids {
      assert id in Sorted(rank, ids) <==> id in multiset(Sorted(rank, ids));
    }
  }

  // ----- one cycle -----

  /** What one cycle reads: configuration, hard incidents, the order hints and the clock. */
  datatype Cycle = Cycle(
    settings: string,
    backoff: Backoff,
    incidents: Incidents,
    created: seq<IncidentId>,
    debtOrder: map<IncidentId, int>,
    now: Time)

  function CycleLane(c: Cycle, debts: Debts, id: IncidentId): Lane {
    LaneOf(c.settings, c.incidents, debts, id, c.now)
  }

  function CycleRank(c: Cycle): IncidentId -> Rank {
    (id: IncidentId) => RankOf(c.incidents, c.created, c.debtOrder, id)
  }

  /** The candidates of some lanes, in candidate order. */
  function InLanes(c: Cycle, debts: Debts, ids: seq<IncidentId>, lanes: set<Lane>): seq<IncidentId> {
    if ids == [] then []
    else
      var n := |ids| - 1;
      InLanes(c, debts, ids[..n], lanes) + (if CycleLane(c, debts, ids[n]) in lanes then [ids[n]] else [])
  }

  lemma {:induction false} InLanesAre(c: Cycle, debts: Debts, ids: seq<IncidentId>, lanes: set<Lane>)
    ensures forall id :: id in InLanes(c, debts, ids, lanes) <==> id in ids && CycleLane(c, debts, id) in lanes
  {
    if ids != [] {
      var n := |ids| - 1;
      InLanesAre(c, debts, ids[..n], lanes);
      assert ids == ids[..n] + [ids[n]];
    }
  }

  /** The candidates of one lane, each once, in the order of admission. */
  function InOrder(c: Cycle, debts: Debts, candidates: seq<IncidentId>, lane: Lane): seq<IncidentId> {
    Sorted(CycleRank(c), InLanes(c, debts, Distinct(candidates), {lane}))
  }

  function Admitted(c: Cycle, debts: Debts, candidates: seq<IncidentId>): seq<IncidentId> {
    var due := InOrder(c, debts, candidates, Due);
    InOrder(c, debts, candidates, New) + due[..Min(1, |due|)]
  }

  function Deferred(c: Cycle, debts: Debts, candidates: seq<IncidentId>): seq<IncidentId> {
    InLanes(c, debts, Distinct(candidates), {Upgrade, Waiting})
  }

  function DebtsAfter(c: Cycle, debts: Debts, ids: seq<IncidentId>): Debts {
    map id | id in debts ::
      if id in ids && id in c.incidents && CycleLane(c, debts, id) == Upgrade
      then Migrated(c.backoff, debts[id], StableIdentity(c.settings, id, c.incidents[id]), c.now)
      else debts[id]
  }

  lemma LanesStep(c: Cycle, debts: Debts, ids: seq<IncidentId>, i: nat, lanes: set<Lane>)
    requires i < |ids|
    ensures InLanes(c, debts, ids[..i + 1], lanes)
            == InLanes(c, debts, ids[..i], lanes) + (if CycleLane(c, debts, ids[i]) in lanes then [ids[i]] else [])
  {
    assert ids[..i + 1][..i] == ids[..i];
  }

  lemma DebtsStep(c: Cycle, debts: Debts, ids: seq<IncidentId>, i: nat)
    requires i < |ids| && ids[i] !in ids[..i]
    ensures DebtsAfter(c, debts, ids[..i + 1])
            == if CycleLane(c, debts, ids[i]) == Upgrade
               then DebtsAfter(c, debts, ids[..i])[
                      ids[i] := Migrated(c.backoff, debts[ids[i]],
                                         StableIdentity(c.settings, ids[i], c.incidents[ids[i]]), c.now)]
               else DebtsAfter(c, debts, ids[..i])
  {
    assert forall id :: id in ids[..i + 1] <==> id in ids[..i] || id == ids[i];
  }

  lemma CycleStep(c: Cycle, debts: Debts, ids: seq<IncidentId>, i: nat)
    requires i < |ids| && forall j, k :: 0 <= j < k < |ids| ==> ids[j] != ids[k]
    ensures var id, lane := ids[i], CycleLane(c, debts, ids[i]);
            && InLanes(c, debts, ids[..i + 1], {New}) == InLanes(c, debts, ids[..i], {New}) + (if lane == New then
                [id] else [])
            && InLanes(c, debts, ids[..i + 1], {Due}) == InLanes(c, debts, ids[..i], {Due}) + (if lane == Due then
                [id] else [])
            && InLanes(c, debts, ids[..i + 1], {Upgrade, Waiting})
               == InLanes(c, debts, ids[..i], {Upgrade, Waiting}) + (if lane == Upgrade || lane == Waiting then
                   [id] else [])
            && DebtsAfter(c, debts, ids[..i + 1])
               == if lane == Upgrade
                  then DebtsAfter(c, debts, ids[..i])[
                         id := Migrated(c.backoff, debts[id], StableIdentity(c.settings, id, c.incidents[id]), c.now)]
                  else DebtsAfter(c, debts, ids[..i])
  {
    LanesStep(c, debts, ids, i, {New});
    LanesStep(c, debts, ids, i, {Due});
    LanesStep(c, debts, ids, i, {Upgrade, Waiting});
    DebtsStep(c, debts, ids, i);
  }

  /** A legacy row gets the memory identity and a retry time, without counting an attempt. */
  method UpgradeDebt(c: Cycle, debt: Debt, id: IncidentId) returns (upgraded: Debt)
    requires id in c.incidents
    ensures upgraded == Migrated(c.backoff, debt, StableIdentity(c.settings, id, c.incidents[id]), c.now)
  {
    var delay, work := EvidenceRetryDelay(c.backoff, Max(1, debt.attempts));
    var stable := StableIdentity(c.settings, id, c.incidents[id]);
    upgraded := debt.(identity := Some(stable), next := Some(c.now + delay));
  }

  /** The pass over the candidates; rows are upgraded as they are met, lanes follow the rows first read. */
  method SortIntoLanes(c: Cycle, before: Debts, ids: seq<IncidentId>)
    returns (newcomers: seq<IncidentId>, due: seq<IncidentId>, deferred: seq<IncidentId>, debts: Debts)
    requires forall j, k :: 0 <= j < k < |ids| ==> ids[j] != ids[k]
    ensures newcomers == InLanes(c, before, ids, {New}) && due == InLanes(c, before, ids, {Due})
    ensures deferred == InLanes(c, before, ids, {Upgrade, Waiting}) && debts == DebtsAfter(c, before, ids)
  {
    newcomers, due, deferred, debts := [], [], [], before;
    for i := 0 to |ids|
      invariant debts == DebtsAfter(c, before, ids[..i])
      invariant newcomers == InLanes(c, before, ids[..i], {New}) && due == InLanes(c, before, ids[..i], {Due})
      invariant deferred == InLanes(c, before, ids[..i], {Upgrade, Waiting})
    {
      var id := ids[i];
      CycleStep(c, before, ids, i);
      var lane := CycleLane(c, before, id);
      if lane == New {
        newcomers := newcomers + [id];
      } else if lane == Due {
        due := due + [id];
      } else if lane == Waiting {
        deferred := deferred + [id];
      } else if lane == Upgrade {
        var upgraded := UpgradeDebt(c, before[id], id);
        debts, deferred := debts[id := upgraded], deferred + [id];
      }
    }
    assert ids[..|ids|] == ids;
  }

  class DebtMemory {
    var debts: Debts

    constructor ()
      ensures debts == map[]
    {
      debts := map[];
    }

    method Record(b: Backoff, id: IncidentId, identity: Identity, backoff: bool, clock: Clock)
      modifies this
      ensures var prior := if id in old(debts) then Some(old(debts)[id]) else None;
              debts == old(debts)[id := Recorded(b, prior, identity, backoff, clock)]
    {
      if id in debts {
        var prior := debts[id];
        if prior.identity == Some(identity) && prior.next.Some? && clock.checked < prior.next.value {
          assert debts == debts[id := prior];
          return;
        }
      }
      var attempts := (if id in debts then debts[id].attempts else 0) + (if backoff then 1 else 0);
      var next := clock.stamp;
      if backoff {
        var delay, work := EvidenceRetryDelay(b, attempts);
        next := clock.written + delay;
      }
      debts := debts[id := Debt(RetryPending, Some(identity), Some(next), attempts)];
    }

    method Resolve(id: IncidentId)
      modifies this
      ensures debts == if id in old(debts) then old(debts)[id := ResolvedDebt(old(debts)[id])] else old(debts)
    {
      if id in debts {
        debts := debts[id := ResolvedDebt(debts[id])];
      }
    }

    /** One cycle of the gate: sort the candidates into lanes, upgrade legacy rows, admit. */
    method DueFilter(c: Cycle, candidates: seq<IncidentId>)
      returns (admitted: seq<IncidentId>, deferred: seq<IncidentId>)
      modifies this
      ensures admitted == Admitted(c, old(debts), candidates)
      ensures deferred == Deferred(c, old(debts), candidates)
      ensures debts == DebtsAfter(c, old(debts), Distinct(candidates))
    {
      var ids := Distinct(candidates);
      var newcomers, due;
      newcomers, due, deferred, debts := SortIntoLanes(c, debts, ids);
      due := Sorted(CycleRank(c), due);
      admitted := Sorted(CycleRank(c), newcomers) + due[..Min(1, |due|)];
    }
  }

  // ----- what a cycle admits -----

  predicate Pending(debts: Debts, id: IncidentId) {
    id in debts && debts[id].status.RetryPending?
  }

  lemma InOrderHas(c: Cycle, debts: Debts, candidates: seq<IncidentId>, lane: Lane, id: IncidentId)
    ensures id in InOrder(c, debts, candidates, lane)
            <==> id in candidates && id != 0 && CycleLane(c, debts, id) == lane
  {
    InLanesAre(c, debts, Distinct(candidates), {lane});
    SortedHas(CycleRank(c), InLanes(c, debts, Distinct(candidates), {lane}));
  }

  lemma AdmittedAre(c: Cycle, debts: Debts, candidates: seq<IncidentId>, id: IncidentId)
    ensures id in Admitted(c, debts, candidates) ==> CycleLane(c, debts, id) in {New, Due}
    ensures id in candidates && id != 0 && CycleLane(c, debts, id) == New ==> id in Admitted(c, debts, candidates)
  {
    InOrderHas(c, debts, candidates, New, id);
    InOrderHas(c, debts, candidates, Due, id);
  }

  /** Nothing resolved gets through, and nothing pending before its time unless its memory identity moved. */
  lemma OnlyDueDebtsPass(c: Cycle, debts: Debts, candidates: seq<IncidentId>, id: IncidentId)
    requires id in Admitted(c, debts, candidates)
    ensures id in c.incidents && (id in debts ==> !debts[id].status.Resolved?)
    ensures Pending(debts, id) ==>
              && debts[id].next.Some? && debts[id].identity.Some?
              && (c.now >= debts[id].next.value || IdentityMoved(c.settings, id, c.incidents[id], debts[id]))
  {
    AdmittedAre(c, debts, candidates, id);
  }

  /** At most one retry-pending debt per cycle. */
  lemma OnePendingPerCycle(c: Cycle, debts: Debts, candidates: seq<IncidentId>, i: nat, j: nat)
    requires i < |Admitted(c, debts, candidates)| && Pending(debts, Admitted(c, debts, candidates)[i])
    requires j < |Admitted(c, debts, candidates)| && Pending(debts, Admitted(c, debts, candidates)[j])
    ensures i == j
  {
    var newcomers := InOrder(c, debts, candidates, New);
    forall k | 0 <= k < |newcomers| ensures !Pending(debts, newcomers[k]) {
      InOrderHas(c, debts, candidates, New, newcomers[k]);
    }
    assert forall k :: 0 <= k < |newcomers| ==> Admitted(c, debts, candidates)[k] == newcomers[k];
  }

  /** A candidate that is no retry debt: a hard incident without a debt, or with one neither pending nor resolved. */
  predicate Newcomer(c: Cycle, debts: Debts, id: IncidentId) {
    id in c.incidents && (id in debts ==> debts[id].status == OtherStatus)
  }

  /** The debt was recorded under a memory identity other than the incident's present one. */
  predicate Moved(c: Cycle, debts: Debts, id: IncidentId)
    requires id in c.incidents && id in debts && debts[id].identity.Some?
  {
    var incident, recorded := c.incidents[id], debts[id].identity.value;
    && !recorded.Canonical?
    && recorded != Memory(id, incident.position, incident.crossing, incident.revision, c.settings)
  }

  /** A retry debt whose time has come, or whose incident is no longer what it was recorded for. */
  predicate Ripe(c: Cycle, debts: Debts, id: IncidentId) {
    && id in c.incidents && id in debts && debts[id].status == RetryPending
    && debts[id].identity.Some? && debts[id].next.Some?
    && (c.now >= debts[id].next.value || Moved(c, debts, id))
  }

  /** A retry debt that has to wait: written before there were retry times, or unmoved and before its time. */
  predicate Early(c: Cycle, debts: Debts, id: IncidentId) {
    && id in c.incidents && id in debts && debts[id].status == RetryPending
    && (|| debts[id].identity.None? || debts[id].next.None?
        || (c.now < debts[id].next.value && !Moved(c, debts, id)))
  }

  lemma LaneMeans(c: Cycle, debts: Debts, id: IncidentId)
    ensures CycleLane(c, debts, id) == New <==> Newcomer(c, debts, id)
    ensures CycleLane(c, debts, id) == Due <==> Ripe(c, debts, id)
    ensures CycleLane(c, debts, id) in {Upgrade, Waiting} <==> Early(c, debts, id)
  {
  }

  /** A candidate is deferred exactly when it is a retry debt that has to wait. */
  lemma DeferredIff(c: Cycle, debts: Debts, candidates: seq<IncidentId>, id: IncidentId)
    ensures id in Deferred(c, debts, candidates) <==> id in candidates && id != 0 && Early(c, debts, id)
  {
    InLanesAre(c, debts, Distinct(candidates), {Upgrade, Waiting});
    LaneMeans(c, debts, id);
  }

  /** The ripe debt that precedes every other ripe candidate. */
  ghost predicate FirstRipe(c: Cycle, debts: Debts, candidates: seq<IncidentId>, id: IncidentId) {
    && id in candidates && id != 0 && Ripe(c, debts, id)
    && forall other :: other in candidates && other != 0 && Ripe(c, debts, other) ==> Precedes(CycleRank(c), id, other)
  }

  lemma HeadPrecedes(rank: IncidentId -> Rank, ids: seq<IncidentId>, id: IncidentId)
    requires SortedBy(rank, ids) && id in ids
    ensures Precedes(rank, ids[0], id)
    ensures Precedes(rank, id, ids[0]) ==> id == ids[0]
  {
    var k :| 0 <= k < |ids| && ids[k] == id;
  }

  lemma DueHas(c: Cycle, debts: Debts, candidates: seq<IncidentId>, id: IncidentId)
    ensures id in InOrder(c, debts, candidates, Due) <==> id in candidates && id != 0 && Ripe(c, debts, id)
    ensures SortedBy(CycleRank(c), InOrder(c, debts, candidates, Due))
  {
    InOrderHas(c, debts, candidates, Due, id);
    LaneMeans(c, debts, id);
    SortedSorts(CycleRank(c), InLanes(c, debts, Distinct(candidates), {Due}));
  }

  lemma HeadIsFirstRipe(c: Cycle, debts: Debts, candidates: seq<IncidentId>)
    requires InOrder(c, debts, candidates, Due) != []
    ensures FirstRipe(c, debts, candidates, InOrder(c, debts, candidates, Due)[0])
  {
    var due := InOrder(c, debts, candidates, Due);
    DueHas(c, debts, candidates, due[0]);
    forall other | other in candidates && other != 0 && Ripe(c, debts, other)
      ensures Precedes(CycleRank(c), due[0], other)
    {
      DueHas(c, debts, candidates, other);
      HeadPrecedes(CycleRank(c), due, other);
    }
  }

  lemma FirstRipeIsHead(c: Cycle, debts: Debts, candidates: seq<IncidentId>, id: IncidentId)
    requires FirstRipe(c, debts, candidates, id)
    ensures InOrder(c, debts, candidates, Due) != [] && InOrder(c, debts, candidates, Due)[0] == id
  {
    var due := InOrder(c, debts, candidates, Due);
    DueHas(c, debts, candidates, id);
    DueHas(c, debts, candidates, due[0]);
    HeadPrecedes(CycleRank(c), due, id);
  }

  lemma AdmittedIs(c: Cycle, debts: Debts, candidates: seq<IncidentId>)
    ensures var newcomers, due := InOrder(c, debts, candidates, New), InOrder(c, debts, candidates, Due);
            Admitted(c, debts, candidates) == newcomers + (if due == [] then [] else [due[0]])
  {
  }

  /**
   Exactly what a cycle admits, in the debts' own columns: every candidate that is no retry
   debt, and of the retry debts whose time has come or whose incident moved the one that
   precedes all others.
   */
  lemma AdmittedIff(c: Cycle, debts: Debts, candidates: seq<IncidentId>, id: IncidentId)
    ensures id in Admitted(c, debts, candidates)
            <==> || (id in candidates && id != 0 && Newcomer(c, debts, id))
                 || FirstRipe(c, debts, candidates, id)
  {
    AdmittedIs(c, debts, candidates);
    InOrderHas(c, debts, candidates, New, id);
    LaneMeans(c, debts, id);
    if InOrder(c, debts, candidates, Due) != [] {
      HeadIsFirstRipe(c, debts, candidates);
    }
    if FirstRipe(c, debts, candidates, id) {
      FirstRipeIsHead(c, debts, candidates, id);
    }
  }

  /** Whenever a candidate is ripe, exactly one ripe candidate is admitted, the last and first in priority. */
  lemma FirstDueIsAdmitted(c: Cycle, debts: Debts, candidates: seq<IncidentId>)
    requires exists id :: id in candidates && id != 0 && Ripe(c, debts, id)
    ensures var admitted := Admitted(c, debts, candidates);
            && admitted != [] && FirstRipe(c, debts, candidates, admitted[|admitted| - 1])
            && forall k :: 0 <= k < |admitted| - 1 ==> Newcomer(c, debts, admitted[k])
  {
    var some :| some in candidates && some != 0 && Ripe(c, debts, some);
    DueHas(c, debts, candidates, some);
    AdmittedIs(c, debts, candidates);
    HeadIsFirstRipe(c, debts, candidates);
    var newcomers := InOrder(c, debts, candidates, New);
    forall k | 0 <= k < |newcomers| ensures Newcomer(c, debts, newcomers[k]) {
      InOrderHas(c, debts, candidates, New, newcomers[k]);
      LaneMeans(c, debts, newcomers[k]);
    }
  }

  /** A deferred debt is ripe once its retry time has come; a legacy one is given that time when it is deferred. */
  lemma DeferredBecomesRipe(c: Cycle, debts: Debts, candidates: seq<IncidentId>, id: IncidentId, later: Cycle)
    requires id in candidates && id != 0 && Early(c, debts, id) && id in later.incidents
    requires later.now >= if Legacy(debts[id]) then c.now + Maximum(c.backoff) else debts[id].next.value
    ensures Ripe(later, DebtsAfter(c, debts, Distinct(candidates)), id)
    ensures DebtsAfter(c, debts, Distinct(candidates))[id].attempts == debts[id].attempts
  {
    DelayPositive(c.backoff, Max(1, debts[id].attempts));
  }

  /** And it waits at least the base delay, as long as its incident stays what it is. */
  lemma UpgradedWaits(c: Cycle, debts: Debts, candidates: seq<IncidentId>, id: IncidentId, later: Cycle)
    requires id in candidates && id != 0 && Early(c, debts, id) && Legacy(debts[id])
    requires later.settings == c.settings && id in later.incidents && later.incidents[id] == c.incidents[id]
    requires later.now < c.now + Base(c.backoff)
    ensures Early(later, DebtsAfter(c, debts, Distinct(candidates)), id)
  {
    var attempts := Max(1, debts[id].attempts);
    assert Base(c.backoff) * Pow2(attempts - 1) >= Base(c.backoff) * 1;
  }

  // ----- the order of admission -----

  /** `a` occurs in the list before `b` does. */
  ghost predicate OccursFirst(ids: seq<IncidentId>, a: IncidentId, b: IncidentId) {
    exists k :: 0 <= k < |ids| && ids[k] == a && b !in ids[..k + 1]
  }

  lemma {:induction false} IndexOfAppended(ids: seq<IncidentId>, last: IncidentId, id: IncidentId)
    requires id in ids + [last]
    ensures id in ids ==> IndexIn(ids + [last], id) == IndexIn(ids, id) < |ids|
    ensures id !in ids ==> id == last && IndexIn(ids + [last], id) == |ids|
  {
    if ids != [] && ids[0] != id {
      assert (ids + [last])[1..] == ids[1..] + [last];
      assert ids == [ids[0]] + ids[1..];
      IndexOfAppended(ids[1..], last, id);
    }
  }

  lemma OccursFirstStep(ids: seq<IncidentId>, last: IncidentId, a: IncidentId, b: IncidentId)
    ensures OccursFirst(ids + [last], a, b)
            <==> OccursFirst(ids, a, b) || (last == a && a != b && b !in ids)
  {
    var longer := ids + [last];
    if OccursFirst(ids, a, b) {
      var k :| 0 <= k < |ids| && ids[k] == a && b !in ids[..k + 1];
      assert longer[..k + 1] == ids[..k + 1] && longer[k] == a;
    }
    if OccursFirst(longer, a, b) {
      var k :| 0 <= k < |longer| && longer[k] == a && b !in longer[..k + 1];
      if k < |ids| {
        assert longer[..k + 1] == ids[..k + 1];
      } else {
        assert longer[..k + 1] == longer;
      }
    }
    if last == a && a != b && b !in ids {
      assert longer[..|ids| + 1] == longer && longer[|ids|] == a;
    }
  }

  lemma {:induction false} DistinctKeepsOrder(ids: seq<IncidentId>, a: IncidentId, b: IncidentId)
    requires a != 0 && b != 0 && a in ids && b in ids
    ensures IndexIn(Distinct(ids), a) < IndexIn(Distinct(ids), b) <==> OccursFirst(ids, a, b)
  {
    var n := |ids| - 1;
    var front, last := ids[..n], ids[n];
    assert ids == front + [last];
    OccursFirstStep(front, last, a, b);
    var rest := Distinct(front);
    if last != 0 && last !in rest {
      IndexOfAppended(rest, last, a);
      IndexOfAppended(rest, last, b);
    }
    if a in front && b in front {
      DistinctKeepsOrder(front, a, b);
    } else if b !in front && a in front {
      var k :| 0 <= k < |front| && front[k] == a;
      assert b !in front[..k + 1];
    } else if a !in front {
      assert !OccursFirst(front, a, b);
    }
  }

  /** The detection time an incident is ordered by. */
  function DetectedAt(incident: Incident): Time {
    if incident.detectedAt.Some? then incident.detectedAt.value else 0
  }

  /** Higher priority first, then latest detection, then the smaller id. */
  predicate OutranksBy(a: IncidentId, x: Incident, b: IncidentId, y: Incident) {
    || x.priority > y.priority
    || (x.priority == y.priority && DetectedAt(x) > DetectedAt(y))
    || (x.priority == y.priority && DetectedAt(x) == DetectedAt(y) && a < b)
  }

  lemma CreatedPrecede(c: Cycle, a: IncidentId, b: IncidentId)
    requires a != 0 && b != 0 && a != b && a in c.created && b in c.created
    ensures Precedes(CycleRank(c), a, b) <==> OccursFirst(c.created, a, b)
  {
    var created := Distinct(c.created);
    DistinctKeepsOrder(c.created, a, b);
    if IndexIn(created, a) == IndexIn(created, b) {
      SameIndexSameId(created, a, b);
    }
    assert CycleRank(c)(a) == Created(IndexIn(created, a)) && CycleRank(c)(b) == Created(IndexIn(created, b));
  }

  /**
   The order of admission, spelled out: incidents created this cycle in their order of
   creation, then debts in the order given, then by falling priority; what is left is
   decided by the id.
   */
  lemma PrecedesMeans(c: Cycle, a: IncidentId, b: IncidentId)
    requires a != 0 && b != 0 && a != b && a in c.incidents && b in c.incidents
    ensures Precedes(CycleRank(c), a, b)
            <==> if a in c.created || b in c.created then
                   a in c.created && (b in c.created ==> OccursFirst(c.created, a, b))
                 else if a in c.debtOrder || b in c.debtOrder then
                   && a in c.debtOrder
                   && (b in c.debtOrder ==>
                         c.debtOrder[a] < c.debtOrder[b] || (c.debtOrder[a] == c.debtOrder[b] && a < b))
                 else OutranksBy(a, c.incidents[a], b, c.incidents[b])
  {
    if a in c.created && b in c.created {
      CreatedPrecede(c, a, b);
    } else {
      assert CycleRank(c)(a) == RankOf(c.incidents, c.created, c.debtOrder, a);
      assert CycleRank(c)(b) == RankOf(c.incidents, c.created, c.debtOrder, b);
    }
  }

  lemma {:induction false} SameIndexSameId(ids: seq<IncidentId>, a: IncidentId, b: IncidentId)
    requires a in ids && b in ids && IndexIn(ids, a) == IndexIn(ids, b)
    ensures a == b
  {
    if ids[0] != a && ids[0] != b {
      SameIndexSameId(ids[1..], a, b);
    }
  }

  // ----- legacy rows over any run -----

  datatype Event =
    | Filtered(cycle: Cycle, candidates: seq<IncidentId>)
    | RecordedDebt(b: Backoff, id: IncidentId, identity: Identity, backoff: bool, clock: Clock)
    | ResolvedOne(id: IncidentId)

  function Apply(debts: Debts, e: Event): Debts {
    match e
    case Filtered(c, candidates) => DebtsAfter(c, debts, Distinct(candidates))
    case RecordedDebt(b, id, identity, backoff, clock) =>
      debts[id := Recorded(b, if id in debts then Some(debts[id]) else None, identity, backoff, clock)]
    case ResolvedOne(id) => if id in debts then debts[id := ResolvedDebt(debts[id])] else debts
  }

  function After(debts: Debts, events: seq<Event>): Debts {
    if events == [] then debts else Apply(After(debts, events[..|events| - 1]), events[|events| - 1])
  }

  predicate Upgrades(debts: Debts, e: Event, id: IncidentId) {
    e.Filtered? && id in Distinct(e.candidates) && CycleLane(e.cycle, debts, id) == Upgrade
  }

  function Upgraded(debts: Debts, events: seq<Event>, id: IncidentId): nat {
    if events == [] then 0
    else
      var n := |events| - 1;
      Upgraded(debts, events[..n], id) + (if Upgrades(After(debts, events[..n]), events[n], id) then 1 else 0)
  }

  predicate Modern(debts: Debts, id: IncidentId) {
    id in debts ==> !Legacy(debts[id])
  }

  lemma ModernStays(debts: Debts, e: Event, id: IncidentId)
    ensures Modern(debts, id) || Upgrades(debts, e, id) ==> Modern(Apply(debts, e), id)
    ensures Upgrades(debts, e, id) ==> !Modern(debts, id)
  {
  }

  /** However cycles, recordings, resolutions and revision changes follow one another, a legacy row is upgraded once. */
  lemma {:induction false} LegacyUpgradedOnce(debts: Debts, events: seq<Event>, id: IncidentId)
    ensures Upgraded(debts, events, id) <= 1
    ensures Upgraded(debts, events, id) == 1 ==> Modern(After(debts, events), id)
    ensures Modern(debts, id) ==> Upgraded(debts, events, id) == 0 && Modern(After(debts, events), id)
  {
    if events != [] {
      var n := |events| - 1;
      LegacyUpgradedOnce(debts, events[..n], id);
      ModernStays(After(debts, events[..n]), events[n], id);
    }
  }

  // ----- resolved debts over any run -----

  predicate Settled(debts: Debts, id: IncidentId) {
    id in debts && debts[id].status.Resolved?
  }

  predicate NeverRecorded(events: seq<Event>, id: IncidentId) {
    forall i :: 0 <= i < |events| ==> !(events[i].RecordedDebt? && events[i].id == id)
  }

  /** Once resolved, a debt stays resolved and out of every later cycle until it is recorded anew. */
  lemma {:induction false} ResolvedStaysOut(debts: Debts, events: seq<Event>, id: IncidentId, c: Cycle,
                                            candidates: seq<IncidentId>)
    requires id in debts && NeverRecorded(events, id)
    ensures var later := After(Apply(debts, ResolvedOne(id)), events);
            Settled(later, id) && id !in Admitted(c, later, candidates)
  {
    var resolved := Apply(debts, ResolvedOne(id));
    if events != [] {
      var n := |events| - 1;
      assert NeverRecorded(events[..n], id);
      ResolvedStaysOut(debts, events[..n], id, c, candidates);
    }
    var later := After(resolved, events);
    if id in Admitted(c, later, candidates) {
      OnlyDueDebtsPass(c, later, candidates, id);
    }
  }
}
