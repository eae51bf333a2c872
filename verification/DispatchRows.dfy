/** What a dispatch turn does to the incident rows, row by row, on any board whose identifiers are distinct. */
module DispatchRows {
  import opened Common
  import opened Dispatch
  import opened DispatchTurn

  predicate DistinctRows(rows: seq<Incident>) {
    forall i, j :: 0 <= i < j < |rows| ==> rows[i].id != rows[j].id
  }

  /** The same incidents in the same places. */
  predicate SameIds(rows: seq<Incident>, after: seq<Incident>) {
    |rows| == |after| && forall i :: 0 <= i < |rows| ==> after[i].id == rows[i].id
  }

  // ----- recovering classifications -----

  /** Its classification is on file, but no run of the incident is left to act on it. */
  predicate Stalled(w: World, running: seq<RunRecord>, row: Incident) {
    && row.status == Running && row.stage == Classification && row.id in w.classified
    && forall run :: run in running ==> run.incident != row.id
  }

  lemma {:induction false} RecoveredUpTo(w: World, rows: seq<Incident>, running: seq<RunRecord>, n: nat, i: nat)
    requires DistinctRows(rows) && n <= |rows| && i < |rows|
    ensures var after := RecoverAll(w, rows, running, rows[..n]);
            && SameIds(rows, after)
            && after[i] == if i < n && Recoverable(w, running, rows[i]) then RecoverRow(w, rows, rows[i].id)[i]
                           else rows[i]
  {
    if n > 0 {
      assert rows[..n][..n - 1] == rows[..n - 1];
      RecoveredUpTo(w, rows, running, n - 1, i);
      assert i != n - 1 ==> rows[i].id != rows[n - 1].id;
    }
  }

  lemma StalledIff(w: World, running: seq<RunRecord>, row: Incident)
    ensures Recoverable(w, running, row) <==> Stalled(w, running, row)
  {
    if ActiveIncident(running, row.id) {
      var k :| 0 <= k < |running| && running[k].incident == row.id;
      assert running[k] in running;
    }
  }

  /**
   A row that stalled after its classification goes on to wait for repair when the loss was
   preventable and to observation when it was not; every other row stays as it was.
   */
  lemma RecoveredRow(w: World, rows: seq<Incident>, running: seq<RunRecord>, i: nat)
    requires DistinctRows(rows) && i < |rows|
    ensures var after := RecoverAll(w, rows, running, rows);
            && |after| == |rows|
            && after[i] == if !Stalled(w, running, rows[i]) then rows[i]
                           else if rows[i].id in w.preventable
                           then rows[i].(stage := RepairWaiting, status := Queued, updatedAt := Some(w.now))
                           else rows[i].(stage := Observing, status := ObservingStatus, updatedAt := Some(w.now))
  {
    assert rows[..|rows|] == rows;
    RecoveredUpTo(w, rows, running, |rows|, i);
    StalledIff(w, running, rows[i]);
  }

  lemma RecoveryKeepsIds(w: World, rows: seq<Incident>, running: seq<RunRecord>)
    requires DistinctRows(rows)
    ensures SameIds(rows, RecoverAll(w, rows, running, rows))
  {
    assert rows[..|rows|] == rows;
    if rows != [] {
      RecoveredUpTo(w, rows, running, |rows|, 0);
    } else {
      assert RecoverAll(w, rows, running, rows) == rows;
    }
  }

  // ----- the orders in which work is taken -----

  /** The incident a claim takes is the greatest by exposure, then priority, avoidable loss and detection time. */
  lemma ClaimTakesTheMostUrgent(w: World, rows: seq<Incident>, kind: Kind, k: nat)
    requires k < |rows| && rows[k].status == Queued && rows[k].stage == Blind && rows[k].kind == kind
    ensures BestClaim(w, rows, kind).Some?
    ensures var best := rows[BestClaim(w, rows, kind).value];
            && (rows[k].position in w.exposed ==> best.position in w.exposed)
            && ((rows[k].position in w.exposed <==> best.position in w.exposed) ==>
                  && best.priority >= rows[k].priority
                  && (best.priority == rows[k].priority ==> best.avoidable >= rows[k].avoidable)
                  && (best.priority == rows[k].priority && best.avoidable == rows[k].avoidable ==>
                        best.detectedAt >= rows[k].detectedAt))
  {
    assert Claimable(rows[k], kind);
  }

  /** The repair taken has the highest priority, and of those the earliest detection. */
  lemma RepairTakesTheOldestOfTheFirst(rows: seq<Incident>, k: nat)
    requires k < |rows| && rows[k].status == Queued && rows[k].stage == RepairWaiting
    ensures FirstRepair(rows).Some?
    ensures var first := rows[FirstRepair(rows).value];
            && first.priority >= rows[k].priority
            && (first.priority == rows[k].priority ==> first.detectedAt <= rows[k].detectedAt)
  {
    assert InStage(rows[k], Queued, RepairWaiting);
  }

  /** Higher priority, or the same and changed no later; a row never changed counts as oldest. */
  predicate NoLater(a: Incident, b: Incident) {
    && a.priority >= b.priority
    && (a.priority == b.priority && a.updatedAt.Some? ==> b.updatedAt.Some? && a.updatedAt.value <= b.updatedAt.value)
  }

  predicate RetriesInOrder(rows: seq<Incident>) {
    forall i, j :: 0 <= i < j < |rows| ==> NoLater(rows[i], rows[j])
  }

  lemma RetriedBeforeMeans(a: Incident, b: Incident)
    ensures RetriedBefore(a, b) <==> NoLater(a, b)
    ensures NoLater(a, b) || NoLater(b, a)
  {
  }

  lemma NoLaterTransitive(a: Incident, b: Incident, c: Incident)
    requires NoLater(a, b) && NoLater(b, c)
    ensures NoLater(a, c)
  {
  }

  lemma {:induction false} InsertRetrySorts(rows: seq<Incident>, row: Incident)
    requires RetriesInOrder(rows)
    ensures RetriesInOrder(InsertRetry(rows, row))
  {
    if rows != [] {
      var n := |rows| - 1;
      RetriedBeforeMeans(rows[n], row);
      if RetriedBefore(rows[n], row) {
        forall i | 0 <= i < n ensures NoLater(rows[i], row) {
          NoLaterTransitive(rows[i], rows[n], row);
        }
      } else {
        InsertRetrySorts(rows[..n], row);
        InsertRetryHas(rows[..n], row);
        var rest := InsertRetry(rows[..n], row);
        forall i | 0 <= i < |rest| ensures NoLater(rest[i], rows[n]) {
          assert rest[i] in rest;
        }
      }
    }
  }

  lemma {:induction false} InsertRetryOnce(rows: seq<Incident>, row: Incident)
    ensures multiset(InsertRetry(rows, row)) == multiset(rows) + multiset{row}
  {
    if rows != [] && !RetriedBefore(rows[|rows| - 1], row) {
      InsertRetryOnce(rows[..|rows| - 1], row);
      assert rows == rows[..|rows| - 1] + [rows[|rows| - 1]];
    }
  }

  function PendingRows(rows: seq<Incident>): multiset<Incident> {
    if rows == [] then multiset{}
    else
      var n := |rows| - 1;
      PendingRows(rows[..n]) + (if rows[n].status == RetryPending then multiset{rows[n]} else multiset{})
  }

  /** The retry pass takes the retry-pending rows, each once, by falling priority and then oldest change. */
  lemma {:induction false} RetryOrderSorts(rows: seq<Incident>)
    ensures RetriesInOrder(RetryOrder(rows)) && multiset(RetryOrder(rows)) == PendingRows(rows)
  {
    if rows != [] {
      var n := |rows| - 1;
      RetryOrderSorts(rows[..n]);
      InsertRetrySorts(RetryOrder(rows[..n]), rows[n]);
      InsertRetryOnce(RetryOrder(rows[..n]), rows[n]);
    }
  }

  // ----- one claim, column by column -----

  /** What a claim leaves of the incident it takes, by how its evidence build and its spawn end. */
  function AfterClaimed(w: World, b: Board, row: Incident): Incident {
    var claimed := row.(status := Running, updatedAt := Some(w.now));
    match w.build(b.builds)
    case Unusable(suppressed) => if suppressed then claimed else claimed.(stage := Evidence)
    case ShaMissing => claimed.(stage := Evidence, status := Blocked)
    case BuildFailed => claimed.(status := RetryPending)
    case Built => if w.spawn(b.spawns).Spawned? then claimed else claimed.(status := RetryPending)
  }

  /**
   A claim leaves its incident running with a new diagnosis run, retry-pending when the build
   or the spawn failed, blocked when the loaded version is unknown, or running without a run
   while its evidence is unusable; every other row and every earlier record stays.
   */
  lemma ClaimLeaves(w: World, b: Board, kind: Kind, i: nat, j: nat)
    requires DistinctRows(b.incidents) && i < |b.incidents| && j < |b.incidents| && Claimable(b.incidents[i], kind)
    ensures var after := AfterClaim(w, b, kind, i);
            && |after.incidents| == |b.incidents|
            && after.incidents[j] == (if j == i then AfterClaimed(w, b, b.incidents[i]) else b.incidents[j])
            && after.builds == b.builds + 1
            && after.runs == (if w.build(b.builds).Built? && w.spawn(b.spawns).Spawned?
                              then [RunRecord(b.incidents[i].id, kind, Diagnosis, "", true, true, false, true,
                                              Some(w.now))] + b.runs
                              else b.runs)
  {
  }

  /** A row blocked for evidence is queued for a blind diagnosis again; no other row changes. */
  lemma ReopenedRow(rows: seq<Incident>, now: Time, i: nat)
    requires i < |rows|
    ensures |Unblocked(rows, now)| == |rows|
    ensures Unblocked(rows, now)[i]
            == if rows[i].status == Blocked && rows[i].stage == Evidence
               then rows[i].(status := Queued, stage := Blind, updatedAt := Some(now)) else rows[i]
  {
  }
}
