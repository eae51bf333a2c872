/**
 Choosing the quotes of an evidence snapshot: required facts first, then optional
 clock anchors, then the price path thinned to its top-of-book change points, all
 within one byte budget.
 */
module Selection {
  import opened Common

  type EvidenceId = string

  datatype Top = Top(bid: Option<real>, ask: Option<real>)

  /** One stored quote; `estimate` is the size guessed from its metadata, `payload` its size once read. */
  datatype Row = Row(
    rowid: int,
    evidence: EvidenceId,
    direction: string,
    at: Time,
    top: Top,
    estimate: nat,
    payload: nat)

  /** The table's order: quote time, then row id. */
  predicate After(a: Row, b: Row) {
    a.at > b.at || (a.at == b.at && a.rowid > b.rowid)
  }

  predicate Ordered(rows: seq<Row>) {
    forall i, j :: 0 <= i < j < |rows| ==> After(rows[j], rows[i]) && rows[i].rowid != rows[j].rowid
  }

  predicate DistinctIds(rows: seq<Row>) {
    forall i, j :: 0 <= i < j < |rows| ==> rows[i].rowid != rows[j].rowid
  }

  predicate Holds(rows: seq<Row>, rowid: int) {
    exists i :: 0 <= i < |rows| && rows[i].rowid == rowid
  }

  function Payload(rows: seq<Row>): nat {
    if rows == [] then 0 else Payload(rows[..|rows| - 1]) + rows[|rows| - 1].payload
  }

  // ----- the queries -----

  /** Rows with a quote time in [start, end], in table order. */
  function Window(table: seq<Row>, start: Time, end: Time): (w: seq<Row>)
    requires Ordered(table)
    ensures Ordered(w)
    ensures forall row :: row in w <==> row in table && start <= row.at <= end
  {
    if table == [] then []
    else
      var n := |table| - 1;
      var rest := Window(table[..n], start, end);
      assert table == table[..n] + [table[n]];
      if start <= table[n].at <= end then rest + [table[n]] else rest
  }

  /** The latest row strictly before an instant. */
  function LatestBefore(rows: seq<Row>, at: Time): (found: Option<Row>)
    requires Ordered(rows)
    ensures found.Some? ==> found.value in rows && found.value.at < at
    ensures forall row :: row in rows && row.at < at ==> found.Some? && !After(row, found.value)
  {
    if rows == [] then None
    else
      var n := |rows| - 1;
      assert rows == rows[..n] + [rows[n]];
      if rows[n].at < at then Some(rows[n]) else LatestBefore(rows[..n], at)
  }

  /** The earliest row strictly after an instant. */
  function EarliestAfter(rows: seq<Row>, at: Time): (found: Option<Row>)
    requires Ordered(rows)
    ensures found.Some? ==> found.value in rows && found.value.at > at
    ensures forall row :: row in rows && row.at > at ==> found.Some? && !After(found.value, row)
  {
    if rows == [] then None
    else if rows[0].at > at then Some(rows[0])
    else EarliestAfter(rows[1..], at)
  }

  function WithEvidence(rows: seq<Row>, id: EvidenceId): (found: Option<Row>)
    ensures found.Some? ==> found.value in rows && found.value.evidence == id
    ensures forall row :: row in rows && row.evidence == id ==> found.Some?
  {
    if rows == [] then None
    else if rows[0].evidence == id then Some(rows[0])
    else WithEvidence(rows[1..], id)
  }

  // ----- the price path -----

  /** The top of book last seen in a direction. */
  function LastTop(path: seq<Row>, direction: string): Option<Top> {
    if path == [] then None
    else if path[|path| - 1].direction == direction then Some(path[|path| - 1].top)
    else LastTop(path[..|path| - 1], direction)
  }

  predicate Repeats(path: seq<Row>, n: nat)
    requires n < |path|
  {
    LastTop(path[..n], path[n].direction) == Some(path[n].top)
  }

  /** What the path adds to rows already kept: its change points that are not among them. */
  function ChangePoints(path: seq<Row>, kept: seq<Row>): seq<Row> {
    if path == [] then []
    else
      var n := |path| - 1;
      ChangePoints(path[..n], kept) + (if Holds(kept, path[n].rowid) || Repeats(path, n) then [] else [path[n]])
  }

  /** Reading the curve back: the latest row of a direction not after a given row. */
  function Recover(rows: seq<Row>, direction: string, upTo: Row): (found: Option<Row>)
    ensures found.Some? ==> found.value in rows && found.value.direction == direction && !After(found.value, upTo)
    ensures forall row :: row in rows && row.direction == direction && !After(row, upTo) ==>
              found.Some? && !After(row, found.value)
  {
    if rows == [] then None
    else
      var n := |rows| - 1;
      var best := Recover(rows[..n], direction, upTo);
      assert rows == rows[..n] + [rows[n]];
      if rows[n].direction != direction || After(rows[n], upTo) then best
      else if best.Some? && After(best.value, rows[n]) then best
      else Some(rows[n])
  }

  /** Rows kept so far were read from the table, each once. */
  ghost predicate FromTable(kept: seq<Row>, table: seq<Row>) {
    Ordered(table) && DistinctIds(kept) && forall row :: row in kept ==> row in table
  }

  lemma SameIdSameRow(table: seq<Row>, a: Row, b: Row)
    requires Ordered(table) && a in table && b in table && a.rowid == b.rowid
    ensures a == b
  {
  }

  lemma {:induction false} ChangePointAdded(path: seq<Row>, kept: seq<Row>, j: nat)
    requires j < |path| && !Holds(kept, path[j].rowid) && !Repeats(path, j)
    ensures path[j] in ChangePoints(path, kept)
  {
    var n := |path| - 1;
    if j < n {
      assert path[..n][..j] == path[..j];
      ChangePointAdded(path[..n], kept, j);
    }
  }

  lemma {:induction false} AddedFromPath(path: seq<Row>, kept: seq<Row>)
    ensures forall row :: row in ChangePoints(path, kept) ==> row in path && !Holds(kept, row.rowid)
  {
    if path != [] {
      AddedFromPath(path[..|path| - 1], kept);
    }
  }

  /** Kept rows and added change points together hold no row twice. */
  lemma {:induction false} AddedOnce(path: seq<Row>, kept: seq<Row>)
    requires Ordered(path) && DistinctIds(kept)
    ensures DistinctIds(kept + ChangePoints(path, kept))
  {
    if path == [] {
      assert kept + ChangePoints(path, kept) == kept;
    } else {
      var n := |path| - 1;
      AddedOnce(path[..n], kept);
      AddedFromPath(path[..n], kept);
      var before := kept + ChangePoints(path[..n], kept);
      assert kept + ChangePoints(path, kept)
             == before + (if Holds(kept, path[n].rowid) || Repeats(path, n) then [] else [path[n]]);
      forall i | 0 <= i < |before| && !Holds(kept, path[n].rowid) ensures before[i].rowid != path[n].rowid {
        if i >= |kept| {
          assert before[i] in ChangePoints(path[..n], kept);
        }
      }
    }
  }

  // ----- the path can be read back -----

  lemma {:induction false} RecoverSame(rows: seq<Row>, direction: string, a: Row, b: Row)
    requires forall row :: row in rows && row.direction == direction ==> (After(row, a) <==> After(row, b))
    ensures Recover(rows, direction, a) == Recover(rows, direction, b)
  {
    if rows != [] {
      var n := |rows| - 1;
      assert rows[n] in rows && forall row :: row in rows[..n] ==> row in rows;
      RecoverSame(rows[..n], direction, a, b);
    }
  }

  lemma RecoverItself(rows: seq<Row>, row: Row)
    requires DistinctIds(rows) && row in rows
    ensures Recover(rows, row.direction, row) == Some(row)
  {
    var found := Recover(rows, row.direction, row);
    assert !After(row, found.value) && !After(found.value, row);
  }

  /** A top seen before comes from the nearest earlier row of that direction. */
  lemma {:induction false} LastTopIs(path: seq<Row>, direction: string) returns (p: nat)
    requires LastTop(path, direction).Some?
    ensures p < |path| && path[p].direction == direction && LastTop(path, direction) == Some(path[p].top)
    ensures forall i :: p < i < |path| ==> path[i].direction != direction
  {
    var n := |path| - 1;
    if path[n].direction == direction {
      p := n;
    } else {
      p := LastTopIs(path[..n], direction);
    }
  }

  lemma {:induction false} LastTopOf(path: seq<Row>, direction: string, p: nat)
    requires p < |path| && path[p].direction == direction
    requires forall i :: p < i < |path| ==> path[i].direction != direction
    ensures LastTop(path, direction) == Some(path[p].top)
  {
    var n := |path| - 1;
    if p < n {
      LastTopOf(path[..n], direction, p);
    }
  }

  /** `all` holds every change point of the path and nothing else of its time span. */
  ghost predicate Thins(all: seq<Row>, path: seq<Row>, start: Time, end: Time) {
    && Ordered(path) && DistinctIds(all)
    && (forall row :: row in path ==> start <= row.at <= end)
    && (forall row :: row in all && start <= row.at <= end ==> row in path)
    && (forall j :: 0 <= j < |path| ==> path[j] in all || Repeats(path, j))
  }

  function Retained(table: seq<Row>, start: Time, end: Time, kept: seq<Row>): seq<Row>
    requires Ordered(table)
  {
    kept + ChangePoints(Window(table, start, end), kept)
  }

  lemma RetainedThins(table: seq<Row>, start: Time, end: Time, kept: seq<Row>)
    requires FromTable(kept, table)
    ensures Thins(Retained(table, start, end, kept), Window(table, start, end), start, end)
  {
    var w := Window(table, start, end);
    AddedOnce(w, kept);
    AddedFromPath(w, kept);
    forall j | 0 <= j < |w| ensures w[j] in Retained(table, start, end, kept) || Repeats(w, j) {
      if Holds(kept, w[j].rowid) {
        var i :| 0 <= i < |kept| && kept[i].rowid == w[j].rowid;
        assert w[j] in w && kept[i] in kept;
        SameIdSameRow(table, kept[i], w[j]);
      } else if !Repeats(w, j) {
        ChangePointAdded(w, kept, j);
      }
    }
  }

  lemma IndexBetween(path: seq<Row>, p: nat, j: nat, row: Row)
    requires Ordered(path) && p < j < |path| && row in path
    requires After(row, path[p]) && !After(row, path[j])
    ensures exists i :: p < i <= j && path[i] == row
  {
    var i :| 0 <= i < |path| && path[i] == row;
  }

  /** Between a row and the last one of its direction before it nothing of that direction is retained. */
  lemma NothingBetween(all: seq<Row>, path: seq<Row>, start: Time, end: Time, p: nat, j: nat, row: Row)
    requires Thins(all, path, start, end) && p < j < |path|
    requires forall i :: p < i < j ==> path[i].direction != path[j].direction
    requires path[j] !in all && row in all && row.direction == path[j].direction
    ensures After(row, path[p]) <==> After(row, path[j])
  {
    assert After(path[j], path[p]) && path[p] in path && path[j] in path;
    if After(row, path[p]) && !After(row, path[j]) {
      IndexBetween(path, p, j, row);
    }
  }

  lemma OmittedReadsAlike(all: seq<Row>, path: seq<Row>, start: Time, end: Time, p: nat, j: nat)
    requires Thins(all, path, start, end) && p < j < |path| && path[j] !in all
    requires forall i :: p < i < j ==> path[i].direction != path[j].direction
    ensures Recover(all, path[j].direction, path[p]) == Recover(all, path[j].direction, path[j])
  {
    forall row | row in all && row.direction == path[j].direction
      ensures After(row, path[p]) <==> After(row, path[j])
    {
      NothingBetween(all, path, start, end, p, j, row);
    }
    RecoverSame(all, path[j].direction, path[p], path[j]);
  }

  lemma RepeatedFrom(path: seq<Row>, j: nat) returns (p: nat)
    requires j < |path| && Repeats(path, j)
    ensures p < j && path[p].direction == path[j].direction && path[p].top == path[j].top
    ensures forall i :: p < i < j ==> path[i].direction != path[j].direction
  {
    p := LastTopIs(path[..j], path[j].direction);
  }

  lemma {:induction false} ReadBack(all: seq<Row>, path: seq<Row>, start: Time, end: Time, j: nat) returns (found: Row)
    requires Thins(all, path, start, end) && j < |path|
    ensures Recover(all, path[j].direction, path[j]) == Some(found)
    ensures found in path && found.top == path[j].top
    decreases j
  {
    if path[j] in all {
      RecoverItself(all, path[j]);
      found := path[j];
    } else {
      var p := RepeatedFrom(path, j);
      found := ReadBack(all, path, start, end, p);
      OmittedReadsAlike(all, path, start, end, p, j);
    }
  }

  /** Every row of the window, kept or not, has the top of the latest retained row of its direction. */
  ghost predicate Lossless(all: seq<Row>, path: seq<Row>) {
    forall row :: row in path ==>
      Recover(all, row.direction, row).Some? && Recover(all, row.direction, row).value.top == row.top
  }

  lemma ChangePointsLoseNothing(table: seq<Row>, start: Time, end: Time, kept: seq<Row>)
    requires FromTable(kept, table)
    ensures Lossless(Retained(table, start, end, kept), Window(table, start, end))
  {
    var all, w := Retained(table, start, end, kept), Window(table, start, end);
    RetainedThins(table, start, end, kept);
    forall row | row in w
      ensures Recover(all, row.direction, row).Some? && Recover(all, row.direction, row).value.top == row.top
    {
      var j :| 0 <= j < |w| && w[j] == row;
      var found := ReadBack(all, w, start, end, j);
    }
  }

  // ----- without row ids -----

  /** The returned rows carry no row id: all a reader has is the latest quote time of the direction. */
  ghost predicate ReadsByTime(rows: seq<Row>, row: Row) {
    forall k :: k in rows && k.direction == row.direction && k.at <= row.at
                && (forall m :: m in rows && m.direction == row.direction && m.at <= row.at ==> m.at <= k.at)
                ==> k.top == row.top
  }

  /** No two quotes of one direction carry one time and different tops. */
  predicate Untied(path: seq<Row>) {
    forall i, j :: 0 <= i < j < |path| && path[i].direction == path[j].direction && path[i].at == path[j].at ==>
      path[i].top == path[j].top
  }

  /** Two tied rows of different tops have such a pair with nothing of the direction in between. */
  lemma {:induction false} AdjacentTie(path: seq<Row>, i: nat, j: nat) returns (p: nat, q: nat)
    requires Ordered(path) && i < j < |path|
    requires path[i].direction == path[j].direction && path[i].at == path[j].at && path[i].top != path[j].top
    ensures p < q < |path| && path[p].direction == path[q].direction && path[p].at == path[q].at
    ensures path[p].top != path[q].top
    ensures forall k :: p < k < q ==> path[k].direction != path[p].direction
    decreases j - i
  {
    if k :| i < k < j && path[k].direction == path[i].direction {
      assert After(path[k], path[i]) && After(path[j], path[k]);
      if path[k].top != path[i].top {
        p, q := AdjacentTie(path, i, k);
      } else {
        p, q := AdjacentTie(path, k, j);
      }
    } else {
      p, q := i, j;
    }
  }

  lemma TieMisleads(all: seq<Row>, path: seq<Row>, start: Time, end: Time, i: nat, j: nat)
    requires Thins(all, path, start, end) && i < j < |path|
    requires path[i].direction == path[j].direction && path[i].at == path[j].at && path[i].top != path[j].top
    ensures exists row :: row in path && !ReadsByTime(all, row)
  {
    var p, q := AdjacentTie(path, i, j);
    LastTopOf(path[..q], path[q].direction, p);
    assert path[p] in path && !ReadsByTime(all, path[p]);
  }

  lemma UntiedTops(path: seq<Row>, a: Row, b: Row)
    requires Untied(path) && a in path && b in path && a.direction == b.direction && a.at == b.at
    ensures a.top == b.top
  {
    var i :| 0 <= i < |path| && path[i] == a;
    var j :| 0 <= j < |path| && path[j] == b;
  }

  lemma UntiedReads(all: seq<Row>, path: seq<Row>, start: Time, end: Time, j: nat)
    requires Thins(all, path, start, end) && j < |path| && Untied(path)
    ensures ReadsByTime(all, path[j])
  {
    var row := path[j];
    var found := ReadBack(all, path, start, end, j);
    assert row in path;
    forall k | k in all && k.direction == row.direction && k.at <= row.at
               && (forall m :: m in all && m.direction == row.direction && m.at <= row.at ==> m.at <= k.at)
      ensures k.top == row.top
    {
      assert found.at <= k.at;
      if After(k, row) {
        UntiedTops(path, k, row);
      } else {
        UntiedTops(path, k, found);
      }
    }
  }

  /** A reader with quote times alone recovers every row's top exactly when no direction has such a tie. */
  lemma TimesAloneSufficeIff(table: seq<Row>, start: Time, end: Time, kept: seq<Row>)
    requires FromTable(kept, table)
    ensures (forall row :: row in Window(table, start, end) ==> ReadsByTime(Retained(table, start, end, kept), row))
            <==> Untied(Window(table, start, end))
  {
    var all, w := Retained(table, start, end, kept), Window(table, start, end);
    RetainedThins(table, start, end, kept);
    if Untied(w) {
      forall row | row in w ensures ReadsByTime(all, row) {
        var j :| 0 <= j < |w| && w[j] == row;
        UntiedReads(all, w, start, end, j);
      }
    } else {
      var i, j :| 0 <= i < j < |w| && w[i].direction == w[j].direction && w[i].at == w[j].at && w[i].top != w[j].top;
      TieMisleads(all, w, start, end, i, j);
    }
  }
}
