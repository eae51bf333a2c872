/**
 Held-side order-book quotes: which of them are executable witnesses, and when a
 position was exposed to them.
 */
module Quotes {
  import opened Common

  type EvidenceId = string

  /** One bid level as parsed from the depth payload; `Malformed` is a level that is not a mapping. */
  datatype Level = Malformed | Level(price: Option<real>, size: Option<real>)

  /** `Unreadable` covers a blank payload, broken JSON and a payload without a bid list. */
  datatype Depth = Unreadable | Bids(levels: seq<Level>)

  datatype Quote = Quote(
    evidence: EvidenceId,
    seenAt: Option<Time>,
    depth: Depth,
    scalarBid: Option<real>,
    scalarAsk: Option<real>,
    bookHash: string)

  /** What a quote witnesses about the held side. */
  datatype Reading =
    | Incomplete
    | Conflict(depthBid: Option<real>)
    | NoBidReading
    | Executable(bid: real)

  /** Exposure window of one position; `material` is at least one 0.01-share unit. */
  datatype Position = Position(
    id: string,
    start: Option<Time>,
    end: Option<Time>,
    open: bool,
    material: bool)

  predicate ValidLevel(l: Level) {
    l.Level? && l.price.Some? && l.size.Some? && 0.0 < l.price.value < 1.0 && l.size.value > 0.0
  }

  predicate AllValid(levels: seq<Level>) {
    forall l :: l in levels ==> ValidLevel(l)
  }

  predicate AuthoritativeDepth(d: Depth) {
    d.Bids? && AllValid(d.levels)
  }

  /** The largest price among valid levels, or none for an empty book. */
  function TopBid(levels: seq<Level>): (top: Option<real>)
    requires AllValid(levels)
    ensures top.None? <==> levels == []
    ensures top.Some? ==> exists l :: l in levels && l.price == top
    ensures top.Some? ==> forall l :: l in levels ==> l.price.value <= top.value
  {
    if levels == [] then None
    else
      var front := levels[..|levels| - 1];
      var last := levels[|levels| - 1];
      assert last in levels;
      var rest := TopBid(front);
      if rest.None? || last.price.value >= rest.value then last.price else rest
  }

  lemma TopBidNext(levels: seq<Level>, i: nat)
    requires i < |levels| && AllValid(levels[..i]) && ValidLevel(levels[i])
    ensures AllValid(levels[..i + 1])
    ensures var rest := TopBid(levels[..i]);
            TopBid(levels[..i + 1]) == if rest.None? || levels[i].price.value >= rest.value then
                levels[i].price else rest
  {
    assert levels[..i + 1][..i] == levels[..i];
    assert levels[..i + 1] == levels[..i] + [levels[i]];
  }

  /** Scan of the bid list that stops at the first level it cannot trust. */
  method DepthBestBid(d: Depth) returns (authoritative: bool, best: Option<real>)
    ensures authoritative <==> AuthoritativeDepth(d)
    ensures authoritative ==> best == TopBid(d.levels)
    ensures !authoritative ==> best.None?
  {
    if d.Unreadable? {
      return false, None;
    }
    best := None;
    for i := 0 to |d.levels|
      invariant AllValid(d.levels[..i])
      invariant best == TopBid(d.levels[..i])
    {
      var level := d.levels[i];
      if !ValidLevel(level) {
        return false, None;
      }
      TopBidNext(d.levels, i);
      if best.None? || level.price.value >= best.value {
        best := level.price;
      }
    }
    assert d.levels[..|d.levels|] == d.levels;
    return true, best;
  }

  /** Python's `math.isclose` with relative and absolute tolerance 1e-9. */
  predicate IsClose(a: real, b: real) {
    RealAbs(a - b) <= RealMax(RealMax(RealAbs(a), RealAbs(b)) / 1000000000.0, 1.0 / 1000000000.0)
  }

  /** The reading a depth verdict and a scalar bid give together. */
  function ReadingOf(authoritative: bool, depthBid: Option<real>, scalar: Option<real>): Reading {
    if !authoritative then Incomplete
    else if depthBid.None? then
      if scalar.None? || scalar.value <= 0.0 then NoBidReading else Conflict(None)
    else if scalar.Some? && (scalar.value <= 0.0 || !IsClose(scalar.value, depthBid.value)) then
      Conflict(depthBid)
    else Executable(depthBid.value)
  }

  function Reconcile(q: Quote): Reading {
    if AuthoritativeDepth(q.depth) then ReadingOf(true, TopBid(q.depth.levels), q.scalarBid)
    else Incomplete
  }

  /** The highest price of a book. */
  predicate IsTop(levels: seq<Level>, bid: real)
    requires AllValid(levels)
  {
    (exists l :: l in levels && l.price == Some(bid)) && forall l :: l in levels ==> l.price.value <= bid
  }

  /** The scalar bid is positive and off the book's top by at most a billionth, of one or of either of the two. */
  predicate Agrees(scalar: Option<real>, bid: real) {
    scalar.Some? ==>
      && 0.0 < scalar.value
      && var gap := 1000000000.0 * (if scalar.value < bid then bid - scalar.value else scalar.value - bid);
      gap <= 1.0 || gap <= scalar.value || gap <= bid
  }

  lemma ClosePositive(a: real, b: real)
    requires 0.0 < a && 0.0 < b
    ensures IsClose(a, b) <==> Agrees(Some(a), b)
  {
  }

  lemma TopBidIs(levels: seq<Level>, bid: real)
    requires AllValid(levels)
    ensures TopBid(levels) == Some(bid) <==> IsTop(levels, bid)
  {
    if levels != [] {
      var l :| l in levels && l.price == TopBid(levels);
    }
  }

  /**
   What each verdict means in terms of the book itself, for every price: executable is
   the top of a fully valid book that the scalar does not contradict, a conflict is one it
   does contradict, or an empty book beside a positive scalar; no-bid is an empty book
   without one, and a book that cannot be trusted is incomplete.
   */
  lemma ReconcileMeaning(q: Quote, bid: real)
    ensures Reconcile(q).Incomplete? <==> !AuthoritativeDepth(q.depth)
    ensures Reconcile(q).NoBidReading? <==>
            q.depth == Bids([]) && (q.scalarBid.Some? ==> q.scalarBid.value <= 0.0)
    ensures Reconcile(q) == Conflict(None) <==>
            q.depth == Bids([]) && q.scalarBid.Some? && q.scalarBid.value > 0.0
    ensures Reconcile(q) == Conflict(Some(bid)) <==>
            AuthoritativeDepth(q.depth) && IsTop(q.depth.levels, bid) && !Agrees(q.scalarBid, bid)
    ensures Reconcile(q) == Executable(bid) <==>
            AuthoritativeDepth(q.depth) && IsTop(q.depth.levels, bid) && Agrees(q.scalarBid, bid)
    ensures Reconcile(q) == Executable(bid) ==> 0.0 < bid < 1.0
  {
    if AuthoritativeDepth(q.depth) {
      TopBidIs(q.depth.levels, bid);
      if q.scalarBid.Some? && 0.0 < q.scalarBid.value && 0.0 < bid {
        ClosePositive(q.scalarBid.value, bid);
      }
      if q.depth.levels == [] {
        assert q.depth == Bids([]);
      }
    }
  }

  method ReconcileHeldQuote(q: Quote) returns (reading: Reading)
    ensures reading == Reconcile(q)
  {
    var authoritative, depthBid := DepthBestBid(q.depth);
    reading := ReadingOf(authoritative, depthBid, q.scalarBid);
  }

  /** True only while the position had economic exposure. */
  predicate WithinExposure(p: Position, at: Option<Time>) {
    && at.Some?
    && (p.start.Some? ==> p.start.value <= at.value)
    && (p.end.Some? ==> at.value < p.end.value)
    && (p.end.None? || p.start.Some?)
  }

  predicate IsBelow(q: Quote, floor: real) {
    Reconcile(q).Executable? && Reconcile(q).bid < floor
  }

  predicate IsNoBid(q: Quote) {
    Reconcile(q).NoBidReading?
  }

  /** A newer incomplete scalar quote confirms an older full book's loss. */
  predicate CorroboratesFloor(authoritative: Quote, current: Option<Quote>, floor: real) {
    && current.Some?
    && Reconcile(current.value).Incomplete?
    && current.value.seenAt.Some?
    && authoritative.seenAt.Some?
    && authoritative.seenAt.value <= current.value.seenAt.value
    && (match Reconcile(authoritative)
        case NoBidReading =>
          || (current.value.scalarBid.Some? && current.value.scalarBid.value <= 0.0)
          || (&& current.value.scalarBid.None?
              && current.value.scalarAsk.Some?
              && 0.0 < current.value.scalarAsk.value <= 1.0
              && current.value.bookHash != "")
        case Executable(bid) =>
          bid < floor && current.value.scalarBid.Some? && current.value.scalarBid.value < floor
        case _ => false)
  }

  /** What the trigger lane sees of one position's market. */
  datatype Latest = Absent | Single(quote: Quote) | Paired(full: Quote, current: Option<Quote>)
}
