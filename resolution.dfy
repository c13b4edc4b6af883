/**
 * Per-tick settlement of bets in the refined game. Settled bets are listed
 * first, then the pending ones from left to right; walking that order, far
 * stale bets are dropped and the first pending bet that the price line has
 * reached is settled: won while the line crosses its column with the price
 * inside the bet's row, lost once the line has passed its right edge. At
 * most one bet settles per tick.
 */
module Resolution {
  import opened Numeric
  import opened Ledger

  /** How many columns behind the price line a pending bet may fall before it is dropped. */
  const StaleColumns: real := 10.0

  // ---------------------------------------------------------------------
  // Processing order
  // ---------------------------------------------------------------------

  /** The settled bets, in their original order. */
  function Settled(bs: seq<Block>): (r: seq<Block>)
    ensures forall i :: 0 <= i < |r| ==> !IsPending(r[i])
    ensures |r| <= |bs|
  {
    if bs == [] then []
    else (if IsPending(bs[0]) then [] else [bs[0]]) + Settled(bs[1..])
  }

  /** The pending bets, in their original order. */
  function PendingOf(bs: seq<Block>): (r: seq<Block>)
    ensures forall i :: 0 <= i < |r| ==> IsPending(r[i])
    ensures |r| <= |bs|
  {
    if bs == [] then []
    else (if IsPending(bs[0]) then [bs[0]] else []) + PendingOf(bs[1..])
  }

  lemma {:induction false} SplitIsPermutation(bs: seq<Block>)
    ensures multiset(Settled(bs)) + multiset(PendingOf(bs)) == multiset(bs)
  {
    if bs != [] {
      var rest := bs[1..];
      SplitIsPermutation(rest);
      assert bs == [bs[0]] + rest;
      var head := multiset{bs[0]};
      if IsPending(bs[0]) {
        assert Settled(bs) == Settled(rest);
        assert multiset(PendingOf(bs)) == head + multiset(PendingOf(rest));
      } else {
        assert PendingOf(bs) == PendingOf(rest);
        assert multiset(Settled(bs)) == head + multiset(Settled(rest));
      }
    }
  }

  ghost predicate SortedByX(s: seq<Block>)
  {
    forall i, j :: 0 <= i < j < |s| ==> s[i].gridX <= s[j].gridX
  }

  /** `b` placed before the first bet of `s` whose column is not left of it. */
  function InsertByX(b: Block, s: seq<Block>): (r: seq<Block>)
    ensures multiset(r) == multiset(s) + multiset{b}
    ensures SortedByX(s) ==> SortedByX(r)
  {
    if s == [] then [b]
    else if b.gridX <= s[0].gridX then [b] + s
    else
      var rest := InsertByX(b, s[1..]);
      assert s == [s[0]] + s[1..];
      InsertAfterHead(b, s, rest);
      [s[0]] + rest
  }

  lemma InsertAfterHead(b: Block, s: seq<Block>, rest: seq<Block>)
    requires s != [] && s[0].gridX < b.gridX
    requires multiset(rest) == multiset(s[1..]) + multiset{b}
    requires SortedByX(s) ==> SortedByX(rest)
    ensures SortedByX(s) ==> SortedByX([s[0]] + rest)
  {
    if SortedByX(s) {
      var r := [s[0]] + rest;
      forall i, j | 0 <= i < j < |r| ensures r[i].gridX <= r[j].gridX {
        if i == 0 {
          assert r[j] == rest[j - 1];
          assert rest[j - 1] in multiset(rest);
          if r[j] != b {
            assert r[j] in multiset(s[1..]);
            var t :| 0 <= t < |s[1..]| && s[1..][t] == r[j];
            assert s[t + 1] == r[j];
          }
        } else {
          assert r[i] == rest[i - 1] && r[j] == rest[j - 1];
        }
      }
    }
  }

  /** Stable insertion sort by column: bets in the same column keep their order. */
  function SortByX(s: seq<Block>): (r: seq<Block>)
    ensures multiset(r) == multiset(s)
    ensures SortedByX(r)
  {
    if s == [] then [] else
      assert s == [s[0]] + s[1..];
      InsertByX(s[0], SortByX(s[1..]))
  }

  /** The bets of `s` in column `x`, in their order in `s`. */
  function ColumnOf(s: seq<Block>, x: int): (r: seq<Block>)
    ensures |r| <= |s|
  {
    if s == [] then []
    else (if s[0].gridX == x then [s[0]] else []) + ColumnOf(s[1..], x)
  }

  lemma ColumnOfCons(b: Block, s: seq<Block>, x: int)
    ensures ColumnOf([b] + s, x) == (if b.gridX == x then [b] else []) + ColumnOf(s, x)
  {
    assert ([b] + s)[1..] == s;
  }

  /** Inserting a bet puts it first among the bets of its own column and leaves every other column alone. */
  lemma {:induction false} InsertByXColumn(b: Block, s: seq<Block>, x: int)
    ensures ColumnOf(InsertByX(b, s), x) == (if b.gridX == x then [b] else []) + ColumnOf(s, x)
  {
    if s == [] || b.gridX <= s[0].gridX {
      ColumnOfCons(b, s, x);
    } else {
      var rest := InsertByX(b, s[1..]);
      InsertByXColumn(b, s[1..], x);
      ColumnOfCons(s[0], rest, x);
      ColumnOfCons(s[0], s[1..], x);
      assert [s[0]] + s[1..] == s;
    }
  }

  /** The sort is stable: in every column the bets keep the order they had. */
  lemma {:induction false} SortByXIsStable(s: seq<Block>, x: int)
    ensures ColumnOf(SortByX(s), x) == ColumnOf(s, x)
  {
    if s != [] {
      SortByXIsStable(s[1..], x);
      InsertByXColumn(s[0], SortByX(s[1..]), x);
    }
  }

  /**
   * The order in which a tick visits the bets: the comparator puts settled
   * bets before pending ones, leaves settled bets in place relative to each
   * other, and sorts pending bets by column.
   */
  function Order(bs: seq<Block>): seq<Block>
  {
    Settled(bs) + SortByX(PendingOf(bs))
  }

  /** The visiting order holds exactly the same bets. */
  lemma OrderIsPermutation(bs: seq<Block>)
    ensures multiset(Order(bs)) == multiset(bs)
  {
    SplitIsPermutation(bs);
  }

  /** The settled bets come first, in their original order; everything after them is pending. */
  lemma OrderSettledFirst(bs: seq<Block>)
    ensures |Settled(bs)| <= |Order(bs)| && Order(bs)[..|Settled(bs)|] == Settled(bs)
    ensures forall i :: |Settled(bs)| <= i < |Order(bs)| ==> IsPending(Order(bs)[i])
  {
    var settled, pending := Settled(bs), PendingOf(bs);
    var sorted := SortByX(pending);
    var s, m := settled + sorted, |settled|;
    assert s[..m] == settled;
    forall i | m <= i < |s| ensures IsPending(s[i]) {
      var p := sorted[i - m];
      assert p in multiset(pending);
    }
  }

  /** The pending bets are visited from left to right. */
  lemma OrderPendingByColumn(bs: seq<Block>)
    ensures forall i, j :: |Settled(bs)| <= i <= j < |Order(bs)| ==> Order(bs)[i].gridX <= Order(bs)[j].gridX
  {
    var settled, pending := Settled(bs), PendingOf(bs);
    var sorted := SortByX(pending);
    var s, m := settled + sorted, |settled|;
    forall i, j | m <= i <= j < |s| ensures s[i].gridX <= s[j].gridX {
      assert s[i] == sorted[i - m] && s[j] == sorted[j - m];
    }
  }

  // ---------------------------------------------------------------------
  // Settlement conditions, for price-line column `line` and price `y`
  // ---------------------------------------------------------------------

  /** A pending bet more than ten columns behind the price line. */
  predicate Stale(b: Block, line: real)
  {
    IsPending(b) && (b.gridX as real) < line - StaleColumns
  }

  /** The price line is inside the bet's column [gridX, gridX + 1). */
  predicate InColumn(b: Block, line: real)
  {
    b.gridX as real <= line < b.gridX as real + 1.0
  }

  /** The price lies within half a row of the bet's row centre. */
  predicate NearPrice(b: Block, y: real)
  {
    Abs(y - (b.gridY as real + 0.5)) <= 0.5
  }

  predicate WinsAt(b: Block, line: real, y: real)
  {
    InColumn(b, line) && NearPrice(b, y)
  }

  /** The price line has passed the bet's right edge. */
  predicate Passed(b: Block, line: real)
  {
    line >= b.gridX as real + 1.0
  }

  /** A pending, non-stale bet that settles if nothing settled before it this tick. */
  predicate Due(b: Block, line: real, y: real)
  {
    IsPending(b) && !Stale(b, line) && (WinsAt(b, line, y) || Passed(b, line))
  }

  /** What a tick reports: nothing, or the one bet it settled and how. */
  datatype Outcome = Quiet | Win(block: Block) | Loss(block: Block)

  // ---------------------------------------------------------------------
  // The walk, as the loop performs it
  // ---------------------------------------------------------------------

  /** One loop iteration: the kept bets and the outcome so far, extended by bet `b`. */
  function Step(acc: (seq<Block>, Outcome), b: Block, line: real, y: real, now: real): (seq<Block>, Outcome)
  {
    if !IsPending(b) then (acc.0 + [b], acc.1)
    else if (b.gridX as real) < line - StaleColumns then acc
    else if acc.1 != Quiet then (acc.0 + [b], acc.1)
    else if line >= b.gridX as real && line < b.gridX as real + 1.0 then
      if Abs(y - (b.gridY as real + 0.5)) <= 0.5 then (acc.0 + [b.(status := Won)], Win(b))
      else (acc.0 + [b], acc.1)
    else if line >= b.gridX as real + 1.0 then (acc.0 + [b.(status := Lost(now))], Loss(b))
    else (acc.0 + [b], acc.1)
  }

  /** The walk over a whole sequence, built up from the back like the loop. */
  function Scan(s: seq<Block>, line: real, y: real, now: real): (seq<Block>, Outcome)
  {
    if s == [] then ([], Quiet)
    else Step(Scan(s[..|s| - 1], line, y, now), s[|s| - 1], line, y, now)
  }

  /** The bets after a tick, and the tick's outcome. */
  function Resolve(bs: seq<Block>, line: real, y: real, now: real): (seq<Block>, Outcome)
  {
    Scan(Order(bs), line, y, now)
  }

  /** The settlement of one animation frame: order the bets, then walk them. */
  method ResolveBlocks(blocks: seq<Block>, line: real, y: real, now: real)
    returns (result: seq<Block>, outcome: Outcome)
    ensures (result, outcome) == Resolve(blocks, line, y, now)
  {
    var sorted := Order(blocks);
    result, outcome := WalkBlocks(sorted, line, y, now);
  }

  /** The settlement loop over the bets in visiting order. */
  method WalkBlocks(sorted: seq<Block>, line: real, y: real, now: real)
    returns (result: seq<Block>, outcome: Outcome)
    ensures (result, outcome) == Scan(sorted, line, y, now)
  {
    result, outcome := [], Quiet;
    var resolvedOne := false;
    for i := 0 to |sorted|
      invariant (result, outcome) == Scan(sorted[..i], line, y, now)
      invariant resolvedOne <==> outcome != Quiet
    {
      var block := sorted[i];
      assert sorted[..i + 1][..i] == sorted[..i];
      assert Scan(sorted[..i + 1], line, y, now) == Step((result, outcome), block, line, y, now);
      if block.status != Pending {
        result := result + [block];
        continue;
      }
      if (block.gridX as real) < line - StaleColumns {
        continue;
      }
      if resolvedOne {
        result := result + [block];
        continue;
      }
      var blockLeft, blockRight := block.gridX as real, block.gridX as real + 1.0;
      if line >= blockLeft && line < blockRight {
        var distance := Abs(y - (block.gridY as real + 0.5));
        if distance <= 0.5 {
          result := result + [block.(status := Won)];
          outcome := Win(block);
          resolvedOne := true;
          continue;
        }
        result := result + [block];
        continue;
      }
      if line >= blockRight {
        result := result + [block.(status := Lost(now))];
        outcome := Loss(block);
        resolvedOne := true;
        continue;
      }
      result := result + [block];
    }
    assert sorted[..|sorted|] == sorted;
  }

  // ---------------------------------------------------------------------
  // An independent description of the walk
  // ---------------------------------------------------------------------

  /** Index of the first due bet, or |s| when none is due. */
  function FirstDue(s: seq<Block>, line: real, y: real): (k: nat)
    ensures k <= |s|
    ensures forall j :: 0 <= j < k ==> !Due(s[j], line, y)
    ensures k < |s| ==> Due(s[k], line, y)
  {
    if s == [] then 0
    else
      var init := s[..|s| - 1];
      var k := FirstDue(init, line, y);
      assert forall j :: 0 <= j < |init| ==> s[j] == init[j];
      if k < |init| then k
      else if Due(s[|s| - 1], line, y) then |s| - 1
      else |s|
  }

  /** How a due bet settles: won if the line is in its column at its price, lost otherwise. */
  function Settle(b: Block, line: real, y: real, now: real): (r: Block)
    ensures !IsPending(r)
    ensures r.(status := b.status) == b
  {
    if WinsAt(b, line, y) then b.(status := Won) else b.(status := Lost(now))
  }

  function OutcomeAt(s: seq<Block>, k: nat, line: real, y: real): Outcome
  {
    if k < |s| then (if WinsAt(s[k], line, y) then Win(s[k]) else Loss(s[k])) else Quiet
  }

  /** `s` with the bet at index k (if any) settled. */
  function SettleAt(s: seq<Block>, k: nat, line: real, y: real, now: real): (r: seq<Block>)
    ensures |r| == |s|
  {
    if k < |s| then s[k := Settle(s[k], line, y, now)] else s
  }

  /** `s` without its stale bets, order kept. */
  function DropStale(s: seq<Block>, line: real): (r: seq<Block>)
    ensures |r| <= |s|
  {
    if s == [] then []
    else
      var last := s[|s| - 1];
      assert s == s[..|s| - 1] + [last];
      DropStale(s[..|s| - 1], line) + (if Stale(last, line) then [] else [last])
  }

  /** A bet survives exactly when it was there and is not stale. */
  lemma {:induction false} DropStaleMember(s: seq<Block>, line: real, b: Block)
    ensures b in DropStale(s, line) <==> b in s && !Stale(b, line)
  {
    if s != [] {
      var init, last := s[..|s| - 1], s[|s| - 1];
      DropStaleMember(init, line, b);
      assert s == init + [last];
    }
  }

  lemma DropStaleAppend(s: seq<Block>, b: Block, line: real)
    ensures DropStale(s + [b], line) == DropStale(s, line) + (if Stale(b, line) then [] else [b])
  {
    assert (s + [b])[..|s|] == s;
  }

  /**
   * The walk settles the first due bet in visiting order (and nothing else),
   * drops the stale bets and keeps everything else in order.
   */
  lemma {:induction false} ScanIsSettleFirstDue(s: seq<Block>, line: real, y: real, now: real)
    ensures var k := FirstDue(s, line, y);
            Scan(s, line, y, now) == (DropStale(SettleAt(s, k, line, y, now), line), OutcomeAt(s, k, line, y))
  {
    if s != [] {
      var init, b := s[..|s| - 1], s[|s| - 1];
      assert s == init + [b];
      ScanIsSettleFirstDue(init, line, y, now);
      var k := FirstDue(init, line, y);
      if k < |init| {
        ScanAfterSettlement(init, b, k, line, y, now);
      } else if Due(b, line, y) {
        ScanSettlesLast(init, b, line, y, now);
      } else {
        ScanKeepsLast(init, b, line, y, now);
      }
    }
  }

  /** Once a bet has settled, later bets are kept unless stale. */
  lemma ScanAfterSettlement(init: seq<Block>, b: Block, k: nat, line: real, y: real, now: real)
    requires k == FirstDue(init, line, y) && k < |init|
    requires Scan(init, line, y, now) == (DropStale(SettleAt(init, k, line, y, now), line), OutcomeAt(init, k, line, y))
    ensures FirstDue(init + [b], line, y) == k
    ensures Scan(init + [b], line, y, now)
            == (DropStale(SettleAt(init + [b], k, line, y, now), line), OutcomeAt(init + [b], k, line, y))
  {
    var s := init + [b];
    assert s[..|s| - 1] == init;
    assert Scan(s, line, y, now) == Step(Scan(init, line, y, now), b, line, y, now);
    assert s[k] == init[k];
    assert SettleAt(s, k, line, y, now) == SettleAt(init, k, line, y, now) + [b];
    var acc := Scan(init, line, y, now);
    var before := SettleAt(init, k, line, y, now);
    assert acc.1 != Quiet;
    DropStaleAppend(before, b, line);
    if !IsPending(b) {
      assert Step(acc, b, line, y, now) == (acc.0 + [b], acc.1);
      assert DropStale(before + [b], line) == DropStale(before, line) + [b];
    } else if Stale(b, line) {
      assert Step(acc, b, line, y, now) == acc;
      assert DropStale(before + [b], line) == DropStale(before, line);
    } else {
      assert Step(acc, b, line, y, now) == (acc.0 + [b], acc.1);
      assert DropStale(before + [b], line) == DropStale(before, line) + [b];
    }
  }

  /** With nothing settled yet, a due bet settles. */
  lemma ScanSettlesLast(init: seq<Block>, b: Block, line: real, y: real, now: real)
    requires FirstDue(init, line, y) == |init| && Due(b, line, y)
    requires Scan(init, line, y, now) == (DropStale(init, line), Quiet)
    ensures FirstDue(init + [b], line, y) == |init|
    ensures Scan(init + [b], line, y, now)
            == (DropStale(SettleAt(init + [b], |init|, line, y, now), line), OutcomeAt(init + [b], |init|, line, y))
  {
    var s := init + [b];
    assert s[..|s| - 1] == init;
    assert Scan(s, line, y, now) == Step(Scan(init, line, y, now), b, line, y, now);
    assert SettleAt(s, |init|, line, y, now) == init + [Settle(b, line, y, now)];
    DropStaleAppend(init, Settle(b, line, y, now), line);
  }

  /** With nothing settled yet, a bet that is not due is kept unless stale. */
  lemma ScanKeepsLast(init: seq<Block>, b: Block, line: real, y: real, now: real)
    requires FirstDue(init, line, y) == |init| && !Due(b, line, y)
    requires Scan(init, line, y, now) == (DropStale(init, line), Quiet)
    ensures FirstDue(init + [b], line, y) == |init| + 1
    ensures Scan(init + [b], line, y, now) == (DropStale(init + [b], line), Quiet)
  {
    var s := init + [b];
    assert s[..|s| - 1] == init;
    assert Scan(s, line, y, now) == Step(Scan(init, line, y, now), b, line, y, now);
    var acc := Scan(init, line, y, now);
    DropStaleAppend(init, b, line);
    if !IsPending(b) {
      assert Step(acc, b, line, y, now) == (acc.0 + [b], Quiet);
      assert DropStale(s, line) == DropStale(init, line) + [b];
    } else if Stale(b, line) {
      assert Step(acc, b, line, y, now) == acc;
      assert DropStale(s, line) == DropStale(init, line);
    } else {
      assert !WinsAt(b, line, y) && !Passed(b, line);
      assert Step(acc, b, line, y, now) == (acc.0 + [b], Quiet);
      assert DropStale(s, line) == DropStale(init, line) + [b];
    }
  }

  // ---------------------------------------------------------------------
  // What a tick guarantees
  // ---------------------------------------------------------------------

  /** The visiting order holds the same bets, as a set of values. */
  lemma SameBets(bs: seq<Block>)
    ensures forall b :: b in Order(bs) <==> b in bs
  {
    OrderIsPermutation(bs);
    forall b ensures b in Order(bs) <==> b in bs {
      assert b in bs <==> b in multiset(bs);
      assert b in Order(bs) <==> b in multiset(Order(bs));
    }
  }

  /** The first due bet lies in the pending part of the visiting order. */
  lemma FirstDueIsPending(bs: seq<Block>, line: real, y: real)
    ensures |Settled(bs)| <= FirstDue(Order(bs), line, y)
  {
    var s, k, m := Order(bs), FirstDue(Order(bs), line, y), |Settled(bs)|;
    OrderSettledFirst(bs);
  }

  /** A tick is quiet exactly when no bet is due. */
  lemma {:induction false} QuietIffNoneDue(bs: seq<Block>, line: real, y: real, now: real)
    ensures Resolve(bs, line, y, now).1 == Quiet <==> forall b :: b in bs ==> !Due(b, line, y)
  {
    var s := Order(bs);
    ScanIsSettleFirstDue(s, line, y, now);
    SameBets(bs);
    var k := FirstDue(s, line, y);
    if k < |s| {
      assert s[k] in bs;
    } else {
      forall b | b in bs ensures !Due(b, line, y) {
        var j :| 0 <= j < |s| && s[j] == b;
      }
    }
  }

  /**
   * A tick that settles something settles one of the bets that is due,
   * and no due bet lies in a column left of it.
   */
  lemma {:induction false} SettlesLeftmostDue(bs: seq<Block>, line: real, y: real, now: real)
    requires Resolve(bs, line, y, now).1 != Quiet
    ensures var out := Resolve(bs, line, y, now).1;
            out.block in bs && Due(out.block, line, y)
            && forall b :: b in bs && Due(b, line, y) ==> out.block.gridX <= b.gridX
  {
    var s := Order(bs);
    ScanIsSettleFirstDue(s, line, y, now);
    SameBets(bs);
    FirstDueIsPending(bs, line, y);
    OrderPendingByColumn(bs);
    var k := FirstDue(s, line, y);
    assert k < |s|;
    forall b | b in bs && Due(b, line, y) ensures s[k].gridX <= b.gridX {
      var j :| 0 <= j < |s| && s[j] == b;
      assert k <= j;
    }
  }

  /** A win happens only inside the column at the bet's price; a loss only past the right edge. */
  lemma SettlementReason(bs: seq<Block>, line: real, y: real, now: real)
    ensures var out := Resolve(bs, line, y, now).1;
            (out.Win? ==> WinsAt(out.block, line, y))
            && (out.Loss? ==> Passed(out.block, line) && !InColumn(out.block, line))
  {
    ScanIsSettleFirstDue(Order(bs), line, y, now);
  }

  /**
   * Every bet kept after a tick was there before and is not stale, or it is
   * the outcome bet, settled.
   */
  lemma {:induction false} KeptBetsComeFromInput(bs: seq<Block>, line: real, y: real, now: real)
    ensures var (res, out) := Resolve(bs, line, y, now);
            forall b :: b in res ==>
              (b in bs && !Stale(b, line))
              || (out != Quiet && b == Settle(out.block, line, y, now))
  {
    var s := Order(bs);
    ScanIsSettleFirstDue(s, line, y, now);
    SameBets(bs);
    var k := FirstDue(s, line, y);
    var settled := SettleAt(s, k, line, y, now);
    forall b | b in DropStale(settled, line)
      ensures (b in bs && !Stale(b, line)) || (k < |s| && b == Settle(s[k], line, y, now))
    {
      DropStaleMember(settled, line, b);
      var j :| 0 <= j < |settled| && settled[j] == b;
      if j != k || k >= |s| {
        assert b == s[j];
      }
    }
  }

  /** Every non-stale bet other than the outcome bet is kept unchanged. */
  lemma {:induction false} OtherBetsKept(bs: seq<Block>, line: real, y: real, now: real)
    ensures var (res, out) := Resolve(bs, line, y, now);
            forall b :: b in bs && !Stale(b, line) && (out == Quiet || b != out.block) ==> b in res
  {
    var s := Order(bs);
    ScanIsSettleFirstDue(s, line, y, now);
    SameBets(bs);
    var k := FirstDue(s, line, y);
    var settled := SettleAt(s, k, line, y, now);
    forall b | b in s && !Stale(b, line) && (k >= |s| || b != s[k]) ensures b in DropStale(settled, line) {
      var j :| 0 <= j < |s| && s[j] == b;
      assert settled[j] == b;
      DropStaleMember(settled, line, b);
    }
  }

  /**
   * The settled bets stay in front, unchanged and in their order; a settled
   * bet never changes again.
   */
  lemma {:induction false} SettledBetsStay(bs: seq<Block>, line: real, y: real, now: real)
    ensures var res := Resolve(bs, line, y, now).0;
            |Settled(bs)| <= |res| && res[..|Settled(bs)|] == Settled(bs)
  {
    var s := Order(bs);
    ScanIsSettleFirstDue(s, line, y, now);
    OrderSettledFirst(bs);
    FirstDueIsPending(bs, line, y);
    var k := FirstDue(s, line, y);
    var m := |Settled(bs)|;
    var settled := SettleAt(s, k, line, y, now);
    assert settled[..m] == s[..m];
    assert settled == Settled(bs) + settled[m..];
    DropStalePrefix(Settled(bs), settled[m..], line);
  }

  /** Settled bets are never stale, so a settled prefix survives DropStale intact. */
  lemma {:induction false} DropStalePrefix(p: seq<Block>, q: seq<Block>, line: real)
    requires forall i :: 0 <= i < |p| ==> !IsPending(p[i])
    ensures |p| <= |DropStale(p + q, line)| && DropStale(p + q, line)[..|p|] == p
    decreases |q|
  {
    if q == [] {
      assert p + q == p;
      DropStaleSettled(p, line);
    } else {
      var init, last := q[..|q| - 1], q[|q| - 1];
      assert p + q == (p + init) + [last];
      DropStalePrefix(p, init, line);
      DropStaleAppend(p + init, last, line);
    }
  }

  lemma {:induction false} DropStaleSettled(p: seq<Block>, line: real)
    requires forall i :: 0 <= i < |p| ==> !IsPending(p[i])
    ensures DropStale(p, line) == p
  {
    if p != [] {
      DropStaleSettled(p[..|p| - 1], line);
      assert p == p[..|p| - 1] + [p[|p| - 1]];
    }
  }

  /** A tick never adds a pending bet to a cell, so no cell ever holds two. */
  lemma {:induction false} ResolveKeepsCellsSingle(bs: seq<Block>, line: real, y: real, now: real, x: int, row: int)
    ensures CountPendingAt(Resolve(bs, line, y, now).0, x, row) <= CountPendingAt(bs, x, row)
  {
    var s := Order(bs);
    OrderIsPermutation(bs);
    CountPerm(s, bs, x, row);
    ScanIsSettleFirstDue(s, line, y, now);
    var k := FirstDue(s, line, y);
    CountSettleAt(s, k, line, y, now, x, row);
    CountDropStale(SettleAt(s, k, line, y, now), line, x, row);
  }

  lemma {:induction false} CountDropStale(s: seq<Block>, line: real, x: int, row: int)
    ensures CountPendingAt(DropStale(s, line), x, row) <= CountPendingAt(s, x, row)
  {
    if s != [] {
      var init, last := s[..|s| - 1], s[|s| - 1];
      CountDropStale(init, line, x, row);
      CountAppend(DropStale(init, line), if Stale(last, line) then [] else [last], x, row);
      assert [last][..0] == [];
    }
  }

  lemma CountSettleAt(s: seq<Block>, k: nat, line: real, y: real, now: real, x: int, row: int)
    ensures CountPendingAt(SettleAt(s, k, line, y, now), x, row) <= CountPendingAt(s, x, row)
  {
    if k < |s| {
      var b := Settle(s[k], line, y, now);
      assert s == s[..k] + [s[k]] + s[k + 1..];
      assert SettleAt(s, k, line, y, now) == s[..k] + [b] + s[k + 1..];
      CountAppend(s[..k] + [s[k]], s[k + 1..], x, row);
      CountAppend(s[..k], [s[k]], x, row);
      CountAppend(s[..k] + [b], s[k + 1..], x, row);
      CountAppend(s[..k], [b], x, row);
      assert [b][..0] == [];
    }
  }

  /** Corollary for the game invariant: one pending bet per cell survives every tick. */
  lemma ResolvePreservesOnePendingPerCell(bs: seq<Block>, line: real, y: real, now: real)
    requires OnePendingPerCell(bs)
    ensures OnePendingPerCell(Resolve(bs, line, y, now).0)
  {
    forall x: int, row: int ensures CountPendingAt(Resolve(bs, line, y, now).0, x, row) <= 1 {
      ResolveKeepsCellsSingle(bs, line, y, now, x, row);
    }
  }
}
