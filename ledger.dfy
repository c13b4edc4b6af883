/**
 * Bets ("blocks") on grid cells, their lifecycle status, the notification
 * list, and the per-cell count of pending bets used to state that a cell
 * never holds two pending bets.
 */
module Ledger {

  const StartingBalance: real := 1000.0
  /** The stakes the bet selector offers. */
  const BetSizes: set<real> := {1.0, 5.0, 10.0, 25.0}

  /** Lifecycle of a bet; a lost bet remembers when it was lost (for its fade-out). */
  datatype Status = Pending | Won | Lost(lostAt: real)

  /**
   * A bet on world cell (gridX, gridY). The multiplier is frozen when the
   * bet is placed; `id` stands for the source's time-and-random string.
   */
  datatype Block = Block(
    id: nat, gridX: int, gridY: int,
    multiplier: real, betSize: real,
    status: Status, createdAt: real)

  predicate IsPending(b: Block) { b.status == Pending }

  /** Kind of a notification: green for wins, red for losses and rejections. */
  datatype ToastKind = WinToast | LossToast

  datatype Message =
    | AheadOfLine           // "Place bets ahead of the line!"
    | InsufficientBalance   // "Insufficient balance!"
    | Credited(amount: real)  // "+$amount"
    | Debited(amount: real)   // "-$amount"

  datatype Toast = Toast(message: Message, kind: ToastKind)

  /** The notification list after showing `t`: only the three most recent stay. */
  function AddToast(toasts: seq<Toast>, t: Toast): (r: seq<Toast>)
    ensures 1 <= |r| <= 3 && r[|r| - 1] == t
    ensures |toasts| < 3 ==> r == toasts + [t]
    ensures |toasts| >= 3 ==> |r| == 3 && r[..2] == toasts[|toasts| - 2..]
  {
    var all := toasts + [t];
    if |all| > 3 then all[|all| - 3..] else all
  }

  /** Is there a pending bet on cell (x, y)? */
  predicate HasPendingAt(bs: seq<Block>, x: int, y: int)
  {
    exists i :: 0 <= i < |bs| && bs[i].gridX == x && bs[i].gridY == y && bs[i].status == Pending
  }

  /** Number of pending bets on cell (x, y). */
  function CountPendingAt(bs: seq<Block>, x: int, y: int): nat
  {
    if bs == [] then 0
    else
      var last := bs[|bs| - 1];
      CountPendingAt(bs[..|bs| - 1], x, y)
        + (if last.gridX == x && last.gridY == y && last.status == Pending then 1 else 0)
  }

  /** No cell carries two pending bets. */
  ghost predicate OnePendingPerCell(bs: seq<Block>)
  {
    forall x: int, y: int :: CountPendingAt(bs, x, y) <= 1
  }

  lemma {:induction false} CountAppend(bs: seq<Block>, cs: seq<Block>, x: int, y: int)
    ensures CountPendingAt(bs + cs, x, y) == CountPendingAt(bs, x, y) + CountPendingAt(cs, x, y)
  {
    if cs != [] {
      var all := bs + cs;
      assert all[..|all| - 1] == bs + cs[..|cs| - 1];
      CountAppend(bs, cs[..|cs| - 1], x, y);
    } else {
      assert bs + cs == bs;
    }
  }

  /** The count depends only on which bets are present, not on their order. */
  lemma {:induction false} CountPerm(bs: seq<Block>, cs: seq<Block>, x: int, y: int)
    requires multiset(bs) == multiset(cs)
    ensures CountPendingAt(bs, x, y) == CountPendingAt(cs, x, y)
    decreases |bs|
  {
    if bs != [] {
      var init, last := bs[..|bs| - 1], bs[|bs| - 1];
      assert bs == init + [last];
      assert last in multiset(cs);
      var j :| 0 <= j < |cs| && cs[j] == last;
      var rest := cs[..j] + cs[j + 1..];
      RemovedMultiset(cs, j);
      assert multiset(init) == multiset(bs) - multiset{last};
      CountPerm(init, rest, x, y);
      CountRemoved(cs, j, x, y);
      CountAppend(init, [last], x, y);
    }
    else {
      assert cs == [];
    }
  }

  /** Taking out the element at j takes one copy of it out of the multiset. */
  lemma RemovedMultiset(cs: seq<Block>, j: nat)
    requires j < |cs|
    ensures multiset(cs[..j] + cs[j + 1..]) == multiset(cs) - multiset{cs[j]}
  {
    assert cs == cs[..j] + [cs[j]] + cs[j + 1..];
    assert multiset(cs) == multiset(cs[..j]) + multiset{cs[j]} + multiset(cs[j + 1..]);
  }

  /** Taking out the element at j takes its own contribution out of every count. */
  lemma CountRemoved(cs: seq<Block>, j: nat, x: int, y: int)
    requires j < |cs|
    ensures CountPendingAt(cs, x, y) == CountPendingAt(cs[..j] + cs[j + 1..], x, y) + CountPendingAt([cs[j]], x, y)
  {
    assert cs == cs[..j] + [cs[j]] + cs[j + 1..];
    CountAppend(cs[..j] + [cs[j]], cs[j + 1..], x, y);
    CountAppend(cs[..j], [cs[j]], x, y);
    CountAppend(cs[..j], cs[j + 1..], x, y);
  }

  /** The count is zero exactly when the cell has no pending bet. */
  lemma {:induction false} CountZeroIffNone(bs: seq<Block>, x: int, y: int)
    ensures CountPendingAt(bs, x, y) == 0 <==> !HasPendingAt(bs, x, y)
  {
    if bs != [] {
      var init := bs[..|bs| - 1];
      CountZeroIffNone(init, x, y);
      if HasPendingAt(init, x, y) {
        var i :| 0 <= i < |init| && init[i].gridX == x && init[i].gridY == y && init[i].status == Pending;
        assert bs[i] == init[i];
      }
      assert forall i :: 0 <= i < |init| ==> init[i] == bs[i];
    }
  }

  /**
   * Appending a pending bet to a free cell keeps every cell at most singly
   * occupied; this is why placement checks for a pending bet first.
   */
  lemma AppendToFreeCell(bs: seq<Block>, b: Block)
    requires OnePendingPerCell(bs)
    requires !HasPendingAt(bs, b.gridX, b.gridY)
    ensures OnePendingPerCell(bs + [b])
  {
    forall x: int, y: int ensures CountPendingAt(bs + [b], x, y) <= 1 {
      CountAppend(bs, [b], x, y);
      assert [b][..0] == [];
      if x == b.gridX && y == b.gridY {
        CountZeroIffNone(bs, x, y);
      }
    }
  }
}
