/**
 * Bets of the reference variant and their resolution. A bet is placed on
 * a world cell at a multiplier frozen from its row's distance to the
 * price; when the price line passes over its column, a pending bet wins
 * with a chance that falls with the price's distance from the row centre,
 * and only if that distance is at most one row, and loses otherwise. Every
 * resolved bet posts a notification, and every win credits the stake times
 * the multiplier and sets off a particle burst at the price head.
 */
module ConceptBets {
  import opened Numeric
  import opened Payout
  import opened ConceptParticles
  import Ledger

  datatype BetStatus = Pending | Won | Lost

  /** A bet on world cell (gridX, gridY); `id` stands for the source's time-and-random string. */
  datatype Bet = Bet(
    id: nat, gridX: int, gridY: int,
    multiplier: real, betSize: real, status: BetStatus)

  /** Every bet carries an offered stake and a multiplier from the table. */
  ghost predicate WellPriced(bs: seq<Bet>)
  {
    forall b :: b in bs ==> b.betSize in Ledger.BetSizes && b.multiplier in Table
  }

  /** Distance, in rows, from the price to the centre of the bet's row. */
  function Distance(b: Bet, priceY: real): real
  {
    Abs(priceY - (b.gridY as real + 0.5))
  }

  /** A quarter less per row of distance, but never below 5%. */
  function WinChance(distance: real): (c: real)
    ensures 0.05 <= c
    ensures 0.0 <= distance ==> c <= 1.0
    ensures distance <= 3.8 ==> c == 1.0 - distance * 0.25
    ensures distance >= 3.8 ==> c == 0.05
  {
    if 1.0 - distance * 0.25 >= 0.05 then 1.0 - distance * 0.25 else 0.05
  }

  /** The price line is over the bet's column, both edges included. */
  predicate Reached(b: Bet, line: real)
  {
    b.gridX as real <= line <= b.gridX as real + 1.0
  }

  /** The bet wins when its roll falls under the win chance and the price is within one row of its centre. */
  predicate Hits(b: Bet, priceY: real, roll: real)
  {
    roll < WinChance(Distance(b, priceY)) && Distance(b, priceY) <= 1.0
  }

  /**
   * The 5% floor never decides a win: a bet hits exactly when the price is
   * within one row and the roll is under 1 - d/4, which is at least 3/4.
   */
  lemma HitsWithinOneRow(b: Bet, priceY: real, roll: real)
    ensures Hits(b, priceY, roll) <==>
      Distance(b, priceY) <= 1.0 && roll < 1.0 - Distance(b, priceY) * 0.25
    ensures Distance(b, priceY) <= 1.0 && roll < 0.75 ==> Hits(b, priceY, roll)
  {
  }

  /**
   * A bet after the frame's resolution: a pending bet reached by the line
   * becomes won or lost; every other bet is left as it is.
   */
  function Judge(b: Bet, line: real, priceY: real, roll: real): (j: Bet)
    ensures j == b.(status := j.status)
    ensures j.status != b.status <==> b.status == Pending && Reached(b, line)
    ensures j.status == Won <==> b.status == Won || (b.status == Pending && Reached(b, line) && Hits(b, priceY, roll))
    ensures b.status == Pending && Reached(b, line) && Distance(b, priceY) > 1.0 ==> j.status == Lost
  {
    if b.status != Pending then b
    else if Reached(b, line) then
      if Hits(b, priceY, roll) then b.(status := Won) else b.(status := Lost)
    else b
  }

  /** The luck of one bet in one frame: its win roll and the draws of the burst a win sets off. */
  datatype Luck = Luck(roll: real, burst: seq<BurstDraw>)

  /** Every luck carries a full burst's worth of draws. */
  ghost predicate FullBursts(lucks: seq<Luck>)
  {
    forall l :: l in lucks ==> |l.burst| == BurstSize
  }

  /** The bets of a frame, each judged with its own roll. */
  function JudgeAll(bs: seq<Bet>, line: real, priceY: real, lucks: seq<Luck>): (r: seq<Bet>)
    requires |lucks| == |bs|
    ensures |r| == |bs|
    ensures forall i :: 0 <= i < |bs| ==> r[i] == Judge(bs[i], line, priceY, lucks[i].roll)
  {
    seq(|bs|, i requires 0 <= i < |bs| => Judge(bs[i], line, priceY, lucks[i].roll))
  }

  /** What one pass over the bets produces: the new bets, the amount won, the notifications, and the new particles. */
  datatype Sweep = Sweep(bets: seq<Bet>, won: real, toasts: seq<Ledger.Toast>, burst: seq<Particle>)

  /** The effect of one bet on the pass so far; a win's burst starts at the price head (hx, hy). */
  function SweepStep(acc: Sweep, b: Bet, luck: Luck, line: real, priceY: real, hx: real, hy: real): Sweep
    requires |luck.burst| == BurstSize
  {
    var j := Judge(b, line, priceY, luck.roll);
    if j.status == b.status then acc.(bets := acc.bets + [j])
    else if j.status == Won then
      var amount := Prize(b);
      Sweep(acc.bets + [j], acc.won + amount,
        Ledger.AddToast(acc.toasts, Ledger.Toast(Ledger.Credited(amount), Ledger.WinToast)),
        acc.burst + Burst(hx, hy, luck.burst))
    else
      Sweep(acc.bets + [j], acc.won,
        Ledger.AddToast(acc.toasts, Ledger.Toast(Ledger.Debited(b.betSize), Ledger.LossToast)),
        acc.burst)
  }

  /** One pass over the bets in order, starting from the notifications `toasts`. */
  function SweepAll(bs: seq<Bet>, lucks: seq<Luck>, line: real, priceY: real, hx: real, hy: real,
                    toasts: seq<Ledger.Toast>): Sweep
    requires |lucks| == |bs| && FullBursts(lucks)
  {
    if bs == [] then Sweep([], 0.0, toasts, [])
    else
      var n := |bs| - 1;
      assert lucks[n] in lucks;
      assert forall l :: l in lucks[..n] ==> l in lucks;
      SweepStep(SweepAll(bs[..n], lucks[..n], line, priceY, hx, hy, toasts), bs[n], lucks[n], line, priceY, hx, hy)
  }

  /**
   * The frame's pass over the bets, as the source's map runs it: each bet
   * is judged with its own luck; a newly won bet credits its payout, posts
   * a win notification and adds a burst at the price head; a newly lost
   * bet posts a loss notification.
   */
  method Walk(bs: seq<Bet>, lucks: seq<Luck>, line: real, priceY: real, hx: real, hy: real,
              toasts: seq<Ledger.Toast>) returns (s: Sweep)
    requires |lucks| == |bs| && FullBursts(lucks)
    ensures s == SweepAll(bs, lucks, line, priceY, hx, hy, toasts)
  {
    s := Sweep([], 0.0, toasts, []);
    for i := 0 to |bs|
      invariant s == SweepAll(bs[..i], lucks[..i], line, priceY, hx, hy, toasts)
    {
      assert bs[..i + 1][..i] == bs[..i];
      assert lucks[..i + 1][..i] == lucks[..i];
      assert lucks[i] in lucks;
      var b, luck := bs[i], lucks[i];
      assert SweepAll(bs[..i + 1], lucks[..i + 1], line, priceY, hx, hy, toasts)
          == SweepStep(s, b, luck, line, priceY, hx, hy);
      var judged := Judge(b, line, priceY, luck.roll);
      if judged.status == b.status {
        s := s.(bets := s.bets + [judged]);
      } else if judged.status == Won {
        var amount := Prize(b);
        s := Sweep(s.bets + [judged], s.won + amount,
          Ledger.AddToast(s.toasts, Ledger.Toast(Ledger.Credited(amount), Ledger.WinToast)),
          s.burst + Burst(hx, hy, luck.burst));
      } else {
        s := Sweep(s.bets + [judged], s.won,
          Ledger.AddToast(s.toasts, Ledger.Toast(Ledger.Debited(b.betSize), Ledger.LossToast)),
          s.burst);
      }
    }
    assert bs[..|bs|] == bs && lucks[..|bs|] == lucks;
  }

  /** The bet is pending, reached by the line and hits: the frame settles it as won. */
  predicate SettlesWon(b: Bet, line: real, priceY: real, roll: real)
  {
    b.status == Pending && Reached(b, line) && Hits(b, priceY, roll)
  }

  /** What a won bet credits: its stake times its frozen multiplier. */
  function Prize(b: Bet): real
  {
    b.betSize * b.multiplier
  }

  /** Number of bets a frame settles as won. */
  function NewWins(bs: seq<Bet>, line: real, priceY: real, lucks: seq<Luck>): nat
    requires |lucks| == |bs|
  {
    if bs == [] then 0
    else
      var n := |bs| - 1;
      NewWins(bs[..n], line, priceY, lucks[..n]) + (if SettlesWon(bs[n], line, priceY, lucks[n].roll) then 1 else 0)
  }

  /** Total paid out for the bets a frame settles as won. */
  function Payouts(bs: seq<Bet>, line: real, priceY: real, lucks: seq<Luck>): real
    requires |lucks| == |bs|
  {
    if bs == [] then 0.0
    else
      var n := |bs| - 1;
      Payouts(bs[..n], line, priceY, lucks[..n]) + (if SettlesWon(bs[n], line, priceY, lucks[n].roll) then Prize(bs[n]) else 0.0)
  }

  /** One more bet extends the pass by one step. */
  lemma SweepUnfold(bs: seq<Bet>, lucks: seq<Luck>, line: real, priceY: real, hx: real, hy: real,
                    toasts: seq<Ledger.Toast>)
    requires |lucks| == |bs| && FullBursts(lucks) && bs != []
    ensures var n := |bs| - 1;
            FullBursts(lucks[..n]) && |lucks[n].burst| == BurstSize
            && SweepAll(bs, lucks, line, priceY, hx, hy, toasts)
               == SweepStep(SweepAll(bs[..n], lucks[..n], line, priceY, hx, hy, toasts), bs[n], lucks[n], line, priceY, hx, hy)
  {
    var n := |bs| - 1;
    assert lucks[n] in lucks;
    assert forall l :: l in lucks[..n] ==> l in lucks;
  }

  /** The pass judges every bet with its own roll. */
  lemma {:induction false} SweepJudgesAll(bs: seq<Bet>, lucks: seq<Luck>, line: real, priceY: real,
                                          hx: real, hy: real, toasts: seq<Ledger.Toast>)
    requires |lucks| == |bs| && FullBursts(lucks)
    ensures SweepAll(bs, lucks, line, priceY, hx, hy, toasts).bets == JudgeAll(bs, line, priceY, lucks)
  {
    if bs != [] {
      var n := |bs| - 1;
      SweepUnfold(bs, lucks, line, priceY, hx, hy, toasts);
      SweepJudgesAll(bs[..n], lucks[..n], line, priceY, hx, hy, toasts);
      var prev := SweepAll(bs[..n], lucks[..n], line, priceY, hx, hy, toasts);
      assert SweepAll(bs, lucks, line, priceY, hx, hy, toasts).bets
          == prev.bets + [Judge(bs[n], line, priceY, lucks[n].roll)];
    }
  }

  /** The pass credits exactly the payouts of the bets it settles as won. */
  lemma {:induction false} SweepPaysOut(bs: seq<Bet>, lucks: seq<Luck>, line: real, priceY: real,
                                        hx: real, hy: real, toasts: seq<Ledger.Toast>)
    requires |lucks| == |bs| && FullBursts(lucks)
    ensures SweepAll(bs, lucks, line, priceY, hx, hy, toasts).won == Payouts(bs, line, priceY, lucks)
  {
    if bs != [] {
      var n := |bs| - 1;
      SweepUnfold(bs, lucks, line, priceY, hx, hy, toasts);
      SweepPaysOut(bs[..n], lucks[..n], line, priceY, hx, hy, toasts);
    }
  }

  /** The pass starts one burst of 24 fresh, well-formed particles per bet it settles as won. */
  lemma {:induction false} SweepBursts(bs: seq<Bet>, lucks: seq<Luck>, line: real, priceY: real,
                                       hx: real, hy: real, toasts: seq<Ledger.Toast>)
    requires |lucks| == |bs| && FullBursts(lucks)
    ensures var s := SweepAll(bs, lucks, line, priceY, hx, hy, toasts);
            |s.burst| == BurstSize * NewWins(bs, line, priceY, lucks)
            && forall p :: p in s.burst ==> WellFormed(p) && p.life == 1.0
  {
    if bs != [] {
      var n := |bs| - 1;
      SweepUnfold(bs, lucks, line, priceY, hx, hy, toasts);
      SweepBursts(bs[..n], lucks[..n], line, priceY, hx, hy, toasts);
    }
  }

  /** The pass never shows more than three notifications. */
  lemma {:induction false} SweepToasts(bs: seq<Bet>, lucks: seq<Luck>, line: real, priceY: real,
                                       hx: real, hy: real, toasts: seq<Ledger.Toast>)
    requires |lucks| == |bs| && FullBursts(lucks) && |toasts| <= 3
    ensures |SweepAll(bs, lucks, line, priceY, hx, hy, toasts).toasts| <= 3
  {
    if bs != [] {
      var n := |bs| - 1;
      SweepUnfold(bs, lucks, line, priceY, hx, hy, toasts);
      SweepToasts(bs[..n], lucks[..n], line, priceY, hx, hy, toasts);
    }
  }

  /** A won bet pays at least twice its stake. */
  lemma PayoutAtLeastDouble(b: Bet)
    requires b.betSize in Ledger.BetSizes && b.multiplier in Table
    ensures Prize(b) >= 2.0 * b.betSize > 0.0
  {
    assert b.multiplier >= 2.0 by {
      assert forall m :: m in Table ==> m >= 2.0;
    }
    assert b.betSize > 0.0 by {
      assert forall s :: s in Ledger.BetSizes ==> s > 0.0;
    }
    MulMonotone(2.0, b.multiplier, b.betSize);
  }

  /** With well-priced bets a frame's payout is never negative, and positive when some bet wins. */
  lemma {:induction false} PayoutsNonNegative(bs: seq<Bet>, line: real, priceY: real, lucks: seq<Luck>)
    requires |lucks| == |bs| && WellPriced(bs)
    ensures 0.0 <= Payouts(bs, line, priceY, lucks)
    ensures NewWins(bs, line, priceY, lucks) > 0 ==> Payouts(bs, line, priceY, lucks) > 0.0
  {
    if bs != [] {
      var n := |bs| - 1;
      assert forall b :: b in bs[..n] ==> b in bs;
      PayoutsNonNegative(bs[..n], line, priceY, lucks[..n]);
      assert bs[n] in bs;
      PayoutAtLeastDouble(bs[n]);
      assert Payouts(bs, line, priceY, lucks) == Payouts(bs[..n], line, priceY, lucks[..n])
        + (if SettlesWon(bs[n], line, priceY, lucks[n].roll) then Prize(bs[n]) else 0.0);
    }
  }

  /** Judging changes only statuses, so the bets stay well priced. */
  lemma JudgeAllKeepsPrices(bs: seq<Bet>, line: real, priceY: real, lucks: seq<Luck>)
    requires |lucks| == |bs| && WellPriced(bs)
    ensures WellPriced(JudgeAll(bs, line, priceY, lucks))
  {
    var r := JudgeAll(bs, line, priceY, lucks);
    forall b | b in r ensures b.betSize in Ledger.BetSizes && b.multiplier in Table {
      var i :| 0 <= i < |r| && r[i] == b;
      assert bs[i] in bs;
    }
  }

  /** A bet the cleanup keeps: not more than ten columns behind the (unfloored) line, or already settled. */
  predicate Kept(b: Bet, line: real)
  {
    b.gridX as real > line - 10.0 || b.status != Pending
  }

  /** The bets that survive a cleanup, in their order. */
  function Cleared(bs: seq<Bet>, line: real): (r: seq<Bet>)
    ensures |r| <= |bs|
  {
    if bs == [] then []
    else (if Kept(bs[0], line) then [bs[0]] else []) + Cleared(bs[1..], line)
  }

  /** A bet survives the cleanup exactly when it was there and is kept. */
  lemma {:induction false} ClearedMember(bs: seq<Bet>, line: real, b: Bet)
    ensures b in Cleared(bs, line) <==> b in bs && Kept(b, line)
  {
    if bs != [] {
      ClearedMember(bs[1..], line, b);
      assert b in bs <==> b == bs[0] || b in bs[1..];
    }
  }

  /** The cleanup only drops pending bets: every settled bet stays. */
  lemma ClearedKeepsSettled(bs: seq<Bet>, line: real)
    ensures forall b :: b in bs && b.status != Pending ==> b in Cleared(bs, line)
  {
    forall b | b in bs && b.status != Pending ensures b in Cleared(bs, line) {
      ClearedMember(bs, line, b);
    }
  }

  /** The cleanup keeps the bets well priced. */
  lemma ClearedKeepsPrices(bs: seq<Bet>, line: real)
    requires WellPriced(bs)
    ensures WellPriced(Cleared(bs, line))
  {
    forall b | b in Cleared(bs, line) ensures b in bs {
      ClearedMember(bs, line, b);
    }
  }
}
