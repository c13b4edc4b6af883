/**
 * The refined tap-to-bet game: the whole mutable state of one session and
 * the operations that change it. A bet is placed by tapping a cell ahead of
 * the price line (dragging places more); every animation frame scrolls the
 * grid, moves the price, and settles at most one bet; a win pays the stake
 * times the multiplier frozen when the bet was placed.
 */
module TapTrade {
  import opened Wrappers
  import opened Numeric
  import opened Payout
  import opened Viewport
  import opened PriceProcess
  import opened Ledger
  import opened Resolution
  import opened Particles

  /** The price starts in the middle of the twelve nominal rows. */
  const InitialPriceY: real := 6.0
  /** Stake selected when the game starts. */
  const InitialBet: real := 5.0
  /** The price trail reaches this far (in pixels) beyond the price line's offset. */
  const TrailMargin: real := 50.0

  datatype Cell = Cell(gridX: int, gridY: int)

  /** The amount a won bet pays out. */
  function WinAmount(b: Block): real
  {
    b.betSize * b.multiplier
  }

  /** A won bet pays at least twice its stake. */
  lemma WinAtLeastDouble(b: Block)
    requires b.betSize > 0.0 && b.multiplier in Table
    ensures WinAmount(b) >= 2.0 * b.betSize > 0.0
  {
    assert b.multiplier >= 2.0 by {
      assert forall m :: m in Table ==> m >= 2.0;
    }
    MulMonotone(2.0, b.multiplier, b.betSize);
  }

  /** Every bet on the board carries an offered stake and a multiplier from the table. */
  ghost predicate WellPriced(bs: seq<Block>)
  {
    forall b :: b in bs ==> b.betSize in BetSizes && b.multiplier in Table
  }

  /** A tick keeps every bet well priced: settlement changes only statuses. */
  lemma {:induction false} ResolveKeepsPrices(bs: seq<Block>, line: real, y: real, now: real)
    requires WellPriced(bs)
    ensures WellPriced(Resolve(bs, line, y, now).0)
    ensures var out := Resolve(bs, line, y, now).1;
            out != Quiet ==> out.block.betSize in BetSizes && out.block.multiplier in Table
  {
    var (res, out) := Resolve(bs, line, y, now);
    KeptBetsComeFromInput(bs, line, y, now);
    if out != Quiet {
      SettlesLeftmostDue(bs, line, y, now);
      var s := Settle(out.block, line, y, now);
      assert s.betSize == out.block.betSize && s.multiplier == out.block.multiplier by {
        assert s.(status := out.block.status) == out.block;
      }
    }
  }

  /** The oldest trail age kept: the trail reaches a little beyond the price line's offset. */
  function TrailSpan(d: GridDims): real
  {
    d.gridWidth * PriceLinePosition + TrailMargin
  }

  /** Screen position of the price head, where a win's explosion goes off. */
  function HeadX(d: GridDims): real
  {
    d.gridLeft + d.gridWidth * PriceLinePosition
  }

  function HeadY(d: GridDims): real
  {
    Padding + d.gridHeight / 2.0
  }

  /** The notifications after a frame with the given outcome: the payout for a win, the stake for a loss. */
  function Notified(toasts: seq<Toast>, outcome: Outcome): (r: seq<Toast>)
    ensures outcome.Quiet? ==> r == toasts
    ensures outcome.Win? ==> r != [] && r[|r| - 1] == Toast(Credited(WinAmount(outcome.block)), WinToast)
    ensures outcome.Loss? ==> r != [] && r[|r| - 1] == Toast(Debited(outcome.block.betSize), LossToast)
    ensures |toasts| <= 3 ==> |r| <= 3
  {
    match outcome
    case Win(b) => AddToast(toasts, Toast(Credited(WinAmount(b)), WinToast))
    case Loss(b) => AddToast(toasts, Toast(Debited(b.betSize), LossToast))
    case Quiet => toasts
  }

  /** Win rate in percent of settled bets; zero before any bet settles. */
  function WinRate(wins: nat, losses: nat): (rate: real)
    ensures 0.0 <= rate <= 100.0
    ensures wins + losses > 0 ==> rate * (wins + losses) as real == 100.0 * wins as real
    ensures wins + losses == 0 ==> rate == 0.0
  {
    var total := wins + losses;
    if total > 0 then
      var rate := (wins as real / total as real) * 100.0;
      assert rate * total as real == 100.0 * wins as real;
      assert rate <= 100.0 by {
        if rate > 100.0 {
          MulStrict(100.0, rate, total as real);
        }
      }
      rate
    else 0.0
  }

  /**
   * The books: the balance never goes negative and always equals the
   * starting balance minus all stakes plus all payouts.
   */
  ghost predicate Books(balance: real, wagered: real, wonAmount: real)
  {
    0.0 <= balance && balance == StartingBalance - wagered + wonAmount
    && 0.0 <= wagered && 0.0 <= wonAmount
  }

  /** Square cells of positive size on a grid of positive width. */
  ghost predicate UsableGeometry(d: GridDims)
  {
    d.cellWidth > 0.0 && d.cellHeight == d.cellWidth && d.gridWidth > 0.0
  }

  /** No cell holds two pending bets, and every bet is well priced. */
  ghost predicate Board(bs: seq<Block>)
  {
    OnePendingPerCell(bs) && WellPriced(bs)
  }

  /**
   * The velocity is within its limit, the clock and the scroll never go
   * negative, and the price trail is newest first with non-negative ages.
   */
  ghost predicate Motion(velocity: real, offsetX: real, lastTime: real, trail: seq<TrailPoint>)
  {
    -RefinedDynamics.limit <= velocity <= RefinedDynamics.limit
    && 0.0 <= offsetX && 0.0 <= lastTime
    && NewestFirst(trail) && (forall p :: p in trail ==> 0.0 <= p.age)
  }

  /** One trail update keeps the motion invariant and leads the trail with the new price. */
  lemma {:induction false} TrailStep(velocity: real, offsetX: real, lastTime: real, trail: seq<TrailPoint>,
                                     step: real, y: real, maxAge: real, velocity': real)
    requires Motion(velocity, offsetX, lastTime, trail)
    requires 0.0 <= step && 0.0 < maxAge
    requires -RefinedDynamics.limit <= velocity' <= RefinedDynamics.limit
    ensures Motion(velocity', offsetX, lastTime, AdvanceTrail(trail, step, y, maxAge))
    ensures var t := AdvanceTrail(trail, step, y, maxAge); t != [] && t[0] == TrailPoint(y, 0.0)
  {
    AdvanceTrailInvariant(trail, step, y, maxAge);
  }

  class Game {
    var balance: real
    var selectedBet: real
    var blocks: seq<Block>
    var toasts: seq<Toast>
    var totalWins: nat
    var totalLosses: nat
    var totalWagered: real
    var totalWonAmount: real

    /** Horizontal scroll in pixels; the world moves left under a fixed price line. */
    var viewOffsetX: real
    /** The price, in fractional rows. */
    var currentPriceY: real
    var priceVelocity: real
    var priceTrail: seq<TrailPoint>
    var globalYOffset: real
    var lastTime: real
    var dims: GridDims

    var hoverCell: Option<Cell>
    var isDragging: bool
    var lastPlacedCell: Option<Cell>

    const fx: Effects

    /**
     * The session invariant: the books balance, the geometry is usable, no
     * cell holds two pending bets, the price motion is within its limits,
     * and at most three notifications are shown.
     */
    ghost predicate Valid()
      reads this, fx
    {
      fx.Valid()
      && selectedBet in BetSizes
      && Books(balance, totalWagered, totalWonAmount)
      && UsableGeometry(dims)
      && Board(blocks)
      && Motion(priceVelocity, viewOffsetX, lastTime, priceTrail)
      && |toasts| <= 3
    }

    /** Profit or loss against the starting balance. */
    function Pnl(): (pnl: real)
      requires Valid()
      reads this, fx
      ensures pnl == totalWonAmount - totalWagered
      ensures pnl >= -StartingBalance
    {
      balance - StartingBalance
    }

    /** Since the earlier state, the scroll, the price with its motion and trail, and the clock are as they were. */
    twostate predicate MotionKept()
      reads this
    {
      viewOffsetX == old(viewOffsetX) && currentPriceY == old(currentPriceY)
      && priceVelocity == old(priceVelocity) && priceTrail == old(priceTrail)
      && globalYOffset == old(globalYOffset) && lastTime == old(lastTime)
    }

    /** Since the earlier state, the session's statistics are as they were. */
    twostate predicate TotalsKept()
      reads this
    {
      totalWins == old(totalWins) && totalLosses == old(totalLosses)
      && totalWagered == old(totalWagered) && totalWonAmount == old(totalWonAmount)
    }

    /** A fresh session on a container of the given size. */
    constructor(width: real, height: real)
      requires width > 2.0 * Padding && height > 0.0
      ensures Valid() && fresh(fx)
      ensures balance == StartingBalance && selectedBet == InitialBet
      ensures blocks == [] && toasts == [] && totalWins == 0 && totalLosses == 0
      ensures totalWagered == 0.0 && totalWonAmount == 0.0
      ensures viewOffsetX == 0.0 && currentPriceY == InitialPriceY && priceVelocity == 0.0
      ensures priceTrail == [] && globalYOffset == 0.0 && lastTime == 0.0 && dims == CellDims(width, height)
      ensures hoverCell == None && !isDragging && lastPlacedCell == None
      ensures fx.particles == [] && fx.impacts == []
    {
      balance := StartingBalance;
      selectedBet := InitialBet;
      blocks := [];
      toasts := [];
      totalWins, totalLosses := 0, 0;
      totalWagered, totalWonAmount := 0.0, 0.0;
      viewOffsetX := 0.0;
      currentPriceY := InitialPriceY;
      priceVelocity := 0.0;
      priceTrail := [];
      globalYOffset := 0.0;
      lastTime := 0.0;
      dims := CellDims(width, height);
      hoverCell := None;
      isDragging := false;
      lastPlacedCell := None;
      fx := new Effects();
    }

    /** Choose one of the offered stakes. */
    method SelectBet(size: real)
      requires Valid() && size in BetSizes
      modifies this
      ensures Valid() && selectedBet == size
      ensures balance == old(balance) && blocks == old(blocks) && toasts == old(toasts)
      ensures TotalsKept() && MotionKept() && dims == old(dims)
      ensures hoverCell == old(hoverCell) && isDragging == old(isDragging)
      ensures lastPlacedCell == old(lastPlacedCell)
      ensures fx.particles == old(fx.particles) && fx.impacts == old(fx.impacts)
    {
      selectedBet := size;
    }

    /**
     * Recompute the grid geometry for a new container size. A container
     * with no area is ignored, and so (in this model) is one too narrow to
     * leave a positive cell size.
     */
    method Resize(width: real, height: real)
      requires Valid()
      modifies this
      ensures Valid()
      ensures dims == if width > 2.0 * Padding && height > 0.0 then CellDims(width, height) else old(dims)
      ensures balance == old(balance) && blocks == old(blocks) && toasts == old(toasts)
      ensures selectedBet == old(selectedBet) && TotalsKept() && MotionKept()
      ensures hoverCell == old(hoverCell) && isDragging == old(isDragging)
      ensures lastPlacedCell == old(lastPlacedCell)
      ensures fx.particles == old(fx.particles) && fx.impacts == old(fx.impacts)
    {
      if width > 2.0 * Padding && height > 0.0 {
        dims := CellDims(width, height);
      }
    }

    /** The world column (fractional) under the price line. */
    function LineColumn(): real
      requires Valid()
      reads this, fx
    {
      PriceLineColumn(viewOffsetX, dims)
    }

    /**
     * Place a bet of the selected stake on cell (gx, gy). It is refused
     * (and nothing changes) when the cell lies left of the price line or
     * already holds a pending bet; it is refused with a notification when
     * the balance is below the stake. Otherwise the stake is debited and a
     * pending bet with the multiplier for the cell's distance from the
     * price is appended.
     */
    method PlaceBlock(gx: int, gy: int, id: nat, now: real) returns (placed: bool)
      requires Valid()
      modifies this
      ensures Valid()
      ensures placed <==>
        gx as real >= PriceLineColumn(viewOffsetX, dims)
        && !HasPendingAt(old(blocks), gx, gy)
        && old(balance) >= selectedBet
      ensures placed ==>
        balance == old(balance) - selectedBet && 0.0 <= balance
        && totalWagered == old(totalWagered) + selectedBet
        && blocks == old(blocks) + [Block(id, gx, gy, FrozenMultiplier(gy, currentPriceY), selectedBet, Pending, now)]
        && toasts == old(toasts)
      ensures !placed ==>
        balance == old(balance) && totalWagered == old(totalWagered) && blocks == old(blocks)
        && toasts == (if gx as real >= PriceLineColumn(viewOffsetX, dims)
                         && !HasPendingAt(old(blocks), gx, gy)
                      then AddToast(old(toasts), Toast(InsufficientBalance, LossToast))
                      else old(toasts))
      ensures selectedBet == old(selectedBet) && totalWonAmount == old(totalWonAmount)
      ensures totalWins == old(totalWins) && totalLosses == old(totalLosses)
      ensures viewOffsetX == old(viewOffsetX) && currentPriceY == old(currentPriceY)
      ensures priceVelocity == old(priceVelocity) && priceTrail == old(priceTrail)
      ensures globalYOffset == old(globalYOffset) && lastTime == old(lastTime) && dims == old(dims)
      ensures hoverCell == old(hoverCell) && isDragging == old(isDragging)
      ensures lastPlacedCell == old(lastPlacedCell)
    {
      var priceLineGridX := PriceLineColumn(viewOffsetX, dims);
      if (gx as real) < priceLineGridX {
        return false;
      }
      if HasPendingAt(blocks, gx, gy) {
        return false;
      }
      if balance < selectedBet {
        toasts := AddToast(toasts, Toast(InsufficientBalance, LossToast));
        return false;
      }
      balance := balance - selectedBet;
      totalWagered := totalWagered + selectedBet;
      var block := Block(id, gx, gy, FrozenMultiplier(gy, currentPriceY), selectedBet, Pending, now);
      AppendToFreeCell(blocks, block);
      blocks := blocks + [block];
      return true;
    }

    /**
     * The clock part of a frame: clamp the frame delta and scroll the world
     * left by the distance `step` it covers.
     */
    method Scroll(timestamp: real) returns (step: real)
      requires Valid() && lastTime <= timestamp
      modifies this
      ensures Valid()
      ensures step == ScrollRate * FrameDelta(timestamp, old(lastTime))
      ensures 0.0 <= step <= ScrollRate * MaxFrameDelta
      ensures lastTime == timestamp && viewOffsetX == old(viewOffsetX) + step
      ensures currentPriceY == old(currentPriceY) && priceVelocity == old(priceVelocity)
      ensures priceTrail == old(priceTrail) && globalYOffset == old(globalYOffset)
      ensures balance == old(balance) && blocks == old(blocks) && toasts == old(toasts)
      ensures selectedBet == old(selectedBet) && dims == old(dims)
      ensures totalWins == old(totalWins) && totalLosses == old(totalLosses)
      ensures totalWagered == old(totalWagered) && totalWonAmount == old(totalWonAmount)
      ensures hoverCell == old(hoverCell) && isDragging == old(isDragging)
      ensures lastPlacedCell == old(lastPlacedCell)
    {
      var delta := FrameDelta(timestamp, lastTime);
      step := ScrollRate * delta;
      lastTime := timestamp;
      viewOffsetX := viewOffsetX + step;
    }

    /**
     * The price part of a frame: step the velocity, move the price by the
     * drift plus the velocity, re-centre the grid vertically on it, and
     * extend the price trail, aged by the scrolled distance `step`.
     */
    method MovePrice(step: real, drift: real, shockRoll: real, shockDraw: real)
      requires Valid() && 0.0 <= step
      modifies this
      ensures Valid()
      ensures priceVelocity == StepVelocity(RefinedDynamics, old(priceVelocity), shockRoll, shockDraw)
      ensures currentPriceY == old(currentPriceY) + drift + priceVelocity
      ensures globalYOffset == CentreOffset(currentPriceY, dims)
      ensures priceTrail == AdvanceTrail(old(priceTrail), step, currentPriceY,
                                         TrailSpan(dims))
      ensures priceTrail != [] && priceTrail[0] == TrailPoint(currentPriceY, 0.0)
      ensures lastTime == old(lastTime) && viewOffsetX == old(viewOffsetX)
      ensures balance == old(balance) && blocks == old(blocks) && toasts == old(toasts)
      ensures selectedBet == old(selectedBet) && dims == old(dims)
      ensures totalWins == old(totalWins) && totalLosses == old(totalLosses)
      ensures totalWagered == old(totalWagered) && totalWonAmount == old(totalWonAmount)
      ensures hoverCell == old(hoverCell) && isDragging == old(isDragging)
      ensures lastPlacedCell == old(lastPlacedCell)
    {
      var velocity := StepVelocity(RefinedDynamics, priceVelocity, shockRoll, shockDraw);
      var priceY := currentPriceY + drift + velocity;
      var maxTrailAge := TrailSpan(dims);
      TrailStep(priceVelocity, viewOffsetX, lastTime, priceTrail, step, priceY, maxTrailAge, velocity);
      priceVelocity := velocity;
      currentPriceY := priceY;
      globalYOffset := CentreOffset(priceY, dims);
      priceTrail := AdvanceTrail(priceTrail, step, priceY, maxTrailAge);
    }

    /** Credit a won bet's payout, count the win and notify. */
    method Credit(block: Block)
      requires Valid()
      requires block.betSize in BetSizes && block.multiplier in Table
      modifies this
      ensures Valid()
      ensures balance == old(balance) + WinAmount(block) && balance > old(balance)
      ensures totalWonAmount == old(totalWonAmount) + WinAmount(block)
      ensures totalWins == old(totalWins) + 1 && totalLosses == old(totalLosses)
      ensures toasts == AddToast(old(toasts), Toast(Credited(WinAmount(block)), WinToast))
      ensures blocks == old(blocks) && totalWagered == old(totalWagered) && selectedBet == old(selectedBet)
      ensures viewOffsetX == old(viewOffsetX) && currentPriceY == old(currentPriceY)
      ensures priceVelocity == old(priceVelocity) && priceTrail == old(priceTrail)
      ensures globalYOffset == old(globalYOffset) && lastTime == old(lastTime) && dims == old(dims)
      ensures hoverCell == old(hoverCell) && isDragging == old(isDragging)
      ensures lastPlacedCell == old(lastPlacedCell)
    {
      var winAmount := WinAmount(block);
      WinAtLeastDouble(block);
      balance := balance + winAmount;
      totalWins := totalWins + 1;
      totalWonAmount := totalWonAmount + winAmount;
      toasts := AddToast(toasts, Toast(Credited(winAmount), WinToast));
    }

    /**
     * Book a win: credit the payout, count the win, notify, and set off an
     * explosion at the price head.
     */
    method CreditWin(block: Block, now: real, draws: seq<Draw>)
      requires Valid()
      requires block.betSize in BetSizes && block.multiplier in Table
      requires |draws| == ExplosionSize && forall d :: d in draws ==> UnitDraw(d)
      modifies this, fx
      ensures Valid()
      ensures balance == old(balance) + WinAmount(block) && balance > old(balance)
      ensures totalWonAmount == old(totalWonAmount) + WinAmount(block)
      ensures totalWins == old(totalWins) + 1 && totalLosses == old(totalLosses)
      ensures toasts == AddToast(old(toasts), Toast(Credited(WinAmount(block)), WinToast))
      ensures fx.particles == old(fx.particles) + Explosion(HeadX(dims), HeadY(dims), draws)
      ensures fx.impacts == old(fx.impacts) + [Impact(HeadX(dims), HeadY(dims), now)]
      ensures blocks == old(blocks) && totalWagered == old(totalWagered) && selectedBet == old(selectedBet)
      ensures viewOffsetX == old(viewOffsetX) && currentPriceY == old(currentPriceY)
      ensures priceVelocity == old(priceVelocity) && priceTrail == old(priceTrail)
      ensures globalYOffset == old(globalYOffset) && lastTime == old(lastTime) && dims == old(dims)
      ensures hoverCell == old(hoverCell) && isDragging == old(isDragging)
      ensures lastPlacedCell == old(lastPlacedCell)
    {
      Credit(block);
      fx.SpawnExplosion(HeadX(dims), HeadY(dims), now, draws);
    }

    /** Book a loss: count it and notify with the stake lost. */
    method CountLoss(block: Block)
      requires Valid()
      modifies this
      ensures Valid()
      ensures totalLosses == old(totalLosses) + 1 && totalWins == old(totalWins)
      ensures toasts == AddToast(old(toasts), Toast(Debited(block.betSize), LossToast))
      ensures balance == old(balance) && totalWonAmount == old(totalWonAmount)
      ensures blocks == old(blocks) && totalWagered == old(totalWagered) && selectedBet == old(selectedBet)
      ensures viewOffsetX == old(viewOffsetX) && currentPriceY == old(currentPriceY)
      ensures priceVelocity == old(priceVelocity) && priceTrail == old(priceTrail)
      ensures globalYOffset == old(globalYOffset) && lastTime == old(lastTime) && dims == old(dims)
      ensures hoverCell == old(hoverCell) && isDragging == old(isDragging)
      ensures lastPlacedCell == old(lastPlacedCell)
    {
      totalLosses := totalLosses + 1;
      toasts := AddToast(toasts, Toast(Debited(block.betSize), LossToast));
    }

    /** Book the outcome of a settlement; a quiet frame changes nothing. */
    method RecordOutcome(outcome: Outcome, now: real, draws: seq<Draw>)
      requires Valid()
      requires outcome != Quiet ==> outcome.block.betSize in BetSizes && outcome.block.multiplier in Table
      requires |draws| == ExplosionSize && forall d :: d in draws ==> UnitDraw(d)
      modifies this, fx
      ensures Valid()
      ensures outcome.Win? ==>
        balance == old(balance) + WinAmount(outcome.block)
        && totalWonAmount == old(totalWonAmount) + WinAmount(outcome.block)
        && totalWins == old(totalWins) + 1 && totalLosses == old(totalLosses)
        && toasts == AddToast(old(toasts), Toast(Credited(WinAmount(outcome.block)), WinToast))
        && fx.particles == old(fx.particles) + Explosion(HeadX(dims), HeadY(dims), draws)
        && fx.impacts == old(fx.impacts) + [Impact(HeadX(dims), HeadY(dims), now)]
      ensures outcome.Loss? ==>
        balance == old(balance) && totalWonAmount == old(totalWonAmount)
        && totalWins == old(totalWins) && totalLosses == old(totalLosses) + 1
        && toasts == AddToast(old(toasts), Toast(Debited(outcome.block.betSize), LossToast))
      ensures outcome.Quiet? ==>
        balance == old(balance) && totalWonAmount == old(totalWonAmount)
        && totalWins == old(totalWins) && totalLosses == old(totalLosses) && toasts == old(toasts)
      ensures !outcome.Win? ==> fx.particles == old(fx.particles) && fx.impacts == old(fx.impacts)
      ensures blocks == old(blocks) && totalWagered == old(totalWagered) && selectedBet == old(selectedBet)
      ensures viewOffsetX == old(viewOffsetX) && currentPriceY == old(currentPriceY)
      ensures priceVelocity == old(priceVelocity) && priceTrail == old(priceTrail)
      ensures globalYOffset == old(globalYOffset) && lastTime == old(lastTime) && dims == old(dims)
      ensures hoverCell == old(hoverCell) && isDragging == old(isDragging)
      ensures lastPlacedCell == old(lastPlacedCell)
    {
      match outcome {
        case Quiet =>
        case Win(block) => CreditWin(block, now, draws);
        case Loss(block) => CountLoss(block);
      }
    }

    /**
     * The settlement part of a frame: resolve the bets against the price
     * line and the price, then book the outcome.
     */
    method SettleBets(now: real, draws: seq<Draw>) returns (outcome: Outcome)
      requires Valid()
      requires |draws| == ExplosionSize && forall d :: d in draws ==> UnitDraw(d)
      modifies this, fx
      ensures Valid()
      ensures blocks == Resolve(old(blocks), PriceLineColumn(viewOffsetX, dims), currentPriceY, now).0
      ensures outcome == Resolve(old(blocks), PriceLineColumn(viewOffsetX, dims), currentPriceY, now).1
      ensures outcome.Win? ==>
        balance == old(balance) + WinAmount(outcome.block)
        && totalWonAmount == old(totalWonAmount) + WinAmount(outcome.block)
        && totalWins == old(totalWins) + 1 && totalLosses == old(totalLosses)
        && toasts == AddToast(old(toasts), Toast(Credited(WinAmount(outcome.block)), WinToast))
        && fx.particles == old(fx.particles) + Explosion(HeadX(dims), HeadY(dims), draws)
        && fx.impacts == old(fx.impacts) + [Impact(HeadX(dims), HeadY(dims), now)]
      ensures outcome.Loss? ==>
        balance == old(balance) && totalWonAmount == old(totalWonAmount)
        && totalWins == old(totalWins) && totalLosses == old(totalLosses) + 1
        && toasts == AddToast(old(toasts), Toast(Debited(outcome.block.betSize), LossToast))
      ensures outcome.Quiet? ==>
        balance == old(balance) && totalWonAmount == old(totalWonAmount)
        && totalWins == old(totalWins) && totalLosses == old(totalLosses) && toasts == old(toasts)
      ensures !outcome.Win? ==> fx.particles == old(fx.particles) && fx.impacts == old(fx.impacts)
      ensures totalWagered == old(totalWagered) && selectedBet == old(selectedBet)
      ensures viewOffsetX == old(viewOffsetX) && currentPriceY == old(currentPriceY)
      ensures priceVelocity == old(priceVelocity) && priceTrail == old(priceTrail)
      ensures globalYOffset == old(globalYOffset) && lastTime == old(lastTime) && dims == old(dims)
      ensures hoverCell == old(hoverCell) && isDragging == old(isDragging)
      ensures lastPlacedCell == old(lastPlacedCell)
    {
      outcome := ResolveAtLine(now);
      RecordOutcome(outcome, now, draws);
    }

    /** Resolve the bets against the price line and the price; only the bets change. */
    method ResolveAtLine(now: real) returns (outcome: Outcome)
      requires Valid()
      modifies this
      ensures Valid()
      ensures blocks == Resolve(old(blocks), PriceLineColumn(viewOffsetX, dims), currentPriceY, now).0
      ensures outcome == Resolve(old(blocks), PriceLineColumn(viewOffsetX, dims), currentPriceY, now).1
      ensures outcome != Quiet ==> outcome.block.betSize in BetSizes && outcome.block.multiplier in Table
      ensures balance == old(balance) && totalWonAmount == old(totalWonAmount)
      ensures totalWins == old(totalWins) && totalLosses == old(totalLosses) && toasts == old(toasts)
      ensures totalWagered == old(totalWagered) && selectedBet == old(selectedBet)
      ensures viewOffsetX == old(viewOffsetX) && currentPriceY == old(currentPriceY)
      ensures priceVelocity == old(priceVelocity) && priceTrail == old(priceTrail)
      ensures globalYOffset == old(globalYOffset) && lastTime == old(lastTime) && dims == old(dims)
      ensures hoverCell == old(hoverCell) && isDragging == old(isDragging)
      ensures lastPlacedCell == old(lastPlacedCell)
    {
      var priceLineGridX := PriceLineColumn(viewOffsetX, dims);
      var result;
      result, outcome := ResolveBlocks(blocks, priceLineGridX, currentPriceY, now);
      ResolvePreservesOnePendingPerCell(blocks, priceLineGridX, currentPriceY, now);
      ResolveKeepsPrices(blocks, priceLineGridX, currentPriceY, now);
      blocks := result;
    }

    /** The clock and price part of a frame: scroll, then move the price and its trail. */
    method MoveWorld(timestamp: real, drift: real, shockRoll: real, shockDraw: real)
      requires Valid() && lastTime <= timestamp
      modifies this
      ensures Valid()
      ensures lastTime == timestamp
      ensures viewOffsetX == old(viewOffsetX) + ScrollRate * FrameDelta(timestamp, old(lastTime))
      ensures priceVelocity == StepVelocity(RefinedDynamics, old(priceVelocity), shockRoll, shockDraw)
      ensures currentPriceY == old(currentPriceY) + drift + priceVelocity
      ensures globalYOffset == CentreOffset(currentPriceY, dims)
      ensures priceTrail == AdvanceTrail(old(priceTrail), ScrollRate * FrameDelta(timestamp, old(lastTime)), currentPriceY, TrailSpan(dims))
      ensures balance == old(balance) && blocks == old(blocks) && toasts == old(toasts)
      ensures selectedBet == old(selectedBet) && dims == old(dims)
      ensures totalWins == old(totalWins) && totalLosses == old(totalLosses)
      ensures totalWagered == old(totalWagered) && totalWonAmount == old(totalWonAmount)
      ensures hoverCell == old(hoverCell) && isDragging == old(isDragging)
      ensures lastPlacedCell == old(lastPlacedCell)
    {
      var step := Scroll(timestamp);
      MovePrice(step, drift, shockRoll, shockDraw);
    }

    /**
     * The settlement and effects part of a frame: settle and book at most
     * one bet, then expire old impacts and advance the particles, the win's
     * explosion included.
     */
    method SettleAndAnimate(now: real, draws: seq<Draw>) returns (outcome: Outcome)
      requires Valid()
      requires |draws| == ExplosionSize && forall d :: d in draws ==> UnitDraw(d)
      modifies this, fx
      ensures Valid()
      ensures blocks == Resolve(old(blocks), PriceLineColumn(viewOffsetX, dims), currentPriceY, now).0
      ensures outcome == Resolve(old(blocks), PriceLineColumn(viewOffsetX, dims), currentPriceY, now).1
      ensures balance == old(balance) + (if outcome.Win? then WinAmount(outcome.block) else 0.0)
      ensures totalWonAmount == old(totalWonAmount) + (if outcome.Win? then WinAmount(outcome.block) else 0.0)
      ensures totalWins == old(totalWins) + (if outcome.Win? then 1 else 0)
      ensures totalLosses == old(totalLosses) + (if outcome.Loss? then 1 else 0)
      ensures toasts == Notified(old(toasts), outcome)
      ensures outcome.Win? ==>
        Advanceable(old(fx.particles) + Explosion(HeadX(dims), HeadY(dims), draws))
        && fx.particles == Survivors(old(fx.particles) + Explosion(HeadX(dims), HeadY(dims), draws))
        && fx.impacts == LiveImpacts(old(fx.impacts) + [Impact(HeadX(dims), HeadY(dims), now)], now)
      ensures !outcome.Win? ==>
        Advanceable(old(fx.particles)) && fx.particles == Survivors(old(fx.particles))
        && fx.impacts == LiveImpacts(old(fx.impacts), now)
      ensures totalWagered == old(totalWagered) && selectedBet == old(selectedBet)
      ensures viewOffsetX == old(viewOffsetX) && currentPriceY == old(currentPriceY)
      ensures priceVelocity == old(priceVelocity) && priceTrail == old(priceTrail)
      ensures globalYOffset == old(globalYOffset) && lastTime == old(lastTime) && dims == old(dims)
      ensures hoverCell == old(hoverCell) && isDragging == old(isDragging)
      ensures lastPlacedCell == old(lastPlacedCell)
    {
      outcome := SettleBets(now, draws);
      AnimateEffects(now);
    }

    /** The effects part of a frame: expire old impacts and advance the particles. */
    method AnimateEffects(now: real)
      requires Valid()
      modifies fx
      ensures Valid()
      ensures Advanceable(old(fx.particles)) && fx.particles == Survivors(old(fx.particles))
      ensures fx.impacts == LiveImpacts(old(fx.impacts), now)
    {
      fx.ExpireImpacts(now);
      fx.UpdateParticles();
    }

    /**
     * One animation frame: advance the clock and the price, settle the
     * bets, then expire old impacts and advance the particles.
     */
    method Tick(timestamp: real, now: real, drift: real, shockRoll: real, shockDraw: real, draws: seq<Draw>)
      returns (outcome: Outcome)
      requires Valid() && lastTime <= timestamp
      requires |draws| == ExplosionSize && forall d :: d in draws ==> UnitDraw(d)
      modifies this, fx
      ensures Valid()
      ensures lastTime == timestamp
      ensures viewOffsetX == old(viewOffsetX) + ScrollRate * FrameDelta(timestamp, old(lastTime))
      ensures priceVelocity == StepVelocity(RefinedDynamics, old(priceVelocity), shockRoll, shockDraw)
      ensures currentPriceY == old(currentPriceY) + drift + priceVelocity
      ensures globalYOffset == CentreOffset(currentPriceY, dims)
      ensures priceTrail == AdvanceTrail(old(priceTrail), ScrollRate * FrameDelta(timestamp, old(lastTime)), currentPriceY, TrailSpan(dims))
      ensures blocks == Resolve(old(blocks), PriceLineColumn(viewOffsetX, dims), currentPriceY, now).0
      ensures outcome == Resolve(old(blocks), PriceLineColumn(viewOffsetX, dims), currentPriceY, now).1
      ensures balance == old(balance) + (if outcome.Win? then WinAmount(outcome.block) else 0.0)
      ensures totalWonAmount == old(totalWonAmount) + (if outcome.Win? then WinAmount(outcome.block) else 0.0)
      ensures totalWins == old(totalWins) + (if outcome.Win? then 1 else 0)
      ensures totalLosses == old(totalLosses) + (if outcome.Loss? then 1 else 0)
      ensures toasts == Notified(old(toasts), outcome)
      ensures outcome.Win? ==>
        Advanceable(old(fx.particles) + Explosion(HeadX(dims), HeadY(dims), draws))
        && fx.particles == Survivors(old(fx.particles) + Explosion(HeadX(dims), HeadY(dims), draws))
        && fx.impacts == LiveImpacts(old(fx.impacts) + [Impact(HeadX(dims), HeadY(dims), now)], now)
      ensures !outcome.Win? ==>
        Advanceable(old(fx.particles)) && fx.particles == Survivors(old(fx.particles))
        && fx.impacts == LiveImpacts(old(fx.impacts), now)
      ensures totalWagered == old(totalWagered) && selectedBet == old(selectedBet) && dims == old(dims)
      ensures hoverCell == old(hoverCell) && isDragging == old(isDragging)
      ensures lastPlacedCell == old(lastPlacedCell)
    {
      MoveWorld(timestamp, drift, shockRoll, shockDraw);
      outcome := SettleAndAnimate(now, draws);
    }

    /**
     * Since the earlier state, exactly one bet of the selected stake went on
     * (gx, gy): it was appended and debited, its cell became the last placed
     * cell, and an explosion went off at the cell's centre on screen.
     */
    twostate predicate PlacedBet(gx: int, gy: int, id: nat, now: real, draws: seq<Draw>)
      requires |draws| == ExplosionSize
      reads this, fx
    {
      var centre := GridToScreen(dims, viewOffsetX, globalYOffset, gx, gy);
      blocks == old(blocks) + [Block(id, gx, gy, FrozenMultiplier(gy, currentPriceY), selectedBet, Pending, now)]
      && balance == old(balance) - selectedBet && totalWagered == old(totalWagered) + selectedBet
      && lastPlacedCell == Some(Cell(gx, gy))
      && fx.particles == old(fx.particles) + Explosion(centre.sx, centre.sy, draws)
      && fx.impacts == old(fx.impacts) + [Impact(centre.sx, centre.sy, now)]
    }

    /** Since the earlier state, no bet went on: bets, books, last placed cell and effects are as they were. */
    twostate predicate NoBet()
      reads this, fx
    {
      blocks == old(blocks) && balance == old(balance) && totalWagered == old(totalWagered)
      && lastPlacedCell == old(lastPlacedCell)
      && fx.particles == old(fx.particles) && fx.impacts == old(fx.impacts)
    }

    /**
     * The part both pointer handlers share once they have picked a cell:
     * try a bet on (gx, gy); a placed bet becomes the last placed cell and
     * sets off an explosion at the cell's centre on screen.
     */
    method PlaceWithExplosion(gx: int, gy: int, id: nat, now: real, draws: seq<Draw>) returns (placed: bool)
      requires Valid()
      requires |draws| == ExplosionSize && forall d :: d in draws ==> UnitDraw(d)
      modifies this, fx
      ensures Valid()
      ensures placed <==>
        gx as real >= PriceLineColumn(viewOffsetX, dims)
        && !HasPendingAt(old(blocks), gx, gy)
        && old(balance) >= selectedBet
      ensures placed ==> PlacedBet(gx, gy, id, now, draws) && toasts == old(toasts)
      ensures !placed ==>
        NoBet()
        && toasts == (if gx as real >= PriceLineColumn(viewOffsetX, dims)
                         && !HasPendingAt(old(blocks), gx, gy)
                      then AddToast(old(toasts), Toast(InsufficientBalance, LossToast))
                      else old(toasts))
      ensures selectedBet == old(selectedBet) && totalWonAmount == old(totalWonAmount)
      ensures totalWins == old(totalWins) && totalLosses == old(totalLosses)
      ensures viewOffsetX == old(viewOffsetX) && currentPriceY == old(currentPriceY)
      ensures priceVelocity == old(priceVelocity) && priceTrail == old(priceTrail)
      ensures globalYOffset == old(globalYOffset) && lastTime == old(lastTime) && dims == old(dims)
      ensures hoverCell == old(hoverCell) && isDragging == old(isDragging)
    {
      placed := PlaceBlock(gx, gy, id, now);
      if placed {
        lastPlacedCell := Some(Cell(gx, gy));
        var centre := GridToScreen(dims, viewOffsetX, globalYOffset, gx, gy);
        fx.SpawnExplosion(centre.sx, centre.sy, now, draws);
      }
    }

    /**
     * Pointer pressed at (px, py). Off the grid nothing happens. On it, a
     * cell left of the price line or a stake above the balance only
     * notifies; otherwise dragging starts and a bet with its explosion is
     * tried on the cell, which only an existing pending bet there refuses.
     */
    method PointerDown(px: real, py: real, id: nat, now: real, draws: seq<Draw>)
      requires Valid()
      requires |draws| == ExplosionSize && forall d :: d in draws ==> UnitDraw(d)
      modifies this, fx
      ensures Valid()
      ensures var hit := PointerToGrid(old(dims), old(viewOffsetX), old(globalYOffset), px, py);
              !(hit.Some? && hit.value.inGrid) ==>
                NoBet() && toasts == old(toasts) && isDragging == old(isDragging)
      ensures var hit := PointerToGrid(old(dims), old(viewOffsetX), old(globalYOffset), px, py);
              hit.Some? && hit.value.inGrid
              && (hit.value.gridX as real < PriceLineColumn(old(viewOffsetX), old(dims))
                  || old(balance) < old(selectedBet)) ==>
                NoBet() && isDragging == old(isDragging)
                && toasts == AddToast(old(toasts),
                                      if hit.value.gridX as real < PriceLineColumn(old(viewOffsetX), old(dims))
                                      then Toast(AheadOfLine, LossToast)
                                      else Toast(InsufficientBalance, LossToast))
      ensures var hit := PointerToGrid(old(dims), old(viewOffsetX), old(globalYOffset), px, py);
              hit.Some? && hit.value.inGrid
              && hit.value.gridX as real >= PriceLineColumn(old(viewOffsetX), old(dims))
              && old(balance) >= old(selectedBet) ==>
                isDragging && toasts == old(toasts)
                && (HasPendingAt(old(blocks), hit.value.gridX, hit.value.gridY) ==> NoBet())
                && (!HasPendingAt(old(blocks), hit.value.gridX, hit.value.gridY) ==>
                      PlacedBet(hit.value.gridX, hit.value.gridY, id, now, draws))
      ensures totalWins == old(totalWins) && totalLosses == old(totalLosses) && totalWonAmount == old(totalWonAmount)
      ensures MotionKept() && dims == old(dims) && selectedBet == old(selectedBet) && hoverCell == old(hoverCell)
    {
      var hit := PointerToGrid(dims, viewOffsetX, globalYOffset, px, py);
      if hit.None? || !hit.value.inGrid {
        return;
      }
      var gx, gy := hit.value.gridX, hit.value.gridY;
      var priceLineGridX := PriceLineColumn(viewOffsetX, dims);
      if (gx as real) < priceLineGridX {
        toasts := AddToast(toasts, Toast(AheadOfLine, LossToast));
        return;
      }
      if balance < selectedBet {
        toasts := AddToast(toasts, Toast(InsufficientBalance, LossToast));
        return;
      }
      isDragging := true;
      var _ := PlaceWithExplosion(gx, gy, id, now, draws);
    }

    /**
     * Pointer moved to (px, py). Off the grid the hover highlight clears;
     * on it the hovered cell is recorded and, while dragging with enough
     * balance, a bet with its explosion is tried on a cell ahead of the
     * line unless it is the cell the last bet went to.
     */
    method PointerMove(px: real, py: real, id: nat, now: real, draws: seq<Draw>)
      requires Valid()
      requires |draws| == ExplosionSize && forall d :: d in draws ==> UnitDraw(d)
      modifies this, fx
      ensures Valid()
      ensures var hit := PointerToGrid(old(dims), old(viewOffsetX), old(globalYOffset), px, py);
              hoverCell == (if hit.Some? && hit.value.inGrid then Some(Cell(hit.value.gridX, hit.value.gridY)) else None)
      ensures var hit := PointerToGrid(old(dims), old(viewOffsetX), old(globalYOffset), px, py);
              var tries := hit.Some? && hit.value.inGrid && old(isDragging) && old(balance) >= old(selectedBet)
                           && hit.value.gridX as real >= PriceLineColumn(old(viewOffsetX), old(dims))
                           && old(lastPlacedCell) != Some(Cell(hit.value.gridX, hit.value.gridY));
              (tries && !HasPendingAt(old(blocks), hit.value.gridX, hit.value.gridY) ==>
                 PlacedBet(hit.value.gridX, hit.value.gridY, id, now, draws))
              && (!(tries && !HasPendingAt(old(blocks), hit.value.gridX, hit.value.gridY)) ==> NoBet())
      ensures toasts == old(toasts) && isDragging == old(isDragging)
      ensures totalWins == old(totalWins) && totalLosses == old(totalLosses) && totalWonAmount == old(totalWonAmount)
      ensures MotionKept() && dims == old(dims) && selectedBet == old(selectedBet)
    {
      var hit := PointerToGrid(dims, viewOffsetX, globalYOffset, px, py);
      if hit.None? || !hit.value.inGrid {
        hoverCell := None;
        return;
      }
      var gx, gy := hit.value.gridX, hit.value.gridY;
      hoverCell := Some(Cell(gx, gy));
      if isDragging && balance >= selectedBet {
        var priceLineGridX := PriceLineColumn(viewOffsetX, dims);
        if gx as real >= priceLineGridX {
          if lastPlacedCell != Some(Cell(gx, gy)) {
            var _ := PlaceWithExplosion(gx, gy, id, now, draws);
          }
        }
      }
    }

    /** Pointer released: dragging stops and the debounce cell is forgotten. */
    method PointerUp()
      requires Valid()
      modifies this
      ensures Valid() && !isDragging && lastPlacedCell == None
      ensures hoverCell == old(hoverCell) && blocks == old(blocks) && balance == old(balance)
      ensures toasts == old(toasts) && selectedBet == old(selectedBet)
      ensures TotalsKept() && MotionKept() && dims == old(dims)
      ensures fx.particles == old(fx.particles) && fx.impacts == old(fx.impacts)
    {
      isDragging := false;
      lastPlacedCell := None;
    }

    /** Pointer left the canvas: as a release, and the hover highlight clears. */
    method PointerLeave()
      requires Valid()
      modifies this
      ensures Valid() && !isDragging && lastPlacedCell == None && hoverCell == None
      ensures blocks == old(blocks) && balance == old(balance) && toasts == old(toasts)
      ensures selectedBet == old(selectedBet) && TotalsKept() && MotionKept() && dims == old(dims)
      ensures fx.particles == old(fx.particles) && fx.impacts == old(fx.impacts)
    {
      hoverCell := None;
      isDragging := false;
      lastPlacedCell := None;
    }
  }
}
