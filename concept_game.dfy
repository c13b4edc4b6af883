/**
 * The reference variant of the game: one session's mutable state and the
 * operations on it. Bets are placed by clicking (and dragging over) cells
 * of an eight-column grid ahead of the price line; every animation frame
 * scrolls the grid, moves the price, resolves every pending bet the line
 * has reached, and moves the particles; a periodic cleanup drops pending
 * bets left far behind the line.
 */
module ConceptGame {
  import opened Wrappers
  import opened Numeric
  import opened Payout
  import opened PriceProcess
  import opened ConceptParticles
  import opened ConceptGrid
  import opened ConceptBets
  import Ledger
  import Viewport

  /** The price starts in the middle of the twelve rows. */
  const InitialPriceY: real := GridRows as real / 2.0
  /** Stake selected when the game starts. */
  const InitialBet: real := 5.0
  /** The price trail reaches this far (in pixels) beyond the price line's offset. */
  const TrailMargin: real := 50.0

  /**
   * The velocity is within its limit, the clock and the scroll never go
   * negative, and the price trail is newest first with non-negative ages.
   */
  ghost predicate Motion(velocity: real, offsetX: real, lastTime: real, trail: seq<TrailPoint>)
  {
    -ConceptDynamics.limit <= velocity <= ConceptDynamics.limit
    && 0.0 <= offsetX && 0.0 <= lastTime
    && NewestFirst(trail) && (forall p :: p in trail ==> 0.0 <= p.age)
  }

  /** One trail update keeps the motion invariant, and leads the trail with the new price when the age limit is positive. */
  lemma {:induction false} TrailStep(velocity: real, offsetX: real, lastTime: real, trail: seq<TrailPoint>,
                                     step: real, y: real, maxAge: real, velocity': real)
    requires Motion(velocity, offsetX, lastTime, trail)
    requires 0.0 <= step
    requires -ConceptDynamics.limit <= velocity' <= ConceptDynamics.limit
    ensures Motion(velocity', offsetX, lastTime, AdvanceTrail(trail, step, y, maxAge))
    ensures var t := AdvanceTrail(trail, step, y, maxAge); 0.0 < maxAge ==> t != [] && t[0] == TrailPoint(y, 0.0)
  {
    AdvanceTrailInvariant(trail, step, y, maxAge);
  }

  /** The price head on screen, where a win's burst starts. */
  function HeadX(d: Dims): real
  {
    Padding + d.gridWidth * Viewport.PriceLinePosition
  }

  function HeadY(d: Dims): real
  {
    Padding + d.gridHeight / 2.0
  }

  /** The oldest trail age kept: the trail reaches a little beyond the price line's offset. */
  function TrailSpan(d: Dims): real
  {
    d.gridWidth * Viewport.PriceLinePosition + TrailMargin
  }

  /** The grid's vertical offset in pixels: the price's distance from the middle row, in cell heights. */
  function OffsetY(priceY: real, d: Dims): real
  {
    (priceY - InitialPriceY) * d.cellHeight
  }

  /** Every particle is well formed. */
  ghost predicate Sparks(ps: seq<Particle>)
  {
    forall p :: p in ps ==> WellFormed(p)
  }

  /**
   * What the frame's pass keeps: the bets stay well priced, a non-negative
   * balance stays non-negative, at most three notifications show, and the
   * new bursts are well formed.
   */
  lemma SweepKeepsInvariant(bs: seq<Bet>, lucks: seq<Luck>, line: real, priceY: real, hx: real, hy: real,
                            toasts: seq<Ledger.Toast>, balance: real, ps: seq<Particle>)
    requires |lucks| == |bs| && FullBursts(lucks) && WellPriced(bs) && |toasts| <= 3
    requires 0.0 <= balance && Sparks(ps)
    ensures var s := SweepAll(bs, lucks, line, priceY, hx, hy, toasts);
            s.bets == JudgeAll(bs, line, priceY, lucks) && WellPriced(s.bets)
            && s.won == Payouts(bs, line, priceY, lucks) && 0.0 <= balance + s.won
            && |s.burst| == BurstSize * NewWins(bs, line, priceY, lucks) && Sparks(ps + s.burst)
            && |s.toasts| <= 3
  {
    SweepJudgesAll(bs, lucks, line, priceY, hx, hy, toasts);
    SweepPaysOut(bs, lucks, line, priceY, hx, hy, toasts);
    SweepBursts(bs, lucks, line, priceY, hx, hy, toasts);
    SweepToasts(bs, lucks, line, priceY, hx, hy, toasts);
    PayoutsNonNegative(bs, line, priceY, lucks);
    JudgeAllKeepsPrices(bs, line, priceY, lucks);
  }

  /** The pointer aims at one of the eight visible columns, within the grid rows. */
  predicate OnBoard(o: Option<Aim>)
  {
    o.Some? && 0 <= o.value.col < GridCols && o.value.inGrid
  }

  /** The frame's particle pass, as the source's filter runs it: move every particle and keep those still visible. */
  method Animate(ps: seq<Particle>) returns (kept: seq<Particle>)
    requires Updatable(ps)
    ensures kept == NextFrame(ps)
  {
    kept := [];
    for i := 0 to |ps|
      invariant kept == NextFrame(ps[..i])
    {
      assert ps[..i + 1][..i] == ps[..i];
      var q := Update(ps[i]);
      if Visible(q) {
        kept := kept + [q];
      }
    }
    assert ps[..|ps|] == ps;
  }

  class Game {
    var balance: real
    var selectedBet: real
    var blocks: seq<Bet>
    var toasts: seq<Ledger.Toast>

    /** Horizontal scroll in pixels; the world moves left under a fixed price line. */
    var viewOffsetX: real
    /** The price, in fractional rows. */
    var currentPriceY: real
    var priceVelocity: real
    var priceTrail: seq<TrailPoint>
    var globalYOffset: real
    var lastTime: real
    var dims: Dims
    var particles: seq<Particle>

    var hoverCell: Option<Aim>
    var isDragging: bool
    var lastPlacedCell: Option<Cell>

    /**
     * The session invariant: the balance is never negative, the stake is
     * an offered one, cells are square, every bet is well priced, the price
     * motion is within its limits, every particle is well formed, and at
     * most three notifications are shown.
     */
    ghost predicate Valid()
      reads this
    {
      0.0 <= balance
      && selectedBet in Ledger.BetSizes
      && dims.cellHeight == dims.cellWidth
      && WellPriced(blocks)
      && Motion(priceVelocity, viewOffsetX, lastTime, priceTrail)
      && Sparks(particles)
      && |toasts| <= 3
    }

    /** Since the earlier state, the scroll, the price with its motion and trail, and the clock are as they were. */
    twostate predicate MotionKept()
      reads this
    {
      viewOffsetX == old(viewOffsetX) && currentPriceY == old(currentPriceY)
      && priceVelocity == old(priceVelocity) && priceTrail == old(priceTrail)
      && globalYOffset == old(globalYOffset) && lastTime == old(lastTime)
    }

    /** A fresh session, before the first resize. */
    constructor()
      ensures Valid()
      ensures balance == Ledger.StartingBalance && selectedBet == InitialBet
      ensures blocks == [] && toasts == [] && particles == []
      ensures viewOffsetX == 0.0 && currentPriceY == InitialPriceY && priceVelocity == 0.0
      ensures priceTrail == [] && globalYOffset == 0.0 && lastTime == 0.0 && dims == Unsized
      ensures hoverCell == None && !isDragging && lastPlacedCell == None
    {
      balance := Ledger.StartingBalance;
      selectedBet := InitialBet;
      blocks := [];
      toasts := [];
      viewOffsetX := 0.0;
      currentPriceY := InitialPriceY;
      priceVelocity := 0.0;
      priceTrail := [];
      globalYOffset := 0.0;
      lastTime := 0.0;
      dims := Unsized;
      particles := [];
      hoverCell := None;
      isDragging := false;
      lastPlacedCell := None;
    }

    /** Choose one of the offered stakes. */
    method SelectBet(size: real)
      requires Valid() && size in Ledger.BetSizes
      modifies this
      ensures Valid() && selectedBet == size
      ensures balance == old(balance) && blocks == old(blocks) && toasts == old(toasts)
      ensures MotionKept() && dims == old(dims) && particles == old(particles)
      ensures hoverCell == old(hoverCell) && isDragging == old(isDragging)
      ensures lastPlacedCell == old(lastPlacedCell)
    {
      selectedBet := size;
    }

    /** Recompute the geometry for a new container size; a container with no area is ignored. */
    method Resize(width: real, height: real)
      requires Valid()
      modifies this
      ensures Valid()
      ensures dims == if width > 0.0 && height > 0.0 then Resized(width, height) else old(dims)
      ensures balance == old(balance) && blocks == old(blocks) && toasts == old(toasts)
      ensures selectedBet == old(selectedBet) && MotionKept() && particles == old(particles)
      ensures hoverCell == old(hoverCell) && isDragging == old(isDragging)
      ensures lastPlacedCell == old(lastPlacedCell)
    {
      if width > 0.0 && height > 0.0 {
        dims := Resized(width, height);
      }
    }

    /**
     * Place a bet of the selected stake on cell (gx, gy). Only a cell left
     * of the price line is refused. A pending bet already on the cell does
     * not stop it. When the balance covers the stake it is debited;
     * otherwise a notification is shown and nothing is debited, yet the
     * bet is still added.
     */
    method PlaceBlock(gx: int, gy: int, id: nat) returns (placed: bool)
      requires Valid() && dims.cellWidth != 0.0
      modifies this
      ensures Valid() && dims == old(dims) && viewOffsetX == old(viewOffsetX)
      ensures placed <==> gx as real >= LineColumn(viewOffsetX, dims.cellWidth).value
      ensures placed ==>
        blocks == old(blocks) + [Bet(id, gx, gy, FrozenMultiplier(gy, currentPriceY), selectedBet, Pending)]
      ensures placed && old(balance) >= selectedBet ==>
        balance == old(balance) - selectedBet && toasts == old(toasts)
      ensures placed && old(balance) < selectedBet ==>
        balance == old(balance)
        && toasts == Ledger.AddToast(old(toasts), Ledger.Toast(Ledger.InsufficientBalance, Ledger.LossToast))
      ensures !placed ==> balance == old(balance) && blocks == old(blocks) && toasts == old(toasts)
      ensures selectedBet == old(selectedBet) && particles == old(particles)
      ensures viewOffsetX == old(viewOffsetX) && currentPriceY == old(currentPriceY)
      ensures priceVelocity == old(priceVelocity) && priceTrail == old(priceTrail)
      ensures globalYOffset == old(globalYOffset) && lastTime == old(lastTime) && dims == old(dims)
      ensures hoverCell == old(hoverCell) && isDragging == old(isDragging)
      ensures lastPlacedCell == old(lastPlacedCell)
    {
      var priceLineGridX := LineColumn(viewOffsetX, dims.cellWidth).value;
      if (gx as real) < priceLineGridX {
        return false;
      }
      if balance < selectedBet {
        toasts := Ledger.AddToast(toasts, Ledger.Toast(Ledger.InsufficientBalance, Ledger.LossToast));
      } else {
        balance := balance - selectedBet;
      }
      blocks := blocks + [Bet(id, gx, gy, FrozenMultiplier(gy, currentPriceY), selectedBet, Pending)];
      return true;
    }

    /** Add a burst of 24 fresh particles at (x, y). */
    method SpawnParticles(x: real, y: real, draws: seq<BurstDraw>)
      requires Valid() && |draws| == BurstSize
      modifies this
      ensures Valid()
      ensures particles == old(particles) + Burst(x, y, draws)
      ensures balance == old(balance) && blocks == old(blocks) && toasts == old(toasts)
      ensures selectedBet == old(selectedBet) && dims == old(dims)
      ensures viewOffsetX == old(viewOffsetX) && currentPriceY == old(currentPriceY)
      ensures priceVelocity == old(priceVelocity) && priceTrail == old(priceTrail)
      ensures globalYOffset == old(globalYOffset) && lastTime == old(lastTime)
      ensures hoverCell == old(hoverCell) && isDragging == old(isDragging)
      ensures lastPlacedCell == old(lastPlacedCell)
    {
      var spawned: seq<Particle> := [];
      for i := 0 to BurstSize
        invariant |spawned| == i
        invariant forall k :: 0 <= k < i ==> spawned[k] == Fresh(x, y, draws[k])
      {
        spawned := spawned + [Fresh(x, y, draws[i])];
      }
      assert spawned == Burst(x, y, draws);
      particles := particles + spawned;
    }

    /**
     * The clock part of a frame: clamp the frame delta and scroll the world
     * left by the distance `step` it covers.
     */
    method Scroll(timestamp: real) returns (step: real)
      requires Valid() && lastTime <= timestamp
      modifies this
      ensures Valid()
      ensures step == ScrollRate * FrameDelta(timestamp, old(lastTime))
      ensures 0.0 <= step <= ScrollRate * MaxFrameDelta
      ensures lastTime == timestamp && viewOffsetX == old(viewOffsetX) + step
      ensures currentPriceY == old(currentPriceY) && priceVelocity == old(priceVelocity)
      ensures priceTrail == old(priceTrail) && globalYOffset == old(globalYOffset)
      ensures balance == old(balance) && blocks == old(blocks) && toasts == old(toasts)
      ensures selectedBet == old(selectedBet) && dims == old(dims) && particles == old(particles)
      ensures hoverCell == old(hoverCell) && isDragging == old(isDragging)
      ensures lastPlacedCell == old(lastPlacedCell)
    {
      var delta := FrameDelta(timestamp, lastTime);
      step := ScrollRate * delta;
      lastTime := timestamp;
      viewOffsetX := viewOffsetX + step;
    }

    /**
     * The price part of a frame: step the velocity, move the price by the
     * drift plus the velocity, offset the grid vertically by the price's
     * distance from the middle row, and extend the price trail, aged by the
     * scrolled distance `step`.
     */
    method MovePrice(step: real, drift: real, shockRoll: real, shockDraw: real)
      requires Valid() && 0.0 <= step
      modifies this
      ensures Valid()
      ensures priceVelocity == StepVelocity(ConceptDynamics, old(priceVelocity), shockRoll, shockDraw)
      ensures currentPriceY == old(currentPriceY) + drift + priceVelocity
      ensures globalYOffset == OffsetY(currentPriceY, dims)
      ensures priceTrail == AdvanceTrail(old(priceTrail), step, currentPriceY,
                                         TrailSpan(dims))
      ensures TrailSpan(dims) > 0.0 ==>
        priceTrail != [] && priceTrail[0] == TrailPoint(currentPriceY, 0.0)
      ensures lastTime == old(lastTime) && viewOffsetX == old(viewOffsetX)
      ensures balance == old(balance) && blocks == old(blocks) && toasts == old(toasts)
      ensures selectedBet == old(selectedBet) && dims == old(dims) && particles == old(particles)
      ensures hoverCell == old(hoverCell) && isDragging == old(isDragging)
      ensures lastPlacedCell == old(lastPlacedCell)
    {
      var velocity := StepVelocity(ConceptDynamics, priceVelocity, shockRoll, shockDraw);
      var priceY := currentPriceY + drift + velocity;
      var maxTrailAge := TrailSpan(dims);
      TrailStep(priceVelocity, viewOffsetX, lastTime, priceTrail, step, priceY, maxTrailAge, velocity);
      priceVelocity := velocity;
      currentPriceY := priceY;
      globalYOffset := OffsetY(priceY, dims);
      priceTrail := AdvanceTrail(priceTrail, step, priceY, maxTrailAge);
    }

    /**
     * The resolution part of a frame: every bet the price line has reached
     * is judged in order with its own luck. Wins are credited, notified and
     * set off a burst at the price head; losses are notified. While the
     * cell width is zero no line exists and nothing is resolved.
     */
    method Settle(lucks: seq<Luck>)
      requires Valid() && |lucks| == |blocks| && FullBursts(lucks)
      modifies this
      ensures Valid()
      ensures LineColumn(viewOffsetX, dims.cellWidth).None? ==>
        blocks == old(blocks) && balance == old(balance) && toasts == old(toasts) && particles == old(particles)
      ensures LineColumn(viewOffsetX, dims.cellWidth).Some? ==>
        var line := LineColumn(viewOffsetX, dims.cellWidth).value;
        blocks == JudgeAll(old(blocks), line, currentPriceY, lucks)
        && balance == old(balance) + Payouts(old(blocks), line, currentPriceY, lucks)
        && toasts == SweepAll(old(blocks), lucks, line, currentPriceY, HeadX(dims), HeadY(dims), old(toasts)).toasts
        && particles == old(particles) + SweepAll(old(blocks), lucks, line, currentPriceY, HeadX(dims), HeadY(dims), old(toasts)).burst
        && |particles| == |old(particles)| + BurstSize * NewWins(old(blocks), line, currentPriceY, lucks)
      ensures selectedBet == old(selectedBet) && dims == old(dims)
      ensures viewOffsetX == old(viewOffsetX) && currentPriceY == old(currentPriceY)
      ensures priceVelocity == old(priceVelocity) && priceTrail == old(priceTrail)
      ensures globalYOffset == old(globalYOffset) && lastTime == old(lastTime)
      ensures hoverCell == old(hoverCell) && isDragging == old(isDragging)
      ensures lastPlacedCell == old(lastPlacedCell)
    {
      var column := LineColumn(viewOffsetX, dims.cellWidth);
      if column.Some? {
        Book(column.value, lucks);
      }
    }

    /** The pass over the bets against the price line at column `line`, and its effects. */
    method Book(line: real, lucks: seq<Luck>)
      requires Valid() && |lucks| == |blocks| && FullBursts(lucks)
      modifies this
      ensures Valid()
      ensures blocks == JudgeAll(old(blocks), line, currentPriceY, lucks)
      ensures balance == old(balance) + Payouts(old(blocks), line, currentPriceY, lucks)
      ensures toasts == SweepAll(old(blocks), lucks, line, currentPriceY, HeadX(dims), HeadY(dims), old(toasts)).toasts
      ensures particles == old(particles) + SweepAll(old(blocks), lucks, line, currentPriceY, HeadX(dims), HeadY(dims), old(toasts)).burst
      ensures |particles| == |old(particles)| + BurstSize * NewWins(old(blocks), line, currentPriceY, lucks)
      ensures selectedBet == old(selectedBet) && dims == old(dims)
      ensures viewOffsetX == old(viewOffsetX) && currentPriceY == old(currentPriceY)
      ensures priceVelocity == old(priceVelocity) && priceTrail == old(priceTrail)
      ensures globalYOffset == old(globalYOffset) && lastTime == old(lastTime)
      ensures hoverCell == old(hoverCell) && isDragging == old(isDragging)
      ensures lastPlacedCell == old(lastPlacedCell)
    {
      var hx, hy := HeadX(dims), HeadY(dims);
      var s := Walk(blocks, lucks, line, currentPriceY, hx, hy, toasts);
      SweepKeepsInvariant(blocks, lucks, line, currentPriceY, hx, hy, toasts, balance, particles);
      blocks, balance, toasts, particles := s.bets, balance + s.won, s.toasts, particles + s.burst;
    }

    /** The frame's particle update: move every particle and keep those still visible. */
    method UpdateParticles()
      requires Valid()
      modifies this
      ensures Valid()
      ensures Updatable(old(particles)) && particles == NextFrame(old(particles))
      ensures balance == old(balance) && blocks == old(blocks) && toasts == old(toasts)
      ensures selectedBet == old(selectedBet) && dims == old(dims)
      ensures viewOffsetX == old(viewOffsetX) && currentPriceY == old(currentPriceY)
      ensures priceVelocity == old(priceVelocity) && priceTrail == old(priceTrail)
      ensures globalYOffset == old(globalYOffset) && lastTime == old(lastTime)
      ensures hoverCell == old(hoverCell) && isDragging == old(isDragging)
      ensures lastPlacedCell == old(lastPlacedCell)
    {
      assert Updatable(particles) by {
        forall i | 0 <= i < |particles| ensures particles[i].maxLife != 0.0 {
          assert particles[i] in particles;
        }
      }
      NextFrameKeepsWellFormed(particles);
      particles := Animate(particles);
    }

    /** The clock and price part of a frame: scroll, then move the price and its trail. */
    method MoveWorld(timestamp: real, drift: real, shockRoll: real, shockDraw: real)
      requires Valid() && lastTime <= timestamp
      modifies this
      ensures Valid()
      ensures lastTime == timestamp
      ensures viewOffsetX == old(viewOffsetX) + ScrollRate * FrameDelta(timestamp, old(lastTime))
      ensures priceVelocity == StepVelocity(ConceptDynamics, old(priceVelocity), shockRoll, shockDraw)
      ensures currentPriceY == old(currentPriceY) + drift + priceVelocity
      ensures globalYOffset == OffsetY(currentPriceY, dims)
      ensures priceTrail == AdvanceTrail(old(priceTrail), ScrollRate * FrameDelta(timestamp, old(lastTime)), currentPriceY, TrailSpan(dims))
      ensures balance == old(balance) && blocks == old(blocks) && toasts == old(toasts)
      ensures selectedBet == old(selectedBet) && dims == old(dims) && particles == old(particles)
      ensures hoverCell == old(hoverCell) && isDragging == old(isDragging)
      ensures lastPlacedCell == old(lastPlacedCell)
    {
      var step := Scroll(timestamp);
      MovePrice(step, drift, shockRoll, shockDraw);
    }

    /**
     * The resolution and particle part of a frame: resolve the reached bets,
     * then move the particles. The particles move only in a frame that is
     * drawn, and no frame is drawn while the cell width is zero.
     */
    method SettleAndAnimate(lucks: seq<Luck>)
      requires Valid() && |lucks| == |blocks| && FullBursts(lucks)
      modifies this
      ensures Valid()
      ensures LineColumn(viewOffsetX, dims.cellWidth).Some? ==>
        var line := LineColumn(viewOffsetX, dims.cellWidth).value;
        var sweep := SweepAll(old(blocks), lucks, line, currentPriceY, HeadX(dims), HeadY(dims), old(toasts));
        blocks == JudgeAll(old(blocks), line, currentPriceY, lucks)
        && balance == old(balance) + Payouts(old(blocks), line, currentPriceY, lucks)
        && toasts == sweep.toasts
        && Updatable(old(particles) + sweep.burst) && particles == NextFrame(old(particles) + sweep.burst)
      ensures LineColumn(viewOffsetX, dims.cellWidth).None? ==>
        blocks == old(blocks) && balance == old(balance) && toasts == old(toasts)
        && particles == old(particles)
      ensures selectedBet == old(selectedBet) && dims == old(dims)
      ensures viewOffsetX == old(viewOffsetX) && currentPriceY == old(currentPriceY)
      ensures priceVelocity == old(priceVelocity) && priceTrail == old(priceTrail)
      ensures globalYOffset == old(globalYOffset) && lastTime == old(lastTime)
      ensures hoverCell == old(hoverCell) && isDragging == old(isDragging)
      ensures lastPlacedCell == old(lastPlacedCell)
    {
      Settle(lucks);
      if dims.cellWidth != 0.0 {
        UpdateParticles();
      }
    }

    /**
     * One animation frame: scroll, move the price, resolve the bets the
     * price line has reached, then move the particles unless the cell
     * width is zero (the frame is then not drawn).
     */
    method Tick(timestamp: real, drift: real, shockRoll: real, shockDraw: real, lucks: seq<Luck>)
      requires Valid() && lastTime <= timestamp
      requires |lucks| == |blocks| && FullBursts(lucks)
      modifies this
      ensures Valid()
      ensures lastTime == timestamp
      ensures viewOffsetX == old(viewOffsetX) + ScrollRate * FrameDelta(timestamp, old(lastTime))
      ensures priceVelocity == StepVelocity(ConceptDynamics, old(priceVelocity), shockRoll, shockDraw)
      ensures currentPriceY == old(currentPriceY) + drift + priceVelocity
      ensures globalYOffset == OffsetY(currentPriceY, dims)
      ensures priceTrail == AdvanceTrail(old(priceTrail), ScrollRate * FrameDelta(timestamp, old(lastTime)), currentPriceY, TrailSpan(dims))
      ensures LineColumn(viewOffsetX, dims.cellWidth).Some? ==>
        var line := LineColumn(viewOffsetX, dims.cellWidth).value;
        var sweep := SweepAll(old(blocks), lucks, line, currentPriceY, HeadX(dims), HeadY(dims), old(toasts));
        blocks == JudgeAll(old(blocks), line, currentPriceY, lucks)
        && balance == old(balance) + Payouts(old(blocks), line, currentPriceY, lucks)
        && toasts == sweep.toasts
        && Updatable(old(particles) + sweep.burst) && particles == NextFrame(old(particles) + sweep.burst)
      ensures LineColumn(viewOffsetX, dims.cellWidth).None? ==>
        blocks == old(blocks) && balance == old(balance) && toasts == old(toasts)
        && particles == old(particles)
      ensures selectedBet == old(selectedBet) && dims == old(dims)
      ensures hoverCell == old(hoverCell) && isDragging == old(isDragging) && lastPlacedCell == old(lastPlacedCell)
    {
      MoveWorld(timestamp, drift, shockRoll, shockDraw);
      SettleAndAnimate(lucks);
    }

    /**
     * The periodic cleanup: while the cell width is non-zero, drop the
     * pending bets more than ten columns behind the (unfloored) price line.
     */
    method Cleanup()
      requires Valid()
      modifies this
      ensures Valid()
      ensures blocks == if dims.cellWidth == 0.0 then old(blocks)
                        else Cleared(old(blocks), ExactLineColumn(viewOffsetX, dims.cellWidth))
      ensures forall b :: b in old(blocks) && b.status != Pending ==> b in blocks
      ensures balance == old(balance) && toasts == old(toasts) && particles == old(particles)
      ensures selectedBet == old(selectedBet) && dims == old(dims) && MotionKept()
      ensures hoverCell == old(hoverCell) && isDragging == old(isDragging)
      ensures lastPlacedCell == old(lastPlacedCell)
    {
      if dims.cellWidth == 0.0 {
        return;
      }
      var priceLineGridX := ExactLineColumn(viewOffsetX, dims.cellWidth);
      ClearedKeepsSettled(blocks, priceLineGridX);
      ClearedKeepsPrices(blocks, priceLineGridX);
      blocks := Cleared(blocks, priceLineGridX);
    }

    /**
     * A press on the canvas. Aiming outside the eight columns or the grid
     * rows does nothing; a cell left of the price line and a stake the
     * balance does not cover are refused with a notification. Otherwise
     * dragging starts, the bet is placed and debited, the cell is
     * remembered, and a burst starts at the cell's centre.
     */
    method MouseDown(px: real, py: real, id: nat, draws: seq<BurstDraw>)
      requires Valid() && |draws| == BurstSize
      modifies this
      ensures Valid()
      ensures var o := AimAt(dims, viewOffsetX, globalYOffset, px, py);
        if !OnBoard(o) then
          blocks == old(blocks) && balance == old(balance) && toasts == old(toasts) && particles == old(particles)
          && isDragging == old(isDragging) && lastPlacedCell == old(lastPlacedCell)
        else if (o.value.gridX as real) < LineColumn(viewOffsetX, dims.cellWidth).value then
          blocks == old(blocks) && balance == old(balance) && particles == old(particles)
          && isDragging == old(isDragging) && lastPlacedCell == old(lastPlacedCell)
          && toasts == Ledger.AddToast(old(toasts), Ledger.Toast(Ledger.AheadOfLine, Ledger.LossToast))
        else if old(balance) < selectedBet then
          blocks == old(blocks) && balance == old(balance) && particles == old(particles)
          && isDragging == old(isDragging) && lastPlacedCell == old(lastPlacedCell)
          && toasts == Ledger.AddToast(old(toasts), Ledger.Toast(Ledger.InsufficientBalance, Ledger.LossToast))
        else
          blocks == old(blocks) + [Bet(id, o.value.gridX, o.value.gridY,
                                       FrozenMultiplier(o.value.gridY, currentPriceY), selectedBet, Pending)]
          && balance == old(balance) - selectedBet && toasts == old(toasts)
          && isDragging && lastPlacedCell == Some(Cell(o.value.gridX, o.value.gridY))
          && particles == old(particles) + Burst(AimCentre(dims, viewOffsetX, globalYOffset, o.value).sx,
                                                 AimCentre(dims, viewOffsetX, globalYOffset, o.value).sy, draws)
      ensures selectedBet == old(selectedBet) && dims == old(dims) && hoverCell == old(hoverCell)
      ensures MotionKept()
    {
      var aim := AimAt(dims, viewOffsetX, globalYOffset, px, py);
      if !OnBoard(aim) {
        return;
      }
      var a := aim.value;
      var priceLineGridX := LineColumn(viewOffsetX, dims.cellWidth).value;
      if (a.gridX as real) < priceLineGridX {
        toasts := Ledger.AddToast(toasts, Ledger.Toast(Ledger.AheadOfLine, Ledger.LossToast));
        return;
      }
      if balance < selectedBet {
        toasts := Ledger.AddToast(toasts, Ledger.Toast(Ledger.InsufficientBalance, Ledger.LossToast));
        return;
      }
      isDragging := true;
      var placed := PlaceBlock(a.gridX, a.gridY, id);
      if placed {
        lastPlacedCell := Some(Cell(a.gridX, a.gridY));
        var centre := AimCentre(dims, viewOffsetX, globalYOffset, a);
        SpawnParticles(centre.sx, centre.sy, draws);
      }
    }

    /** Place a dragged-over bet and remember its cell; the caller has checked the line and the balance. */
    method DragPlace(a: Aim, id: nat, draws: seq<BurstDraw>)
      requires Valid() && |draws| == BurstSize && dims.cellWidth != 0.0 && dims.cellHeight != 0.0
      requires a.gridX as real >= LineColumn(viewOffsetX, dims.cellWidth).value && balance >= selectedBet
      modifies this
      ensures Valid() && dims == old(dims) && MotionKept()
      ensures blocks == old(blocks) + [Bet(id, a.gridX, a.gridY, FrozenMultiplier(a.gridY, currentPriceY), selectedBet, Pending)]
      ensures balance == old(balance) - selectedBet && toasts == old(toasts)
      ensures lastPlacedCell == Some(Cell(a.gridX, a.gridY)) && isDragging == old(isDragging)
      ensures particles == old(particles) + Burst(AimCentre(dims, viewOffsetX, globalYOffset, a).sx,
                                                  AimCentre(dims, viewOffsetX, globalYOffset, a).sy, draws)
      ensures selectedBet == old(selectedBet) && hoverCell == old(hoverCell)
    {
      var placed := PlaceBlock(a.gridX, a.gridY, id);
      lastPlacedCell := Some(Cell(a.gridX, a.gridY));
      var centre := AimCentre(dims, viewOffsetX, globalYOffset, a);
      SpawnParticles(centre.sx, centre.sy, draws);
    }

    /**
     * A pointer move. The hovered cell is updated (or cleared off the
     * board). While dragging with a balance that covers the stake, a cell
     * on the board at or ahead of the price line gets a bet, unless it is
     * the cell the last bet went to.
     */
    method MouseMove(px: real, py: real, id: nat, draws: seq<BurstDraw>)
      requires Valid() && |draws| == BurstSize
      modifies this
      ensures Valid()
      ensures var o := AimAt(dims, viewOffsetX, globalYOffset, px, py);
        (o.None? ==> hoverCell == old(hoverCell))
        && (o.Some? ==> hoverCell == if OnBoard(o) then o else None)
      ensures var o := AimAt(dims, viewOffsetX, globalYOffset, px, py);
        var drops := old(isDragging) && old(balance) >= selectedBet && OnBoard(o)
          && o.value.gridX as real >= LineColumn(viewOffsetX, dims.cellWidth).value
          && old(lastPlacedCell) != Some(Cell(o.value.gridX, o.value.gridY));
        (drops ==>
          blocks == old(blocks) + [Bet(id, o.value.gridX, o.value.gridY,
                                       FrozenMultiplier(o.value.gridY, currentPriceY), selectedBet, Pending)]
          && balance == old(balance) - selectedBet
          && lastPlacedCell == Some(Cell(o.value.gridX, o.value.gridY))
          && particles == old(particles) + Burst(AimCentre(dims, viewOffsetX, globalYOffset, o.value).sx,
                                                 AimCentre(dims, viewOffsetX, globalYOffset, o.value).sy, draws))
        && (!drops ==>
              blocks == old(blocks) && balance == old(balance) && lastPlacedCell == old(lastPlacedCell)
              && particles == old(particles))
      ensures toasts == old(toasts) && isDragging == old(isDragging)
      ensures selectedBet == old(selectedBet) && dims == old(dims) && MotionKept()
    {
      var aim := AimAt(dims, viewOffsetX, globalYOffset, px, py);
      if aim.None? {
        return;
      }
      var a := aim.value;
      if OnBoard(aim) {
        hoverCell := aim;
      } else {
        hoverCell := None;
      }
      if isDragging && balance >= selectedBet {
        var priceLineGridX := LineColumn(viewOffsetX, dims.cellWidth).value;
        if OnBoard(aim) && a.gridX as real >= priceLineGridX {
          if lastPlacedCell != Some(Cell(a.gridX, a.gridY)) {
            DragPlace(a, id, draws);
          }
        }
      }
    }

    /** Releasing the pointer ends the drag and forgets the last cell. */
    method MouseUp()
      requires Valid()
      modifies this
      ensures Valid() && !isDragging && lastPlacedCell == None
      ensures hoverCell == old(hoverCell) && blocks == old(blocks) && balance == old(balance)
      ensures toasts == old(toasts) && particles == old(particles)
      ensures selectedBet == old(selectedBet) && dims == old(dims) && MotionKept()
    {
      isDragging := false;
      lastPlacedCell := None;
    }

    /** Leaving the canvas also clears the hovered cell. */
    method MouseLeave()
      requires Valid()
      modifies this
      ensures Valid() && !isDragging && lastPlacedCell == None && hoverCell == None
      ensures blocks == old(blocks) && balance == old(balance)
      ensures toasts == old(toasts) && particles == old(particles)
      ensures selectedBet == old(selectedBet) && dims == old(dims) && MotionKept()
    {
      hoverCell := None;
      isDragging := false;
      lastPlacedCell := None;
    }
  }
}
