/**
  Pure physics of one playing tick of Paddle Rivals: paddle intents and
  clamping, the single-player AI step, ball integration, wall and paddle
  collisions, the rally speed ramp, the goal serve and the match clock.
  Every quantity is an exact real; the source works in single-precision
  floats.
 */
module Court {

  // Sizes fixed by initRoundObjects and the ball-speed globals.
  const PaddleWidth: real := 16.0
  const PaddleHeight: real := 100.0
  const PaddleSpeed: real := 8.0
  const BallRadius: real := 12.0
  const BaseVx: real := 6.0
  const BaseVy: real := 4.0

  // Rally ramp: +0.05 per paddle hit while below 2.0.
  const RampStep: real := 0.05
  const RampCeiling: real := 2.0
  const HitsToCeiling: nat := 20

  // Seconds taken off the clock by each playing tick.
  const TickSeconds: real := 0.016

  /** Window sizes for which every clamp interval of the court is non-empty. */
  predicate CourtSize(w: int, h: int) {
    w >= 200 && h >= 100
  }

  datatype Paddle = Paddle(x: real, y: real)

  datatype Ball = Ball(x: real, y: real, vx: real, vy: real)

  function Abs(v: real): real {
    if v < 0.0 then -v else v
  }

  function Sign(n: int): int {
    if n > 0 then 1 else if n < 0 then -1 else 0
  }

  /** The two-step clamp the source writes as `if (v < lo) v = lo; if (v > hi) v = hi;`. */
  function Clamp(v: real, lo: real, hi: real): (r: real)
    requires lo <= hi
    ensures lo <= r <= hi
    ensures lo <= v <= hi ==> r == v
    ensures v < lo ==> r == lo
    ensures v > hi ==> r == hi
  {
    var low := if v < lo then lo else v;
    if low > hi then hi else low
  }

  // ---------------------------------------------------------------------
  // Half-court rectangles

  function LeftMinX(): real { 40.0 }
  function LeftMaxX(w: int): real { w as real / 2.0 - 60.0 }
  function RightMinX(w: int): real { w as real / 2.0 + 60.0 }
  function RightMaxX(w: int): real { w as real - 40.0 }
  function MinY(): real { PaddleHeight / 2.0 }
  function MaxY(h: int): real { h as real - PaddleHeight / 2.0 }

  predicate InLeftHalf(p: Paddle, w: int, h: int) {
    LeftMinX() <= p.x <= LeftMaxX(w) && MinY() <= p.y <= MaxY(h)
  }

  predicate InRightHalf(p: Paddle, w: int, h: int) {
    RightMinX(w) <= p.x <= RightMaxX(w) && MinY() <= p.y <= MaxY(h)
  }

  /** Player 1's paddle forced into the left half-court. */
  function ClampLeft(p: Paddle, w: int, h: int): (r: Paddle)
    requires CourtSize(w, h)
    ensures InLeftHalf(r, w, h)
    ensures InLeftHalf(p, w, h) ==> r == p
    ensures LeftMinX() <= p.x <= LeftMaxX(w) ==> r.x == p.x
    ensures MinY() <= p.y <= MaxY(h) ==> r.y == p.y
  {
    Paddle(Clamp(p.x, LeftMinX(), LeftMaxX(w)), Clamp(p.y, MinY(), MaxY(h)))
  }

  /** Player 2's paddle forced into the right half-court. */
  function ClampRight(p: Paddle, w: int, h: int): (r: Paddle)
    requires CourtSize(w, h)
    ensures InRightHalf(r, w, h)
    ensures InRightHalf(p, w, h) ==> r == p
    ensures RightMinX(w) <= p.x <= RightMaxX(w) ==> r.x == p.x
    ensures MinY() <= p.y <= MaxY(h) ==> r.y == p.y
  {
    Paddle(Clamp(p.x, RightMinX(w), RightMaxX(w)), Clamp(p.y, MinY(), MaxY(h)))
  }

  // ---------------------------------------------------------------------
  // Human movement

  /** Contribution of one pair of opposing keys to an axis: +1, 0 or -1. */
  function KeyPair(plus: bool, minus: bool): int {
    (if plus then 1 else 0) - (if minus then 1 else 0)
  }

  /**
    Player 1's per-axis intent: the sum of the key contributions clamped to
    [-1, 1], so that it is the sign of the sum: opposite keys cancel and two
    keys in the same direction do not double the speed.
   */
  function Intent(raw: int): (m: real)
    ensures -1.0 <= m <= 1.0
    ensures m == Sign(raw) as real
  {
    Clamp(raw as real, -1.0, 1.0)
  }

  /** Player 1's move by the clamped intents, before the half-court clamp. */
  function MoveByIntent(p: Paddle, rawX: int, rawY: int): (r: Paddle)
    ensures Abs(r.x - p.x) <= PaddleSpeed && Abs(r.y - p.y) <= PaddleSpeed
    ensures rawX == 0 ==> r.x == p.x
    ensures rawY == 0 ==> r.y == p.y
    ensures (rawY > 0 ==> r.y > p.y) && (rawY < 0 ==> r.y < p.y)
    ensures (rawX > 0 ==> r.x > p.x) && (rawX < 0 ==> r.x < p.x)
    ensures r == Paddle(p.x + Sign(rawX) as real * PaddleSpeed, p.y + Sign(rawY) as real * PaddleSpeed)
  {
    Paddle(p.x + Intent(rawX) * PaddleSpeed, p.y + Intent(rawY) * PaddleSpeed)
  }

  /** Player 2's arrow-key move in two-player mode; each held key moves one speed step. */
  function ManualMove(p: Paddle, up: bool, down: bool, left: bool, right: bool): (r: Paddle)
    ensures Abs(r.x - p.x) <= PaddleSpeed && Abs(r.y - p.y) <= PaddleSpeed
    ensures up == down ==> r.y == p.y
    ensures left == right ==> r.x == p.x
    ensures (up && !down ==> r.y == p.y + PaddleSpeed) && (down && !up ==> r.y == p.y - PaddleSpeed)
    ensures (right && !left ==> r.x == p.x + PaddleSpeed) && (left && !right ==> r.x == p.x - PaddleSpeed)
  {
    var y1 := if up then p.y + PaddleSpeed else p.y;
    var y2 := if down then y1 - PaddleSpeed else y1;
    var x1 := if left then p.x - PaddleSpeed else p.x;
    var x2 := if right then x1 + PaddleSpeed else x1;
    Paddle(x2, y2)
  }

  // ---------------------------------------------------------------------
  // Single-player AI

  /** Vertical tracking speed per tick for Easy, Medium and Hard. */
  function AiBaseSpeed(difficulty: int): (s: real)
    ensures 5.0 <= s <= 11.0
  {
    if difficulty == 0 then 5.0
    else if difficulty == 1 then 8.0
    else 11.0
  }

  /** A harder setting tracks strictly faster. */
  lemma HarderAiIsFaster(d1: int, d2: int)
    requires 0 <= d1 < d2 <= 2
    ensures AiBaseSpeed(d1) < AiBaseSpeed(d2)
    ensures AiBaseSpeed(0) == 5.0 && AiBaseSpeed(1) == 8.0 && AiBaseSpeed(2) == 11.0
  {
  }

  /**
    A bounded-rate pursuit: moves by exactly `step` towards the target when
    it is farther than `step` away, and otherwise snaps onto it (a gap equal
    to `step` snaps). It never overshoots the target.
   */
  function Pursue(pos: real, target: real, step: real): (r: real)
    requires step > 0.0
    ensures Abs(r - pos) <= step
    ensures Abs(target - pos) <= step ==> r == target
    ensures Abs(target - pos) > step ==> Abs(r - pos) == step && Abs(target - r) == Abs(target - pos) - step
    ensures pos <= target ==> pos <= r <= target
    ensures target <= pos ==> target <= r <= pos
  {
    var d := target - pos;
    if d > step then pos + step
    else if d < -step then pos - step
    else target
  }

  /**
    Where the AI wants to stand horizontally: the ball's x clamped into the
    right half-court band while the ball is on the AI's half, otherwise the
    fixed retreat position W - 80.
   */
  function AiTargetX(ballX: real, w: int): (t: real)
    requires w >= 200
    ensures ballX > w as real / 2.0 ==> RightMinX(w) <= t <= RightMaxX(w)
    ensures ballX > w as real / 2.0 && RightMinX(w) <= ballX <= RightMaxX(w) ==> t == ballX
    ensures ballX <= w as real / 2.0 ==> t == w as real - 80.0
  {
    if ballX > w as real / 2.0 then Clamp(ballX, RightMinX(w), RightMaxX(w))
    else w as real - 80.0
  }

  /** The AI's move of player 2's paddle, before the half-court clamp. */
  function AiMove(p: Paddle, b: Ball, difficulty: int, w: int): (r: Paddle)
    requires w >= 200
    ensures Abs(r.y - p.y) <= AiBaseSpeed(difficulty)
    ensures Abs(b.y - p.y) <= AiBaseSpeed(difficulty) ==> r.y == b.y
    ensures (p.y <= b.y ==> p.y <= r.y <= b.y) && (b.y <= p.y ==> b.y <= r.y <= p.y)
    ensures Abs(r.x - p.x) <= 0.7 * AiBaseSpeed(difficulty)
    ensures Abs(AiTargetX(b.x, w) - p.x) <= 0.7 * AiBaseSpeed(difficulty) ==> r.x == AiTargetX(b.x, w)
  {
    var base := AiBaseSpeed(difficulty);
    Paddle(Pursue(p.x, AiTargetX(b.x, w), base * 0.7), Pursue(p.y, b.y, base))
  }

  // ---------------------------------------------------------------------
  // Ball flight

  /** One integration step, velocity scaled by the rally speed factor. */
  function Integrate(b: Ball, speedFactor: real): Ball {
    b.(x := b.x + b.vx * speedFactor, y := b.y + b.vy * speedFactor)
  }

  /** Reflection off the top and bottom walls: clamp y, negate vy. */
  function WallBounce(b: Ball, h: int): (r: Ball)
    requires 2.0 * BallRadius <= h as real
    ensures BallRadius <= r.y <= h as real - BallRadius
    ensures r.x == b.x && r.vx == b.vx
    ensures BallRadius <= b.y <= h as real - BallRadius ==> r == b
    ensures b.y < BallRadius ==> r.y == BallRadius && r.vy == -b.vy
    ensures b.y > h as real - BallRadius ==> r.y == h as real - BallRadius && r.vy == -b.vy
  {
    if b.y < BallRadius then b.(y := BallRadius, vy := -b.vy)
    else if b.y > h as real - BallRadius then b.(y := h as real - BallRadius, vy := -b.vy)
    else b
  }

  /** The ball's vertical extent meets the paddle's. */
  predicate OverlapY(b: Ball, p: Paddle): (r: bool)
    ensures r <==> Abs(b.y - p.y) <= PaddleHeight / 2.0 + BallRadius
  {
    b.y + BallRadius >= p.y - PaddleHeight / 2.0 && b.y - BallRadius <= p.y + PaddleHeight / 2.0
  }

  /**
    The ball's left edge reached the left paddle's right face: either a swept
    crossing from `prevX` (the centre before integration) or a resting
    overlap inside the paddle's span. Neither part looks at the sign of vx.
   */
  predicate CrossesLeft(b: Ball, prevX: real, p: Paddle): (r: bool)
    ensures b.x - BallRadius > p.x + PaddleWidth / 2.0 ==> !r
    ensures p.x - PaddleWidth / 2.0 <= b.x - BallRadius <= p.x + PaddleWidth / 2.0 ==> r
    ensures b.x - BallRadius < p.x - PaddleWidth / 2.0 ==> (r <==> prevX - BallRadius >= p.x + PaddleWidth / 2.0)
  {
    var face := p.x + PaddleWidth / 2.0;
    (prevX - BallRadius >= face && b.x - BallRadius <= face)
    || (b.x - BallRadius <= face && b.x - BallRadius >= p.x - PaddleWidth / 2.0)
  }

  /** Mirror image of CrossesLeft for the right paddle's left face. */
  predicate CrossesRight(b: Ball, prevX: real, p: Paddle): (r: bool)
    ensures b.x + BallRadius < p.x - PaddleWidth / 2.0 ==> !r
    ensures p.x - PaddleWidth / 2.0 <= b.x + BallRadius <= p.x + PaddleWidth / 2.0 ==> r
    ensures b.x + BallRadius > p.x + PaddleWidth / 2.0 ==> (r <==> prevX + BallRadius <= p.x - PaddleWidth / 2.0)
  {
    var face := p.x - PaddleWidth / 2.0;
    (prevX + BallRadius <= face && b.x + BallRadius >= face)
    || (b.x + BallRadius >= face && b.x + BallRadius <= p.x + PaddleWidth / 2.0)
  }

  predicate LeftContact(b: Ball, prevX: real, p: Paddle) {
    OverlapY(b, p) && CrossesLeft(b, prevX, p)
  }

  predicate RightContact(b: Ball, prevX: real, p: Paddle) {
    OverlapY(b, p) && CrossesRight(b, prevX, p)
  }

  /**
    Change of vy on a paddle hit: 1.5 times the strike offset from the
    paddle centre in half-heights. Above the centre deflects upwards, below
    downwards, and it is never more than 1.5 * 62 / 50.
   */
  function Deflection(b: Ball, p: Paddle): (dv: real)
    requires OverlapY(b, p)
    ensures Abs(dv) <= 1.5 * (PaddleHeight / 2.0 + BallRadius) / (PaddleHeight / 2.0)
    ensures b.y > p.y ==> dv > 0.0
    ensures b.y < p.y ==> dv < 0.0
    ensures b.y == p.y ==> dv == 0.0
  {
    (b.y - p.y) / (PaddleHeight * 0.5) * 1.5
  }

  /** A left-paddle hit: the ball rests on the face, heading right at the same speed. */
  function BounceOffLeft(b: Ball, p: Paddle): (r: Ball)
    requires OverlapY(b, p)
    ensures r.x - BallRadius == p.x + PaddleWidth / 2.0
    ensures r.vx >= 0.0 && Abs(r.vx) == Abs(b.vx)
    ensures r.y == b.y && r.vy == b.vy + Deflection(b, p)
  {
    Ball(p.x + PaddleWidth / 2.0 + BallRadius, b.y, Abs(b.vx), b.vy + Deflection(b, p))
  }

  /** A right-paddle hit: the ball rests on the face, heading left at the same speed. */
  function BounceOffRight(b: Ball, p: Paddle): (r: Ball)
    requires OverlapY(b, p)
    ensures r.x + BallRadius == p.x - PaddleWidth / 2.0
    ensures r.vx <= 0.0 && Abs(r.vx) == Abs(b.vx)
    ensures r.y == b.y && r.vy == b.vy + Deflection(b, p)
  {
    Ball(p.x - PaddleWidth / 2.0 - BallRadius, b.y, -Abs(b.vx), b.vy + Deflection(b, p))
  }

  /** The ball after the flight phase of a tick and the number of paddle hits in it. */
  datatype Flight = Flight(ball: Ball, hits: nat)

  /**
    Integration, walls, then the left paddle and then the right paddle, in
    the source's order. `b` is the ball at the start of the tick, so b.x is
    the previous x the swept tests use.
   */
  function Fly(b: Ball, speedFactor: real, p1: Paddle, p2: Paddle, h: int): (f: Flight)
    requires 2.0 * BallRadius <= h as real
    ensures BallRadius <= f.ball.y <= h as real - BallRadius
    ensures Abs(f.ball.vx) == Abs(b.vx)
    ensures f.hits <= 2
  {
    var moved := WallBounce(Integrate(b, speedFactor), h);
    var left := LeftContact(moved, b.x, p1);
    var afterLeft := if left then BounceOffLeft(moved, p1) else moved;
    var right := RightContact(afterLeft, b.x, p2);
    var afterRight := if right then BounceOffRight(afterLeft, p2) else afterLeft;
    Flight(afterRight, (if left then 1 else 0) + (if right then 1 else 0))
  }

  /** With both paddles in their halves, a tick hits at most one paddle. */
  lemma OneHitPerTick(b: Ball, speedFactor: real, p1: Paddle, p2: Paddle, w: int, h: int)
    requires CourtSize(w, h) && InLeftHalf(p1, w, h) && InRightHalf(p2, w, h)
    ensures Fly(b, speedFactor, p1, p2, h).hits <= 1
  {
    var moved := WallBounce(Integrate(b, speedFactor), h);
    if LeftContact(moved, b.x, p1) {
      var afterLeft := BounceOffLeft(moved, p1);
      assert afterLeft.x + BallRadius <= w as real / 2.0 - 28.0;
      assert !RightContact(afterLeft, b.x, p2);
    }
  }

  /**
    No tunnelling through player 1's paddle: a ball that starts the tick in
    front of the paddle's face and is level with the paddle after moving
    ends the tick still in front of the face, however far the step would
    have carried it; in particular it cannot score on player 1.
   */
  lemma NoTunnellingLeft(b: Ball, speedFactor: real, p1: Paddle, p2: Paddle, w: int, h: int)
    requires CourtSize(w, h) && InLeftHalf(p1, w, h) && InRightHalf(p2, w, h)
    requires b.x - BallRadius >= p1.x + PaddleWidth / 2.0
    requires OverlapY(WallBounce(Integrate(b, speedFactor), h), p1)
    ensures Fly(b, speedFactor, p1, p2, h).ball.x - BallRadius >= p1.x + PaddleWidth / 2.0
    ensures Fly(b, speedFactor, p1, p2, h).ball.x >= 0.0
  {
    var moved := WallBounce(Integrate(b, speedFactor), h);
    var face := p1.x + PaddleWidth / 2.0;
    if moved.x - BallRadius <= face {
      assert CrossesLeft(moved, b.x, p1);
      var afterLeft := BounceOffLeft(moved, p1);
      assert afterLeft.x - BallRadius == face;
      assert !RightContact(afterLeft, b.x, p2);
    } else if RightContact(moved, b.x, p2) {
      assert BounceOffRight(moved, p2).x - BallRadius >= w as real / 2.0 + 28.0;
    }
  }

  /** No tunnelling through player 2's paddle, the mirror image of NoTunnellingLeft. */
  lemma NoTunnellingRight(b: Ball, speedFactor: real, p1: Paddle, p2: Paddle, w: int, h: int)
    requires CourtSize(w, h) && InLeftHalf(p1, w, h) && InRightHalf(p2, w, h)
    requires b.x + BallRadius <= p2.x - PaddleWidth / 2.0
    requires OverlapY(WallBounce(Integrate(b, speedFactor), h), p2)
    ensures Fly(b, speedFactor, p1, p2, h).ball.x + BallRadius <= p2.x - PaddleWidth / 2.0
    ensures Fly(b, speedFactor, p1, p2, h).ball.x <= w as real
  {
    var moved := WallBounce(Integrate(b, speedFactor), h);
    var face := p2.x - PaddleWidth / 2.0;
    if LeftContact(moved, b.x, p1) {
      var afterLeft := BounceOffLeft(moved, p1);
      assert afterLeft.x + BallRadius <= w as real / 2.0 - 28.0;
      assert !RightContact(afterLeft, b.x, p2);
    } else if moved.x + BallRadius >= face {
      assert CrossesRight(moved, b.x, p2);
      assert BounceOffRight(moved, p2).x + BallRadius == face;
    }
  }

  /**
    The resting-overlap half of the left test is not gated on direction: a
    level ball whose left edge lies inside the paddle's span is a contact
    whatever its vx and wherever it came from, including a ball already
    moving away; the bounce then keeps a rightward vx unchanged.
   */
  lemma LeftRestingContactIgnoresDirection(b: Ball, prevX: real, p: Paddle)
    requires OverlapY(b, p)
    requires p.x - PaddleWidth / 2.0 <= b.x - BallRadius <= p.x + PaddleWidth / 2.0
    ensures LeftContact(b, prevX, p)
    ensures b.vx >= 0.0 ==> BounceOffLeft(b, p).vx == b.vx
  {
  }

  // ---------------------------------------------------------------------
  // Rally ramp

  /**
    Reference value of the speed factor after `hits` paddle hits in a rally:
    1.0 plus 0.05 per hit, reaching the ceiling 2.0 after 20 hits.
   */
  function SpeedFor(hits: nat): (sf: real)
    ensures 1.0 <= sf <= RampCeiling
    ensures hits >= HitsToCeiling ==> sf == RampCeiling
    ensures hits < HitsToCeiling ==> sf < RampCeiling
  {
    if hits >= HitsToCeiling then RampCeiling else 1.0 + RampStep * hits as real
  }

  /** The source's ramp step: add 0.05 only while below 2.0. */
  function Ramp(sf: real): (r: real)
    ensures r >= sf
    ensures sf >= RampCeiling ==> r == sf
    ensures sf < RampCeiling ==> r == sf + RampStep
  {
    if sf < RampCeiling then sf + RampStep else sf
  }

  /** One hit moves the factor from the value for `h` hits to the value for h + 1. */
  lemma RampAdvancesOneHit(h: nat)
    ensures Ramp(SpeedFor(h)) == SpeedFor(h + 1)
    ensures SpeedFor(h) <= SpeedFor(h + 1)
  {
  }

  /** `n` ramp steps from `sf`. */
  function RampTimes(sf: real, n: nat): real {
    if n == 0 then sf else Ramp(RampTimes(sf, n - 1))
  }

  /**
    From a fresh serve, n hits give exactly SpeedFor(n): the factor stays in
    [1.0, 2.0] and lands exactly on the ceiling (true over reals only).
   */
  lemma {:induction false} RampFromServe(n: nat)
    ensures RampTimes(1.0, n) == SpeedFor(n)
    ensures 1.0 <= RampTimes(1.0, n) <= RampCeiling
  {
    if n > 0 {
      RampFromServe(n - 1);
      RampAdvancesOneHit(n - 1);
    }
  }

  /** SpeedFor never decreases as hits accumulate. */
  lemma {:induction false} SpeedForMonotone(h: nat, k: nat)
    requires h <= k
    ensures SpeedFor(h) <= SpeedFor(k)
  {
    if h < k {
      SpeedForMonotone(h, k - 1);
      RampAdvancesOneHit(k - 1);
    }
  }

  // ---------------------------------------------------------------------
  // Goal serve

  /**
    The ball resetBall puts in play: the court centre, speed (6, 4) with each
    sign chosen by a coin (true stands for rand() % 2 == 0, the positive sign).
   */
  function Serve(w: int, h: int, coinX: bool, coinY: bool): (b: Ball)
    ensures b.x == w as real / 2.0 && b.y == h as real / 2.0
    ensures Abs(b.vx) == BaseVx && Abs(b.vy) == BaseVy
    ensures (b.vx > 0.0 <==> coinX) && (b.vy > 0.0 <==> coinY)
  {
    Ball(w as real / 2.0, h as real / 2.0, if coinX then BaseVx else -BaseVx, if coinY then BaseVy else -BaseVy)
  }

  // ---------------------------------------------------------------------
  // Match clock and end conditions

  /** Seconds of match time for each Game Time setting. */
  function GameTimeOption(i: int): (s: nat)
    requires 0 <= i < 3
    ensures 60 <= s <= 120 && s % 30 == 0
  {
    [60, 90, 120][i]
  }

  /** Score limit for each Max Score setting; 0 means no limit. */
  function MaxScoreOption(i: int): (s: nat)
    requires 0 <= i < 4
    ensures s <= 7 && (s == 0 <==> i == 3)
  {
    [3, 5, 7, 0][i]
  }

  /** A tick's clock step: 0.016 s off, floored at zero. */
  function Countdown(t: real): (r: real)
    ensures r >= 0.0
    ensures r <= t || t < 0.0
    ensures Expires(t) <==> r == 0.0
    ensures !Expires(t) ==> r == t - TickSeconds
  {
    if t - TickSeconds <= 0.0 then 0.0 else t - TickSeconds
  }

  /** This tick's countdown reaches zero, which ends the match. */
  predicate Expires(t: real) {
    t - TickSeconds <= 0.0
  }

  /** The clock after `n` playing ticks. */
  function RunClock(t: real, n: nat): real
    decreases n
  {
    if n == 0 then t else RunClock(Countdown(t), n - 1)
  }

  /** From m ticks' worth of time, n <= m ticks leave exactly m - n ticks' worth. */
  lemma {:induction false} ClockRunsDown(m: nat, n: nat)
    requires n <= m
    ensures RunClock(TickSeconds * m as real, n) == TickSeconds * (m - n) as real
  {
    if n > 0 {
      assert Countdown(TickSeconds * m as real) == TickSeconds * (m - 1) as real;
      ClockRunsDown(m - 1, n - 1);
    }
  }

  /**
    A clock holding t = m ticks' worth of time survives the first m - 1 ticks
    and expires on tick m exactly.
   */
  lemma ClockExpiresOnTick(m: nat, t: real)
    requires m >= 1 && t == TickSeconds * m as real
    ensures forall n: nat :: n < m - 1 ==> !Expires(RunClock(t, n))
    ensures Expires(RunClock(t, m - 1))
  {
    forall n: nat | n < m - 1
      ensures !Expires(RunClock(t, n))
    {
      ClockRunsDown(m, n);
    }
    ClockRunsDown(m, m - 1);
  }

  /**
    Each Game Time setting ends the match by time on a fixed tick: 60 s on
    tick 3750, 90 s on tick 5625 and 120 s on tick 7500.
   */
  lemma MatchLengthInTicks(i: int, seconds: real)
    requires 0 <= i < 3 && seconds == GameTimeOption(i) as real
    ensures var ticks := GameTimeOption(i) * 125 / 2;
      && ticks == [3750, 5625, 7500][i]
      && (forall n: nat :: n < ticks - 1 ==> !Expires(RunClock(seconds, n)))
      && Expires(RunClock(seconds, ticks - 1))
  {
    var ticks := GameTimeOption(i) * 125 / 2;
    assert ticks == [3750, 5625, 7500][i];
    ClockExpiresOnTick(ticks, seconds);
  }

  /** The score-limit end condition; a limit of 0 never ends the match. */
  predicate ScoreLimitReached(maxScore: int, s1: int, s2: int): (r: bool)
    ensures maxScore <= 0 ==> !r
    ensures maxScore > 0 ==> (r <==> s1 >= maxScore || s2 >= maxScore)
  {
    maxScore > 0 && (s1 >= maxScore || s2 >= maxScore)
  }
}
