/** The constant-velocity motion model of the fusion controller: the
    transition matrix F(dt) and the process-noise covariance Q(dt), and the
    in-place refresh of their time-dependent entries done before every
    prediction (src/FusionEKF.cpp:136-151). The state is [px, py, vx, vy]. */
module Motion {
  import opened Matrix

  /** F(dt): position advances by velocity times dt, velocity is kept. */
  function Transition(dt: real): Mat4 {
    [[1.0, 0.0, dt, 0.0],
     [0.0, 1.0, 0.0, dt],
     [0.0, 0.0, 1.0, 0.0],
     [0.0, 0.0, 0.0, 1.0]]
  }

  /** The refresh of F: only the entries (0, 2) and (1, 3) are overwritten. */
  function SetDt(F: Mat4, dt: real): Mat4 {
    Set(Set(F, 0, 2, dt), 1, 3, dt)
  }

  /** Applying F(dt) to a state is constant-velocity kinematics. */
  lemma TransitionKinematics(dt: real, x: Vec4)
    ensures var r := MatVec(Transition(dt), x);
      |r| == 4 && r[0] == x[0] + dt * x[2] && r[1] == x[1] + dt * x[3] && r[2] == x[2] && r[3] == x[3]
  {
    var F := Transition(dt);
    Dot4(F[0], x);
    Dot4(F[1], x);
    Dot4(F[2], x);
    Dot4(F[3], x);
  }

  /** Two steps of dt1 and dt2 move a state as one step of dt1 + dt2. */
  lemma TransitionCompose(dt1: real, dt2: real, x: Vec4)
    ensures MatVec(Transition(dt2), MatVec(Transition(dt1), x)) == MatVec(Transition(dt1 + dt2), x)
  {
    var y: Vec4 := MatVec(Transition(dt1), x);
    var r1, r2 := MatVec(Transition(dt2), y), MatVec(Transition(dt1 + dt2), x);
    TransitionKinematics(dt1, x);
    TransitionKinematics(dt2, y);
    TransitionKinematics(dt1 + dt2, x);
    assert (dt1 + dt2) * x[2] == dt1 * x[2] + dt2 * x[2];
    assert (dt1 + dt2) * x[3] == dt1 * x[3] + dt2 * x[3];
    Vec4Ext(r1, r2);
  }

  /** F(dt) differs from the constructor's F(1) only at (0, 2) and (1, 3). */
  lemma TransitionOnlyGapCells(dt: real)
    ensures forall i, j | 0 <= i < 4 && 0 <= j < 4 && !(i == 0 && j == 2) && !(i == 1 && j == 3) ::
      Transition(dt)[i][j] == Transition(1.0)[i][j]
    ensures Transition(dt)[0][2] == Transition(dt)[1][3] == dt
  {
  }

  /** Refreshing a constant-velocity F yields exactly F(dt), whatever gap it held. */
  lemma SetDtIsTransition(F: Mat4, dt: real)
    requires F == Transition(F[0][2])
    ensures SetDt(F, dt) == Transition(dt)
  {
    Mat4Ext(SetDt(F, dt), Transition(dt));
  }

  /** Q(dt): the discretised white-acceleration process noise of the
      constant-velocity model, with intensities ax and ay per axis. */
  function ProcessNoise(dt: real, ax: real, ay: real): Mat4 {
    var d2, d3, d4 := dt * dt, dt * dt * dt, dt * dt * dt * dt;
    [[d4 / 4.0 * ax, 0.0, d3 / 2.0 * ax, 0.0],
     [0.0, d4 / 4.0 * ay, 0.0, d3 / 2.0 * ay],
     [d3 / 2.0 * ax, 0.0, d2 * ax, 0.0],
     [0.0, d3 / 2.0 * ay, 0.0, d2 * ay]]
  }

  /** The refresh of Q as the source writes it: eight entries, each a power of
      dt times an acceleration-noise intensity; the rest are left as they were. */
  function SetNoise(Q: Mat4, dt: real, ax: real, ay: real): Mat4 {
    var q00 := Set(Q, 0, 0, 1.0 / 4.0 * Pow(dt, 4) * ax);
    var q02 := Set(q00, 0, 2, 1.0 / 2.0 * Pow(dt, 3) * ax);
    var q11 := Set(q02, 1, 1, 1.0 / 4.0 * Pow(dt, 4) * ay);
    var q13 := Set(q11, 1, 3, 1.0 / 2.0 * Pow(dt, 3) * ay);
    var q20 := Set(q13, 2, 0, 1.0 / 2.0 * Pow(dt, 3) * ax);
    var q22 := Set(q20, 2, 2, 1.0 / 1.0 * Pow(dt, 2) * ax);
    var q31 := Set(q22, 3, 1, 1.0 / 2.0 * Pow(dt, 3) * ay);
    Set(q31, 3, 3, 1.0 / 1.0 * Pow(dt, 2) * ay)
  }

  /** The cells Q may hold: the diagonal and the position/velocity coupling
      of the same axis. */
  predicate InBand(i: int, j: int) {
    i == j || i - j == 2 || j - i == 2
  }

  predicate ZeroOutsideBand(Q: Mat4) {
    forall i, j | 0 <= i < 4 && 0 <= j < 4 && !InBand(i, j) :: Q[i][j] == 0.0
  }

  predicate Symmetric(Q: Mat4) {
    forall i, j | 0 <= i < 4 && 0 <= j < 4 :: Q[i][j] == Q[j][i]
  }

  predicate NonNegativeDiagonal(Q: Mat4) {
    forall i | 0 <= i < 4 :: Q[i][i] >= 0.0
  }

  /** The shape the process noise keeps across every refresh. */
  predicate NoiseShaped(Q: Mat4) {
    ZeroOutsideBand(Q) && Symmetric(Q) && NonNegativeDiagonal(Q)
  }

  ghost predicate PositiveSemidefinite(Q: Mat4) {
    forall v: Vec | |v| == 4 :: QuadForm(Q, v) >= 0.0
  }

  /** The source's eight cell formulas, written into a matrix that is zero
      outside the band, give exactly Q(dt). */
  lemma SetNoiseIsProcessNoise(Q: Mat4, dt: real, ax: real, ay: real)
    requires ZeroOutsideBand(Q)
    ensures SetNoise(Q, dt, ax, ay) == ProcessNoise(dt, ax, ay)
  {
    PowSmall(dt);
    assert !InBand(0, 1) && !InBand(0, 3) && !InBand(1, 0) && !InBand(1, 2);
    assert !InBand(2, 1) && !InBand(2, 3) && !InBand(3, 0) && !InBand(3, 2);
    Mat4Ext(SetNoise(Q, dt, ax, ay), ProcessNoise(dt, ax, ay));
  }

  /** Q(dt) is symmetric, zero outside the band and has a non-negative
      diagonal whenever the noise intensities are non-negative. */
  lemma ProcessNoiseShaped(dt: real, ax: real, ay: real)
    requires ax >= 0.0 && ay >= 0.0
    ensures NoiseShaped(ProcessNoise(dt, ax, ay))
  {
    var Q := ProcessNoise(dt, ax, ay);
    var d2 := dt * dt;
    assert d2 >= 0.0;
    assert dt * dt * dt * dt == d2 * d2;
    assert d2 * d2 >= 0.0;
    assert Q[0][0] >= 0.0 && Q[1][1] >= 0.0 && Q[2][2] >= 0.0 && Q[3][3] >= 0.0;
    forall i, j | 0 <= i < 4 && 0 <= j < 4
      ensures Q[i][j] == Q[j][i]
      ensures !InBand(i, j) ==> Q[i][j] == 0.0
    {
      if i == 0 {
      } else if i == 1 {
      } else if i == 2 {
      } else {
      }
    }
  }

  /** Q(dt) is positive semidefinite: v' Q v is ax and ay times a square each. */
  lemma ProcessNoisePositiveSemidefinite(dt: real, ax: real, ay: real)
    requires ax >= 0.0 && ay >= 0.0
    ensures PositiveSemidefinite(ProcessNoise(dt, ax, ay))
  {
    var Q := ProcessNoise(dt, ax, ay);
    forall v: Vec | |v| == 4
      ensures QuadForm(Q, v) >= 0.0
    {
      var w := MatVec(Q, v);
      Dot4(Q[0], v);
      Dot4(Q[1], v);
      Dot4(Q[2], v);
      Dot4(Q[3], v);
      Dot4(v, w);
      var gx := AxisSquare(ax, dt, Q[0][0], Q[0][2], Q[2][2], v[0], v[2], w[0], w[2]);
      var gy := AxisSquare(ay, dt, Q[1][1], Q[1][3], Q[3][3], v[1], v[3], w[1], w[3]);
      assert QuadForm(Q, v) == (v[0] * w[0] + v[2] * w[2]) + (v[1] * w[1] + v[3] * w[3]);
    }
  }

  /** One axis of v' Q v, with the block [[a, b], [b, d]] of Q(dt) scaled by
      a non-negative c: p wp + q wq is c times the square of g. */
  lemma AxisSquare(c: real, dt: real, a: real, b: real, d: real, p: real, q: real, wp: real, wq: real)
      returns (g: real)
    requires c >= 0.0
    requires a == dt * dt * dt * dt / 4.0 * c && b == dt * dt * dt / 2.0 * c && d == dt * dt * c
    requires wp == a * p + b * q && wq == b * p + d * q
    ensures g == dt * dt / 2.0 * p + dt * q
    ensures p * wp + q * wq == c * (g * g) >= 0.0
  {
    var h := dt * dt / 2.0;
    g := h * p + dt * q;
    assert a == c * (h * h) && b == c * (h * dt) && d == c * (dt * dt);
    SquareForm(c, h, dt, p, q, wp, wq, g);
    assert g * g >= 0.0;
  }

  /** One axis of v' Q v: the 2x2 block [[h*h, h*dt], [h*dt, dt*dt]] scaled
      by c is c times a square. */
  lemma SquareForm(c: real, h: real, dt: real, p: real, q: real, wp: real, wq: real, g: real)
    requires wp == c * (h * h) * p + c * (h * dt) * q
    requires wq == c * (h * dt) * p + c * (dt * dt) * q
    requires g == h * p + dt * q
    ensures p * wp + q * wq == c * (g * g)
  {
  }

  /** With no elapsed time there is no process noise: the constructor's
      all-zero Q is Q(0). */
  lemma ProcessNoiseAtRest(ax: real, ay: real)
    ensures ProcessNoise(0.0, ax, ay) == Zero(4, 4)
  {
    Mat4Ext(ProcessNoise(0.0, ax, ay), Zero(4, 4));
  }
}
