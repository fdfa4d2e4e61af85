/** The `FusionEKF` controller (src/FusionEKF.cpp): it owns the sensor noise
    and observation matrices and a Kalman filter, seeds the filter from the
    first measurement, and for every later one refreshes F and Q in place,
    predicts, and updates with the sensor's update. */
module Fusion {
  import opened Matrix
  import opened Motion
  import opened Kalman
  import opened FusionSpec

  class FusionEKF {
    var isInitialized: bool
    var previousTimestamp: int
    /** The laser and radar measurement noises and the laser observation
        matrix: set by the constructor and never written afterwards. */
    const RLaser: Mat
    const RRadar: Mat
    const HLaser: Mat
    /** Allocated by the constructor and never filled or read here. */
    const Hj: array2<real>
    const ekf: KalmanFilter
    const noiseAx: real
    const noiseAy: real
    const trig: Trig

    /** The filter's storage has its sizes. */
    ghost predicate Shaped()
      reads this, ekf
    {
      && ekf.Valid()
      && Hj.Length0 == 3 && Hj.Length1 == 4
    }

    ghost predicate Valid()
      reads this, ekf, ekf.x, ekf.P, ekf.F, ekf.Q
    {
      && Shaped()
      && noiseAx >= 0.0 && noiseAy >= 0.0
      && Invariant(Snapshot())
    }

    /** What the controller holds fixed. */
    ghost function Settings(): Config
    {
      Config(RLaser, RRadar, HLaser, noiseAx, noiseAy, trig, ekf.num)
    }

    /** The controller's changing state, read off its fields and its filter. */
    ghost function Snapshot(): Controller
      reads this, ekf, ekf.x, ekf.P, ekf.F, ekf.Q
      requires Shaped()
    {
      Controller(isInitialized, previousTimestamp,
        Filter(ekf.Current(), MatOf(ekf.F), MatOf(ekf.Q), ekf.H, ekf.R, ekf.RRadar),
        ekf.calls)
    }

    constructor (trig: Trig, num: Numerics)
      ensures Valid()
      ensures fresh(ekf) && fresh(ekf.x) && fresh(ekf.P) && fresh(ekf.F) && fresh(ekf.Q)
      ensures !isInitialized && previousTimestamp == 0
      ensures RLaser == LaserNoise && RRadar == RadarNoise
      ensures HLaser == LaserObservation
      ensures ekf.Current().P == InitialCovariance
      ensures MatOf(ekf.F) == Transition(1.0) && MatOf(ekf.Q) == Zero(4, 4)
      ensures noiseAx == 9.0 && noiseAy == 9.0
      ensures this.trig == trig && ekf.num == num && ekf.calls == []
    {
      isInitialized := false;
      previousTimestamp := 0;
      RLaser, RRadar, HLaser := LaserNoise, RadarNoise, LaserObservation;
      Hj := new real[3, 4];
      var filter := NewFilter(num);
      ekf := filter;
      noiseAx := 9.0;
      noiseAy := 9.0;
      this.trig := trig;
      new;
      ProcessNoiseAtRest(9.0, 9.0);
      ProcessNoiseShaped(0.0, 9.0, 9.0);
    }

    /** The filter with the initial covariance, transition and process noise. */
    static method NewFilter(num: Numerics) returns (filter: KalmanFilter)
      ensures filter.Valid()
      ensures fresh(filter) && fresh(filter.x) && fresh(filter.P) && fresh(filter.F) && fresh(filter.Q)
      ensures filter.Current().P == InitialCovariance
      ensures MatOf(filter.F) == Transition(1.0) && MatOf(filter.Q) == Zero(4, 4)
      ensures filter.num == num && filter.calls == []
    {
      filter := new KalmanFilter(num);
      Fill(filter.P, InitialCovariance);
      Fill(filter.F, Transition(1.0));
      Fill(filter.Q, Zero(4, 4));
    }

    /** Handles one measurement package. */
    method ProcessMeasurement(m: Measurement)
      requires Valid() && WellFormed(m)
      modifies this, ekf, ekf.x, ekf.P, ekf.F, ekf.Q
      ensures Valid()
      ensures Snapshot() == Step(Settings(), old(Snapshot()), m)
      ensures isInitialized && previousTimestamp == m.timestamp
    {
      StepPreservesInvariant(Settings(), Snapshot(), m);
      StepBookkeeping(Settings(), Snapshot(), m);
      if !isInitialized {
        Initialize(m);
      } else {
        Advance(m);
      }
    }

    /** The first measurement: seeds the state from it and hands the matrices
        to the filter, with no prediction or update. */
    method Initialize(m: Measurement)
      requires Shaped() && WellFormed(m) && !isInitialized
      modifies this, ekf, ekf.x, ekf.P, ekf.F, ekf.Q
      ensures Shaped()
      ensures Snapshot() == Step(Settings(), old(Snapshot()), m)
    {
      ghost var before := Snapshot();
      SeedState(m);
      ekf.Init(ekf.x[..], MatOf(ekf.P), MatOf(ekf.F), HLaser, RLaser, RRadar, MatOf(ekf.Q));
      previousTimestamp := m.timestamp;
      isInitialized := true;
      StepFirstFrom(Settings(), before, m, ekf.Current().x, ekf.calls);
    }

    /** Writes the state seeded by a first measurement into the filter's x:
        a radar measurement converted from polar coordinates, a laser one
        with its position and zero velocity. */
    method SeedState(m: Measurement)
      requires Shaped() && WellFormed(m)
      modifies ekf.x
      ensures ekf.x[..] == Seed(trig, m)
    {
      if m.sensor == Radar {
        var ro, phi, roDot := m.raw[0], m.raw[1], m.raw[2];
        var px, py := ro * trig.cos(phi), ro * trig.sin(phi);
        var vx, vy := roDot * trig.cos(phi), roDot * trig.sin(phi);
        ekf.x[0], ekf.x[1], ekf.x[2], ekf.x[3] := px, py, vx, vy;
      } else if m.sensor == Laser {
        ekf.x[0], ekf.x[1], ekf.x[2], ekf.x[3] := m.raw[0], m.raw[1], 0.0, 0.0;
      }
      Vec4Ext(ekf.x[..], Seed(trig, m));
    }

    /** Every later measurement: refreshes F and Q for the elapsed time,
        predicts, and updates with the update of the measurement's sensor. */
    method Advance(m: Measurement)
      requires Shaped() && WellFormed(m) && isInitialized
      modifies this, ekf, ekf.x, ekf.P, ekf.F, ekf.Q
      ensures Shaped()
      ensures Snapshot() == Step(Settings(), old(Snapshot()), m)
    {
      ghost var before := Snapshot();
      var dt := (m.timestamp - previousTimestamp) as real / 1000000.0;
      previousTimestamp := m.timestamp;
      RefreshMotionModel(dt);

      ekf.Predict();
      ghost var F, Q, predicted := MatOf(ekf.F), MatOf(ekf.Q), ekf.Current();

      ApplyUpdate(m);
      StepLaterFrom(Settings(), before, m, dt, F, Q, predicted, ekf.Current());
    }

    /** The measurement update chosen by the sensor: the extended update for
        radar, the linear one for laser. */
    method ApplyUpdate(m: Measurement)
      requires Shaped() && WellFormed(m)
      modifies ekf`calls, ekf.x, ekf.P
      ensures ekf.Current() == if m.sensor == Radar then ekf.num.updateEKF(old(ekf.Current()), ekf.RRadar, m.raw)
                               else ekf.num.update(old(ekf.Current()), ekf.H, ekf.R, m.raw)
      ensures ekf.calls == old(ekf.calls) + [UpdateFor(m)]
    {
      if m.sensor == Radar {
        ekf.UpdateEKF(m.raw);
      } else {
        ekf.Update(m.raw);
      }
    }

    /** Overwrites the time-dependent entries of F and Q for a gap of dt
        seconds: the two dt entries of F and the eight non-zero entries of Q. */
    method RefreshMotionModel(dt: real)
      requires Shaped()
      modifies ekf.F, ekf.Q
      ensures MatOf(ekf.F) == SetDt(old(MatOf(ekf.F)), dt)
      ensures MatOf(ekf.Q) == SetNoise(old(MatOf(ekf.Q)), dt, noiseAx, noiseAy)
    {
      Assign(ekf.F, 0, 2, dt);
      Assign(ekf.F, 1, 3, dt);

      Assign(ekf.Q, 0, 0, 1.0 / 4.0 * Pow(dt, 4) * noiseAx);
      Assign(ekf.Q, 0, 2, 1.0 / 2.0 * Pow(dt, 3) * noiseAx);
      Assign(ekf.Q, 1, 1, 1.0 / 4.0 * Pow(dt, 4) * noiseAy);
      Assign(ekf.Q, 1, 3, 1.0 / 2.0 * Pow(dt, 3) * noiseAy);
      Assign(ekf.Q, 2, 0, 1.0 / 2.0 * Pow(dt, 3) * noiseAx);
      Assign(ekf.Q, 2, 2, 1.0 / 1.0 * Pow(dt, 2) * noiseAx);
      Assign(ekf.Q, 3, 1, 1.0 / 2.0 * Pow(dt, 3) * noiseAy);
      Assign(ekf.Q, 3, 3, 1.0 / 1.0 * Pow(dt, 2) * noiseAy);
    }
  }
}
