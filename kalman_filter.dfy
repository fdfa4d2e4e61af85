/** The Kalman filter object `ekf_` that the fusion controller drives. Its
    storage (the mean x and the matrices P, F, Q) is modelled as the arrays the
    controller writes into; the matrix numerics of Predict, Update and
    UpdateEKF live outside this model and are supplied as the `Numerics`
    functions. A ghost trace records every call with the matrices it saw, so
    that the controller's contract can say which calls it made and in which
    order. */
module Kalman {
  import opened Matrix

  /** The filter's estimate: the state [px, py, vx, vy] and its covariance. */
  datatype Estimate = Estimate(x: Vec4, P: Mat4)

  /** What the filter's numerical steps compute, as functions of what each
      step reads: Predict reads F and Q, Update the laser observation matrix H
      and noise R, UpdateEKF the radar noise; each also reads the measurement. */
  datatype Numerics = Numerics(
    predict: (Estimate, Mat4, Mat4) -> Estimate,
    update: (Estimate, Mat, Mat, Vec) -> Estimate,
    updateEKF: (Estimate, Mat, Vec) -> Estimate)

  /** One call on the filter, with the values it was given or read. */
  datatype Call =
    | InitCall(x: Vec4, P: Mat4, F: Mat4, H: Mat, R: Mat, RRadar: Mat, Q: Mat4)
    | PredictCall(F: Mat4, Q: Mat4)
    | UpdateCall(z: Vec)
    | UpdateEKFCall(z: Vec)

  class KalmanFilter {
    const x: array<real>
    const P: array2<real>
    const F: array2<real>
    const Q: array2<real>
    /** The laser observation matrix and the two measurement noises handed over by Init. */
    var H: Mat
    var R: Mat
    var RRadar: Mat
    const num: Numerics
    ghost var calls: seq<Call>

    ghost predicate Valid()
      reads this
    {
      && x.Length == 4
      && P.Length0 == 4 && P.Length1 == 4
      && F.Length0 == 4 && F.Length1 == 4
      && Q.Length0 == 4 && Q.Length1 == 4
      && P != F && P != Q && F != Q
    }

    /** The estimate the filter currently holds. */
    function Current(): Estimate
      reads this, x, P
      requires Valid()
    {
      Estimate(x[..], MatOf(P))
    }

    constructor (num: Numerics)
      ensures Valid()
      ensures fresh(x) && fresh(P) && fresh(F) && fresh(Q)
      ensures this.num == num && calls == []
      ensures H == [] && R == [] && RRadar == []
    {
      x := new real[4];
      P := new real[4, 4];
      F := new real[4, 4];
      Q := new real[4, 4];
      H, R, RRadar := [], [], [];
      this.num := num;
      calls := [];
    }

    /** Overwrites the estimate. */
    method Store(e: Estimate)
      requires Valid()
      modifies x, P
      ensures Current() == e
    {
      FillVec(x, e.x);
      Fill(P, e.P);
    }

    /** Takes over the initial state, covariance, transition, observation and
        noise matrices. */
    method Init(x0: Vec4, P0: Mat4, F0: Mat4, H0: Mat, R0: Mat, RRadar0: Mat, Q0: Mat4)
      requires Valid()
      modifies this, x, P, F, Q
      ensures Valid()
      ensures Current() == Estimate(x0, P0) && MatOf(F) == F0 && MatOf(Q) == Q0
      ensures H == H0 && R == R0 && RRadar == RRadar0
      ensures calls == old(calls) + [InitCall(x0, P0, F0, H0, R0, RRadar0, Q0)]
    {
      Store(Estimate(x0, P0));
      Fill(F, F0);
      Fill(Q, Q0);
      H, R, RRadar := H0, R0, RRadar0;
      calls := calls + [InitCall(x0, P0, F0, H0, R0, RRadar0, Q0)];
    }

    /** The prediction step with the F and Q the filter holds. */
    method Predict()
      requires Valid()
      modifies this`calls, x, P
      ensures Valid()
      ensures Current() == num.predict(old(Current()), MatOf(F), MatOf(Q))
      ensures calls == old(calls) + [PredictCall(MatOf(F), MatOf(Q))]
    {
      var F0, Q0 := MatOf(F), MatOf(Q);
      Store(num.predict(Current(), F0, Q0));
      calls := calls + [PredictCall(F0, Q0)];
    }

    /** The linear (laser) measurement update with the H and R taken over by Init. */
    method Update(z: Vec)
      requires Valid()
      modifies this`calls, x, P
      ensures Valid()
      ensures Current() == num.update(old(Current()), H, R, z)
      ensures calls == old(calls) + [UpdateCall(z)]
    {
      Store(num.update(Current(), H, R, z));
      calls := calls + [UpdateCall(z)];
    }

    /** The extended (radar) measurement update with the radar noise taken over by Init. */
    method UpdateEKF(z: Vec)
      requires Valid()
      modifies this`calls, x, P
      ensures Valid()
      ensures Current() == num.updateEKF(old(Current()), RRadar, z)
      ensures calls == old(calls) + [UpdateEKFCall(z)]
    {
      Store(num.updateEKF(Current(), RRadar, z));
      calls := calls + [UpdateEKFCall(z)];
    }
  }
}
