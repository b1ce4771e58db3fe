/** The per-client optimizer and learning-rate schedule records that
    `main` builds and `train_lora` steps. Model parameters themselves are
    not represented: they only matter through the events the loop emits. */
module Clients {
  import opened Base

  /** `torch.optim.AdamW` or `torch.optim.SGD` with the hyperparameters main passes. */
  datatype Optimizer =
    | AdamW(lr: real, beta1: real, beta2: real, weightDecay: real, fused: bool)
    | Sgd(lr: real, momentum: real, weightDecay: real)

  /** `torch.optim.lr_scheduler.OneCycleLR` with the arguments main passes. */
  datatype Scheduler = OneCycle(
    maxLr: real,
    totalSteps: int,
    pctStart: real,
    annealStrategy: string,
    cycleMomentum: bool,
    divFactor: real,
    finalDivFactor: real)

  /** Why a `step()` of a OneCycleLR schedule raises: `ValueError` for a
      step past `total_steps`, or `ZeroDivisionError` when the phase the step
      falls in has zero length. */
  datatype StepFault = PastTotalSteps | EmptyPhase

  /** `pct_start * total_steps`: the step on which the warm-up phase ends, plus one. */
  function WarmupSteps(sc: Scheduler): real
  {
    sc.pctStart * (sc.totalSteps as real)
  }

  /** Torch's OneCycleLR learning rate at step k, two-phase form: the warm-up
      phase ends at step `pct_start * total_steps - 1` and the annealing phase
      at `total_steps - 1`. A step past `total_steps` is rejected; otherwise
      the step's position is divided by the length of its phase. The
      constructor makes step 0, and the k-th `step()` call makes step k. */
  function OneCycleFault(sc: Scheduler, k: int): Option<StepFault>
  {
    var total := sc.totalSteps as real;
    var warmEnd := WarmupSteps(sc) - 1.0;
    if k > sc.totalSteps then Some(PastTotalSteps)
    else if k as real <= warmEnd then (if warmEnd == 0.0 then Some(EmptyPhase) else None)
    else if (total - 1.0) - warmEnd == 0.0 then Some(EmptyPhase)
    else None
  }

  /** A schedule makes its first n `step()` calls without raising: n is
      within `total_steps`, and the last of them does not land on an empty
      annealing phase, which happens when the warm-up covers every step. */
  predicate RunsSteps(sc: Scheduler, n: nat)
  {
    n == 0 || (n <= sc.totalSteps && !(n == sc.totalSteps && WarmupSteps(sc) == sc.totalSteps as real))
  }

  /** `RunsSteps` is exactly "none of steps 1..n raises". */
  lemma RunsStepsExact(sc: Scheduler, n: nat)
    ensures RunsSteps(sc, n) <==> forall k :: 1 <= k <= n ==> OneCycleFault(sc, k).None?
  {
    var w := WarmupSteps(sc);
    if RunsSteps(sc, n) {
      forall k | 1 <= k <= n
        ensures OneCycleFault(sc, k).None?
      {
        assert k as real > w - 1.0 ==> w != sc.totalSteps as real || k < sc.totalSteps;
      }
    } else {
      if n > sc.totalSteps {
        assert OneCycleFault(sc, n) == Some(PastTotalSteps);
      } else {
        assert OneCycleFault(sc, n) == Some(EmptyPhase);
      }
    }
  }

  /** The warm-up covers every step exactly when its fraction is 1. */
  lemma FullWarmup(sc: Scheduler)
    requires sc.totalSteps > 0
    ensures WarmupSteps(sc) == sc.totalSteps as real <==> sc.pctStart == 1.0
  {
    var p, t := sc.pctStart, sc.totalSteps as real;
    assert WarmupSteps(sc) - t == (p - 1.0) * t;
    if p < 1.0 {
      assert (1.0 - p) * t > 0.0;
    } else if p > 1.0 {
      assert (p - 1.0) * t > 0.0;
    }
  }

  /** The constructor's initial step, on a schedule with positive total
      steps and a warm-up fraction in [0, 1], raises exactly when the warm-up
      phase ends at step 0. */
  lemma InitialStep(sc: Scheduler)
    requires sc.totalSteps > 0 && 0.0 <= sc.pctStart <= 1.0
    ensures OneCycleFault(sc, 0).Some? <==> WarmupSteps(sc) == 1.0
  {
    var t := sc.totalSteps as real;
    assert (1.0 - sc.pctStart) * t >= 0.0;
  }

  /** One `[model, opt, scheduler]` triple; the model is left abstract. */
  datatype Client = Client(optimizer: Optimizer, scheduler: Option<Scheduler>)
}
