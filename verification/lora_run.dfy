/** What a whole `train_lora` run does, stated against a reference
    description that is independent of the loop: the state the loop must be
    in after k rounds, the events of round r, and the condition under which
    no exception is raised. The theorems connect the loop of module Lora to
    that description; the cadence, ordering and metric properties are then
    read off it. */
module LoraRun {
  import opened Base
  import opened Clients
  import opened Lora

  /** Rounds the `while` loop runs from zeroed counters. */
  function Rounds(a: TrainArgs): nat
  {
    RangeLen(a.iterations)
  }

  /** Microsteps each client has run after k rounds. */
  function Done(c: Ctx, k: nat): int
  {
    c.Acc() * k
  }

  /** The events of round r when every client's counter goes from r-1 to r. */
  function RoundEvents(c: Ctx, r: nat): seq<Event>
    requires c.Valid()
  {
    TrainEvents(c, 0)
    + (if AggregateDue(c.args, r) then [Aggregate(r)] else [])
    + EvalEvents(c, Fill(c.N(), r), Fill(c.N(), Done(c, r)), 0)
  }

  /** The events of rounds 1..k, in order. */
  function ExpectedLog(c: Ctx, k: nat): seq<Event>
    requires c.Valid()
  {
    if k == 0 then [] else ExpectedLog(c, k - 1) + RoundEvents(c, k)
  }

  /** Client j's metric lists after k rounds. */
  function ExpectedStats(c: Ctx, j: nat, k: nat): ClientStats
    requires c.Valid()
  {
    if k == 0 then NoStats
    else
      var prev := ExpectedStats(c, j, k - 1);
      if c.args.isMaster && EvalDue(c.args, k)
      then Record(prev, MicroLoss(c.N() - 1, Done(c, k)), EvalCall(j, k))
      else prev
  }

  /** The `loss` local after k rounds: the last client's last microstep, if any microstep ran. */
  function LossAfter(c: Ctx, k: nat): Option<MicroLoss>
    requires c.Valid()
  {
    if k > 0 && c.Acc() > 0 then Some(MicroLoss(c.N() - 1, Done(c, k))) else None
  }

  /** The loop state after k complete rounds. */
  function Expected(c: Ctx, k: nat): (s: State)
    requires c.Valid()
    ensures Shaped(c, s)
  {
    State(
      Fill(c.N(), k),
      Fill(c.N(), Done(c, k)),
      LossAfter(c, k),
      seq(c.N(), j requires 0 <= j < c.N() => ExpectedStats(c, j, k)),
      ExpectedLog(c, k))
  }

  /** Clients 0..j-1 can each make their r-th local step. */
  predicate StepsBelow(c: Ctx, j: nat, r: int)
    requires c.Valid() && j <= c.N()
  {
    forall m :: 0 <= m < j ==> Steppable(c, m, r)
  }

  /** Round r raises nothing: every local step can be made, neither
      cadence divides by zero, and an evaluation on the master process finds
      a nonzero epoch length and a bound `loss`. */
  predicate RoundViable(c: Ctx, r: nat)
    requires c.Valid()
  {
    && StepsBelow(c, c.N(), r)
    && c.args.trustFreq != 0
    && c.args.evalFreq != 0
    && (c.args.isMaster && EvalDue(c.args, r) ==> c.Acc() > 0 && forall j :: 0 <= j < c.N() ==> c.perEpoch[j] != 0)
  }

  /** Every client's counters are those of the end of round k. */
  predicate AtRound(c: Ctx, s: State, k: nat)
    requires c.Valid()
  {
    && Shaped(c, s)
    && s.itr == Fill(c.N(), k)
    && s.substep == Fill(c.N(), Done(c, k))
    && s.loss == LossAfter(c, k)
  }

  /** The metric lists after the evaluation pass of round r. */
  function AppendRound(c: Ctx, stats: seq<ClientStats>, r: nat): (t: seq<ClientStats>)
    requires c.Valid() && |stats| == c.N()
    ensures |t| == c.N()
  {
    seq(c.N(), j requires 0 <= j < c.N() =>
      if c.args.isMaster && EvalDue(c.args, r)
      then Record(stats[j], MicroLoss(c.N() - 1, Done(c, r)), EvalCall(j, r))
      else stats[j])
  }

  lemma BumpFill(n: nat, x: int, d: int)
    ensures Bump(Fill(n, x), 0, d) == Fill(n, x + d)
  {
  }

  lemma DoneStep(c: Ctx, k: nat)
    ensures Done(c, k) + c.Acc() == Done(c, k + 1)
  {
    var a := c.Acc();
    assert a * (k + 1) == a * k + a;
  }

  /** At the end of round k every client's next local step is its (k+1)-th. */
  lemma StepsAtRound(c: Ctx, s: State, k: nat, j: nat)
    requires c.Valid() && AtRound(c, s, k) && j <= c.N()
    ensures StepsBelow(c, j, k + 1) <==> forall m :: 0 <= m < j ==> Steppable(c, m, s.itr[m] + 1)
  {
    if StepsBelow(c, j, k + 1) {
      forall m | 0 <= m < j
        ensures Steppable(c, m, s.itr[m] + 1)
      {
        assert s.itr[m] == k;
      }
    } else {
      var m :| 0 <= m < j && !Steppable(c, m, k + 1);
      assert s.itr[m] == k;
    }
  }

  /** The training pass of round k+1 moves every counter in lock-step. */
  lemma TrainAtRound(c: Ctx, s: State, k: nat)
    requires c.Valid() && AtRound(c, s, k) && StepsBelow(c, c.N(), k + 1)
    ensures TrainPhase(c, s, 0) ==
              Ok(s.(itr := Fill(c.N(), k + 1), substep := Fill(c.N(), Done(c, k + 1)),
                    loss := LossAfter(c, k + 1), log := s.log + TrainEvents(c, 0)))
  {
    var n, acc := c.N(), c.Acc();
    StepsAtRound(c, s, k, n);
    TrainPhaseOk(c, s, 0);
    var t := TrainPhase(c, s, 0).value;
    assert t.itr == Fill(n, k + 1) by {
      BumpFill(n, k, 1);
    }
    assert t.substep == Fill(n, Done(c, k + 1)) by {
      BumpFill(n, Done(c, k), acc);
      DoneStep(c, k);
    }
    assert t.loss == LossAfter(c, k + 1) by {
      assert s.substep[n - 1] == Done(c, k);
    }
    assert t == s.(itr := Fill(n, k + 1), substep := Fill(n, Done(c, k + 1)),
                   loss := LossAfter(c, k + 1), log := s.log + TrainEvents(c, 0));
  }

  /** The zero-grad/evaluation pass of round r: it raises exactly when an
      evaluation on the master process meets a zero epoch length or an unbound `loss`. */
  lemma EvalAtRound(c: Ctx, u: State, r: nat)
    requires c.Valid() && r >= 1 && AtRound(c, u, r) && c.args.evalFreq != 0
    ensures EvalPhase(c, u, 0).Ok? <==>
              (c.args.isMaster && EvalDue(c.args, r) ==> c.Acc() > 0 && forall j :: 0 <= j < c.N() ==> c.perEpoch[j] != 0)
    ensures EvalPhase(c, u, 0).Ok? ==>
              EvalPhase(c, u, 0).value ==
                u.(log := u.log + EvalEvents(c, Fill(c.N(), r), Fill(c.N(), Done(c, r)), 0),
                   stats := AppendRound(c, u.stats, r))
  {
    var ep := EvalPhase(c, u, 0);
    if c.args.isMaster && EvalDue(c.args, r) {
      assert EvalDue(c.args, u.itr[0]);
    }
    if ep.Ok? {
      var e := ep.value;
      forall j | 0 <= j < c.N()
        ensures e.stats[j] == AppendRound(c, u.stats, r)[j]
      {
        assert u.itr[j] == r;
      }
      assert e.stats == AppendRound(c, u.stats, r);
    }
  }

  /** The state the evaluation pass of round k+1 starts from: the training
      pass and the aggregation check are behind it. */
  function Trained(c: Ctx, s: State, k: nat): State
    requires c.Valid()
  {
    s.(itr := Fill(c.N(), k + 1), substep := Fill(c.N(), Done(c, k + 1)), loss := LossAfter(c, k + 1),
       log := s.log + TrainEvents(c, 0) + (if AggregateDue(c.args, k + 1) then [Aggregate(k + 1)] else []))
  }

  /** Once every local step can be made and the aggregation cadence is
      nonzero, round k+1 is its evaluation pass run from the trained state. */
  lemma RoundIsEval(c: Ctx, s: State, k: nat)
    requires c.Valid() && AtRound(c, s, k) && c.args.trustFreq != 0
    requires StepsBelow(c, c.N(), k + 1)
    ensures AtRound(c, Trained(c, s, k), k + 1)
    ensures Round(c, s) == EvalPhase(c, Trained(c, s, k), 0)
  {
    TrainAtRound(c, s, k);
    var t := TrainPhase(c, s, 0).value;
    assert t.itr[c.N() - 1] == k + 1;
    var ag := if AggregateDue(c.args, k + 1) then [Aggregate(k + 1)] else [];
    assert t.(log := t.log + ag) == Trained(c, s, k);
  }

  /** One loop iteration from the end of round k: it raises exactly when round
      k+1 is not viable, and otherwise ends round k+1 with that round's events
      and metric entries appended. */
  lemma RoundAtRound(c: Ctx, s: State, k: nat)
    requires c.Valid() && AtRound(c, s, k)
    ensures Round(c, s).Ok? <==> RoundViable(c, k + 1)
    ensures Round(c, s).Ok? ==>
              Round(c, s).value ==
                s.(itr := Fill(c.N(), k + 1), substep := Fill(c.N(), Done(c, k + 1)), loss := LossAfter(c, k + 1),
                   log := s.log + RoundEvents(c, k + 1), stats := AppendRound(c, s.stats, k + 1))
  {
    StepsAtRound(c, s, k, c.N());
    TrainPhaseOk(c, s, 0);
    if !StepsBelow(c, c.N(), k + 1) {
      assert !RoundViable(c, k + 1);
      assert Round(c, s).Err?;
      return;
    }
    if c.args.trustFreq == 0 {
      TrainAtRound(c, s, k);
      assert !RoundViable(c, k + 1);
      assert Round(c, s).Err?;
      return;
    }
    RoundIsEval(c, s, k);
    var u := Trained(c, s, k);
    if c.args.evalFreq == 0 {
      assert !RoundViable(c, k + 1);
      assert EvalPhase(c, u, 0).Err?;
      return;
    }
    EvalAtRound(c, u, k + 1);
    assert RoundViable(c, k + 1) <==> EvalPhase(c, u, 0).Ok?;
    if EvalPhase(c, u, 0).Ok? {
      var ag := if AggregateDue(c.args, k + 1) then [Aggregate(k + 1)] else [];
      var ee := EvalEvents(c, Fill(c.N(), k + 1), Fill(c.N(), Done(c, k + 1)), 0);
      ConcatAssoc(s.log, TrainEvents(c, 0), ag, ee);
    }
  }

  /** A round that fails in a local step names the first client whose step
      cannot be made, with that step's exception. */
  lemma RoundStepError(c: Ctx, s: State, k: nat)
    requires c.Valid() && AtRound(c, s, k) && Round(c, s).Err? && LocalStepError(Round(c, s).error)
    ensures var j := Round(c, s).error.client;
            && j < c.N() && !Steppable(c, j, k + 1) && Round(c, s).error == StepError(c, j, k + 1)
            && StepsBelow(c, j, k + 1)
  {
    if TrainPhase(c, s, 0).Err? {
      TrainPhaseError(c, s, 0);
      StepsAtRound(c, s, k, TrainPhase(c, s, 0).error.client);
      assert Round(c, s).error == TrainPhase(c, s, 0).error;
    } else {
      assert false;
    }
  }

  /** A failing evaluation pass of round r, with a nonzero cadence, happens
      on the master process in a due round: an unbound `loss` means no
      microstep has run, and a division by zero names the first client with
      a zero epoch length. */
  lemma EvalAtRoundError(c: Ctx, u: State, r: nat)
    requires c.Valid() && r >= 1 && AtRound(c, u, r) && c.args.evalFreq != 0 && EvalPhase(c, u, 0).Err?
    ensures var e := EvalPhase(c, u, 0).error;
            && c.args.isMaster && EvalDue(c.args, r)
            && (e == LossUnbound ==> c.Acc() == 0)
            && (e.ZeroDivision? ==>
                  && e.site.Epoch? && e.site.client < c.N() && c.perEpoch[e.site.client] == 0
                  && forall m :: 0 <= m < e.site.client ==> c.perEpoch[m] != 0)
  {
    EvalPhaseError(c, u, 0);
    var e := EvalPhase(c, u, 0).error;
    var j :| 0 <= j < c.N() && c.args.isMaster && EvalDue(c.args, u.itr[j]) &&
            (forall m :: 0 <= m < j && c.args.isMaster && EvalDue(c.args, u.itr[m]) ==> c.perEpoch[m] != 0) &&
            (if c.perEpoch[j] == 0 then e == ZeroDivision(Epoch(j)) else u.loss.None? && e == LossUnbound);
    assert u.itr[j] == r;
    forall m | 0 <= m < j
      ensures c.perEpoch[m] != 0
    {
      assert u.itr[m] == r;
    }
  }

  /** What a round raises once every local step can be made, in the order
      the loop body checks: a zero aggregation cadence, then a zero evaluation
      cadence (at client 0), then on the master process the first zero epoch
      length, or an unbound `loss` when no microstep has run. */
  lemma RoundCadenceError(c: Ctx, s: State, k: nat)
    requires c.Valid() && AtRound(c, s, k) && Round(c, s).Err?
    requires StepsBelow(c, c.N(), k + 1)
    ensures var e := Round(c, s).error;
            if c.args.trustFreq == 0 then e == ZeroDivision(AggregateCadence)
            else if c.args.evalFreq == 0 then e == ZeroDivision(EvalCadence(0))
            else && c.args.isMaster && EvalDue(c.args, k + 1)
                 && (e == LossUnbound ==> c.Acc() == 0)
                 && (e.ZeroDivision? ==>
                       && e.site.Epoch? && e.site.client < c.N() && c.perEpoch[e.site.client] == 0
                       && forall m :: 0 <= m < e.site.client ==> c.perEpoch[m] != 0)
  {
    if c.args.trustFreq == 0 {
      TrainAtRound(c, s, k);
      return;
    }
    RoundIsEval(c, s, k);
    if c.args.evalFreq != 0 {
      EvalAtRoundError(c, Trained(c, s, k), k + 1);
    }
  }

  /** Without microsteps, a round that is due for evaluation on the master
      process raises at client 0: the epoch's division by zero when its epoch
      length is zero, and otherwise the read of the never-bound `loss`. */
  lemma NoMicrostepRoundError(c: Ctx, s: State, k: nat)
    requires c.Valid() && AtRound(c, s, k) && c.Acc() == 0 && StepsBelow(c, c.N(), k + 1)
    requires c.args.trustFreq != 0 && c.args.evalFreq != 0 && c.args.isMaster && EvalDue(c.args, k + 1)
    ensures Round(c, s) == Err(if c.perEpoch[0] == 0 then ZeroDivision(Epoch(0)) else LossUnbound)
  {
    RoundIsEval(c, s, k);
    assert Trained(c, s, k).itr[0] == k + 1;
  }

  lemma ConcatAssoc<T>(a: seq<T>, b: seq<T>, c: seq<T>, d: seq<T>)
    ensures a + b + c + d == a + (b + c + d)
  {
  }

  /** The loop starts from the reference state of zero rounds. */
  lemma InitIsExpected(c: Ctx)
    requires c.Valid()
    ensures Init(c.N()) == Expected(c, 0)
  {
    var e := Expected(c, 0);
    assert Done(c, 0) == 0;
    assert e.stats == Fill(c.N(), NoStats);
  }

  /** The reference state is at its round, and round k+1 applied to it gives the next one. */
  lemma {:induction false} ExpectedNext(c: Ctx, k: nat)
    requires c.Valid()
    ensures AtRound(c, Expected(c, k), k)
    ensures Expected(c, k).(itr := Fill(c.N(), k + 1), substep := Fill(c.N(), Done(c, k + 1)), loss := LossAfter(c, k + 1),
                            log := Expected(c, k).log + RoundEvents(c, k + 1),
                            stats := AppendRound(c, Expected(c, k).stats, k + 1))
            == Expected(c, k + 1)
  {
    var e, e1 := Expected(c, k), Expected(c, k + 1);
    assert e.log + RoundEvents(c, k + 1) == e1.log;
    forall j | 0 <= j < c.N()
      ensures AppendRound(c, e.stats, k + 1)[j] == e1.stats[j]
    {
    }
    assert AppendRound(c, e.stats, k + 1) == e1.stats;
  }

  /** The first round index from k on whose round raises, or the last one. */
  function FirstStuck(c: Ctx, k: nat): (r: nat)
    requires c.Valid() && k < Rounds(c.args)
    ensures k <= r < Rounds(c.args)
    decreases Rounds(c.args) - k
  {
    if !RoundViable(c, k + 1) || k + 1 == Rounds(c.args) then k else FirstStuck(c, k + 1)
  }

  /** `FirstStuck` is the earliest failure: every round before it is viable,
      and its own round is not, when some round fails. */
  lemma {:induction false} FirstStuckIsFirst(c: Ctx, k: nat)
    requires c.Valid() && k < Rounds(c.args)
    requires exists r :: k < r <= Rounds(c.args) && !RoundViable(c, r)
    ensures forall r :: k < r <= FirstStuck(c, k) ==> RoundViable(c, r)
    ensures !RoundViable(c, FirstStuck(c, k) + 1)
    decreases Rounds(c.args) - k
  {
    if RoundViable(c, k + 1) && k + 1 < Rounds(c.args) {
      var r :| k < r <= Rounds(c.args) && !RoundViable(c, r);
      assert r != k + 1;
      FirstStuckIsFirst(c, k + 1);
    }
  }

  /** The `while` loop from the reference state of round k: it completes
      exactly when every remaining round is viable, ending in the reference
      state of the last round; otherwise it raises what the first failing
      round raises. */
  lemma {:induction false} LoopFromExpected(c: Ctx, k: nat)
    requires c.Valid() && k <= Rounds(c.args)
    ensures Loop(c, Expected(c, k)).Ok? <==> forall r :: k < r <= Rounds(c.args) ==> RoundViable(c, r)
    ensures Loop(c, Expected(c, k)).Ok? ==> Loop(c, Expected(c, k)).value == Expected(c, Rounds(c.args))
    ensures Loop(c, Expected(c, k)).Err? ==>
              k < Rounds(c.args) && Round(c, Expected(c, FirstStuck(c, k))).Err? &&
              Loop(c, Expected(c, k)).error == Round(c, Expected(c, FirstStuck(c, k))).error
    decreases Rounds(c.args) - k
  {
    var e := Expected(c, k);
    ExpectedNext(c, k);
    assert e.itr[c.N() - 1] == k;
    if k < Rounds(c.args) {
      RoundAtRound(c, e, k);
      if RoundViable(c, k + 1) {
        assert Round(c, e) == Ok(Expected(c, k + 1));
        assert Loop(c, e) == Loop(c, Expected(c, k + 1));
        LoopFromExpected(c, k + 1);
        assert (forall r :: k < r <= Rounds(c.args) ==> RoundViable(c, r)) <==>
               (forall r :: k + 1 < r <= Rounds(c.args) ==> RoundViable(c, r));
        if k + 1 < Rounds(c.args) {
          assert FirstStuck(c, k) == FirstStuck(c, k + 1);
        }
      } else {
        assert Loop(c, e) == Round(c, e);
        assert !RoundViable(c, k + 1);
      }
    } else {
      assert Loop(c, e) == Ok(e);
    }
  }

  /** The loop context `train_lora` builds once its shards load and the per-epoch table is computed. */
  function RunCtx(rev: Revision, clients: seq<Client>, a: TrainArgs): (c: Ctx)
    requires 0 < |clients| <= |a.trainLens| && a.batchSize * a.sequenceLength != 0
    ensures c.Valid() && c.N() == |clients| && c.args == a
  {
    Ctx(rev, clients, a, PerEpochTable(a, |clients|))
  }

  /** The inputs on which `train_lora` returns: at least one client and every
      shard of every client present, a nonzero batch size in tokens, and, if any round runs,
      every train shard long enough to sample when microsteps run, every
      schedule lasting all rounds (or skipped under the corrected reading),
      both cadences nonzero, and on the master process at least one microstep
      per round and at least one whole batch in every shard. */
  predicate Completes(rev: Revision, clients: seq<Client>, a: TrainArgs)
  {
    && 0 < |clients| && Loaded(a, |clients|)
    && a.batchSize * a.sequenceLength != 0
    && (a.iterations > 0 ==>
          && (a.accSteps > 0 ==> forall j :: 0 <= j < |clients| ==> a.trainLens[j] > a.sequenceLength)
          && (forall j :: 0 <= j < |clients| ==> clients[j].scheduler.None? ==> rev.NoneSchedulerSkipped?)
          && (forall j :: 0 <= j < |clients| ==> clients[j].scheduler.Some? ==> RunsSteps(clients[j].scheduler.value, Rounds(a)))
          && a.trustFreq != 0
          && a.evalFreq != 0
          && (a.isMaster ==>
                && a.accSteps > 0
                && forall j :: 0 <= j < |clients| ==> FloorDiv(a.trainLens[j], a.batchSize * a.sequenceLength) != 0))
  }

  /** Every round of a run is viable exactly when the run's inputs are the ones that complete. */
  lemma AllViable(rev: Revision, clients: seq<Client>, a: TrainArgs)
    requires 0 < |clients| && Loaded(a, |clients|) && a.batchSize * a.sequenceLength != 0
    ensures (forall r :: 0 < r <= Rounds(a) ==> RoundViable(RunCtx(rev, clients, a), r)) <==> Completes(rev, clients, a)
  {
    var c := RunCtx(rev, clients, a);
    if a.iterations > 0 && forall r :: 0 < r <= Rounds(a) ==> RoundViable(c, r) {
      assert RoundViable(c, Rounds(a));
      assert RoundViable(c, 1);
      assert EvalDue(a, Rounds(a));
      forall j | 0 <= j < |clients|
        ensures a.accSteps > 0 ==> a.trainLens[j] > a.sequenceLength
        ensures clients[j].scheduler.None? ==> rev.NoneSchedulerSkipped?
        ensures clients[j].scheduler.Some? ==> RunsSteps(clients[j].scheduler.value, Rounds(a))
      {
        assert Steppable(c, j, 1);
        if clients[j].scheduler.Some? {
          var sc := clients[j].scheduler.value;
          RunsStepsExact(sc, Rounds(a));
          forall k | 1 <= k <= Rounds(a)
            ensures OneCycleFault(sc, k).None?
          {
            assert RoundViable(c, k);
            assert Steppable(c, j, k);
          }
        }
      }
      if a.isMaster {
        forall j | 0 <= j < |clients|
          ensures FloorDiv(a.trainLens[j], a.batchSize * a.sequenceLength) != 0
        {
          assert c.perEpoch[j] != 0;
        }
      }
    }
    if Completes(rev, clients, a) {
      forall r | 0 < r <= Rounds(a)
        ensures RoundViable(c, r)
      {
        forall j | 0 <= j < c.N()
          ensures Steppable(c, j, r) && (a.isMaster ==> c.perEpoch[j] != 0)
        {
          if clients[j].scheduler.Some? {
            RunsStepsExact(clients[j].scheduler.value, Rounds(a));
          }
        }
      }
    }
  }

  /** When some client cannot make its first local step, the loop from
      zeroed counters raises in the first round's training pass, in the
      first such client's step. */
  lemma FirstPassDecides(c: Ctx, s: State, j: nat)
    requires c.Valid() && AtRound(c, s, 0) && c.args.iterations > 0 && j < c.N() && !Steppable(c, j, 1)
    ensures var t := TrainPhase(c, s, 0);
            && t.Err? && Loop(c, s) == t
            && t.error.client <= j && !Steppable(c, t.error.client, 1) && t.error == StepError(c, t.error.client, 1)
            && StepsBelow(c, t.error.client, 1)
  {
    assert s.itr[j] + 1 == 1;
    TrainPhaseOk(c, s, 0);
    FailedPassEndsLoop(c, s);
    TrainPhaseError(c, s, 0);
    StepsAtRound(c, s, 0, TrainPhase(c, s, 0).error.client);
  }

  /** A failing training pass in the first round is what the loop raises. */
  lemma FailedPassEndsLoop(c: Ctx, s: State)
    requires c.Valid() && AtRound(c, s, 0) && c.args.iterations > 0 && TrainPhase(c, s, 0).Err?
    ensures Loop(c, s) == TrainPhase(c, s, 0)
  {
    assert s.itr[c.N() - 1] == 0;
    assert Round(c, s) == TrainPhase(c, s, 0);
  }

  /** Once the shards load and a batch holds tokens, `train_lora` is the loop
      started from the reference state of zero rounds. */
  lemma TrainLoraIsLoop(rev: Revision, clients: seq<Client>, a: TrainArgs)
    requires 0 < |clients| && Loaded(a, |clients|) && a.batchSize * a.sequenceLength != 0
    ensures TrainLora(rev, clients, a) == Loop(RunCtx(rev, clients, a), Expected(RunCtx(rev, clients, a), 0))
  {
    InitIsExpected(RunCtx(rev, clients, a));
  }

  /** When `train_lora` raises after its shards load, what it raises is what
      the first failing round raises, from the reference state before it. */
  lemma TrainLoraError(rev: Revision, clients: seq<Client>, a: TrainArgs)
    requires 0 < |clients| && Loaded(a, |clients|) && a.batchSize * a.sequenceLength != 0
    requires TrainLora(rev, clients, a).Err?
    ensures Rounds(a) > 0
    ensures var c := RunCtx(rev, clients, a);
            var k := FirstStuck(c, 0);
            && AtRound(c, Expected(c, k), k)
            && Round(c, Expected(c, k)).Err?
            && TrainLora(rev, clients, a).error == Round(c, Expected(c, k)).error
  {
    var c := RunCtx(rev, clients, a);
    TrainLoraIsLoop(rev, clients, a);
    LoopFromExpected(c, 0);
    ExpectedNext(c, FirstStuck(c, 0));
  }

  /** `train_lora` returns exactly on the inputs that complete, and then
      returns the reference state of its last round: every counter at
      `max(iterations, 0)`, every round's events in order, and one metric entry
      per evaluation. */
  lemma TrainLoraOutcome(rev: Revision, clients: seq<Client>, a: TrainArgs)
    ensures TrainLora(rev, clients, a).Ok? <==> Completes(rev, clients, a)
    ensures TrainLora(rev, clients, a).Ok? ==>
              TrainLora(rev, clients, a).value == Expected(RunCtx(rev, clients, a), Rounds(a))
  {
    if 0 < |clients| && Loaded(a, |clients|) && a.batchSize * a.sequenceLength != 0 {
      var c := RunCtx(rev, clients, a);
      TrainLoraIsLoop(rev, clients, a);
      LoopFromExpected(c, 0);
      AllViable(rev, clients, a);
    }
  }
}
