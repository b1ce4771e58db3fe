/** What a call of `train_lora` guarantees, read off the reference run:
    lock-step counters, the number of each event, the aggregation and
    evaluation cadences, the epoch it prints, the metric lists it returns,
    and which exception it raises when it does not return. */
module LoraTheorems {
  import opened Base
  import opened Clients
  import opened Lora
  import opened LoraRun
  import opened LoraProps

  /** Tokens in one batch. */
  function BatchTokens(a: TrainArgs): int
  {
    a.batchSize * a.sequenceLength
  }

  /** A run that returns ends in the reference state of its last round. */
  lemma Returned(rev: Revision, clients: seq<Client>, a: TrainArgs, s: State)
    requires TrainLora(rev, clients, a) == Ok(s)
    ensures Completes(rev, clients, a)
    ensures s == Expected(RunCtx(rev, clients, a), Rounds(a))
  {
    TrainLoraOutcome(rev, clients, a);
  }

  /** Every client runs `max(iterations, 0)` rounds and the same number of
      microsteps: `itr` is equal across clients and `substep == acc_steps * itr`. */
  lemma RunCounters(rev: Revision, clients: seq<Client>, a: TrainArgs, s: State)
    requires TrainLora(rev, clients, a) == Ok(s)
    ensures s.itr == Fill(|clients|, Rounds(a))
    ensures s.substep == Fill(|clients|, RangeLen(a.accSteps) * Rounds(a))
  {
    Returned(rev, clients, a, s);
  }

  /** An event that does not depend on the round happens in a returned run
      as often per round as the loop body promises. */
  lemma RunSteadyCount(rev: Revision, clients: seq<Client>, a: TrainArgs, s: State, e: Event)
    requires TrainLora(rev, clients, a) == Ok(s) && !e.Aggregate? && !e.Eval?
    ensures Completes(rev, clients, a)
    ensures Count(s.log, e) == Rounds(a) * RoundCount(RunCtx(rev, clients, a), 0, e)
  {
    Returned(rev, clients, a, s);
    var c := RunCtx(rev, clients, a);
    ExpectedLogCount(c, Rounds(a), e);
    TotalSteady(c, Rounds(a), e);
  }

  /** Per client, every round runs `acc_steps` microsteps, one optimizer step
      and one zero-grad. */
  lemma RunStepCounts(rev: Revision, clients: seq<Client>, a: TrainArgs, s: State, j: nat)
    requires TrainLora(rev, clients, a) == Ok(s) && j < |clients|
    ensures Count(s.log, Microstep(j)) == RangeLen(a.accSteps) * Rounds(a)
    ensures Count(s.log, OptStep(j)) == Rounds(a)
    ensures Count(s.log, ZeroGrad(j)) == Rounds(a)
  {
    RunSteadyCount(rev, clients, a, s, Microstep(j));
    RunSteadyCount(rev, clients, a, s, OptStep(j));
    RunSteadyCount(rev, clients, a, s, ZeroGrad(j));
    var r, acc := Rounds(a), RangeLen(a.accSteps);
    ClientRoundCounts(RunCtx(rev, clients, a), j);
    assert r * acc == acc * r;
  }

  /** Per client, every round clips gradients once when `grad_clip` is
      nonzero, and steps the scheduler once when the client has one. */
  lemma RunOptionalStepCounts(rev: Revision, clients: seq<Client>, a: TrainArgs, s: State, j: nat)
    requires TrainLora(rev, clients, a) == Ok(s) && j < |clients|
    ensures Count(s.log, ClipGrad(j)) == if a.gradClip != 0.0 then Rounds(a) else 0
    ensures Count(s.log, SchedStep(j)) == if clients[j].scheduler.Some? then Rounds(a) else 0
  {
    RunSteadyCount(rev, clients, a, s, ClipGrad(j));
    RunSteadyCount(rev, clients, a, s, SchedStep(j));
    ClientRoundCounts(RunCtx(rev, clients, a), j);
  }

  /** The aggregation runs exactly once after each round r of 1..iterations
      with `r % trust_freq == 0` and `r >= pretraining_rounds - 1`, and never
      otherwise. */
  lemma RunAggregates(rev: Revision, clients: seq<Client>, a: TrainArgs, s: State, r: int)
    requires TrainLora(rev, clients, a) == Ok(s)
    ensures Count(s.log, Aggregate(r)) ==
              if 1 <= r <= Rounds(a) && FloorMod(r, a.trustFreq) == 0 && r >= a.pretrainingRounds - 1 then 1 else 0
  {
    Returned(rev, clients, a, s);
    var c := RunCtx(rev, clients, a);
    ExpectedLogCount(c, Rounds(a), Aggregate(r));
    TotalOnce(c, Rounds(a), Aggregate(r));
  }

  /** On the master process client j is evaluated exactly once after each
      round r of 1..iterations with `r % eval_freq == 0` or `r == iterations`,
      with epoch `acc_steps * r // (train_len_j // batch_tokens)`; elsewhere never. */
  lemma RunEvaluations(rev: Revision, clients: seq<Client>, a: TrainArgs, s: State, j: nat, r: int, epoch: int)
    requires TrainLora(rev, clients, a) == Ok(s)
    ensures Completes(rev, clients, a)
    ensures Count(s.log, Eval(j, r, epoch)) ==
              if && j < |clients| && 1 <= r <= Rounds(a) && a.isMaster
                 && (FloorMod(r, a.evalFreq) == 0 || r == a.iterations)
                 && epoch == FloorDiv(RangeLen(a.accSteps) * r, FloorDiv(a.trainLens[j], BatchTokens(a)))
              then 1 else 0
  {
    Returned(rev, clients, a, s);
    var c := RunCtx(rev, clients, a);
    ExpectedLogCount(c, Rounds(a), Eval(j, r, epoch));
    TotalOnce(c, Rounds(a), Eval(j, r, epoch));
  }

  /** The four lists `train_lora` returns for client j hold one entry per
      evaluation round (none off the master process): the last client's final
      microstep loss of that round, shared by every client, and client j's own
      validation loss, perplexity and accuracy from that round. */
  lemma RunStats(rev: Revision, clients: seq<Client>, a: TrainArgs, s: State, j: nat)
    requires TrainLora(rev, clients, a) == Ok(s) && j < |clients|
    ensures var st := s.stats[j];
            var ev := if a.isMaster then EvalRounds(a, Rounds(a)) else [];
            && |st.trainLoss| == |ev| && |st.valLoss| == |ev| && |st.valPp| == |ev| && |st.valAcc| == |ev|
            && (forall m :: 0 <= m < |ev| ==> st.trainLoss[m] == MicroLoss(|clients| - 1, RangeLen(a.accSteps) * ev[m]))
            && (forall m :: 0 <= m < |ev| ==>
                  st.valLoss[m] == EvalCall(j, ev[m]) && st.valPp[m] == EvalCall(j, ev[m]) && st.valAcc[m] == EvalCall(j, ev[m]))
  {
    Returned(rev, clients, a, s);
    StatsAfter(RunCtx(rev, clients, a), j, Rounds(a));
  }

  /** A shard shorter than one batch: Python's `n // b` is zero exactly then. */
  lemma FloorDivZero(n: nat, b: int)
    requires b > 0
    ensures FloorDiv(n, b) == 0 <==> n < b
  {
    if n >= b {
      assert n / b >= 1;
    }
  }

  /** Client q's shard is the first one shorter than a batch. */
  predicate FirstShortShard(a: TrainArgs, q: nat)
  {
    && q < |a.trainLens| && a.trainLens[q] < BatchTokens(a)
    && forall i :: 0 <= i < q ==> a.trainLens[i] >= BatchTokens(a)
  }

  /** Every client's schedule, if it has one, lasts the whole run, and a
      client without one is skipped. */
  predicate SchedulesLast(rev: Revision, clients: seq<Client>, a: TrainArgs)
  {
    forall i :: 0 <= i < |clients| ==>
      && (clients[i].scheduler.None? ==> rev.NoneSchedulerSkipped?)
      && (clients[i].scheduler.Some? ==> RunsSteps(clients[i].scheduler.value, Rounds(a)))
  }

  /** Every client's first local step gets past `get_batch` and, if it has
      a schedule, past the schedule's first step. */
  predicate FirstStepsReturn(clients: seq<Client>, a: TrainArgs)
    requires |clients| <= |a.trainLens|
  {
    forall i :: 0 <= i < |clients| ==>
      && (a.accSteps > 0 ==> a.trainLens[i] > a.sequenceLength)
      && (clients[i].scheduler.Some? ==> OneCycleFault(clients[i].scheduler.value, 1).None?)
  }

  /** On the master process, with every other input fine, a shard shorter
      than one batch makes the first evaluation raise. With microsteps (and
      every shard long enough to sample from), it is `ZeroDivisionError` while
      printing the epoch, naming the first such client. Without microsteps,
      client 0 is evaluated first: its epoch divides by zero when its own shard
      is short, and otherwise the read of the never-bound `loss` raises. */
  lemma ShortShardFails(rev: Revision, clients: seq<Client>, a: TrainArgs, j: nat)
    requires 0 < |clients| && Loaded(a, |clients|) && BatchTokens(a) > 0
    requires a.iterations > 0 && a.trustFreq != 0 && a.evalFreq != 0 && a.isMaster
    requires SchedulesLast(rev, clients, a)
    requires a.accSteps > 0 ==> forall i :: 0 <= i < |clients| ==> a.trainLens[i] > a.sequenceLength
    requires j < |clients| && a.trainLens[j] < BatchTokens(a)
    ensures a.accSteps > 0 ==>
              exists q: nat :: q <= j && FirstShortShard(a, q) && TrainLora(rev, clients, a) == Err(ZeroDivision(Epoch(q)))
    ensures a.accSteps <= 0 ==>
              TrainLora(rev, clients, a) == Err(if a.trainLens[0] < BatchTokens(a) then ZeroDivision(Epoch(0)) else LossUnbound)
  {
    var c := RunCtx(rev, clients, a);
    var b := BatchTokens(a);
    FloorDivZero(a.trainLens[j], b);
    assert !Completes(rev, clients, a);
    TrainLoraOutcome(rev, clients, a);
    TrainLoraError(rev, clients, a);
    var k := FirstStuck(c, 0);
    var s := Expected(c, k);
    var r := k + 1;
    forall i | 0 <= i < c.N()
      ensures Steppable(c, i, r)
    {
      if clients[i].scheduler.Some? {
        RunsStepsExact(clients[i].scheduler.value, Rounds(a));
      }
    }
    RoundCadenceError(c, s, k);
    var e := Round(c, s).error;
    if a.accSteps <= 0 {
      NoMicrostepRoundError(c, s, k);
      FloorDivZero(a.trainLens[0], b);
      return;
    }
    if LocalStepError(e) {
      RoundStepError(c, s, k);
      assert false;
    }
    var q := e.site.client;
    FloorDivZero(a.trainLens[q], b);
    forall i | 0 <= i < q
      ensures a.trainLens[i] >= b
    {
      FloorDivZero(a.trainLens[i], b);
    }
    assert FirstShortShard(a, q);
  }

  /** When some client cannot make its first local step, the first round
      raises, in the first such client's step, that step's exception. */
  lemma FirstRoundFails(rev: Revision, clients: seq<Client>, a: TrainArgs, j: nat)
    requires 0 < |clients| && Loaded(a, |clients|) && BatchTokens(a) != 0 && a.iterations > 0
    requires j < |clients| && !Steppable(RunCtx(rev, clients, a), j, 1)
    ensures var c := RunCtx(rev, clients, a);
            var t := TrainLora(rev, clients, a);
            && t.Err? && LocalStepError(t.error) && t.error.client <= j
            && !Steppable(c, t.error.client, 1) && t.error == StepError(c, t.error.client, 1)
            && forall i :: 0 <= i < t.error.client ==> Steppable(c, i, 1)
  {
    var c := RunCtx(rev, clients, a);
    TrainLoraIsLoop(rev, clients, a);
    ExpectedNext(c, 0);
    FirstPassDecides(c, Expected(c, 0), j);
  }

  /** As written, a client built without a scheduler (`scheduler == 'none'`)
      makes the first round raise, whatever the other inputs. When every
      client's first step gets past `get_batch` and any schedule, what it
      raises is `None.step()`, naming the first such client. */
  lemma NoneSchedulerCrashes(clients: seq<Client>, a: TrainArgs, j: nat)
    requires 0 < |clients| && Loaded(a, |clients|) && BatchTokens(a) != 0 && a.iterations > 0
    requires j < |clients| && clients[j].scheduler.None?
    ensures TrainLora(AsWritten, clients, a).Err?
    ensures var e := TrainLora(AsWritten, clients, a).error;
            LocalStepError(e) && e.client <= j
    ensures FirstStepsReturn(clients, a) ==>
              var e := TrainLora(AsWritten, clients, a).error;
              && e.NoneSchedulerStep? && e.client <= j && clients[e.client].scheduler.None?
              && forall i :: 0 <= i < e.client ==> clients[i].scheduler.Some?
  {
    var c := RunCtx(AsWritten, clients, a);
    FirstRoundFails(AsWritten, clients, a, j);
    var q := TrainLora(AsWritten, clients, a).error.client;
    if FirstStepsReturn(clients, a) {
      forall i | 0 <= i < q
        ensures clients[i].scheduler.Some?
      {
        assert Steppable(c, i, 1);
      }
      assert Samplable(c, q);
    }
  }

  /** A train shard too short for one window makes the first round raise in
      `get_batch` when microsteps run, on any process and whatever the
      cadences, naming the first such client, once the clients before it make
      their first scheduler step. */
  lemma UnsampledShardFails(rev: Revision, clients: seq<Client>, a: TrainArgs, j: nat)
    requires 0 < |clients| && Loaded(a, |clients|) && BatchTokens(a) != 0 && a.iterations > 0 && a.accSteps > 0
    requires forall i :: 0 <= i < |clients| ==>
               && (clients[i].scheduler.None? ==> rev.NoneSchedulerSkipped?)
               && (clients[i].scheduler.Some? ==> OneCycleFault(clients[i].scheduler.value, 1).None?)
    requires j < |clients| && a.trainLens[j] <= a.sequenceLength
    ensures TrainLora(rev, clients, a).Err?
    ensures var e := TrainLora(rev, clients, a).error;
            && e.ShortShard? && e.client <= j && a.trainLens[e.client] <= a.sequenceLength
            && forall i :: 0 <= i < e.client ==> a.trainLens[i] > a.sequenceLength
  {
    var c := RunCtx(rev, clients, a);
    FirstRoundFails(rev, clients, a, j);
    var q := TrainLora(rev, clients, a).error.client;
    forall i | 0 <= i < q
      ensures a.trainLens[i] > a.sequenceLength
    {
      assert Steppable(c, i, 1);
    }
    assert SchedulerSteps(c, q, 1);
  }

  /** With the scheduler step skipped for a client without one, the run
      completes on the same inputs as any other run, every client still takes
      one optimizer step per round, and only clients with a scheduler step it. */
  lemma NoneSchedulerSkippedCompletes(clients: seq<Client>, a: TrainArgs, j: nat)
    requires 0 < |clients| && Loaded(a, |clients|) && BatchTokens(a) != 0
    requires forall i :: 0 <= i < |clients| && clients[i].scheduler.Some? ==> RunsSteps(clients[i].scheduler.value, Rounds(a))
    requires a.iterations > 0 ==>
               && (a.accSteps > 0 ==> forall i :: 0 <= i < |clients| ==> a.trainLens[i] > a.sequenceLength)
               && a.trustFreq != 0 && a.evalFreq != 0
               && (a.isMaster ==> a.accSteps > 0 && forall i :: 0 <= i < |clients| ==> FloorDiv(a.trainLens[i], BatchTokens(a)) != 0)
    requires j < |clients|
    ensures TrainLora(NoneSchedulerSkipped, clients, a).Ok?
    ensures var log := TrainLora(NoneSchedulerSkipped, clients, a).value.log;
            && Count(log, OptStep(j)) == Rounds(a)
            && Count(log, SchedStep(j)) == (if clients[j].scheduler.Some? then Rounds(a) else 0)
  {
    assert Completes(NoneSchedulerSkipped, clients, a);
    TrainLoraOutcome(NoneSchedulerSkipped, clients, a);
    var s := TrainLora(NoneSchedulerSkipped, clients, a).value;
    RunStepCounts(NoneSchedulerSkipped, clients, a, s, j);
    RunOptionalStepCounts(NoneSchedulerSkipped, clients, a, s, j);
  }

  /** With `trust_freq = 2`, `pretraining_rounds = 3` and four iterations the
      aggregation runs after rounds 2 and 4: the guard `r >= pretraining_rounds - 1`
      already admits round 2. */
  lemma AggregateScenario(rev: Revision, clients: seq<Client>, a: TrainArgs, s: State, r: int)
    requires TrainLora(rev, clients, a) == Ok(s)
    requires a.trustFreq == 2 && a.pretrainingRounds == 3 && a.iterations == 4
    ensures Count(s.log, Aggregate(r)) == if r == 2 || r == 4 then 1 else 0
  {
    RunAggregates(rev, clients, a, s, r);
    ScenarioGuard(r);
  }

  lemma ScenarioGuard(r: int)
    ensures (1 <= r <= 4 && FloorMod(r, 2) == 0 && r >= 3 - 1) <==> (r == 2 || r == 4)
  {
    if 1 <= r <= 4 {
      assert FloorMod(r, 2) == r % 2;
    }
  }
}
