# Federated LoRA training loop: a Dafny model

This project models the control logic of a personalised federated
fine-tuning program. Several clients each hold a LoRA-adapted language model,
an optimizer and an optional learning-rate schedule. `train_lora`
(src/optim/lora.py) runs them in lock-step rounds:

- every client does `acc_steps` forward/backward microsteps, an optional
  gradient clip, an optimizer step and a scheduler step;
- on due rounds a trust-weighted aggregation runs over all clients;
- every client zeroes its gradients, and on due rounds the master process
  evaluates it and appends to four metric lists.

`main` (src/main.py) chooses the dataset directory, builds the clients'
optimizers and schedulers, skips an experiment that already completed,
dispatches on the model type, trains, and writes a JSON summary.

Tensor work is not computed. It is recorded as events (`Microstep`,
`ClipGrad`, `OptStep`, `SchedStep`, `Aggregate`, `ZeroGrad`, `Eval`) in a log
that is part of the loop state. A loss is named by the client and the ordinal
of the microstep that produced it. An evaluation result is named by the
client and round it was made in. Every exception the modelled code raises
is a `TrainError` in the loop and a `StartupError` in `main` from line 64 on.
Code outside the model is taken not to raise: `main`'s set-up before the
dataset lookup (src/main.py:46-62, including the device), `get_model`, `eval`
and `strategies.aggregate`. See Left out.

Files:

- `base.dfy`: `Option`/`Result`, and Python's `range` length, `//`, `%`,
  `os.path.join` and `str` of a natural number.
- `clients.dfy`: the optimizer, scheduler and client records.
- `lora.dfy`: the loop itself: one client's local step, the training pass,
  the aggregation guard, the evaluation pass, the `while` loop, the
  per-epoch table and `train_lora`.
- `shards.dfy`: the per-client shard file names, the order in which
  `train_lora` opens them, and the first absent one on disk.
- `lora_run.dfy`: a reference description of the loop that is independent
  of it. It gives the state after k rounds, the events of round r, and the
  inputs on which a round raises. It also proves that the loop follows that
  description: `TrainLoraOutcome` is the main theorem.
- `lora_props.dfy`: occurrence counts, ordering and metric-list contents,
  read off the reference description.
- `lora_theorems.dfy`: the resulting statements about a whole `train_lora`
  run.
- `startup.dfy`: `main`'s decisions and the order of its effects.

Two readings of the scheduler step are modelled, as `Revision`:

- `AsWritten` calls it unconditionally, as the code does.
- `NoneSchedulerSkipped` skips it for a client without a scheduler.

See Findings.

The aggregation guard at src/optim/lora.py:82 is `r % f == 0 and r >= p - 1`.
With f = 2 and p = 3 it therefore fires after round 2 already, not only after
round 4. `LoraTheorems.AggregateScenario` proves that in a four-round run it
fires after rounds 2 and 4 and no others.

The constructors `main` calls check their arguments and raise `ValueError` on
a rejected one. These checks belong to torch, whose source is not part of this
model. The model follows torch's checks in torch's order:

- AdamW checks the learning rate, then each beta, then the weight decay.
- SGD checks the learning rate, then the weight decay.
- OneCycleLR checks `total_steps`, then `pct_start`.

OneCycleLR's learning-rate formula (`Clients.OneCycleFault`) divides a step's
position by the length of its phase. The warm-up phase ends at step
`pct_start * total_steps - 1` and the annealing phase at `total_steps - 1`.
The constructor computes step 0, and the k-th `scheduler.step()` (lora.py:78,
in round k) computes step k. A phase of length zero raises
`ZeroDivisionError`, and a step past `total_steps` raises `ValueError`. For
`main`'s arguments this gives two more failures:

- the constructor raises when `warmup_percent * iterations == 1`, because the
  warm-up phase ends at step 0;
- with `warmup_percent == 1`, the last round's `scheduler.step()` raises,
  because the annealing phase is empty.

`get_batch` draws windows of `sequence_length` tokens plus the shifted target.
It is taken to raise exactly on a train shard of at most `sequence_length`
tokens. The loop only calls it when `acc_steps > 0`, at a client's first
microstep, before that client's scheduler step.

## Model

| member | source | states |
|---|---|---|
| Base.RangeLen | src/optim/lora.py:64 | `range(k)` has `max(k, 0)` elements: k when k is non-negative, none otherwise |
| Base.Fill | src/optim/lora.py:29 | `[x] * n` has n elements, all equal to x |
| Base.FloorDiv | src/optim/lora.py:48 | Python `//` rounds toward negative infinity: the quotient q satisfies `b*q <= a < b*q + b` for a positive divisor, and the mirrored bound for a negative one |
| Base.FloorMod | src/optim/lora.py:82 | Python `%` pairs with `//` (`a == b*(a//b) + a%b`), and the remainder takes the divisor's sign |
| Base.PathJoin | src/optim/lora.py:39-41 | `os.path.join`: an absolute name replaces the directory; otherwise a separator is inserted only when the directory is non-empty and does not end in one |
| Base.PathJoinInjective | src/optim/lora.py:39-41 | joining one directory with two relative names gives equal paths only for equal names |
| Base.NatToString | src/optim/lora.py:39 | `str(i)` of a non-negative index is a non-empty string of decimal digits with no leading zero |
| Base.ParseNatToString | src/optim/lora.py:39-41 | reading the printed digits back gives the index |
| Base.NatToStringInjective | src/optim/lora.py:39-41 | distinct indices print differently |
| Clients.RunsStepsExact | src/optim/lora.py:78 | a schedule's first n `step()` calls all return exactly when n is 0, or n is within `total_steps` and the n-th step does not land on an empty annealing phase |
| Clients.InitialStep | src/main.py:97-102 | with positive `total_steps` and `pct_start` in [0, 1], the constructor's step 0 raises exactly when `pct_start * total_steps == 1` |
| Clients.FullWarmup | src/main.py:97-102 | the warm-up covers every step exactly when `pct_start == 1` |
| Shards.ShardName | src/optim/lora.py:39-41 | a shard's file name is its kind's prefix, then the index digits, then `.bin` |
| Shards.ShardPath | src/optim/lora.py:39-41 | a shard path starts with the data directory and ends with the shard's file name |
| Shards.ShardIndexRoundTrip | src/optim/lora.py:39-41 | the client index is recovered from a shard's file name |
| Shards.ShardNameInjective | src/optim/lora.py:39-45 | no two (kind, client) pairs share a file name; the validation set comes from `test_`, the reference set from `valid_` |
| Shards.ShardPathInjective | src/optim/lora.py:39-45 | under one data directory, all 3·n shard paths are pairwise distinct |
| Shards.OpenedBeforeTotal | src/optim/lora.py:39-45 | the loading order is a strict total order on (client, kind) pairs: client by client, and within a client `train_`, then `test_`, then `valid_` |
| Shards.FirstAbsent | src/optim/lora.py:39-45 | the first index from i below n whose shard of a kind is not on disk: every index before it is on disk, and it is absent unless it is n |
| Lora.Microsteps | src/optim/lora.py:64-73 | the accumulation loop adds `count` to this client's substep only, appends `count` microstep events, and leaves `loss` as that client's last microstep (unchanged when `count` is 0) |
| Lora.StepError | src/optim/lora.py:62-79 | what a client's local step raises when it cannot be made: `get_batch`'s error on a train shard too short to sample (checked first, since the microsteps come first); otherwise `None.step()` when there is no scheduler; otherwise OneCycleLR's `ValueError` past `total_steps`, or its `ZeroDivisionError` on an empty phase. Each names the client |
| Lora.ClientStep | src/optim/lora.py:62-79 | the k-th local step of a client raises exactly when its shard cannot be sampled or its scheduler cannot make step k, and then raises `StepError`. Otherwise it bumps `itr[i]` by 1 and `substep[i]` by `len(range(acc_steps))` and appends the client's microstep, clip, optimizer and scheduler events |
| Lora.TrainPhase | src/optim/lora.py:60-79 | the training pass raises only in a local step (`get_batch` or the scheduler step). Otherwise every client from i on gains exactly one `itr` and one round of substeps, `loss` is the last client's final microstep, and the log gains the clients' events in index order |
| Lora.TrainPhaseOk | src/optim/lora.py:60-79 | the training pass completes if and only if every remaining client's next local step can be made |
| Lora.TrainPhaseError | src/optim/lora.py:60-78 | a failing training pass raises the `StepError` of the first client whose next local step cannot be made; every client before it can make its step |
| Lora.EvalPhase | src/optim/lora.py:88-111 | the evaluation pass completes if and only if the evaluation cadence is nonzero and every due client on the master process has a nonzero epoch length and a bound `loss`. It leaves the counters alone, logs zero-grad and evaluation events in order, and appends one metric entry exactly for due clients on the master process |
| Lora.EvalPhaseError | src/optim/lora.py:92-97 | with a nonzero cadence, a failing evaluation stops at the first due client on the master process: a zero epoch length there is reported before an unbound `loss` |
| Lora.Round | src/optim/lora.py:59-130 | one iteration raises only a local-step, division-by-zero or unbound-loss error; otherwise every client's `itr` grows by 1 and its substep by one round of microsteps |
| Lora.Loop | src/optim/lora.py:59 | the `while` loop returns only once the last client's counter has reached `iterations` |
| Lora.PerEpoch | src/optim/lora.py:46-48 | the epoch-length table raises `ZeroDivisionError` exactly when there is a client and a batch holds zero tokens; otherwise entry j is the number of whole batches in shard j |
| Lora.MissingFrom | src/optim/lora.py:39-45 | the loading loop from client i stops at the first shard, in loading order, that does not open; it finishes exactly when every shard of clients i and later opens |
| Lora.FirstMissingUnique | src/optim/lora.py:39-45 | at most one shard is the first in loading order that does not open |
| Lora.TrainLoraMissing | src/optim/lora.py:39-45 | `train_lora` raises on shard (i, kind) exactly when i is a client index and that shard is the first one in loading order that does not open |
| Lora.TrainLora | src/optim/lora.py:28-59 | a missing shard is raised exactly when some shard of some client does not open, naming the first such shard in loading order; no clients raises `IndexError` at `itr[-1]`; a return leaves the last counter at least at `iterations` |
| LoraRun.StepsAtRound | src/optim/lora.py:60-79 | at round k every client's next local step is its (k+1)-th, so "the first j clients can make step k+1" is the same as "each of them can make its next step" |
| LoraRun.TrainAtRound | src/optim/lora.py:60-79 | from the end of round k, the training pass leaves every `itr` at k+1, every substep at `acc·(k+1)`, `loss` at the last client's final microstep, and the log extended by the clients' events |
| LoraRun.EvalAtRound | src/optim/lora.py:88-111 | the evaluation pass of round r fails exactly when the master process is due and finds no microstep or a zero epoch length; otherwise it appends round r's evaluation events and metric entries |
| LoraRun.RoundIsEval | src/optim/lora.py:81-90 | once every client's local step can be made and `trust_freq` is nonzero, the rest of the round is the evaluation pass started after the aggregation check, with counters at round k+1 |
| LoraRun.RoundAtRound | src/optim/lora.py:59-130 | one loop iteration from round k completes if and only if round k+1 is viable, and then yields the round-(k+1) counters, the round's events and its metric entries |
| LoraRun.RoundStepError | src/optim/lora.py:60-78 | a round k+1 that fails in a local step raises the `StepError` of the first client that cannot make step k+1 |
| LoraRun.EvalAtRoundError | src/optim/lora.py:92-97 | a failing evaluation pass of a round r ≥ 1 happens on the master process in a due round; `loss` is unbound only when no microstep ran, and a division by zero names the first client with a zero epoch length |
| LoraRun.RoundCadenceError | src/optim/lora.py:82-97 | once every local step can be made, the checks fire in the order the loop body makes them: zero `trust_freq` first, then zero `eval_freq` at client 0, then the epoch or loss failure on the master process |
| LoraRun.NoMicrostepRoundError | src/optim/lora.py:92-97 | without microsteps, a round due for evaluation on the master process raises at client 0: `ZeroDivisionError` at the epoch when client 0's epoch length is zero, and otherwise the unbound `loss` |
| LoraRun.InitIsExpected | src/optim/lora.py:28-33 | the loop starts from the reference state of zero rounds: zero counters, no loss, empty metric lists |
| LoraRun.ExpectedNext | src/optim/lora.py:59-111 | the reference state of round k is at round k, and applying round k+1's changes to it gives the reference state of round k+1 |
| LoraRun.LoopFromExpected | src/optim/lora.py:59-135 | from round k the loop completes if and only if every remaining round is viable, ending in the reference state of the last round; otherwise it raises what the first failing round raises |
| LoraRun.FirstPassDecides | src/optim/lora.py:59-79 | from zeroed counters, when some client cannot make its first local step, the loop raises in the first round's training pass, with the `StepError` of the first such client |
| LoraRun.AllViable | src/optim/lora.py:46-97 | every round of a run is viable exactly on the inputs the whole run completes on |
| LoraRun.TrainLoraIsLoop | src/optim/lora.py:28-59 | once the shards load and a batch holds tokens, `train_lora` is the `while` loop from zeroed state |
| LoraRun.TrainLoraError | src/optim/lora.py:28-135 | a run that raises after loading raises what its first failing round raises, from the reference state before that round |
| LoraRun.TrainLoraOutcome | src/optim/lora.py:28-137 | `train_lora` returns if and only if its inputs complete, and then returns the reference state after `max(iterations, 0)` rounds. When any round runs, completing includes: every train shard samplable when microsteps run, every schedule lasting all rounds, and no client without a scheduler unless its step is skipped |
| LoraProps.ClientEventsTally | src/optim/lora.py:64-78 | one local step holds `len(range(acc_steps))` microsteps, a clip only when `grad_clip != 0`, one optimizer step, and a scheduler step only when the client has a scheduler |
| LoraProps.ClientEventsCount | src/optim/lora.py:62-79 | a client's local step contains only that client's local-step events, each as often as once per round |
| LoraProps.TrainEventsCount | src/optim/lora.py:60-79 | the training pass from client i holds exactly the local-step events of clients i and later |
| LoraProps.EvalEventsCount | src/optim/lora.py:88-99 | the evaluation pass holds one zero-grad per client and, on the master process in a due round, one evaluation per client with its epoch |
| LoraProps.RoundEventsCount | src/optim/lora.py:60-99 | each event occurs in round r's events exactly as often as the loop body prescribes for that round |
| LoraProps.ExpectedLogCount | src/optim/lora.py:59-99 | the log of k rounds holds each event as often as rounds 1..k together prescribe |
| LoraProps.TotalSteady | src/optim/lora.py:59-90 | an event that does not depend on the round occurs k times its per-round count over k rounds |
| LoraProps.TotalOnce | src/optim/lora.py:82-99 | an aggregation or evaluation for round r occurs once within rounds 1..k if r is among them and is due, and never otherwise |
| LoraProps.RoundEventsOrdered | src/optim/lora.py:60-99 | within a round every local-step event precedes the aggregation, which precedes every zero-grad and evaluation |
| LoraProps.RoundEventsComplete | src/optim/lora.py:77-90 | every client's optimizer step and zero-grad are in every round; the aggregation is in round r if and only if it is due |
| LoraProps.EvalRounds | src/optim/lora.py:92 | the due evaluation rounds up to k, strictly increasing, containing r exactly when `r % eval_freq == 0 or r == iterations` |
| LoraProps.StatsAfter | src/optim/lora.py:92-111 | after k rounds, client j's four lists have one entry per due round on the master process and none elsewhere. `train_loss` is the last client's final microstep of that round, and the other three lists hold client j's own evaluation |
| LoraTheorems.Returned | src/optim/lora.py:28-137 | a run that returns ends in the reference state of its last round |
| LoraTheorems.RunCounters | src/optim/lora.py:59-79 | after a returned run every `itr` equals `max(iterations, 0)` and every `substep` equals `len(range(acc_steps))` times that |
| LoraTheorems.RunSteadyCount | src/optim/lora.py:59-90 | a round-independent event occurs exactly rounds × its per-round count |
| LoraTheorems.RunStepCounts | src/optim/lora.py:64-90 | per client, a returned run has `acc·R` microsteps, R optimizer steps and R zero-grads for R rounds |
| LoraTheorems.RunOptionalStepCounts | src/optim/lora.py:75-78 | per client, R clips when `grad_clip != 0` (else none), and R scheduler steps when it has a scheduler (else none) |
| LoraTheorems.RunAggregates | src/optim/lora.py:82-83 | aggregation runs once after round r exactly when `1 <= r <= iterations`, `r % trust_freq == 0` and `r >= pretraining_rounds - 1`, and never otherwise |
| LoraTheorems.RunEvaluations | src/optim/lora.py:92-94 | on the master process client j is evaluated once after each due round, with epoch `acc·r // (len_j // batch_tokens)`, and never otherwise |
| LoraTheorems.RunStats | src/optim/lora.py:92-111 | the four returned lists of every client have equal length, one entry per due round on the master process; `train_loss` is shared by all clients of a round |
| LoraTheorems.FloorDivZero | src/optim/lora.py:48 | a shard's epoch length is zero exactly when it holds fewer tokens than a batch |
| LoraTheorems.ShortShardFails | src/optim/lora.py:46-94 | on the master process, with every other input fine, a shard long enough to sample but shorter than one batch makes the run raise `ZeroDivisionError` at the epoch, naming the first such client |
| LoraTheorems.FirstRoundFails | src/optim/lora.py:59-79 | when some client cannot make its first local step, `train_lora` raises that step's `StepError` in the first round, for the first such client; every client before it makes its step |
| LoraTheorems.UnsampledShardFails | src/optim/lora.py:64-65 | with microsteps running and every first scheduler step possible, a train shard of at most `sequence_length` tokens makes `train_lora` raise in `get_batch`, on any process and whatever the cadences, naming the first such client |
| LoraTheorems.NoneSchedulerCrashes | src/optim/lora.py:78 | as written, a client without a scheduler makes the first round raise in some client's local step no later than its own. When every client's first step gets past `get_batch` and any schedule, the error is `None.step()`, naming the first client without a scheduler |
| LoraTheorems.NoneSchedulerSkippedCompletes | src/optim/lora.py:77-79 | with the scheduler step skipped for such a client, the run completes whenever the other inputs allow it (samplable shards, schedules that last, nonzero cadences, whole batches on the master process); each client still steps its optimizer every round, and only clients with a scheduler step it |
| LoraTheorems.AggregateScenario | src/optim/lora.py:82-83 | with `trust_freq = 2`, `pretraining_rounds = 3` and four iterations, aggregation happens after rounds 2 and 4 and no others |
| Startup.DatasetPath | src/main.py:28-35 | a directory is chosen exactly for `multiwiki`, `slimpajama` and `agnews`; any other name leaves `data_path` unbound |
| Startup.MakeOptimizer | src/main.py:86-93 | the optimizer builds exactly when torch's constructor accepts the arguments: a non-negative lr and weight decay, and for AdamW both betas in [0, 1). A negative lr is reported whatever else is wrong, a beta before the weight decay, and beta 0 before beta 1. A built optimizer is AdamW exactly when `opt == 'adamw'`, fused only on a cuda device whose AdamW supports it, and otherwise SGD with momentum 0.9. lr and weight decay are as configured |
| Startup.MakeScheduler | src/main.py:95-106 | a scheduler setting builds exactly for `none`, or for `cos`/`linear` with positive iterations, a warm-up fraction in [0, 1], and `warmup_percent * iterations != 1`. An unknown name raises `NotImplementedError` naming it. A rejected OneCycleLR reports `total_steps`, then `pct_start`, then the initial step's `ZeroDivisionError`. `none` gives no scheduler; otherwise OneCycleLR with `total_steps = iterations`, that name as anneal strategy, no momentum cycling, and factors 1e2 and .05 |
| Startup.InitialStepDecides | src/main.py:97-102 | once OneCycleLR's argument checks pass, `MakeScheduler` fails exactly when the schedule it would build cannot make its initial step 0 |
| Startup.ScheduleLastsRun | src/main.py:97-102 | a schedule `main` builds can make the `iterations` steps of a run (lora.py:78, one per round) exactly when `warmup_percent != 1` |
| Startup.ConstructionError | src/main.py:86-104 | when a client cannot be built, the optimizer's `ValueError` comes first. With an accepted optimizer, an unknown scheduler name raises `NotImplementedError`, and a known one raises OneCycleLR's `ValueError` or its initial step's `ZeroDivisionError` |
| Startup.BuildFromResult | src/main.py:66-108 | the construction loop from index i fails exactly when it still runs and the optimizer or scheduler of a client cannot be built, raising what that first iteration raises; otherwise it keeps what was built and appends one client per remaining index |
| Startup.BuildClientsResult | src/main.py:66-108 | when every constructor accepts the configuration, exactly `max(num_clients, 0)` clients are built, each with the configured optimizer and scheduler. A rejected configuration raises the first client's error, and only when at least one client is built |
| Startup.SummaryPathsAgree | src/main.py:122-142 | the completed-run check and the summary write name the same file when the checkpoint path does not end in a separator |
| Startup.TrainLens | src/optim/lora.py:39-48 | the train token counts handed over stop at the first absent `train_` file among the clients, and each is the length of the file at that shard's path |
| Startup.OpensOnDisk | src/optim/lora.py:39-45 | below the client count, a shard opens exactly when it and every lower-indexed shard of its kind are on disk |
| Startup.MissingIsAbsent | src/optim/lora.py:39-45 | the first shard that fails to open is absent from disk, and every shard opened before it is on disk |
| Startup.AbsentIsMissing | src/optim/lora.py:39-45 | an absent file whose predecessors in loading order are all on disk is the first shard that fails to open |
| Startup.FirstMissingOnDisk | src/optim/lora.py:39-45 | for the arguments `main` hands over, the first shard to fail is exactly the first absent file in loading order |
| Startup.ShardLoading | src/optim/lora.py:39-45 | on the files of the data directory, `train_lora` raises on shard (i, kind) exactly when i is a client index, that file is absent, and every file opened before it is on disk |
| Startup.Launch | src/main.py:131-143 | training starts right after the earlier effects; `main` returns exactly when `train_lora` does, and otherwise raises its error; only the master process writes the summary, which holds the stats and the cleared arguments |
| Startup.UnknownDatasetFailsFirst | src/main.py:28-35 | from line 64 on, an unknown dataset raises before anything else, with no effect, and is the only way `data_path` is unbound |
| Startup.ConstructionFailsBeforeSkip | src/main.py:86-124 | with a known dataset, `main` raises a construction error exactly when the clients cannot be built. It raises before the completed-run check and without effects, whatever the filesystem holds. A negative lr is reported ahead of any scheduler problem. With an accepted optimizer, an unknown scheduler name raises `NotImplementedError` |
| Startup.EmptyWarmupRaises | src/main.py:95-102 | with a known dataset, an accepted optimizer and OneCycleLR's argument checks passed, `main` raises the initial step's `ZeroDivisionError`, before any effect, exactly when `warmup_percent * iterations == 1` |
| Startup.CompletedRunSkips | src/main.py:118-129 | once the clients are built, `main` exits 0 exactly when the checkpoint directory holds `summary.json`, with no effect and no training, even for an unsupported model type |
| Startup.UnknownModelAfterSkip | src/main.py:118-129 | past the completed-run check, a model type other than `lora` raises after the master process has created a missing checkpoint directory |
| Startup.MainLaunches | src/main.py:118-136 | a supported run that is not complete, on a configuration every constructor accepts, reaches training with `max(num_clients, 0)` built clients |
| Startup.TrainedRunStarts | src/main.py:133-136 | training starts on the selected dataset directory with the built clients, and `main` returns exactly when `train_lora` returns |
| Startup.TrainedRunSummary | src/main.py:138-143 | any summary written comes from the master process after training returned, at `<ckpt_path>/summary.json`, with the returned stats and device and dtype set to None |
| Startup.LaunchSummary | src/main.py:138-143 | past the completed-run check, any summary written comes from a master process whose training returned, at `<ckpt_path>/summary.json`, with the returned stats and device and dtype cleared |
| Startup.SummaryWrittenOnMaster | src/main.py:141-143 | a master process whose training returned writes the summary |
| Startup.LaunchOrdered | src/main.py:131-143 | the effects from training on are in rank order, and the summary follows right after training starts |
| Startup.EffectOrder | src/main.py:118-143 | for all inputs: the directory is created first, training starts at most once, the summary is written last and right after training; a completed run has no effect |

## Left out

- Tensor work is not modelled: forward and backward passes, loss values, autocast and bfloat16, `torch.compile`, and the clipping numerics. A loss is an identifier (`MicroLoss`). The `* acc_steps` rescaling of the recorded loss is not computed.
- `strategies.aggregate`, `get_batch` and `eval` are events or identifiers only. Their source is not part of this model.
- `get_batch` is taken to raise exactly on a train shard of at most `sequence_length` tokens. A negative batch size is not modelled as a failure of it.
- `eval` and `strategies.aggregate` are taken to return, including on a `test_` or `valid_` shard too short to sample from, because their source is not part of this model.
- Floating point: OneCycleLR's `pct_start * total_steps` is computed in exact reals, not in floats, so rounding near the two division-by-zero cases is not modelled.
- `np.memmap` loading is reduced to whether a shard file is on disk and, for a train shard, its token count (`Env.files`). Failure modes other than absence are not modelled, such as an empty file or a directory in a shard's place. Each kind is handed to `train_lora` as the count of its shards up to the first absent one, since loading stops there.
- Filesystem checks, directory creation and `json.dump` are inputs (`Env`) or effects (`Effect`). Their outcomes are not modelled.
- wandb logging, printing, timing (`t0`, `t1`, `dt`) and the current learning rate shown in the progress line are telemetry and are left out.
- The distributed backend is left out: model wrapping, the microstep context, parameter-name translation and `finalize`. `is_master_process` and `get_world_size` are inputs.
- The checkpoint block at the end of each round is left out. Its save is commented out, so it has no effect. Its `itr[-1] % eval_freq` can only raise after the evaluation pass has already raised on the same division.
- `get_exp_name` is left out because of its float formatting. The experiment name is an input.
- `get_args` and configuration parsing are left out.
- `main`'s set-up before the dataset lookup (src/main.py:46-62) is left out and taken not to raise. It covers the TF32 switches, `distributed.make_backend_from_args`, `get_adjusted_args_for_process`, `torch.device(args.device)`, `torch.cuda.set_device` and the seeding. An invalid device string, which raises `RuntimeError` at line 53 ahead of any dataset error, is therefore not modelled. `Config` is the namespace as `get_adjusted_args_for_process` leaves it.
- `get_model` is assumed to accept any model name: its source is not part of this model. The model type is therefore only checked at the dispatch in `main`.
- Lora.PerEpoch: the floor bound on each entry is stated only for a positive batch size in tokens. For a negative one, Python's `//` is still modelled by `Base.FloorDiv`, but the table's contract says nothing about it.
- Startup.MakeOptimizer: only the checks that the arguments `main` passes can fail are modelled. AdamW's epsilon is left at its default, which torch accepts, and SGD's momentum is 0.9. An empty parameter list and fused AdamW on parameters off the GPU are not modelled, because the parameter groups come from `get_model`. NaN arguments are not modelled: Dafny's reals have no NaN.
- Startup.MakeScheduler: OneCycleLR's other checks are not modelled: the optimizer's type, and `anneal_strategy` outside `cos`/`linear`. Neither can fail for the arguments `main` passes.

## Findings

| source | as written | input that shows it | evidently intended | confidence | as-written member | corrected member |
|---|---|---|---|---|---|---|
| src/optim/lora.py:78 | `scheduler.step()` is called for every client, but `main` stores `None` as the scheduler when `--scheduler none` (src/main.py:105-106) | `--scheduler none` with at least one client, `iterations > 0`, and train shards longer than `sequence_length`: the first client's first local step raises `AttributeError` on `None.step()` | skip the scheduler step for a client without one, as lines 98 and 104 already do when reading the learning rate | not executed | LoraTheorems.NoneSchedulerCrashes | LoraTheorems.NoneSchedulerSkippedCompletes |
