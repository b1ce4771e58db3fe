/** The decisions `main` makes before and after handing the clients to
    `train_lora` (src/main.py:28-35 and 46-144). The filesystem, the
    distributed backend and torch's capabilities are inputs (`Env`); the
    outcome is the list of effects `main` performs and how it ends. */
module Startup {
  import opened Base
  import opened Clients
  import opened Lora
  import opened Shards

  /** The fields that `main` reads of the argument namespace, as the
      distributed backend's `get_adjusted_args_for_process` leaves it. */
  datatype Config = Config(
    dataset: string,
    model: string,
    numClients: int,
    opt: string,
    scheduler: string,
    lr: real,
    beta1: real,
    beta2: real,
    weightDecay: real,
    warmupPercent: real,
    iterations: int,
    accSteps: int,
    batchSize: int,
    sequenceLength: int,
    evalFreq: int,
    trustFreq: int,
    pretrainingRounds: int,
    gradClip: real,
    resultsBaseFolder: string,
    device: Option<string>,
    dtype: Option<string>,
    worldSize: int)

  /** What `main` learns from outside the argument namespace. */
  datatype Env = Env(
    adamWHasFused: bool,   // 'fused' is a parameter of torch.optim.AdamW
    isMaster: bool,        // distributed_backend.is_master_process()
    worldSize: int,        // distributed_backend.get_world_size()
    expName: string,       // get_exp_name(args)
    ckptExists: bool,      // os.path.exists(ckpt_path)
    summaryExists: bool,   // os.path.isfile(<ckpt_path>/summary.json)
    files: map<string, nat>) // the files on disk, by path, with their length in uint16 tokens

  /** The argument a torch constructor rejects with `ValueError`. */
  datatype Rejected =
    | NegativeLr                 // lr < 0 (AdamW, SGD)
    | BetaOutOfRange(index: nat) // betas[index] outside [0, 1) (AdamW)
    | NegativeWeightDecay        // weight_decay < 0 (AdamW, SGD)
    | NonPositiveTotalSteps      // total_steps <= 0 (OneCycleLR)
    | PctStartOutOfRange         // pct_start outside [0, 1] (OneCycleLR)

  datatype StartupError =
    | DatasetUnbound                 // UnboundLocalError: `data_path` never assigned
    | InvalidArgument(reason: Rejected) // ValueError from an optimizer or scheduler constructor
    | UnknownScheduler(name: string) // NotImplementedError during client construction
    | EmptyWarmupPhase               // ZeroDivisionError from OneCycleLR's initial step
    | UnknownModel(name: string)     // NotImplementedError at the model-type dispatch
    | TrainFailed(error: TrainError) // an exception out of `train_lora`

  /** The JSON object written to `summary.json`: the training stats plus the arguments. */
  datatype Summary = Summary(stats: seq<ClientStats>, args: Config)

  datatype Effect =
    | MakeDirs(path: string)
    | StartTraining(dataPath: string, clients: seq<Client>)
    | WriteSummary(path: string, summary: Summary)

  /** How `main` ends: an exception, `sys.exit(0)`, or a normal return. */
  datatype End = Raised(error: StartupError) | Exit0 | Returned

  datatype Outcome = Outcome(effects: seq<Effect>, end: End)

  const MultiwikiPath := "/mloscratch/homes/dfan/codes/efficient-collaborative-instruction-tuning/data-multilingual-no-mixture/4/"
  const SlimpajamaPath := "/mloscratch/homes/bmessmer/data/efficient-collaborative-instruction-tuning/redpajama-formal/4/"
  const AgnewsPath := "/mloscratch/homes/dfan/codes/efficient-collaborative-instruction-tuning/data-agnews-no-mixture-v2/4/"

  /** `get_dataset_from_args`: a fixed directory for each of three dataset
      names; any other name leaves `data_path` unassigned. */
  function DatasetPath(dataset: string): (r: Option<string>)
    ensures r.Some? <==> dataset == "multiwiki" || dataset == "slimpajama" || dataset == "agnews"
  {
    if dataset == "multiwiki" then Some(MultiwikiPath)
    else if dataset == "slimpajama" then Some(SlimpajamaPath)
    else if dataset == "agnews" then Some(AgnewsPath)
    else None
  }

  /** `t` occurs in `s` as a contiguous piece: Python's `t in s` on strings. */
  predicate Contains(s: string, t: string)
    decreases |s|
  {
    (|t| <= |s| && s[..|t|] == t) || (|s| > 0 && Contains(s[1..], t))
  }

  /** `str(args.device)`; the device is only ever None after training. */
  function DeviceText(d: Option<string>): string
  {
    match d
    case Some(s) => s
    case None => "None"
  }

  /** `device_type == 'cuda'` (line 54). */
  predicate OnCuda(cfg: Config)
  {
    Contains(DeviceText(cfg.device), "cuda")
  }

  /** The arguments torch's AdamW (lines 90-91) or SGD (line 93) constructor
      accepts: a non-negative learning rate and weight decay, and for AdamW
      both betas in [0, 1). */
  predicate OptimizerAccepts(cfg: Config)
  {
    && 0.0 <= cfg.lr
    && 0.0 <= cfg.weightDecay
    && (cfg.opt == "adamw" ==> 0.0 <= cfg.beta1 < 1.0 && 0.0 <= cfg.beta2 < 1.0)
  }

  /** The optimizer of one client (lines 86-93). The constructors check the
      learning rate first, then the betas in order, then the weight decay. */
  function MakeOptimizer(cfg: Config, env: Env): (r: Result<Optimizer, StartupError>)
    ensures r.Ok? <==> OptimizerAccepts(cfg)
    ensures cfg.lr < 0.0 ==> r == Err(InvalidArgument(NegativeLr))
    ensures r.Err? && r.error != InvalidArgument(NegativeLr) ==>
              && r.error.InvalidArgument? && 0.0 <= cfg.lr
              && (r.error.reason.BetaOutOfRange? ==>
                    cfg.opt == "adamw" && (r.error.reason.index == 0 <==> !(0.0 <= cfg.beta1 < 1.0)) && r.error.reason.index <= 1)
              && (r.error.reason.NegativeWeightDecay? ==> cfg.weightDecay < 0.0 && (cfg.opt == "adamw" ==> 0.0 <= cfg.beta1 < 1.0 && 0.0 <= cfg.beta2 < 1.0))
              && (r.error.reason.BetaOutOfRange? || r.error.reason.NegativeWeightDecay?)
    ensures r.Ok? ==> (r.value.AdamW? <==> cfg.opt == "adamw")
    ensures r.Ok? ==> r.value.lr == cfg.lr && r.value.weightDecay == cfg.weightDecay
    ensures r.Ok? && r.value.AdamW? ==>
              r.value.beta1 == cfg.beta1 && r.value.beta2 == cfg.beta2 && (r.value.fused <==> OnCuda(cfg) && env.adamWHasFused)
    ensures r.Ok? && r.value.Sgd? ==> r.value.momentum == 0.9
  {
    if cfg.opt == "adamw" then
      if !(0.0 <= cfg.lr) then Err(InvalidArgument(NegativeLr))
      else if !(0.0 <= cfg.beta1 < 1.0) then Err(InvalidArgument(BetaOutOfRange(0)))
      else if !(0.0 <= cfg.beta2 < 1.0) then Err(InvalidArgument(BetaOutOfRange(1)))
      else if !(0.0 <= cfg.weightDecay) then Err(InvalidArgument(NegativeWeightDecay))
      else Ok(AdamW(cfg.lr, cfg.beta1, cfg.beta2, cfg.weightDecay, OnCuda(cfg) && env.adamWHasFused))
    else
      if cfg.lr < 0.0 then Err(InvalidArgument(NegativeLr))
      else if cfg.weightDecay < 0.0 then Err(InvalidArgument(NegativeWeightDecay))
      else Ok(Sgd(cfg.lr, 0.9, cfg.weightDecay))
  }

  predicate SchedulerKnown(name: string)
  {
    name == "none" || name == "cos" || name == "linear"
  }

  /** OneCycleLR's `pct_start * total_steps` for `main`'s arguments: the
      step on which the warm-up phase ends, plus one. */
  function WarmupSteps(cfg: Config): real
  {
    cfg.warmupPercent * (cfg.iterations as real)
  }

  /** The scheduler settings that build: none at all, or a OneCycleLR with a
      positive number of total steps, a warm-up fraction in [0, 1], and a
      warm-up that does not end exactly at step 0 (fraction times steps equal
      to 1), where the constructor's initial step divides by zero. */
  predicate SchedulerAccepts(cfg: Config)
  {
    || cfg.scheduler == "none"
    || (&& (cfg.scheduler == "cos" || cfg.scheduler == "linear") && cfg.iterations > 0 && 0.0 <= cfg.warmupPercent <= 1.0
        && WarmupSteps(cfg) != 1.0)
  }

  /** The scheduler of one client (lines 95-106). An unknown name raises
      `NotImplementedError`; OneCycleLR checks `total_steps` before
      `pct_start`, then makes its initial step. */
  function MakeScheduler(cfg: Config): (r: Result<Option<Scheduler>, StartupError>)
    ensures r.Ok? <==> SchedulerAccepts(cfg)
    ensures r.Err? && !SchedulerKnown(cfg.scheduler) ==> r.error == UnknownScheduler(cfg.scheduler)
    ensures r.Err? && SchedulerKnown(cfg.scheduler) ==>
              r.error == if cfg.iterations <= 0 then InvalidArgument(NonPositiveTotalSteps)
                         else if !(0.0 <= cfg.warmupPercent <= 1.0) then InvalidArgument(PctStartOutOfRange)
                         else EmptyWarmupPhase
    ensures r.Ok? ==> (r.value.None? <==> cfg.scheduler == "none")
    ensures r.Ok? && r.value.Some? ==>
              r.value.value == OneCycle(cfg.lr, cfg.iterations, cfg.warmupPercent, cfg.scheduler, false, 100.0, 0.05)
  {
    if cfg.scheduler != "none" then
      if cfg.scheduler in ["cos", "linear"] then
        if cfg.iterations <= 0 then Err(InvalidArgument(NonPositiveTotalSteps))
        else if cfg.warmupPercent < 0.0 || cfg.warmupPercent > 1.0 then Err(InvalidArgument(PctStartOutOfRange))
        else if WarmupSteps(cfg) == 1.0 then Err(EmptyWarmupPhase)
        else
          Ok(Some(OneCycle(
            maxLr := cfg.lr, totalSteps := cfg.iterations, pctStart := cfg.warmupPercent,
            annealStrategy := cfg.scheduler, cycleMomentum := false, divFactor := 1e2, finalDivFactor := 0.05)))
      else Err(UnknownScheduler(cfg.scheduler))
    else Ok(None)
  }

  /** Past the argument checks, `MakeScheduler` fails exactly when the
      OneCycleLR it would return cannot make its initial step (step 0). */
  lemma InitialStepDecides(cfg: Config)
    requires (cfg.scheduler == "cos" || cfg.scheduler == "linear") && cfg.iterations > 0
    requires 0.0 <= cfg.warmupPercent <= 1.0
    ensures var sc := OneCycle(cfg.lr, cfg.iterations, cfg.warmupPercent, cfg.scheduler, false, 100.0, 0.05);
            MakeScheduler(cfg) == if OneCycleFault(sc, 0).Some? then Err(EmptyWarmupPhase) else Ok(Some(sc))
  {
    InitialStep(OneCycle(cfg.lr, cfg.iterations, cfg.warmupPercent, cfg.scheduler, false, 100.0, 0.05));
  }

  /** A schedule `main` builds lasts the `iterations` rounds `train_lora`
      runs exactly when its warm-up fraction is not 1: with a warm-up over
      every step, the annealing phase has zero length and the last round's
      `scheduler.step()` divides by it. */
  lemma ScheduleLastsRun(cfg: Config)
    requires SchedulerAccepts(cfg) && cfg.scheduler != "none"
    ensures MakeScheduler(cfg).Ok? && MakeScheduler(cfg).value.Some?
    ensures RunsSteps(MakeScheduler(cfg).value.value, RangeLen(cfg.iterations)) <==> cfg.warmupPercent != 1.0
  {
    FullWarmup(MakeScheduler(cfg).value.value);
  }

  /** Whether one iteration of the construction loop gets its optimizer and scheduler built. */
  predicate Constructs(cfg: Config)
  {
    OptimizerAccepts(cfg) && SchedulerAccepts(cfg)
  }

  /** What the first iteration of the construction loop raises when it cannot
      build a client: the optimizer's complaint comes before the scheduler's. */
  function ConstructionError(cfg: Config, env: Env): (e: StartupError)
    requires !Constructs(cfg)
    ensures !OptimizerAccepts(cfg) ==>
              e.InvalidArgument? && (e.reason.NegativeLr? || e.reason.BetaOutOfRange? || e.reason.NegativeWeightDecay?)
    ensures OptimizerAccepts(cfg) && !SchedulerKnown(cfg.scheduler) ==> e == UnknownScheduler(cfg.scheduler)
    ensures OptimizerAccepts(cfg) && SchedulerKnown(cfg.scheduler) ==>
              (e.InvalidArgument? && (e.reason.NonPositiveTotalSteps? || e.reason.PctStartOutOfRange?)) || e == EmptyWarmupPhase
  {
    if !OptimizerAccepts(cfg) then MakeOptimizer(cfg, env).error else MakeScheduler(cfg).error
  }

  /** The client-construction loop of lines 66-108 from index i on, appending to `built`. */
  function BuildFrom(cfg: Config, env: Env, i: nat, built: seq<Client>): (r: Result<seq<Client>, StartupError>)
    decreases RangeLen(cfg.numClients) - i
  {
    if i >= RangeLen(cfg.numClients) then Ok(built)
    else
      match MakeOptimizer(cfg, env)
      case Err(e) => Err(e)
      case Ok(opt) =>
        match MakeScheduler(cfg)
        case Err(e) => Err(e)
        case Ok(sched) => BuildFrom(cfg, env, i + 1, built + [Client(opt, sched)])
  }

  /** The client every iteration of the construction loop builds. */
  function ClientOf(cfg: Config, env: Env): Client
    requires Constructs(cfg)
  {
    Client(MakeOptimizer(cfg, env).value, MakeScheduler(cfg).value)
  }

  /** The construction loop fails exactly when it runs at least once on a
      configuration torch or the scheduler dispatch rejects, raising what the
      first iteration raises; otherwise it appends one client per remaining index. */
  lemma {:induction false} BuildFromResult(cfg: Config, env: Env, i: nat, built: seq<Client>)
    requires i <= RangeLen(cfg.numClients)
    ensures BuildFrom(cfg, env, i, built).Err? <==> i < RangeLen(cfg.numClients) && !Constructs(cfg)
    ensures BuildFrom(cfg, env, i, built).Err? ==> BuildFrom(cfg, env, i, built).error == ConstructionError(cfg, env)
    ensures BuildFrom(cfg, env, i, built).Ok? ==>
              var r := BuildFrom(cfg, env, i, built).value;
              && |r| == |built| + RangeLen(cfg.numClients) - i
              && r[..|built|] == built
              && forall j :: |built| <= j < |r| ==> r[j] == ClientOf(cfg, env)
    decreases RangeLen(cfg.numClients) - i
  {
    if i < RangeLen(cfg.numClients) && Constructs(cfg) {
      var next := built + [ClientOf(cfg, env)];
      BuildFromResult(cfg, env, i + 1, next);
      var r := BuildFrom(cfg, env, i + 1, next).value;
      assert r[..|built|] == next[..|built|];
    }
  }

  /** The `clients` list `main` builds, or the exception that stops it. */
  function BuildClients(cfg: Config, env: Env): Result<seq<Client>, StartupError>
  {
    BuildFrom(cfg, env, 0, [])
  }

  /** Exactly `num_clients` triples are built, each with the configured optimizer
      and scheduler; a rejected configuration raises only if the loop runs. */
  lemma BuildClientsResult(cfg: Config, env: Env)
    ensures BuildClients(cfg, env).Err? <==> cfg.numClients > 0 && !Constructs(cfg)
    ensures BuildClients(cfg, env).Err? ==> BuildClients(cfg, env).error == ConstructionError(cfg, env)
    ensures BuildClients(cfg, env).Ok? ==>
              var r := BuildClients(cfg, env).value;
              && |r| == RangeLen(cfg.numClients)
              && forall j :: 0 <= j < |r| ==> r[j] == ClientOf(cfg, env)
  {
    BuildFromResult(cfg, env, 0, []);
  }

  /** `os.path.join(results_base_folder, dataset, model, exp_name)`. */
  function CheckpointPath(cfg: Config, env: Env): string
  {
    PathJoin(PathJoin(PathJoin(cfg.resultsBaseFolder, cfg.dataset), cfg.model), env.expName)
  }

  /** The completed-run check joins `summary.json` onto the checkpoint path;
      the write formats `<ckpt_path>/summary.json`. The two agree whenever the
      path does not already end in a separator. */
  lemma SummaryPathsAgree(ckpt: string)
    requires |ckpt| > 0 && ckpt[|ckpt| - 1] != '/'
    ensures PathJoin(ckpt, "summary.json") == ckpt + "/summary.json"
  {
  }

  /** The token counts of train_0.bin, train_1.bin, ... up to the first
      absent one among the first n clients. */
  function TrainLens(files: map<string, nat>, dataPath: string, n: nat): (lens: seq<nat>)
    ensures |lens| == FirstAbsent(files, dataPath, Train, 0, n)
    ensures forall j :: 0 <= j < |lens| ==> lens[j] == files[ShardPath(dataPath, Train, j)]
  {
    var t := FirstAbsent(files, dataPath, Train, 0, n);
    seq(t, j requires 0 <= j < t => files[ShardPath(dataPath, Train, j)])
  }

  /** The arguments handed to `train_lora` (lines 133-136), with what the
      data directory holds: the train shards' token counts and how many shards
      of each kind exist up to the first absent one among the clients. */
  function TrainArgsOf(cfg: Config, env: Env, dataPath: string): TrainArgs
  {
    var n := RangeLen(cfg.numClients);
    TrainArgs(cfg.iterations, cfg.accSteps, cfg.batchSize, cfg.sequenceLength, cfg.evalFreq,
              cfg.trustFreq, cfg.pretrainingRounds, cfg.gradClip, env.isMaster,
              TrainLens(env.files, dataPath, n),
              FirstAbsent(env.files, dataPath, Val, 0, n),
              FirstAbsent(env.files, dataPath, Ref, 0, n))
  }

  /** Each kind's shard count handed to `train_lora` is where that kind's
      first absent file is. */
  lemma PresentIsFirstAbsent(cfg: Config, env: Env, dataPath: string, k: Kind)
    ensures Present(TrainArgsOf(cfg, env, dataPath), k) == FirstAbsent(env.files, dataPath, k, 0, RangeLen(cfg.numClients))
  {
  }

  /** The shard counts of `a` are where each kind's first absent file below n is. */
  ghost predicate CountsFiles(a: TrainArgs, files: map<string, nat>, dataPath: string, n: nat)
  {
    forall l :: Present(a, l) == FirstAbsent(files, dataPath, l, 0, n)
  }

  /** Below n, shard (j, l) opens exactly when it and every lower-indexed
      shard of its kind are on disk. */
  lemma OpensOnDisk(a: TrainArgs, files: map<string, nat>, dataPath: string, n: nat, j: nat, l: Kind)
    requires CountsFiles(a, files, dataPath, n) && j < n
    ensures Opens(a, l, j) <==> forall m :: 0 <= m <= j ==> ShardPath(dataPath, l, m) in files
  {
    assert Present(a, l) == FirstAbsent(files, dataPath, l, 0, n);
  }

  /** The first shard that fails to open is absent, and everything opened before it is on disk. */
  lemma MissingIsAbsent(a: TrainArgs, files: map<string, nat>, dataPath: string, n: nat, i: nat, k: Kind)
    requires CountsFiles(a, files, dataPath, n) && i < n && FirstMissing(a, i, k)
    ensures ShardPath(dataPath, k, i) !in files
    ensures forall j: nat, l :: OpenedBefore(j, l, i, k) ==> ShardPath(dataPath, l, j) in files
  {
    assert Present(a, k) == FirstAbsent(files, dataPath, k, 0, n);
    assert !Opens(a, k, Present(a, k));
    assert Present(a, k) == i;
    forall j: nat, l | OpenedBefore(j, l, i, k)
      ensures ShardPath(dataPath, l, j) in files
    {
      assert Opens(a, l, j);
      OpensOnDisk(a, files, dataPath, n, j, l);
    }
  }

  /** The first absent file in loading order is the first shard that fails to open. */
  lemma AbsentIsMissing(a: TrainArgs, files: map<string, nat>, dataPath: string, n: nat, i: nat, k: Kind)
    requires CountsFiles(a, files, dataPath, n) && i < n
    requires ShardPath(dataPath, k, i) !in files
    requires forall j: nat, l :: OpenedBefore(j, l, i, k) ==> ShardPath(dataPath, l, j) in files
    ensures FirstMissing(a, i, k)
  {
    OpensOnDisk(a, files, dataPath, n, i, k);
    forall j: nat, l | OpenedBefore(j, l, i, k)
      ensures Opens(a, l, j)
    {
      forall m | 0 <= m <= j
        ensures ShardPath(dataPath, l, m) in files
      {
        assert OpenedBefore(m, l, i, k);
      }
      OpensOnDisk(a, files, dataPath, n, j, l);
    }
  }

  /** On disk, the first shard to fail is the first absent file in loading order. */
  lemma FirstMissingOnDisk(cfg: Config, env: Env, dataPath: string, i: nat, k: Kind)
    requires i < RangeLen(cfg.numClients)
    ensures FirstMissing(TrainArgsOf(cfg, env, dataPath), i, k) <==>
              && ShardPath(dataPath, k, i) !in env.files
              && forall j: nat, l :: OpenedBefore(j, l, i, k) ==> ShardPath(dataPath, l, j) in env.files
  {
    var a, n := TrainArgsOf(cfg, env, dataPath), RangeLen(cfg.numClients);
    forall l
      ensures Present(a, l) == FirstAbsent(env.files, dataPath, l, 0, n)
    {
      PresentIsFirstAbsent(cfg, env, dataPath, l);
    }
    if FirstMissing(a, i, k) {
      MissingIsAbsent(a, env.files, dataPath, n, i, k);
    }
    if ShardPath(dataPath, k, i) !in env.files && forall j: nat, l :: OpenedBefore(j, l, i, k) ==> ShardPath(dataPath, l, j) in env.files {
      AbsentIsMissing(a, env.files, dataPath, n, i, k);
    }
  }

  /** Lines 39-45 on the files of the data directory: `train_lora` raises on
      shard (i, k) exactly when that file is absent while every shard opened
      before it is on disk. */
  lemma ShardLoading(rev: Revision, cfg: Config, env: Env, dataPath: string, clients: seq<Client>, i: nat, k: Kind)
    requires |clients| == RangeLen(cfg.numClients)
    ensures TrainLora(rev, clients, TrainArgsOf(cfg, env, dataPath)) == Err(MissingShard(i, k)) <==>
              && i < |clients| && ShardPath(dataPath, k, i) !in env.files
              && forall j: nat, l :: OpenedBefore(j, l, i, k) ==> ShardPath(dataPath, l, j) in env.files
  {
    TrainLoraMissing(rev, clients, TrainArgsOf(cfg, env, dataPath), i, k);
    if i < |clients| {
      FirstMissingOnDisk(cfg, env, dataPath, i, k);
    }
  }

  /** `vars(args)` as stored in the summary: the world size filled in at
      line 110, device and dtype cleared at lines 138-139. */
  function SummaryArgs(cfg: Config, env: Env): Config
  {
    cfg.(worldSize := env.worldSize, device := None, dtype := None)
  }

  /** Lines 131-143: train, then on the master process persist the summary.
      `made` is what the completed-run check did before. */
  function Launch(rev: Revision, cfg: Config, env: Env, dataPath: string, clients: seq<Client>, a: TrainArgs, made: seq<Effect>): (o: Outcome)
    ensures |made| + 1 <= |o.effects| <= |made| + 2
    ensures forall i :: 0 <= i < |made| ==> o.effects[i] == made[i]
    ensures o.effects[|made|] == StartTraining(dataPath, clients)
    ensures o.end == Returned <==> TrainLora(rev, clients, a).Ok?
    ensures o.end != Returned ==> o.end == Raised(TrainFailed(TrainLora(rev, clients, a).error))
    ensures |o.effects| == |made| + 2 <==> o.end == Returned && env.isMaster
    ensures |o.effects| == |made| + 2 ==>
              o.effects[|made| + 1] ==
                WriteSummary(CheckpointPath(cfg, env) + "/summary.json",
                             Summary(TrainLora(rev, clients, a).value.stats, SummaryArgs(cfg, env)))
    ensures (forall e :: e in made ==> !e.WriteSummary?) ==>
              forall e :: e in o.effects && e.WriteSummary? ==> e == o.effects[|made| + 1]
  {
    var started := made + [StartTraining(dataPath, clients)];
    match TrainLora(rev, clients, a)
    case Err(e) => Outcome(started, Raised(TrainFailed(e)))
    case Ok(s) =>
      var summary := Summary(s.stats, SummaryArgs(cfg, env));
      var written := if env.isMaster then [WriteSummary(CheckpointPath(cfg, env) + "/summary.json", summary)] else [];
      Outcome(started + written, Returned)
  }

  /** The body of `main` from line 64 on. The set-up before it (backend,
      device, seeds) is taken to have returned. */
  function Main(rev: Revision, cfg: Config, env: Env): Outcome
  {
    match DatasetPath(cfg.dataset)
    case None => Outcome([], Raised(DatasetUnbound))
    case Some(dataPath) =>
      match BuildClients(cfg, env)
      case Err(e) => Outcome([], Raised(e))
      case Ok(clients) =>
        if env.ckptExists && env.summaryExists then Outcome([], Exit0)
        else
          if cfg.model != "lora" then Outcome(Made(cfg, env), Raised(UnknownModel(cfg.model)))
          else Launch(rev, cfg, env, dataPath, clients, TrainArgsOf(cfg, env, dataPath), Made(cfg, env))
  }

  /** Whether the configuration gets past dataset selection and client construction. */
  predicate ClientsBuilt(cfg: Config)
  {
    DatasetPath(cfg.dataset).Some? && (cfg.numClients <= 0 || Constructs(cfg))
  }

  /** From line 64 on, an unknown dataset name fails first, before anything else happens. */
  lemma UnknownDatasetFailsFirst(rev: Revision, cfg: Config, env: Env)
    ensures Main(rev, cfg, env).end == Raised(DatasetUnbound) <==> DatasetPath(cfg.dataset).None?
    ensures DatasetPath(cfg.dataset).None? ==> Main(rev, cfg, env).effects == []
  {
    if DatasetPath(cfg.dataset).Some? {
      BuildClientsResult(cfg, env);
    }
  }

  /** A configuration the constructors reject fails while the clients are
      built: before the completed-run check and the model-type check, whatever
      the filesystem holds, without any effect, and with the first client's
      optimizer complaint ahead of its scheduler's. */
  lemma ConstructionFailsBeforeSkip(rev: Revision, cfg: Config, env: Env)
    requires DatasetPath(cfg.dataset).Some?
    ensures var o := Main(rev, cfg, env);
            (o.end.Raised? && (o.end.error.InvalidArgument? || o.end.error.UnknownScheduler? || o.end.error == EmptyWarmupPhase))
              <==> !ClientsBuilt(cfg)
    ensures !ClientsBuilt(cfg) ==> Main(rev, cfg, env) == Outcome([], Raised(ConstructionError(cfg, env)))
    ensures cfg.numClients > 0 && cfg.lr < 0.0 ==> Main(rev, cfg, env).end == Raised(InvalidArgument(NegativeLr))
    ensures cfg.numClients > 0 && OptimizerAccepts(cfg) && !SchedulerKnown(cfg.scheduler) ==>
              Main(rev, cfg, env).end == Raised(UnknownScheduler(cfg.scheduler))
  {
    BuildClientsResult(cfg, env);
  }

  /** A warm-up that ends exactly at step 0 makes `main` raise the initial
      step's division by zero, before any effect. */
  lemma EmptyWarmupRaises(rev: Revision, cfg: Config, env: Env)
    requires DatasetPath(cfg.dataset).Some?
    requires cfg.numClients > 0 && OptimizerAccepts(cfg) && (cfg.scheduler == "cos" || cfg.scheduler == "linear")
    requires cfg.iterations > 0 && 0.0 <= cfg.warmupPercent <= 1.0
    ensures (Main(rev, cfg, env) == Outcome([], Raised(EmptyWarmupPhase)))
            <==> WarmupSteps(cfg) == 1.0
  {
    BuildClientsResult(cfg, env);
    if WarmupSteps(cfg) == 1.0 {
      assert !Constructs(cfg);
      assert ConstructionError(cfg, env) == EmptyWarmupPhase;
    } else {
      assert Constructs(cfg);
    }
  }

  /** A completed run (its directory holds `summary.json`) exits 0 without
      effects and never trains, even when the model type is unsupported. */
  lemma CompletedRunSkips(rev: Revision, cfg: Config, env: Env)
    requires ClientsBuilt(cfg)
    ensures Main(rev, cfg, env).end == Exit0 <==> env.ckptExists && env.summaryExists
    ensures env.ckptExists && env.summaryExists ==> Main(rev, cfg, env) == Outcome([], Exit0)
  {
    BuildClientsResult(cfg, env);
  }

  /** Past the completed-run check, a model type other than `lora` raises,
      after the master process has created a missing checkpoint directory. */
  lemma UnknownModelAfterSkip(rev: Revision, cfg: Config, env: Env)
    requires ClientsBuilt(cfg) && !(env.ckptExists && env.summaryExists)
    ensures Main(rev, cfg, env).end == Raised(UnknownModel(cfg.model)) <==> cfg.model != "lora"
    ensures cfg.model != "lora" ==>
              Main(rev, cfg, env).effects == if !env.ckptExists && env.isMaster then [MakeDirs(CheckpointPath(cfg, env))] else []
  {
    BuildClientsResult(cfg, env);
  }

  /** The effects of the completed-run check that precede the model-type check. */
  function Made(cfg: Config, env: Env): seq<Effect>
  {
    if !env.ckptExists && env.isMaster then [MakeDirs(CheckpointPath(cfg, env))] else []
  }

  /** A supported run that is not already complete reaches training with the
      clients built from the configuration. */
  lemma MainLaunches(rev: Revision, cfg: Config, env: Env)
    requires ClientsBuilt(cfg) && !(env.ckptExists && env.summaryExists) && cfg.model == "lora"
    ensures BuildClients(cfg, env).Ok? && |BuildClients(cfg, env).value| == RangeLen(cfg.numClients)
    ensures Main(rev, cfg, env) ==
              Launch(rev, cfg, env, DatasetPath(cfg.dataset).value, BuildClients(cfg, env).value,
                     TrainArgsOf(cfg, env, DatasetPath(cfg.dataset).value), Made(cfg, env))
  {
    BuildClientsResult(cfg, env);
  }

  /** Training starts on the dataset directory with the built clients, and
      `main` returns exactly when `train_lora` does. */
  lemma TrainedRunStarts(rev: Revision, cfg: Config, env: Env)
    requires ClientsBuilt(cfg) && !(env.ckptExists && env.summaryExists) && cfg.model == "lora"
    ensures BuildClients(cfg, env).Ok?
    ensures var o := Main(rev, cfg, env);
            var clients := BuildClients(cfg, env).value;
            var t := TrainLora(rev, clients, TrainArgsOf(cfg, env, DatasetPath(cfg.dataset).value));
            && StartTraining(DatasetPath(cfg.dataset).value, clients) in o.effects
            && (o.end == Returned <==> t.Ok?)
            && (t.Err? ==> o.end == Raised(TrainFailed(t.error)))
  {
    MainLaunches(rev, cfg, env);
    var o := Main(rev, cfg, env);
    assert o.effects[|Made(cfg, env)|] in o.effects;
  }

  /** Only the master process writes a summary, and only after training
      returned; it holds the returned stats and the arguments with device and
      dtype cleared. */
  lemma TrainedRunSummary(rev: Revision, cfg: Config, env: Env)
    requires ClientsBuilt(cfg) && !(env.ckptExists && env.summaryExists) && cfg.model == "lora"
    ensures BuildClients(cfg, env).Ok?
    ensures var o := Main(rev, cfg, env);
            var t := TrainLora(rev, BuildClients(cfg, env).value, TrainArgsOf(cfg, env, DatasetPath(cfg.dataset).value));
            && (forall e :: e in o.effects && e.WriteSummary? ==>
                  && env.isMaster && t.Ok?
                  && e.path == CheckpointPath(cfg, env) + "/summary.json"
                  && e.summary.stats == t.value.stats
                  && e.summary.args.device.None? && e.summary.args.dtype.None?)
  {
    MainLaunches(rev, cfg, env);
    var dataPath := DatasetPath(cfg.dataset).value;
    LaunchSummary(rev, cfg, env, dataPath, BuildClients(cfg, env).value, TrainArgsOf(cfg, env, dataPath));
  }

  /** The summary `Launch` writes after the completed-run check. */
  lemma LaunchSummary(rev: Revision, cfg: Config, env: Env, dataPath: string, clients: seq<Client>, a: TrainArgs)
    ensures var o := Launch(rev, cfg, env, dataPath, clients, a, Made(cfg, env));
            var t := TrainLora(rev, clients, a);
            forall e :: e in o.effects && e.WriteSummary? ==>
              && env.isMaster && t.Ok?
              && e.path == CheckpointPath(cfg, env) + "/summary.json"
              && e.summary.stats == t.value.stats
              && e.summary.args.device.None? && e.summary.args.dtype.None?
  {
    assert forall e :: e in Made(cfg, env) ==> !e.WriteSummary?;
  }

  /** A master process whose training returned has written the summary. */
  lemma SummaryWrittenOnMaster(rev: Revision, cfg: Config, env: Env)
    requires ClientsBuilt(cfg) && !(env.ckptExists && env.summaryExists) && cfg.model == "lora"
    ensures var o := Main(rev, cfg, env);
            o.end == Returned && env.isMaster ==> exists e :: e in o.effects && e.WriteSummary?
  {
    MainLaunches(rev, cfg, env);
    var o := Main(rev, cfg, env);
    if o.end == Returned && env.isMaster {
      assert o.effects[|Made(cfg, env)| + 1] in o.effects;
    }
  }

  /** Position of an effect kind in the order `main` performs them. */
  function EffectRank(e: Effect): nat
  {
    match e
    case MakeDirs(_) => 0
    case StartTraining(_, _) => 1
    case WriteSummary(_, _) => 2
  }

  /** Each kind of effect happens at most once, in rank order, and the summary
      is written right after training started. */
  predicate Ordered(ef: seq<Effect>)
  {
    && (forall i, j :: 0 <= i < j < |ef| ==> EffectRank(ef[i]) < EffectRank(ef[j]))
    && (forall i :: 0 <= i < |ef| && ef[i].WriteSummary? ==> i > 0 && ef[i - 1].StartTraining?)
  }

  lemma LaunchOrdered(rev: Revision, cfg: Config, env: Env, dataPath: string, clients: seq<Client>, a: TrainArgs)
    ensures Ordered(Launch(rev, cfg, env, dataPath, clients, a, Made(cfg, env)).effects)
  {
    var ef := Launch(rev, cfg, env, dataPath, clients, a, Made(cfg, env)).effects;
    var n := |Made(cfg, env)|;
    assert forall i :: 0 <= i < |ef| ==> EffectRank(ef[i]) == i + 1 - n;
  }

  /** Whatever the inputs, the directory is created first, training starts
      at most once, and the summary is written last, right after training;
      a completed run performs no effect at all. */
  lemma EffectOrder(rev: Revision, cfg: Config, env: Env)
    ensures Ordered(Main(rev, cfg, env).effects)
    ensures Main(rev, cfg, env).end == Exit0 ==> Main(rev, cfg, env).effects == []
  {
    BuildClientsResult(cfg, env);
    if ClientsBuilt(cfg) && !(env.ckptExists && env.summaryExists) && cfg.model == "lora" {
      MainLaunches(rev, cfg, env);
      LaunchOrdered(rev, cfg, env, DatasetPath(cfg.dataset).value, BuildClients(cfg, env).value,
                    TrainArgsOf(cfg, env, DatasetPath(cfg.dataset).value));
    }
  }
}
