/** The round-scheduling state machine of `train_lora` (src/optim/lora.py).

    Tensor work is abstracted into events: a forward/backward pass is a
    `Microstep`, `opt.step()` an `OptStep`, the call into the trust
    aggregator an `Aggregate`, and so on. Numbers the tensors would produce
    are named rather than computed: the loss of a microstep is identified by
    the client and the ordinal of that microstep (`MicroLoss`), the result of
    an evaluation call by the client and round it was made in (`EvalCall`).
    Every exception the modelled code raises becomes a `TrainError`. */
module Lora {
  import opened Base
  import opened Clients
  import opened Shards

  /** Observable side effects of the loop, in the order they happen. */
  datatype Event =
    | Microstep(client: nat)                  // one forward/backward pass
    | ClipGrad(client: nat)                   // clip_grad_norm_
    | OptStep(client: nat)                    // opt.step()
    | SchedStep(client: nat)                  // scheduler.step()
    | Aggregate(round: int)                   // strategies.aggregate over all clients
    | ZeroGrad(client: nat)                   // opt.zero_grad()
    | Eval(client: nat, round: int, epoch: int) // model.eval(); eval(...); model.train()

  /** The loss produced by microstep number `substep` of `client`. */
  datatype MicroLoss = MicroLoss(client: nat, substep: int)

  /** The (accuracy, loss, perplexity) triple `eval` returns for `client` after `round`. */
  datatype EvalCall = EvalCall(client: nat, round: int)

  /** One client's column of the `stats` dictionary. */
  datatype ClientStats = ClientStats(
    trainLoss: seq<MicroLoss>,
    valLoss: seq<EvalCall>,
    valPp: seq<EvalCall>,
    valAcc: seq<EvalCall>)

  const NoStats := ClientStats([], [], [], [])

  /** One evaluation appends one entry to each of the four lists. */
  function Record(st: ClientStats, loss: MicroLoss, call: EvalCall): ClientStats
  {
    ClientStats(st.trainLoss + [loss], st.valLoss + [call], st.valPp + [call], st.valAcc + [call])
  }

  /** The loop's mutable locals: `itr`, `substep`, the last `loss`, `stats`, plus the event log. */
  datatype State = State(
    itr: seq<int>,
    substep: seq<int>,
    loss: Option<MicroLoss>,
    stats: seq<ClientStats>,
    log: seq<Event>)

  /** Where a Python `//` or `%` met a zero divisor. */
  datatype Site = SubstepsPerEpoch(client: nat) | AggregateCadence | EvalCadence(client: nat) | Epoch(client: nat)

  datatype TrainError =
    | MissingShard(client: nat, kind: Kind) // np.memmap of an absent shard file
    | ZeroDivision(site: Site)        // ZeroDivisionError
    | NoClients                       // IndexError from itr[-1] on an empty list
    | ShortShard(client: nat)         // get_batch on a train shard too short for one window
    | NoneSchedulerStep(client: nat)  // AttributeError from None.step()
    | ScheduleOverrun(client: nat)    // ValueError: OneCycleLR stepped past total_steps
    | EmptySchedulePhase(client: nat) // ZeroDivisionError inside OneCycleLR's learning rate
    | LossUnbound                     // UnboundLocalError: `loss` read before any microstep

  /** Which reading of the scheduler step to use: the code as written calls
      `scheduler.step()` unconditionally; the corrected reading skips it for
      a client built without a scheduler, as the rest of the loop expects. */
  datatype Revision = AsWritten | NoneSchedulerSkipped

  /** The scalar arguments of `train_lora` and the `extra_args` fields it reads. */
  datatype TrainArgs = TrainArgs(
    iterations: int,
    accSteps: int,
    batchSize: int,
    sequenceLength: int,
    evalFreq: int,
    trustFreq: int,
    pretrainingRounds: int,
    gradClip: real,
    isMaster: bool,
    trainLens: seq<nat>,  // token counts of train_0.bin, train_1.bin, ... up to the first absent one
    testShards: nat,      // how many of test_0.bin, test_1.bin, ... exist before the first absent one
    validShards: nat)     // the same for valid_0.bin, valid_1.bin, ...

  /** How many shards of kind k exist, counting from index 0 up to the first
      absent one. Loading stops at the first absent shard, so nothing past it
      can affect a run. */
  function Present(a: TrainArgs, k: Kind): nat
  {
    match k
    case Train => |a.trainLens|
    case Val => a.testShards
    case Ref => a.validShards
  }

  /** `np.memmap` of client i's shard of kind k finds its file. */
  predicate Opens(a: TrainArgs, k: Kind, i: nat)
  {
    i < Present(a, k)
  }

  /** Every shard of the first n clients opens. */
  predicate Loaded(a: TrainArgs, n: nat)
  {
    n <= |a.trainLens| && n <= a.testShards && n <= a.validShards
  }

  /** Shard (i, k) is the first one in loading order that does not open. */
  ghost predicate FirstMissing(a: TrainArgs, i: nat, k: Kind)
  {
    !Opens(a, k, i) && forall j, l :: OpenedBefore(j, l, i, k) ==> Opens(a, l, j)
  }

  /** Everything fixed once the loop starts, including `num_substeps_per_epoch`. */
  datatype Ctx = Ctx(rev: Revision, clients: seq<Client>, args: TrainArgs, perEpoch: seq<int>) {
    predicate Valid() { |clients| > 0 && |perEpoch| == |clients| && |clients| <= |args.trainLens| }
    function N(): nat { |clients| }
    /** Microsteps per client per round: the length of `range(acc_steps)`. */
    function Acc(): nat { RangeLen(args.accSteps) }
  }

  /** `xs` with `d` added to every entry at index `from` or later. */
  function Bump(xs: seq<int>, from: nat, d: int): (r: seq<int>)
    ensures |r| == |xs|
    ensures forall j :: 0 <= j < |xs| ==> r[j] == xs[j] + (if from <= j then d else 0)
  {
    seq(|xs|, j requires 0 <= j < |xs| => xs[j] + (if from <= j then d else 0))
  }

  /** Adding d at index i, then at i+1 onward, is adding d at i onward. */
  lemma BumpShift(xs: seq<int>, ys: seq<int>, i: nat, d: int)
    requires i < |xs| && ys == xs[i := xs[i] + d]
    ensures Bump(ys, i + 1, d) == Bump(xs, i, d)
  {
  }

  lemma AppendAssoc<T>(a: seq<T>, b: seq<T>, c: seq<T>)
    ensures a + (b + c) == (a + b) + c
  {
  }

  predicate Shaped(c: Ctx, s: State)
  {
    |s.itr| == c.N() && |s.substep| == c.N() && |s.stats| == c.N()
  }

  /** Aggregation guard of line 82, for a round with nonzero `trust_freq`. */
  predicate AggregateDue(a: TrainArgs, r: int)
  {
    a.trustFreq != 0 && FloorMod(r, a.trustFreq) == 0 && r >= a.pretrainingRounds - 1
  }

  /** Evaluation guard of line 92, for a round with nonzero `eval_freq`. */
  predicate EvalDue(a: TrainArgs, r: int)
  {
    a.evalFreq != 0 && (FloorMod(r, a.evalFreq) == 0 || r == a.iterations)
  }

  /** The epoch printed at line 94; only consulted once the divisor is known to be nonzero. */
  function EpochOf(c: Ctx, i: nat, sub: int): int
    requires i < |c.perEpoch|
  {
    if c.perEpoch[i] == 0 then 0 else FloorDiv(sub, c.perEpoch[i])
  }

  /** Events of one client's local step (lines 64-78). */
  function ClientEvents(c: Ctx, i: nat): seq<Event>
    requires i < c.N()
  {
    Fill(c.Acc(), Microstep(i))
    + (if c.args.gradClip != 0.0 then [ClipGrad(i)] else [])
    + [OptStep(i)]
    + (if c.clients[i].scheduler.Some? then [SchedStep(i)] else [])
  }

  /** Events of the local steps of clients i, i+1, ..., in index order. */
  function TrainEvents(c: Ctx, i: nat): seq<Event>
    requires i <= c.N()
    decreases c.N() - i
  {
    if i == c.N() then [] else ClientEvents(c, i) + TrainEvents(c, i + 1)
  }

  /** Events of the zero-grad/evaluation pass over clients i, i+1, ... (lines 88-130),
      given every client's `itr` and `substep`. */
  function EvalEvents(c: Ctx, itrs: seq<int>, subs: seq<int>, i: nat): seq<Event>
    requires c.Valid() && |itrs| == c.N() && |subs| == c.N() && i <= c.N()
    decreases c.N() - i
  {
    if i == c.N() then []
    else
      [ZeroGrad(i)]
      + (if c.args.isMaster && EvalDue(c.args, itrs[i]) then [Eval(i, itrs[i], EpochOf(c, i, subs[i]))] else [])
      + EvalEvents(c, itrs, subs, i + 1)
  }

  /** The gradient-accumulation loop of lines 64-73: `count` forward/backward
      passes of client i, each bumping its substep and rebinding `loss`. */
  function Microsteps(s: State, i: nat, count: nat): (r: State)
    requires i < |s.substep|
    ensures r.itr == s.itr && r.stats == s.stats
    ensures r.substep == s.substep[i := s.substep[i] + count]
    ensures r.log == s.log + Fill(count, Microstep(i))
    ensures r.loss == if count == 0 then s.loss else Some(MicroLoss(i, s.substep[i] + count))
    decreases count
  {
    if count == 0 then s
    else
      var next := s.substep[i] + 1;
      var s1 := s.(substep := s.substep[i := next], loss := Some(MicroLoss(i, next)), log := s.log + [Microstep(i)]);
      assert [Microstep(i)] + Fill(count - 1, Microstep(i)) == Fill(count, Microstep(i));
      Microsteps(s1, i, count - 1)
  }

  /** `get_batch` draws a window of `sequence_length` tokens plus the
      shifted target, so it needs more than `sequence_length` tokens. It is
      only called when the accumulation loop runs at all. */
  predicate Samplable(c: Ctx, i: nat)
    requires c.Valid() && i < c.N()
  {
    c.Acc() == 0 || c.args.trainLens[i] > c.args.sequenceLength
  }

  /** Whether client i's k-th `scheduler.step()` call returns under the chosen reading. */
  predicate SchedulerSteps(c: Ctx, i: nat, k: int)
    requires i < c.N()
  {
    match c.clients[i].scheduler
    case None => c.rev.NoneSchedulerSkipped?
    case Some(sc) => OneCycleFault(sc, k).None?
  }

  /** Whether client i's local step in round k (its k-th) returns. */
  predicate Steppable(c: Ctx, i: nat, k: int)
    requires c.Valid() && i < c.N()
  {
    Samplable(c, i) && SchedulerSteps(c, i, k)
  }

  /** The local-step exceptions: sampling a batch, or stepping the scheduler. */
  predicate LocalStepError(e: TrainError)
  {
    e.ShortShard? || e.NoneSchedulerStep? || e.ScheduleOverrun? || e.EmptySchedulePhase?
  }

  /** What client i's k-th local step raises when it cannot be made: a short
      shard fails at the first microstep, before the scheduler is reached. */
  function StepError(c: Ctx, i: nat, k: int): (e: TrainError)
    requires c.Valid() && i < c.N() && !Steppable(c, i, k)
    ensures LocalStepError(e) && e.client == i
    ensures e.ShortShard? <==> !Samplable(c, i)
    ensures e.NoneSchedulerStep? <==> Samplable(c, i) && c.clients[i].scheduler.None?
    ensures e.ScheduleOverrun? <==> Samplable(c, i) && c.clients[i].scheduler.Some? && k > c.clients[i].scheduler.value.totalSteps
  {
    if !Samplable(c, i) then ShortShard(i)
    else match c.clients[i].scheduler
      case None => NoneSchedulerStep(i)
      case Some(sc) => if OneCycleFault(sc, k) == Some(PastTotalSteps) then ScheduleOverrun(i) else EmptySchedulePhase(i)
  }

  /** One client's local step (lines 62-79): microsteps, optional clipping,
      optimizer step, scheduler step, counter increment. The step is the
      client's `itr[i] + 1`-th. */
  function ClientStep(c: Ctx, s: State, i: nat): (r: Result<State, TrainError>)
    requires c.Valid() && Shaped(c, s) && i < c.N()
    ensures r.Ok? <==> Steppable(c, i, s.itr[i] + 1)
    ensures r.Err? ==> r.error == StepError(c, i, s.itr[i] + 1)
    ensures r.Ok? ==> r.value.itr == s.itr[i := s.itr[i] + 1]
    ensures r.Ok? ==> r.value.substep == s.substep[i := s.substep[i] + c.Acc()]
    ensures r.Ok? ==> r.value.loss == if c.Acc() == 0 then s.loss else Some(MicroLoss(i, s.substep[i] + c.Acc()))
    ensures r.Ok? ==> r.value.stats == s.stats && r.value.log == s.log + ClientEvents(c, i)
  {
    if !Samplable(c, i) then Err(ShortShard(i))
    else
      var s1 := Microsteps(s, i, c.Acc());
      var clipped := s1.log + (if c.args.gradClip != 0.0 then [ClipGrad(i)] else []) + [OptStep(i)];
      var s2 := s1.(log := clipped, itr := s1.itr[i := s1.itr[i] + 1]);
      match c.clients[i].scheduler
      case Some(sc) =>
        (match OneCycleFault(sc, s.itr[i] + 1)
         case None => Ok(s2.(log := clipped + [SchedStep(i)]))
         case Some(PastTotalSteps) => Err(ScheduleOverrun(i))
         case Some(EmptyPhase) => Err(EmptySchedulePhase(i)))
      case None => if c.rev.AsWritten? then Err(NoneSchedulerStep(i)) else Ok(s2)
  }

  /** The `for i in range(num_clients)` training pass of lines 60-79, from client i on. */
  function TrainPhase(c: Ctx, s: State, i: nat): (r: Result<State, TrainError>)
    requires c.Valid() && Shaped(c, s) && i <= c.N()
    ensures r.Err? ==> LocalStepError(r.error)
    ensures r.Ok? ==> Shaped(c, r.value)
    ensures r.Ok? ==> r.value.itr == Bump(s.itr, i, 1) && r.value.substep == Bump(s.substep, i, c.Acc())
    ensures r.Ok? ==> r.value.loss == if i == c.N() || c.Acc() == 0 then s.loss
                                      else Some(MicroLoss(c.N() - 1, s.substep[c.N() - 1] + c.Acc()))
    ensures r.Ok? ==> r.value.stats == s.stats && r.value.log == s.log + TrainEvents(c, i)
    decreases c.N() - i
  {
    if i == c.N() then Ok(s)
    else
      match ClientStep(c, s, i)
      case Err(e) => Err(e)
      case Ok(s1) =>
        AppendAssoc(s.log, ClientEvents(c, i), TrainEvents(c, i + 1));
        BumpShift(s.itr, s1.itr, i, 1);
        BumpShift(s.substep, s1.substep, i, c.Acc());
        TrainPhase(c, s1, i + 1)
  }

  /** The training pass fails exactly when some remaining client's local step cannot be made. */
  lemma {:induction false} TrainPhaseOk(c: Ctx, s: State, i: nat)
    requires c.Valid() && Shaped(c, s) && i <= c.N()
    ensures TrainPhase(c, s, i).Ok? <==> forall j :: i <= j < c.N() ==> Steppable(c, j, s.itr[j] + 1)
    decreases c.N() - i
  {
    if i < c.N() {
      if Steppable(c, i, s.itr[i] + 1) {
        var next := ClientStep(c, s, i).value;
        assert TrainPhase(c, s, i) == TrainPhase(c, next, i + 1);
        TrainPhaseOk(c, next, i + 1);
        assert forall j :: i + 1 <= j < c.N() ==> next.itr[j] == s.itr[j];
      } else {
        assert TrainPhase(c, s, i).Err?;
      }
    }
  }

  /** A failing training pass names the first remaining client whose local
      step cannot be made, with that step's exception. */
  lemma {:induction false} TrainPhaseError(c: Ctx, s: State, i: nat)
    requires c.Valid() && Shaped(c, s) && i <= c.N() && TrainPhase(c, s, i).Err?
    ensures var q := TrainPhase(c, s, i).error.client;
            && i <= q < c.N()
            && !Steppable(c, q, s.itr[q] + 1)
            && TrainPhase(c, s, i).error == StepError(c, q, s.itr[q] + 1)
            && forall j :: i <= j < q ==> Steppable(c, j, s.itr[j] + 1)
    decreases c.N() - i
  {
    if Steppable(c, i, s.itr[i] + 1) {
      var next := ClientStep(c, s, i).value;
      assert TrainPhase(c, s, i) == TrainPhase(c, next, i + 1);
      TrainPhaseError(c, next, i + 1);
      assert forall j :: i + 1 <= j < c.N() ==> next.itr[j] == s.itr[j];
    } else {
      assert TrainPhase(c, s, i) == ClientStep(c, s, i);
    }
  }

  /** The zero-grad/evaluation pass of lines 88-130, from client i on. On the
      master process a client whose counter is due is evaluated and appends
      one entry to each of its four metric lists. */
  function EvalPhase(c: Ctx, s: State, i: nat): (r: Result<State, TrainError>)
    requires c.Valid() && Shaped(c, s) && i <= c.N()
    ensures r.Ok? <==>
              && (i < c.N() ==> c.args.evalFreq != 0)
              && forall j :: i <= j < c.N() && c.args.isMaster && EvalDue(c.args, s.itr[j]) ==>
                               c.perEpoch[j] != 0 && s.loss.Some?
    ensures r.Err? ==> r.error.ZeroDivision? || r.error == LossUnbound
    ensures r.Err? && c.args.evalFreq != 0 && s.loss.Some? ==> r.error.ZeroDivision? && r.error.site.Epoch?
    ensures r.Ok? ==> Shaped(c, r.value) && r.value.itr == s.itr && r.value.substep == s.substep && r.value.loss == s.loss
    ensures r.Ok? ==> r.value.log == s.log + EvalEvents(c, s.itr, s.substep, i)
    ensures r.Ok? ==> forall j :: 0 <= j < c.N() ==>
                        r.value.stats[j] == if i <= j && c.args.isMaster && EvalDue(c.args, s.itr[j])
                                            then Record(s.stats[j], s.loss.value, EvalCall(j, s.itr[j]))
                                            else s.stats[j]
    decreases c.N() - i
  {
    if i == c.N() then Ok(s)
    else
      var s1 := s.(log := s.log + [ZeroGrad(i)]);
      if c.args.evalFreq == 0 then Err(ZeroDivision(EvalCadence(i)))
      else if !EvalDue(c.args, s.itr[i]) || !c.args.isMaster then
        AppendAssoc(s.log, [ZeroGrad(i)], EvalEvents(c, s.itr, s.substep, i + 1));
        EvalPhase(c, s1, i + 1)
      else if c.perEpoch[i] == 0 then Err(ZeroDivision(Epoch(i)))
      else
        match s.loss
        case None => Err(LossUnbound)
        case Some(l) =>
          var round := s.itr[i];
          var epoch := FloorDiv(s.substep[i], c.perEpoch[i]);
          var s2 := s1.(log := s1.log + [Eval(i, round, epoch)],
                        stats := s.stats[i := Record(s.stats[i], l, EvalCall(i, round))]);
          AppendAssoc(s.log, [ZeroGrad(i)] + [Eval(i, round, epoch)], EvalEvents(c, s.itr, s.substep, i + 1));
          EvalPhase(c, s2, i + 1)
  }

  /** With a nonzero evaluation cadence, a failing evaluation pass stops at
      the first due client on the master process: a zero epoch length there
      is reported before an unbound `loss`. */
  lemma {:induction false} EvalPhaseError(c: Ctx, s: State, i: nat)
    requires c.Valid() && Shaped(c, s) && i <= c.N() && c.args.evalFreq != 0 && EvalPhase(c, s, i).Err?
    ensures EvalPhase(c, s, i).error == LossUnbound || EvalPhase(c, s, i).error.ZeroDivision?
    ensures var e := EvalPhase(c, s, i).error;
            exists j :: i <= j < c.N() && c.args.isMaster && EvalDue(c.args, s.itr[j]) &&
              (forall m :: i <= m < j && c.args.isMaster && EvalDue(c.args, s.itr[m]) ==> c.perEpoch[m] != 0) &&
              (if c.perEpoch[j] == 0 then e == ZeroDivision(Epoch(j)) else s.loss.None? && e == LossUnbound)
    decreases c.N() - i
  {
    var s1 := s.(log := s.log + [ZeroGrad(i)]);
    var e := EvalPhase(c, s, i).error;
    if !EvalDue(c.args, s.itr[i]) || !c.args.isMaster {
      assert EvalPhase(c, s, i) == EvalPhase(c, s1, i + 1);
      EvalPhaseError(c, s1, i + 1);
      var j :| i + 1 <= j < c.N() && c.args.isMaster && EvalDue(c.args, s1.itr[j]) &&
              (forall m :: i + 1 <= m < j && c.args.isMaster && EvalDue(c.args, s1.itr[m]) ==> c.perEpoch[m] != 0) &&
              (if c.perEpoch[j] == 0 then e == ZeroDivision(Epoch(j)) else s1.loss.None? && e == LossUnbound);
      assert i <= j;
    } else if c.perEpoch[i] == 0 {
      assert e == ZeroDivision(Epoch(i));
    } else if s.loss.None? {
      assert e == LossUnbound;
    } else {
      var round := s.itr[i];
      var s2 := s1.(log := s1.log + [Eval(i, round, FloorDiv(s.substep[i], c.perEpoch[i]))],
                    stats := s.stats[i := Record(s.stats[i], s.loss.value, EvalCall(i, round))]);
      assert EvalPhase(c, s, i) == EvalPhase(c, s2, i + 1);
      EvalPhaseError(c, s2, i + 1);
    }
  }

  /** One iteration of the `while` body (lines 60-134): every client's local
      step, then the aggregation guard, then zero-grad and evaluation. */
  function Round(c: Ctx, s: State): (r: Result<State, TrainError>)
    requires c.Valid() && Shaped(c, s)
    ensures r.Err? ==> LocalStepError(r.error) || r.error.ZeroDivision? || r.error == LossUnbound
    ensures r.Ok? ==> Shaped(c, r.value)
    ensures r.Ok? ==> forall j :: 0 <= j < c.N() ==> r.value.itr[j] == s.itr[j] + 1
    ensures r.Ok? ==> forall j :: 0 <= j < c.N() ==> r.value.substep[j] == s.substep[j] + c.Acc()
  {
    match TrainPhase(c, s, 0)
    case Err(e) => Err(e)
    case Ok(t) =>
      var k := t.itr[c.N() - 1];
      if c.args.trustFreq == 0 then Err(ZeroDivision(AggregateCadence))
      else
        var aggregated := if AggregateDue(c.args, k) then [Aggregate(k)] else [];
        EvalPhase(c, t.(log := t.log + aggregated), 0)
  }

  /** `while itr[-1] < iterations`: rounds until the last client's counter reaches the bound. */
  function Loop(c: Ctx, s: State): (r: Result<State, TrainError>)
    requires c.Valid() && Shaped(c, s)
    ensures r.Err? ==> LocalStepError(r.error) || r.error.ZeroDivision? || r.error == LossUnbound
    ensures r.Ok? ==> Shaped(c, r.value) && r.value.itr[c.N() - 1] >= c.args.iterations
    decreases c.args.iterations - s.itr[c.N() - 1]
  {
    if s.itr[c.N() - 1] >= c.args.iterations then Ok(s)
    else
      match Round(c, s)
      case Err(e) => Err(e)
      case Ok(t) => Loop(c, t)
  }

  /** Zeroed counters, no loss yet, empty metric lists, empty log (lines 28-33). */
  function Init(n: nat): State
  {
    State(Fill(n, 0), Fill(n, 0), None, Fill(n, NoStats), [])
  }

  /** `num_substeps_per_epoch` (line 48) once the batch size in tokens is known to be nonzero. */
  function PerEpochTable(a: TrainArgs, n: nat): (t: seq<int>)
    requires n <= |a.trainLens| && a.batchSize * a.sequenceLength != 0
    ensures |t| == n
  {
    seq(n, j requires 0 <= j < n => FloorDiv(a.trainLens[j], a.batchSize * a.sequenceLength))
  }

  /** `num_substeps_per_epoch` (lines 46-48): whole train batches per shard;
      the `//` raises on the first client when a batch holds zero tokens. */
  function PerEpoch(a: TrainArgs, n: nat): (r: Result<seq<int>, TrainError>)
    requires n <= |a.trainLens|
    ensures r.Err? <==> n > 0 && a.batchSize * a.sequenceLength == 0
    ensures r.Err? ==> r.error == ZeroDivision(SubstepsPerEpoch(0))
    ensures r.Ok? ==> |r.value| == n
    ensures r.Ok? ==> forall j :: 0 <= j < n ==>
                        var b := a.batchSize * a.sequenceLength;
                        (b > 0 ==> b * r.value[j] <= a.trainLens[j] < b * r.value[j] + b)
  {
    if n == 0 then Ok([])
    else if a.batchSize * a.sequenceLength == 0 then Err(ZeroDivision(SubstepsPerEpoch(0)))
    else Ok(PerEpochTable(a, n))
  }

  /** The loading loop of lines 39-45 from client i on, once every shard of
      the clients before i has opened: the first shard that fails to open. */
  function MissingFrom(a: TrainArgs, i: nat, n: nat): (r: Option<(nat, Kind)>)
    requires i <= n
    requires forall j: nat, l :: j < i ==> Opens(a, l, j)
    ensures r.None? <==> forall j, l :: i <= j < n ==> Opens(a, l, j)
    ensures i < n ==> (r.None? <==> Loaded(a, n))
    ensures r.Some? ==> i <= r.value.0 < n && FirstMissing(a, r.value.0, r.value.1)
    decreases n - i
  {
    if i == n then None
    else if !Opens(a, Train, i) then Some((i, Train))
    else if !Opens(a, Val, i) then Some((i, Val))
    else if !Opens(a, Ref, i) then Some((i, Ref))
    else MissingFrom(a, i + 1, n)
  }

  /** Two shards that are both the first one to fail are the same shard. */
  lemma FirstMissingUnique(a: TrainArgs, i: nat, k: Kind, j: nat, l: Kind)
    requires FirstMissing(a, i, k) && FirstMissing(a, j, l)
    ensures i == j && k == l
  {
    OpenedBeforeTotal(i, k, j, l);
  }

  /** `train_lora`: shard loading, the per-epoch table, then the round loop.
      Returns the final loop state; its `stats` field is what the function returns. */
  function TrainLora(rev: Revision, clients: seq<Client>, a: TrainArgs): (r: Result<State, TrainError>)
    ensures r.Err? && r.error.MissingShard? <==> !Loaded(a, |clients|)
    ensures r.Err? && r.error.MissingShard? ==> r.error.client < |clients| && FirstMissing(a, r.error.client, r.error.kind)
    ensures |clients| == 0 ==> r == Err(NoClients)
    ensures r.Ok? ==> |r.value.stats| == |clients| && |r.value.itr| == |clients| && r.value.itr[|clients| - 1] >= a.iterations
  {
    match MissingFrom(a, 0, |clients|)
    case Some(p) => Err(MissingShard(p.0, p.1))
    case None =>
      match PerEpoch(a, |clients|)
      case Err(e) => Err(e)
      case Ok(pe) =>
        if |clients| == 0 then Err(NoClients)
        else Loop(Ctx(rev, clients, a, pe), Init(|clients|))
  }

  /** `train_lora` raises on shard (i, k) exactly when it belongs to a client
      and is the first shard in loading order that does not open. */
  lemma TrainLoraMissing(rev: Revision, clients: seq<Client>, a: TrainArgs, i: nat, k: Kind)
    ensures TrainLora(rev, clients, a) == Err(MissingShard(i, k)) <==> i < |clients| && FirstMissing(a, i, k)
  {
    var t := TrainLora(rev, clients, a);
    if i < |clients| && FirstMissing(a, i, k) {
      assert !Loaded(a, |clients|);
      FirstMissingUnique(a, t.error.client, t.error.kind, i, k);
    }
  }
}
