/** Properties of the reference run of module LoraRun: how often each event
    happens, the order of the phases inside a round, and what the metric
    lists hold. Each is stated for any number of rounds and then read off a
    completed `train_lora` call. */
module LoraProps {
  import opened Base
  import opened Clients
  import opened Lora
  import opened LoraRun

  /** Position of an event inside its round: local steps, then aggregation,
      then zero-grad and evaluation. */
  function Phase(e: Event): nat
  {
    match e
    case Aggregate(_) => 1
    case ZeroGrad(_) => 2
    case Eval(_, _, _) => 2
    case _ => 0
  }

  /** The client an event belongs to; the aggregation belongs to none. */
  function Owner(e: Event): int
  {
    if e.Aggregate? then -1 else e.client
  }

  /** How many times event e happens in round r, read from the loop body
      rather than from the loop: each client's microsteps, clip, optimizer and
      scheduler steps; one aggregation on a due round; one zero-grad per
      client; one evaluation per client on a due round of the master process. */
  function RoundCount(c: Ctx, r: nat, e: Event): nat
    requires c.Valid()
  {
    match e
    case Microstep(j) => if j < c.N() then c.Acc() else 0
    case ClipGrad(j) => if j < c.N() && c.args.gradClip != 0.0 then 1 else 0
    case OptStep(j) => if j < c.N() then 1 else 0
    case SchedStep(j) => if j < c.N() && c.clients[j].scheduler.Some? then 1 else 0
    case Aggregate(q) => if q == r && AggregateDue(c.args, r) then 1 else 0
    case ZeroGrad(j) => if j < c.N() then 1 else 0
    case Eval(j, q, ep) =>
      if j < c.N() && q == r && c.args.isMaster && EvalDue(c.args, r) && ep == EpochOf(c, j, Done(c, r)) then 1 else 0
  }

  /** The per-round count of each of client j's own local-step events. */
  lemma ClientRoundCounts(c: Ctx, j: nat)
    requires c.Valid() && j < c.N()
    ensures RoundCount(c, 0, Microstep(j)) == c.Acc()
    ensures RoundCount(c, 0, ClipGrad(j)) == if c.args.gradClip != 0.0 then 1 else 0
    ensures RoundCount(c, 0, OptStep(j)) == 1
    ensures RoundCount(c, 0, SchedStep(j)) == if c.clients[j].scheduler.Some? then 1 else 0
    ensures RoundCount(c, 0, ZeroGrad(j)) == 1
  {
  }

  /** Occurrences of e over rounds 1..k. */
  function Total(c: Ctx, k: nat, e: Event): nat
    requires c.Valid()
  {
    if k == 0 then 0 else Total(c, k - 1, e) + RoundCount(c, k, e)
  }

  /** Occurrences of x in s. */
  function Count<T(==)>(s: seq<T>, x: T): nat
  {
    if |s| == 0 then 0 else Count(s[..|s| - 1], x) + (if s[|s| - 1] == x then 1 else 0)
  }

  lemma {:induction false} CountConcat<T>(a: seq<T>, b: seq<T>, x: T)
    ensures Count(a + b, x) == Count(a, x) + Count(b, x)
    decreases |b|
  {
    if |b| > 0 {
      assert (a + b)[..|a + b| - 1] == a + b[..|b| - 1];
      CountConcat(a, b[..|b| - 1], x);
    } else {
      assert a + b == a;
    }
  }

  lemma CountOne<T>(x: T, y: T)
    ensures Count([x], y) == if x == y then 1 else 0
  {
    assert [x][..0] == [];
  }

  lemma {:induction false} CountIn<T>(s: seq<T>, x: T)
    ensures Count(s, x) > 0 <==> x in s
    decreases |s|
  {
    if |s| > 0 {
      var init := s[..|s| - 1];
      CountIn(init, x);
      assert s == init + [s[|s| - 1]];
    }
  }

  lemma {:induction false} FillCount<T>(n: nat, x: T, y: T)
    ensures Count(Fill(n, x), y) == if x == y then n else 0
  {
    if n > 0 {
      assert Fill(n, x)[..n - 1] == Fill(n - 1, x);
      FillCount(n - 1, x, y);
    }
  }

  /** Occurrences of e in one client's local step, event kind by event kind. */
  lemma ClientEventsTally(c: Ctx, i: nat, e: Event)
    requires c.Valid() && i < c.N()
    ensures Count(ClientEvents(c, i), e) ==
              (if e == Microstep(i) then c.Acc() else 0)
              + (if e == ClipGrad(i) && c.args.gradClip != 0.0 then 1 else 0)
              + (if e == OptStep(i) then 1 else 0)
              + (if e == SchedStep(i) && c.clients[i].scheduler.Some? then 1 else 0)
  {
    var m := Fill(c.Acc(), Microstep(i));
    var clip := if c.args.gradClip != 0.0 then [ClipGrad(i)] else [];
    var sched := if c.clients[i].scheduler.Some? then [SchedStep(i)] else [];
    var front := m + clip;
    var stepped := front + [OptStep(i)];
    assert ClientEvents(c, i) == stepped + sched;
    FillCount(c.Acc(), Microstep(i), e);
    CountOne(ClipGrad(i), e);
    CountOne(OptStep(i), e);
    CountOne(SchedStep(i), e);
    CountConcat(m, clip, e);
    CountConcat(front, [OptStep(i)], e);
    CountConcat(stepped, sched, e);
  }

  /** One client's local step holds its own phase-0 events, as often as one round does. */
  lemma ClientEventsCount(c: Ctx, i: nat, e: Event)
    requires c.Valid() && i < c.N()
    ensures Count(ClientEvents(c, i), e) == if Phase(e) == 0 && Owner(e) == i then RoundCount(c, 0, e) else 0
  {
    ClientEventsTally(c, i, e);
  }

  lemma {:induction false} TrainEventsCount(c: Ctx, i: nat, e: Event)
    requires c.Valid() && i <= c.N()
    ensures Count(TrainEvents(c, i), e) == if Phase(e) == 0 && i <= Owner(e) then RoundCount(c, 0, e) else 0
    decreases c.N() - i
  {
    if i < c.N() {
      var head, rest := ClientEvents(c, i), TrainEvents(c, i + 1);
      ClientEventsCount(c, i, e);
      TrainEventsCount(c, i + 1, e);
      CountConcat(head, rest, e);
      if Phase(e) == 0 && Owner(e) == i {
        assert Count(rest, e) == 0;
      } else if Phase(e) == 0 && i < Owner(e) {
        assert Count(head, e) == 0;
      } else {
        assert Count(head, e) == 0 && Count(rest, e) == 0;
      }
    }
  }

  lemma {:induction false} EvalEventsCount(c: Ctx, r: nat, i: nat, e: Event)
    requires c.Valid() && i <= c.N()
    ensures Count(EvalEvents(c, Fill(c.N(), r), Fill(c.N(), Done(c, r)), i), e) ==
              if Phase(e) == 2 && i <= Owner(e) then RoundCount(c, r, e) else 0
    decreases c.N() - i
  {
    if i < c.N() {
      var itrs, subs := Fill(c.N(), r), Fill(c.N(), Done(c, r));
      var ev := if c.args.isMaster && EvalDue(c.args, itrs[i]) then [Eval(i, itrs[i], EpochOf(c, i, subs[i]))] else [];
      var rest := EvalEvents(c, itrs, subs, i + 1);
      EvalEventsCount(c, r, i + 1, e);
      CountConcat([ZeroGrad(i)] + ev, rest, e);
      CountConcat([ZeroGrad(i)], ev, e);
    }
  }

  /** The events of round r are exactly those the loop body promises, each as often. */
  lemma RoundEventsCount(c: Ctx, r: nat, e: Event)
    requires c.Valid()
    ensures Count(RoundEvents(c, r), e) == RoundCount(c, r, e)
  {
    var t := TrainEvents(c, 0);
    var g := if AggregateDue(c.args, r) then [Aggregate(r)] else [];
    var v := EvalEvents(c, Fill(c.N(), r), Fill(c.N(), Done(c, r)), 0);
    TrainEventsCount(c, 0, e);
    EvalEventsCount(c, r, 0, e);
    CountConcat(t + g, v, e);
    CountConcat(t, g, e);
  }

  /** The log of k rounds holds each event as often as the rounds together promise. */
  lemma {:induction false} ExpectedLogCount(c: Ctx, k: nat, e: Event)
    requires c.Valid()
    ensures Count(ExpectedLog(c, k), e) == Total(c, k, e)
  {
    if k > 0 {
      LogStep(c, k, e);
      ExpectedLogCount(c, k - 1, e);
      TotalStep(c, k, e);
    } else {
      LogBase(c, e);
    }
  }

  lemma LogBase(c: Ctx, e: Event)
    requires c.Valid()
    ensures Count(ExpectedLog(c, 0), e) == 0 == Total(c, 0, e)
  {
  }

  lemma TotalStep(c: Ctx, k: nat, e: Event)
    requires c.Valid() && k > 0
    ensures Total(c, k, e) == Total(c, k - 1, e) + RoundCount(c, k, e)
  {
  }

  lemma LogStep(c: Ctx, k: nat, e: Event)
    requires c.Valid() && k > 0
    ensures Count(ExpectedLog(c, k), e) == Count(ExpectedLog(c, k - 1), e) + RoundCount(c, k, e)
  {
    RoundEventsCount(c, k, e);
    CountConcat(ExpectedLog(c, k - 1), RoundEvents(c, k), e);
  }

  /** Events that do not depend on the round happen equally often in every round. */
  lemma {:induction false} TotalSteady(c: Ctx, k: nat, e: Event)
    requires c.Valid() && !e.Aggregate? && !e.Eval?
    ensures Total(c, k, e) == k * RoundCount(c, 0, e)
  {
    if k > 0 {
      TotalSteady(c, k - 1, e);
      assert RoundCount(c, k, e) == RoundCount(c, 0, e);
      var p := RoundCount(c, 0, e);
      assert (k - 1) * p + p == k * p;
    }
  }

  /** Round-specific events happen once, in their own round, when due. */
  lemma {:induction false} TotalOnce(c: Ctx, k: nat, e: Event)
    requires c.Valid() && (e.Aggregate? || e.Eval?)
    ensures Total(c, k, e) == if 1 <= e.round <= k then RoundCount(c, e.round, e) else 0
  {
    if k > 0 {
      TotalOnce(c, k - 1, e);
    }
  }

  lemma {:induction false} TrainEventsPhase(c: Ctx, i: nat)
    requires c.Valid() && i <= c.N()
    ensures forall e :: e in TrainEvents(c, i) ==> Phase(e) == 0
    decreases c.N() - i
  {
    if i < c.N() {
      TrainEventsPhase(c, i + 1);
      forall e | e in ClientEvents(c, i)
        ensures Phase(e) == 0
      {
        ClientEventsCount(c, i, e);
        CountIn(ClientEvents(c, i), e);
      }
    }
  }

  lemma {:induction false} EvalEventsPhase(c: Ctx, r: nat, i: nat)
    requires c.Valid() && i <= c.N()
    ensures forall e :: e in EvalEvents(c, Fill(c.N(), r), Fill(c.N(), Done(c, r)), i) ==> Phase(e) == 2
    decreases c.N() - i
  {
    if i < c.N() {
      EvalEventsPhase(c, r, i + 1);
    }
  }

  /** Inside a round every local step comes before the aggregation, which
      comes before every zero-grad and evaluation. */
  lemma RoundEventsOrdered(c: Ctx, r: nat)
    requires c.Valid()
    ensures var rs := RoundEvents(c, r);
            forall p, q :: 0 <= p < q < |rs| ==> Phase(rs[p]) <= Phase(rs[q])
  {
    var t := TrainEvents(c, 0);
    var g := if AggregateDue(c.args, r) then [Aggregate(r)] else [];
    var v := EvalEvents(c, Fill(c.N(), r), Fill(c.N(), Done(c, r)), 0);
    var rs := RoundEvents(c, r);
    assert rs == t + g + v;
    TrainEventsPhase(c, 0);
    EvalEventsPhase(c, r, 0);
    forall p | 0 <= p < |rs|
      ensures Phase(rs[p]) == if p < |t| then 0 else if p < |t| + |g| then 1 else 2
    {
      if p < |t| {
        assert rs[p] == t[p];
        assert t[p] in t;
      } else if p < |t| + |g| {
        assert rs[p] == g[p - |t|];
      } else {
        assert rs[p] == v[p - |t| - |g|];
        assert v[p - |t| - |g|] in v;
      }
    }
  }

  /** Every client's optimizer step and zero-grad happen in every round, so
      together with `RoundEventsOrdered` the aggregation follows all
      optimizer steps and precedes all zero-grads. */
  lemma RoundEventsComplete(c: Ctx, r: nat)
    requires c.Valid()
    ensures forall j :: 0 <= j < c.N() ==> OptStep(j) in RoundEvents(c, r) && ZeroGrad(j) in RoundEvents(c, r)
    ensures Aggregate(r) in RoundEvents(c, r) <==> AggregateDue(c.args, r)
  {
    var rs := RoundEvents(c, r);
    forall j | 0 <= j < c.N()
      ensures OptStep(j) in rs && ZeroGrad(j) in rs
    {
      RoundEventsCount(c, r, OptStep(j));
      CountIn(rs, OptStep(j));
      RoundEventsCount(c, r, ZeroGrad(j));
      CountIn(rs, ZeroGrad(j));
    }
    RoundEventsCount(c, r, Aggregate(r));
    CountIn(rs, Aggregate(r));
  }

  /** The rounds 1..k after which an evaluation is due, in increasing order. */
  function EvalRounds(a: TrainArgs, k: nat): (ev: seq<int>)
    ensures forall r :: r in ev <==> 1 <= r <= k && EvalDue(a, r)
    ensures forall p, q :: 0 <= p < q < |ev| ==> ev[p] < ev[q]
  {
    if k == 0 then []
    else
      var prev := EvalRounds(a, k - 1);
      assert forall p :: 0 <= p < |prev| ==> prev[p] in prev;
      if EvalDue(a, k) then prev + [k] else prev
  }

  /** Client j's four metric lists after k rounds have one entry per
      evaluation round on the master process (none elsewhere): the last
      client's final microstep loss of that round, which is therefore the
      same for every client, and client j's own evaluation of that round. */
  lemma {:induction false} StatsAfter(c: Ctx, j: nat, k: nat)
    requires c.Valid() && j < c.N()
    ensures var st := ExpectedStats(c, j, k);
            var ev := if c.args.isMaster then EvalRounds(c.args, k) else [];
            && |st.trainLoss| == |ev| && |st.valLoss| == |ev| && |st.valPp| == |ev| && |st.valAcc| == |ev|
            && (forall m :: 0 <= m < |ev| ==> st.trainLoss[m] == MicroLoss(c.N() - 1, c.Acc() * ev[m]))
            && (forall m :: 0 <= m < |ev| ==>
                  st.valLoss[m] == EvalCall(j, ev[m]) && st.valPp[m] == EvalCall(j, ev[m]) && st.valAcc[m] == EvalCall(j, ev[m]))
  {
    if k > 0 {
      StatsAfter(c, j, k - 1);
    }
  }
}
