/** The bit-bang half of the adapter (src/jtag/drivers/verport/verport.c):
    the latch of last-driven signals and the `read`, `write` and `reset`
    primitives, each of which turns into a fixed run of driver steps, plus
    `init`, which starts the driver and puts every line in a known state. */
module Verport {
  import opened SimMain

  /** Each `write` is held for this many simulation steps, so that the new
      vector is seen as a settled level rather than a single-step pulse. */
  const WRITE_REPEATS: nat := 5

  /** The `static int otms, otck, otrstn, otdi` of the adapter. */
  datatype Latch = Latch(tms: int, tck: int, trstn: int, tdi: int)

  /** Zero-initialised statics at process start. */
  const ZERO_LATCH: Latch := Latch(0, 0, 0, 0)

  /** The latch together with the driver it feeds. */
  datatype Bridge<M> = Bridge(latch: Latch, sim: Sim<M>)

  /** The outcome of one primitive: the step inputs it issued, in order, what
      the driver did with them, and the latch afterwards. */
  datatype Transfer<M> = Transfer(issued: seq<StepInput>, batch: Batch<M>, latch: Latch)
  {
    function After(): Bridge<M> { Bridge(latch, batch.sim) }
  }

  /** The primitives the bit-bang queue executor calls. */
  datatype Primitive = ReadBit | WriteBits(tck: int, tms: int, tdi: int) | ResetLines(trst: int, srst: int)

  /** The step input that replays the whole latch. */
  function Replay(l: Latch): StepInput
  {
    StepInput(l.tms, l.tck, l.trstn, l.tdi)
  }

  /** `n` copies of one step input. */
  function Repeat(n: nat, i: StepInput): (r: seq<StepInput>)
    ensures |r| == n
    ensures forall k :: 0 <= k < |r| ==> r[k] == i
  {
    if n == 0 then [] else [i] + Repeat(n - 1, i)
  }

  /** `verport_read`: one step with the latched signals; its TDO is the bit read. */
  function Read<M>(eval: Evaluator<M>, b: Bridge<M>): (r: Transfer<M>)
    requires b.sim.life.Running?
    ensures |r.issued| == 1 && r.issued[0] == StepInput(b.latch.tms, b.latch.tck, b.latch.trstn, b.latch.tdi)
    ensures var st := Step(eval, b.sim, r.issued[0]);
            r.batch.tdos == [st.tdo] && r.batch.sim == st.sim
    ensures r.latch == b.latch
  {
    RunOne(eval, b.sim, Replay(b.latch));
    Transfer([Replay(b.latch)], Run(eval, b.sim, [Replay(b.latch)]), b.latch)
  }

  /** `verport_write(tck, tms, tdi)`: five identical steps with TRST held
      deasserted (the constant 1, not the latched value), then the latch takes
      the written TMS/TCK/TDI. Note the swap from the argument order
      (tck, tms, tdi) into the step's (tms, tck, ...) order. */
  function Write<M>(eval: Evaluator<M>, b: Bridge<M>, tck: int, tms: int, tdi: int): (r: Transfer<M>)
    requires b.sim.life.Running?
    ensures |r.issued| == WRITE_REPEATS
    ensures forall k :: 0 <= k < |r.issued| ==> r.issued[k] == StepInput(tms, tck, 1, tdi)
    ensures forall k :: 0 <= k < |r.batch.pins| ==>
              r.batch.pins[k].tms == tms && r.batch.pins[k].tck == tck && r.batch.pins[k].tdi == tdi
              && r.batch.pins[k].trstn == 1 && r.batch.pins[k].rstTop == 1
    ensures r.batch == Run(eval, b.sim, r.issued)
    ensures r.batch.sim.elapsed == b.sim.elapsed + WRITE_REPEATS
    ensures r.latch.tms == tms && r.latch.tck == tck && r.latch.tdi == tdi
    ensures r.latch.trstn == b.latch.trstn
  {
    var issued := Repeat(WRITE_REPEATS, StepInput(tms, tck, 1, tdi));
    Transfer(issued, Run(eval, b.sim, issued), Latch(tms, tck, b.latch.trstn, tdi))
  }

  /** `verport_reset(trst, srst)`: TRST is active low, so asserting it
      (`trst != 0`) drives 0 and releasing it drives 1; SRST has no line in
      the simulation. One step replays the previous TMS/TCK/TDI with the new
      TRST. */
  function Reset<M>(eval: Evaluator<M>, b: Bridge<M>, trst: int, srst: int): (r: Transfer<M>)
    requires b.sim.life.Running?
    ensures r.latch.trstn == (if trst == 0 then 1 else 0)
    ensures r.latch.tms == b.latch.tms && r.latch.tck == b.latch.tck && r.latch.tdi == b.latch.tdi
    ensures |r.issued| == 1 && r.issued[0] == StepInput(b.latch.tms, b.latch.tck, r.latch.trstn, b.latch.tdi)
    ensures var st := Step(eval, b.sim, r.issued[0]);
            r.batch.tdos == [st.tdo] && r.batch.sim == st.sim
  {
    var latch := b.latch.(trstn := if trst == 0 then 1 else 0);
    RunOne(eval, b.sim, Replay(latch));
    Transfer([Replay(latch)], Run(eval, b.sim, [Replay(latch)]), latch)
  }

  /** `reset` does not look at SRST at all. */
  lemma {:induction false} ResetIgnoresSrst<M>(eval: Evaluator<M>, b: Bridge<M>, trst: int, srst: int, srst': int)
    requires b.sim.life.Running?
    ensures Reset(eval, b, trst, srst) == Reset(eval, b, trst, srst')
  {
  }

  /** Number of driver steps one primitive issues. */
  function StepCount(p: Primitive): nat
  {
    match p
    case ReadBit => 1
    case WriteBits(_, _, _) => WRITE_REPEATS
    case ResetLines(_, _) => 1
  }

  /** One primitive, as the bit-bang executor invokes it. */
  function Apply<M>(eval: Evaluator<M>, b: Bridge<M>, p: Primitive): (r: Transfer<M>)
    requires b.sim.life.Running?
    ensures |r.issued| == StepCount(p)
    ensures r.batch == Run(eval, b.sim, r.issued)
  {
    match p
    case ReadBit => Read(eval, b)
    case WriteBits(tck, tms, tdi) => Write(eval, b, tck, tms, tdi)
    case ResetLines(trst, srst) => Reset(eval, b, trst, srst)
  }

  /** Total driver steps of a sequence of primitives. */
  function TotalSteps(ps: seq<Primitive>): nat
  {
    if ps == [] then 0 else StepCount(ps[0]) + TotalSteps(ps[1..])
  }

  /** A sequence of primitives, first to last; also collects every TDO sampled. */
  function ApplyAll<M>(eval: Evaluator<M>, b: Bridge<M>, ps: seq<Primitive>): (r: Transfer<M>)
    requires b.sim.life.Running?
    ensures |r.issued| == TotalSteps(ps)
    ensures r.batch == Run(eval, b.sim, r.issued)
    decreases |ps|
  {
    if ps == [] then
      Transfer([], Run(eval, b.sim, []), b.latch)
    else
      var first := Apply(eval, b, ps[0]);
      var rest := ApplyAll(eval, first.After(), ps[1..]);
      RunAppend(eval, b.sim, first.issued, rest.issued);
      Transfer(first.issued + rest.issued, Then(first.batch, rest.batch), rest.latch)
  }

  /** The observations of one batch followed by those of the next. */
  function Then<M>(a: Batch<M>, b: Batch<M>): Batch<M>
  {
    Batch(b.sim, a.tdos + b.tdos, a.pins + b.pins, a.reports + b.reports)
  }

  /** One primitive, then the rest: what `ApplyAll` does with a non-empty
      sequence, as facts about its parts. */
  lemma {:induction false} ApplyAllUnfold<M>(eval: Evaluator<M>, b: Bridge<M>, ps: seq<Primitive>)
    requires b.sim.life.Running? && ps != []
    ensures var first := Apply(eval, b, ps[0]);
            var rest := ApplyAll(eval, first.After(), ps[1..]);
            var r := ApplyAll(eval, b, ps);
            r.issued == first.issued + rest.issued
            && r.batch.tdos == first.batch.tdos + rest.batch.tdos
            && r.After() == rest.After()
  {
  }

  /** Executing two primitive sequences one after the other is executing
      their concatenation: the issued inputs and the sampled TDOs are those of
      the first followed by those of the second, the second starts from the
      latch and driver state the first leaves, and ends where the whole does. */
  lemma {:induction false} ApplyAllAppend<M>(eval: Evaluator<M>, b: Bridge<M>, ps1: seq<Primitive>, ps2: seq<Primitive>)
    requires b.sim.life.Running?
    ensures var r1 := ApplyAll(eval, b, ps1);
            var r2 := ApplyAll(eval, r1.After(), ps2);
            var r := ApplyAll(eval, b, ps1 + ps2);
            r.issued == r1.issued + r2.issued
            && r.batch.tdos == r1.batch.tdos + r2.batch.tdos
            && r.After() == r2.After()
    decreases |ps1|
  {
    if ps1 == [] {
      assert ps1 + ps2 == ps2;
      var r1 := ApplyAll(eval, b, ps1);
      assert r1.After() == b;
      assert r1.issued == [] && r1.batch.tdos == [];
    } else {
      var first := Apply(eval, b, ps1[0]);
      assert (ps1 + ps2)[0] == ps1[0];
      assert (ps1 + ps2)[1..] == ps1[1..] + ps2;
      ApplyAllUnfold(eval, b, ps1);
      ApplyAllUnfold(eval, b, ps1 + ps2);
      ApplyAllAppend(eval, first.After(), ps1[1..], ps2);
      var m1 := ApplyAll(eval, first.After(), ps1[1..]);
      var m2 := ApplyAll(eval, m1.After(), ps2);
      AppendAssoc(first.issued, m1.issued, m2.issued);
      AppendAssoc(first.batch.tdos, m1.batch.tdos, m2.batch.tdos);
    }
  }

  /** `verport_init`: start the driver (`made` is the freshly constructed
      model), reset with TRST and SRST released, then write TCK = TMS = TDI = 0.
      The adapter initialises once, before any model exists.
      Registering `Vtap_finish` to run at exit is modelled by `Exit`. */
  function Init<M>(eval: Evaluator<M>, b: Bridge<M>, made: M): (r: Transfer<M>)
    requires b.sim.life.Unstarted?
    // whatever the lines were before, they end released and low
    ensures r.latch == Latch(0, 0, 1, 0)
    ensures |r.issued| == 1 + WRITE_REPEATS
    ensures r.issued[0] == StepInput(b.latch.tms, b.latch.tck, 1, b.latch.tdi)
    ensures forall k :: 1 <= k < |r.issued| ==> r.issued[k] == StepInput(0, 0, 1, 0)
    ensures r.batch == Run(eval, Start(b.sim, made), r.issued)
  {
    var started := Bridge(b.latch, Start(b.sim, made));
    var rs := Reset(eval, started, 0, 0);
    var w := Write(eval, rs.After(), 0, 0, 0);
    RunOne(eval, started.sim, rs.issued[0]);
    Transfer(rs.issued + w.issued, Then(rs.batch, w.batch), w.latch)
  }

  /** The exit hook: `Vtap_finish` releases the model; the latch is untouched. */
  function Exit<M>(b: Bridge<M>): (r: Bridge<M>)
    requires b.sim.life.Running?
    ensures r.sim.life.Finished? && r.latch == b.latch && r.sim.elapsed == b.sim.elapsed
  {
    Bridge(b.latch, Finish(b.sim))
  }

  /** From process start, `init` issues six identical released-and-low steps,
      leaves the simulation clock at 6 and the latch released and low. */
  lemma {:induction false} InitFromPowerOn<M>(eval: Evaluator<M>, made: M)
    ensures var r := Init(eval, Bridge(ZERO_LATCH, PowerOn()), made);
            |r.issued| == 6
            && (forall k :: 0 <= k < |r.issued| ==> r.issued[k] == StepInput(0, 0, 1, 0))
            && r.batch.sim.elapsed == 6
            && r.latch == Latch(0, 0, 1, 0)
  {
  }

  /** `init(); write(0,0,0); write(1,0,0); read()` from process start: init
      takes six steps and the two writes ten more, so the read is the
      seventeenth step, taken at time 16 (clock phase 0) with TCK high from the
      second write, and the simulation clock ends at 17. */
  lemma {:induction false} InitWriteWriteRead<M>(eval: Evaluator<M>, made: M)
    ensures var i := Init(eval, Bridge(ZERO_LATCH, PowerOn()), made);
            var w1 := Write(eval, i.After(), 0, 0, 0);
            var w2 := Write(eval, w1.After(), 1, 0, 0);
            var rd := Read(eval, w2.After());
            |i.issued| + |w1.issued| + |w2.issued| + |rd.issued| == 17
            && rd.issued == [StepInput(0, 1, 1, 0)]
            && Step(eval, w2.batch.sim, rd.issued[0]).pins.clkP == 0
            && rd.batch.sim.elapsed == 17
  {
    var i := Init(eval, Bridge(ZERO_LATCH, PowerOn()), made);
    assert i.latch == Latch(0, 0, 1, 0) && i.batch.sim.elapsed == 6;
    var w1 := Write(eval, i.After(), 0, 0, 0);
    assert w1.latch == Latch(0, 0, 1, 0) && w1.batch.sim.elapsed == 11;
    var w2 := Write(eval, w1.After(), 1, 0, 0);
    assert w2.latch == Latch(0, 1, 1, 0) && w2.batch.sim.elapsed == 16;
  }
}
