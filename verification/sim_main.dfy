/** The simulation driver: one Verilator model instance, a 64-bit simulation
    time counter, and the step function that drives the JTAG pins, evaluates
    the model once and samples TDO (src/jtag/drivers/verport/sim_main.cpp).

    The generated model is opaque: its state is the type parameter `M` and its
    `eval()` is an uninterpreted `Evaluator<M>` that every operation takes as a
    parameter.

    Time is kept as the unbounded number of time units since process start;
    the 64-bit `main_time` register always holds that count modulo 2^64
    (`MainTime`), which is exactly what incrementing a `vluint64_t` yields. */
module SimMain {

  /** `main_time` is a `vluint64_t`. */
  const TIME_MODULUS: nat := 0x1_0000_0000_0000_0000

  type Time = t: nat | t < TIME_MODULUS

  /** The values written to the model's input ports before one `eval()`. */
  datatype Pins = Pins(clkP: int, tms: int, tck: int, trstn: int, tdi: int, rstTop: int)

  /** The model's state after one `eval()`, with the outputs read from it. */
  datatype Settled<M> = Settled(state: M, tdo: int, ir: int, led: int)

  /** The generated model's `eval()`: a total function of its state and inputs. */
  type Evaluator<!M> = (M, Pins) -> Settled<M>

  /** Lifecycle of `top`: null before start, a live model while running,
      released (and the process gone) after finish. */
  datatype Life<M> = Unstarted | Running(top: M) | Finished

  /** The driver's process-wide state: elapsed time units, the model and the
      `static` copies of the last IR and LED values seen. */
  datatype Sim<M> = Sim(elapsed: nat, life: Life<M>, oldIr: int, oldLed: int)

  /** A change-log line, tagged with the time printed alongside it. */
  datatype Report = IrChanged(at: Time, ir: int) | LedChanged(at: Time, led: int)

  /** The four arguments of one `Vtap_time_step` call. */
  datatype StepInput = StepInput(tms: int, tck: int, trstn: int, tdi: int)

  /** Everything one step produces: the next driver state, the returned TDO,
      the pins it drove, the time tag of its trace sample and its log lines. */
  datatype Stepped<M> = Stepped(sim: Sim<M>, tdo: int, pins: Pins, sampleAt: Time, reports: seq<Report>)

  /** A run of consecutive steps: final state and the per-step observations. */
  datatype Batch<M> = Batch(sim: Sim<M>, tdos: seq<int>, pins: seq<Pins>, reports: seq<Report>)

  /** The value of the 64-bit `main_time` register. */
  function MainTime<M>(s: Sim<M>): Time
  {
    s.elapsed % TIME_MODULUS
  }

  /** Process start: all statics zero-initialised, no model yet. */
  function PowerOn<M>(): Sim<M>
  {
    Sim(0, Unstarted, 0, 0)
  }

  /** The pins a step drives carry its arguments, with `rst_top` mirroring TRST. */
  predicate Drives(p: Pins, i: StepInput)
  {
    p.tms == i.tms && p.tck == i.tck && p.trstn == i.trstn && p.tdi == i.tdi && p.rstTop == i.trstn
  }

  /** Pin vector k carries input k, for every k. */
  predicate DrivesEach(pins: seq<Pins>, steps: seq<StepInput>)
  {
    |pins| == |steps| && forall k :: 0 <= k < |steps| ==> Drives(pins[k], steps[k])
  }

  /** Consecutive pin vectors, starting at time `t`, carry the clock phase
      (t + k) mod 2, so the phase alternates from one step to the next. */
  predicate PhasesFrom(pins: seq<Pins>, t: nat)
  {
    forall k :: 0 <= k < |pins| ==> pins[k].clkP == (t + k) % 2
  }

  /** Residues modulo the (even) 64-bit time modulus keep their parity. */
  lemma {:induction false} LowBit(a: nat)
    ensures (a % TIME_MODULUS) % 2 == a % 2
  {
    var q := a / TIME_MODULUS;
    assert a == q * TIME_MODULUS + a % TIME_MODULUS;
    assert q * TIME_MODULUS == 2 * (q * (TIME_MODULUS / 2));
  }

  /** `Vtap_start`: construct the model (`made` is the constructed, randomly
      reset state). Time and the IR/LED statics are not touched. A finished
      driver has ended the process, so nothing starts it again. */
  function Start<M>(s: Sim<M>, made: M): (r: Sim<M>)
    requires !s.life.Finished?
    ensures r.life == Running(made)
    ensures r.elapsed == s.elapsed && r.oldIr == s.oldIr && r.oldLed == s.oldLed
  {
    s.(life := Running(made))
  }

  /** `Vtap_time_step`. Stepping needs a live model (`top` is dereferenced). */
  function Step<M>(eval: Evaluator<M>, s: Sim<M>, i: StepInput): (r: Stepped<M>)
    requires s.life.Running?
    ensures r.sim.life.Running?
    // time passes by exactly one unit
    ensures r.sim.elapsed == s.elapsed + 1
    // the clock phase is the low bit of the register before the increment
    ensures r.pins.clkP == s.elapsed % 2
    ensures Drives(r.pins, i)
    // the trace sample is tagged with the register after the increment
    ensures r.sampleAt == MainTime(r.sim)
    // one evaluation on exactly these pins decides model state, TDO, IR and LED
    ensures var out := eval(s.life.top, r.pins);
            r.sim.life.top == out.state && r.tdo == out.tdo && r.sim.oldIr == out.ir && r.sim.oldLed == out.led
    // a change line is logged exactly when the value differs from the previous one
    ensures IrChanged(r.sampleAt, r.sim.oldIr) in r.reports <==> s.oldIr != r.sim.oldIr
    ensures LedChanged(r.sampleAt, r.sim.oldLed) in r.reports <==> s.oldLed != r.sim.oldLed
    ensures |r.reports| <= 2
    // and nothing else is logged
    ensures forall x :: x in r.reports ==>
              x == IrChanged(r.sampleAt, r.sim.oldIr) || x == LedChanged(r.sampleAt, r.sim.oldLed)
  {
    LowBit(s.elapsed);
    var pins := Pins(MainTime(s) % 2, i.tms, i.tck, i.trstn, i.tdi, i.trstn);
    var next := s.elapsed + 1;
    var t := next % TIME_MODULUS;
    var out := eval(s.life.top, pins);
    var irLog := if s.oldIr != out.ir then [IrChanged(t, out.ir)] else [];
    var ledLog := if s.oldLed != out.led then [LedChanged(t, out.led)] else [];
    Stepped(Sim(next, Running(out.state), out.ir, out.led), out.tdo, pins, t, irLog + ledLog)
  }

  /** `main_time++` on the 64-bit register: one more, except that the largest
      value wraps to zero. */
  lemma {:induction false} StepTicksMainTime<M>(eval: Evaluator<M>, s: Sim<M>, i: StepInput)
    requires s.life.Running?
    ensures MainTime(s) + 1 < TIME_MODULUS ==> MainTime(Step(eval, s, i).sim) == MainTime(s) + 1
    ensures MainTime(s) + 1 == TIME_MODULUS ==> MainTime(Step(eval, s, i).sim) == 0
  {
    var q := s.elapsed / TIME_MODULUS;
    assert s.elapsed + 1 == q * TIME_MODULUS + (MainTime(s) + 1);
    if MainTime(s) + 1 == TIME_MODULUS {
      assert s.elapsed + 1 == (q + 1) * TIME_MODULUS;
    }
  }

  /** `Vtap_finish`: the model is finalised and released, `top` becomes null,
      and the process exits, so the driver is in its terminal state. */
  function Finish<M>(s: Sim<M>): (r: Sim<M>)
    requires s.life.Running?
    ensures r.life.Finished?
    ensures r.elapsed == s.elapsed && r.oldIr == s.oldIr && r.oldLed == s.oldLed
  {
    s.(life := Finished)
  }

  /** Several steps in a row, the first input first. */
  function Run<M>(eval: Evaluator<M>, s: Sim<M>, steps: seq<StepInput>): (r: Batch<M>)
    requires s.life.Running?
    ensures r.sim.life.Running?
    ensures |r.tdos| == |steps| && |r.pins| == |steps|
    // N steps advance time by exactly N
    ensures r.sim.elapsed == s.elapsed + |steps|
    // step k drives input k on clock phase (t + k) mod 2
    ensures DrivesEach(r.pins, steps)
    ensures PhasesFrom(r.pins, s.elapsed)
    decreases |steps|
  {
    if steps == [] then
      Batch(s, [], [], [])
    else
      var first := Step(eval, s, steps[0]);
      var rest := Run(eval, first.sim, steps[1..]);
      var pins := [first.pins] + rest.pins;
      assert forall k :: 0 < k < |pins| ==> pins[k] == rest.pins[k - 1];
      Batch(rest.sim, [first.tdo] + rest.tdos, pins, first.reports + rest.reports)
  }

  /** Away from the top of the 64-bit range, N steps move the `main_time`
      register forward by exactly N: it never goes backwards and never skips. */
  lemma {:induction false} RunAdvancesTime<M>(eval: Evaluator<M>, s: Sim<M>, steps: seq<StepInput>)
    requires s.life.Running?
    requires MainTime(s) + |steps| < TIME_MODULUS
    ensures MainTime(Run(eval, s, steps).sim) == MainTime(s) + |steps| >= MainTime(s)
  {
    var e := Run(eval, s, steps).sim.elapsed;
    assert e == s.elapsed + |steps|;
    ResidueShift(s.elapsed, |steps|);
  }

  /** Adding n to a count whose residue has room for n adds n to the residue. */
  lemma {:induction false} ResidueShift(a: nat, n: nat)
    requires a % TIME_MODULUS + n < TIME_MODULUS
    ensures (a + n) % TIME_MODULUS == a % TIME_MODULUS + n
  {
    var q := a / TIME_MODULUS;
    assert a == q * TIME_MODULUS + a % TIME_MODULUS;
    assert a + n == q * TIME_MODULUS + (a % TIME_MODULUS + n);
  }

  /** A run of one step is that step. */
  lemma {:induction false} RunOne<M>(eval: Evaluator<M>, s: Sim<M>, i: StepInput)
    requires s.life.Running?
    ensures var st := Step(eval, s, i);
            Run(eval, s, [i]) == Batch(st.sim, [st.tdo], [st.pins], st.reports)
  {
    var st := Step(eval, s, i);
    assert [i][1..] == [];
    assert Run(eval, st.sim, []) == Batch(st.sim, [], [], []);
    assert st.reports + [] == st.reports;
  }

  lemma {:induction false} AppendAssoc<T>(x: seq<T>, y: seq<T>, z: seq<T>)
    ensures x + (y + z) == (x + y) + z
  {
  }

  /** Running two input sequences one after the other is running their
      concatenation: nothing is lost, coalesced or reordered at the seam. */
  lemma {:induction false} RunAppend<M>(eval: Evaluator<M>, s: Sim<M>, a: seq<StepInput>, b: seq<StepInput>)
    requires s.life.Running?
    ensures var ra := Run(eval, s, a);
            var rb := Run(eval, ra.sim, b);
            var rab := Run(eval, s, a + b);
            rab.sim == rb.sim && rab.tdos == ra.tdos + rb.tdos && rab.pins == ra.pins + rb.pins
            && rab.reports == ra.reports + rb.reports
    decreases |a|
  {
    if a == [] {
      assert a + b == b;
    } else {
      var first := Step(eval, s, a[0]);
      assert (a + b)[0] == a[0];
      assert (a + b)[1..] == a[1..] + b;
      RunAppend(eval, first.sim, a[1..], b);
      var ra := Run(eval, first.sim, a[1..]);
      var rb := Run(eval, ra.sim, b);
      var rab := Run(eval, first.sim, a[1..] + b);
      assert Run(eval, s, a).sim == ra.sim;
      assert Run(eval, s, a + b).sim == rab.sim;
      assert Run(eval, s, a).tdos == [first.tdo] + ra.tdos;
      assert Run(eval, s, a + b).tdos == [first.tdo] + rab.tdos;
      AppendAssoc([first.tdo], ra.tdos, rb.tdos);
      assert Run(eval, s, a).pins == [first.pins] + ra.pins;
      assert Run(eval, s, a + b).pins == [first.pins] + rab.pins;
      AppendAssoc([first.pins], ra.pins, rb.pins);
      assert Run(eval, s, a).reports == first.reports + ra.reports;
      assert Run(eval, s, a + b).reports == first.reports + rab.reports;
      AppendAssoc(first.reports, ra.reports, rb.reports);
    }
  }

  /** Consecutive steps drive opposite clock phases, even across the wrap of
      the `main_time` register. */
  lemma {:induction false} StepsAlternate<M>(eval: Evaluator<M>, s: Sim<M>, i: StepInput, j: StepInput)
    requires s.life.Running?
    ensures var r1 := Step(eval, s, i);
            var r2 := Step(eval, r1.sim, j);
            r2.pins.clkP == 1 - r1.pins.clkP
  {
  }

  /** The IR/LED change tracking is observation only: whatever the previously
      recorded IR and LED values were, a step returns the same TDO, drives the
      same pins and leaves the model and the time in the same state. */
  lemma {:induction false} TrackingIsObservational<M>(eval: Evaluator<M>, s: Sim<M>, i: StepInput, ir: int, led: int)
    requires s.life.Running?
    ensures var r := Step(eval, s, i);
            var r' := Step(eval, s.(oldIr := ir, oldLed := led), i);
            r'.tdo == r.tdo && r'.pins == r.pins && r'.sim == r.sim
  {
  }
}
