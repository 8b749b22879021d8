# Verilator JTAG adapter ("verport") — Dafny model

This project models the `verport` JTAG adapter of the debug tool. Instead of
wiggling physical pins, the adapter drives a Verilator simulation of a design's
TAP controller. It has two halves, and each becomes a module here.

- `SimMain` (`sim_main.cpp`) is the simulation driver. It holds a 64-bit
  simulation time counter, one model instance and the last IR and LED values
  seen. Each `Vtap_time_step` call does the following:
  - drives the clock phase, from the low bit of the counter before it is
    incremented;
  - drives TMS, TCK, TRST, TDI, and the top-level reset (a copy of TRST);
  - evaluates the model once;
  - logs IR and LED changes;
  - returns TDO.

  `Vtap_start` constructs the model and `Vtap_finish` releases it.
- `Verport` (`verport.c`) holds the bit-bang primitives, built on a latch of
  the last-driven TMS/TCK/TRST/TDI:
  - `read` replays the latch for one step;
  - `write` holds the new vector for five steps with TRST held at 1;
  - `reset` changes TRST only and replays the rest for one step;
  - `init` starts the model, releases reset and writes zeros.
- `VerportConfig` (`verport.c`) holds the speed arithmetic (`speed`, `khz`,
  `speed_div`) and the `verport_port` and `verport_toggling_time` command
  handlers.
- `CTypes` holds the C integer widths and the 32-bit wrap-around conversion
  that the arithmetic uses.

The generated Verilator model cannot be seen. Its state is the type parameter
`M`, and its `eval()` is a function `Evaluator<M>` that every operation takes
as a parameter. Time is kept as an unbounded count of elapsed steps. The
64-bit `main_time` register is that count modulo 2^64 (`SimMain.MainTime`),
which is exactly what repeated `main_time++` on a `vluint64_t` produces.

C arithmetic is written out. `khz * toggling_ns` and
`(speed + 1) * toggling_ns` are `uint32_t` products reduced modulo 2^32. Two
cases are undefined behaviour in C, so preconditions exclude them:
- a division by a zero `uint32_t`;
- a signed overflow of `speed + 1`.

Calls into code outside the adapter are parameters of the operations that use
them. These are `parse_u32`, `COMMAND_PARSE_NUMBER(u16, …)` and
`jtag_get_speed`; each result is a `Foreign<T>`, either `Got(value)` or
`Failed(code)`.

### Behaviour worth knowing

- `write` drives TRST as the constant 1 on each of its five steps, not the
  latched `otrstn` (verport.c:67). The latched TRST value is kept for later
  reads and resets.
- `init; write(0,0,0); write(1,0,0); read` takes 17 steps, because `init`
  itself resets (1 step) and writes (5 steps) (verport.c:118-119); the two
  writes add 10 and the read 1 (`Verport.InitWriteWriteRead`).
- A `khz` to `speed_div` round trip loses little while k·toggling_ns is
  small against 499999, and a lot beyond that. Once k·toggling_ns exceeds
  499999, `khz` gives 0 wait states and `speed_div` reports
  499999 / toggling_ns + 1 whatever k was. At 1000 ns that is 500 kHz, both
  for 1000 kHz and for 10000 kHz. What is proved (`VerportConfig.KhzRoundTrip`,
  `VerportConfig.KhzRoundTripRegimes`) is:
  - 1 ≤ r ≤ k;
  - r·(499999 + k·toggling_ns) > k·499999;
  - r > k/2 while k·toggling_ns ≤ 499999.

## Model

| member | source | states |
|---|---|---|
| SimMain.Start | src/jtag/drivers/verport/sim_main.cpp:31-58 | Starting installs the constructed model as the live instance. It leaves the time counter and the remembered IR/LED values as they were. |
| SimMain.Step | src/jtag/drivers/verport/sim_main.cpp:60-101 | One step advances time by exactly one unit and drives the clock phase from the counter's low bit before the increment. The other pins carry the arguments, and the top-level reset mirrors TRST. The model is evaluated once on those pins, which decides its next state, the returned TDO and the new IR/LED values. An IR (LED) change line is logged, tagged with the incremented time, exactly when the value differs from the previous one, and nothing else is logged. |
| SimMain.StepTicksMainTime | src/jtag/drivers/verport/sim_main.cpp:64 | The 64-bit time register goes up by one per step, except that its largest value wraps to 0. |
| SimMain.Finish | src/jtag/drivers/verport/sim_main.cpp:103-124 | Finishing releases the model into a terminal state. Time and the IR/LED memory are untouched. |
| SimMain.Run | src/jtag/drivers/verport/sim_main.cpp:60-101 | N consecutive steps return N TDO samples, advance time by N, and drive input k on step k with clock phase (t + k) mod 2. |
| SimMain.RunAdvancesTime | src/jtag/drivers/verport/sim_main.cpp:64 | Away from the top of the 64-bit range, N steps move the time register forward by exactly N and never backwards. |
| SimMain.RunAppend | src/jtag/drivers/verport/sim_main.cpp:60-101 | Running two input sequences in turn is the same as running their concatenation. Final state, TDOs, pins and log lines are concatenated with nothing lost or reordered. |
| SimMain.StepsAlternate | src/jtag/drivers/verport/sim_main.cpp:64 | Consecutive steps drive opposite clock phases, also across the 64-bit wrap. |
| SimMain.TrackingIsObservational | src/jtag/drivers/verport/sim_main.cpp:88-100 | The remembered IR/LED values do not affect the TDO returned, the pins driven, or the next model state and time. |
| Verport.Read | src/jtag/drivers/verport/verport.c:57-60 | A read is one step that replays the latched TMS/TCK/TRST/TDI and returns that step's TDO. The latch does not change. |
| Verport.Write | src/jtag/drivers/verport/verport.c:62-71 | A write is exactly five steps, each driving the given TMS/TCK/TDI with TRST and the top-level reset at 1. Its observations are those of running exactly these five steps, so time advances by 5. Afterwards the latch holds the written TMS/TCK/TDI and its old TRST. |
| Verport.Reset | src/jtag/drivers/verport/verport.c:73-79 | A reset latches TRST as 1 when `trst` is 0 and as 0 otherwise. It then takes one step that replays the old TMS/TCK/TDI with the new TRST. |
| Verport.ResetIgnoresSrst | src/jtag/drivers/verport/verport.c:74-79 | The SRST argument has no effect on a reset. |
| Verport.Apply | src/jtag/drivers/verport/verport.c:106-110 | A primitive from the bit-bang executor issues 1 (read), 5 (write) or 1 (reset) steps. Its observations are those of running exactly those steps. |
| Verport.ApplyAll | src/jtag/drivers/verport/verport.c:106-110 | A sequence of primitives issues the sum of their step counts. The observations, built primitive by primitive, equal those of one run over all issued inputs in order. |
| Verport.ApplyAllAppend | src/jtag/drivers/verport/verport.c:106-110 | Executing two primitive sequences in turn is executing their concatenation. The issued inputs and TDOs are the first's followed by the second's. The second starts from the latch and driver state the first leaves, and the final driver state and latch are the second's. |
| Verport.Init | src/jtag/drivers/verport/verport.c:112-124 | On a driver not yet started, init starts the model and issues 6 steps: first one that replays the old TMS/TCK/TDI with TRST released, then five of all-low lines with TRST released. From any prior latch, the latch ends as TMS = TCK = TDI = 0 with TRST released. |
| Verport.Exit | src/jtag/drivers/verport/verport.c:116 | The exit hook leaves the driver finished, with the latch and time unchanged. |
| Verport.InitFromPowerOn | src/jtag/drivers/verport/verport.c:112-119 | From process start, init issues six identical released-and-low steps and leaves time at 6. |
| Verport.InitWriteWriteRead | src/jtag/drivers/verport/verport.c:57-124 | `init; write(0,0,0); write(1,0,0); read` takes 17 steps in all. The read replays TCK = 1 with TRST released, on clock phase 0, and time ends at 17. |
| VerportConfig.WaitStates | src/jtag/drivers/verport/verport.c:94 | The intended wait-state count is the largest s with s·(khz·ns) ≤ 499999. It is 0 once the product exceeds 499999. |
| VerportConfig.Khz | src/jtag/drivers/verport/verport.c:87-96 | 0 kHz fails and leaves the out-value alone. Any other request succeeds with the largest s such that s copies of the 32-bit-wrapped product fit in 499999, so 0 ≤ s ≤ 499999. |
| VerportConfig.KhzWide | src/jtag/drivers/verport/verport.c:87-96 | With the product computed without wrap-around, a positive request yields exactly the intended wait-state count. |
| VerportConfig.KhzAgreesWithoutWrap | src/jtag/drivers/verport/verport.c:94 | While the 32-bit product does not wrap, the code as written and the corrected version agree. |
| VerportConfig.KhzWideAntitone | src/jtag/drivers/verport/verport.c:94 | In the corrected version, a higher frequency never yields more wait states. |
| VerportConfig.KhzWrapsAround | src/jtag/drivers/verport/verport.c:94 | As written, 4294968 kHz at 1000 ns wraps the product to 704 and gives 710 wait states. That is more than 1000 kHz gets, where 0 was meant. |
| VerportConfig.SpeedDiv | src/jtag/drivers/verport/verport.c:98-104 | speed_div always succeeds. When the 32-bit sum does not wrap, it reports 499999 / d + 1 kHz for the 32-bit denominator d, so at least 1 kHz. |
| VerportConfig.SpeedDivWrapsToZero | src/jtag/drivers/verport/verport.c:102 | As written, speed 0 at 0xffff_ff00 ns wraps the sum to 499743, below the denominator, so speed_div reports 0 kHz. |
| VerportConfig.SpeedDivWide | src/jtag/drivers/verport/verport.c:98-104 | With the sum computed without wrap-around, speed_div succeeds and reports one more than the whole number of denominators in 499999, so at least 1 kHz. |
| VerportConfig.SpeedDivAgreesWithoutWrap | src/jtag/drivers/verport/verport.c:102 | While the 32-bit sum does not wrap, the code as written and the widened version report the same frequency. |
| VerportConfig.KhzRoundTrip | src/jtag/drivers/verport/verport.c:87-104 | Converting k kHz to wait states and back, both without wrap-around, reports r kHz. r lies between 1 and k, and r·(499999 + k·ns) > k·499999. |
| VerportConfig.KhzRoundTripRegimes | src/jtag/drivers/verport/verport.c:87-104 | While k·ns ≤ 499999, the round trip returns more than half of k. Beyond that it returns 499999 / ns + 1, whatever k was. |
| VerportConfig.KhzDividesByZero | src/jtag/drivers/verport/verport.c:94 | At the default 1000 ns, a request of 2^29 kHz makes the as-written 32-bit product 0, so khz's precondition fails there. The widened product gives 0 wait states. |
| VerportConfig.SetSpeed | src/jtag/drivers/verport/verport.c:81-85 | speed stores the wait-state count, changes nothing else and always succeeds. |
| VerportConfig.PortCommand | src/jtag/drivers/verport/verport.c:131-146 | With one argument, the port is set only while it is 0. A set port is refused with ERROR_FAIL, and a parse error is passed on unchanged. Other argument counts only display the port. Nothing changes on failure. |
| VerportConfig.PortSetOnce | src/jtag/drivers/verport/verport.c:133-140 | Once the port is non-zero, no port command changes the configuration. |
| VerportConfig.TogglingTimeCommand | src/jtag/drivers/verport/verport.c:166-195 | A parse error is passed on and 0 ns is refused with ERROR_FAIL, both without changes. An accepted value is stored, and the wait states are re-read from the current speed, or 0 when none is set. The toggle time stays non-zero. |
| VerportConfig.RunScript | src/jtag/drivers/verport/verport.c:175-180 | Across any sequence of speed, port and toggling-time commands, a non-zero toggle time stays non-zero. |
| VerportConfig.ToggleTimeNeverZero | src/jtag/drivers/verport/verport.c:50 | From the default of 1000 ns, no command script makes the toggle time 0. |

## Left out

- Tracing, coverage and logging: the VCD trace file, `mkdir`, coverage output, the `VL_PRINTF`/`LOG_*` text and `command_print` output are I/O. The change log is kept as a sequence of tagged records, not as text. The source prints the LED change with an `ir=` label; the model tags that record as an LED change.
- `sc_time_stamp` converts the time to a `double`; floating point is not modelled. Verilog `$time` reads it, so the design could observe the already-incremented `main_time` during `eval()`. `Evaluator` is assumed not to depend on the simulation time: it sees only the model state and the pins.
- Verilator setup: `Verilated::commandArgs`, `debug` and `randReset` configure the foreign simulator. The model's initial (randomised) state is the `made` parameter of `Start` and `Init`.
- `exit(0)` inside `Vtap_finish` and the `atexit` registration: the process ending is the terminal `Finished` state. `Start` requires a driver that has not finished, because nothing runs after the process exits.
- Pin width: the generated header `Vglbl.h` is not part of this model. The widths of the model's input ports, and any truncation of the `int` arguments written to them, are therefore not modelled; pins carry the `int` values as passed.
- `verport_write_on_exit` and `verport_cable` handlers, `verport_quit` (returns `ERROR_OK` and does nothing), the unused `struct cable`, and the registration tables are outside the modelled core.
- `bitbang_execute_queue` belongs to the shared bit-bang layer. `Verport.Apply` and `Verport.ApplyAll` stand for the calls it makes.
- `parse_u32`, `COMMAND_PARSE_NUMBER` and `jtag_get_speed` are not part of this model; their results are inputs. A failed 16-bit parse is taken to leave the port unchanged, as the parse helpers only store on success.
- VerportConfig.Khz: requires the 32-bit product to be non-zero for a non-zero request. A product that wraps to exactly 0 divides by zero, which is undefined in C. This is reachable at the default toggle time: 536870912 kHz at 1000 ns (see Findings).
- Verport.Init: requires a driver that has not started. A second `verport_init` would leak the old model and register `Vtap_finish` with `atexit` a second time. At exit, that second hook would dereference the NULL `top` the first left behind. Re-initialisation is not modelled.
- VerportConfig.SpeedDiv: requires `speed + 1` not to overflow `int` and the 32-bit denominator to be non-zero, both undefined otherwise. The result is characterised only when `499999 + denominator` fits in 32 bits; beyond that the quotient of the wrapped sum is returned as written, with no further promise.
- VerportConfig.KhzRoundTrip: stated for the widened `khz` and `speed_div` and for toggle times below 2^32 − 499999 ns, so that the denominator of `speed_div` fits in 32 bits.
- SimMain.Step and SimMain.Finish: require a running driver. Before `Vtap_start`, or after `Vtap_finish`, `top` is NULL, and sim_main.cpp:64 and :106 would dereference it; that is undefined in C++, so the model has no such call.

## Findings

| source | as written | input that shows it | evidently intended | confidence | as-written member | corrected member |
|---|---|---|---|---|---|---|
| src/jtag/drivers/verport/verport.c:94 | `499999 / (khz * verport_toggling_time_ns)` multiplies in 32-bit unsigned arithmetic, so large frequencies wrap | khz = 4294968, toggling time 1000 ns: the product wraps to 704 and gives 710 wait states, more than the 0 that 1000 kHz gets | the product computed without wrap-around: 0 wait states, and never more wait states for a higher frequency | medium, not executed | VerportConfig.KhzWrapsAround | VerportConfig.KhzWideAntitone |
| src/jtag/drivers/verport/verport.c:102 | `(499999 + denominator) / denominator` adds in 32-bit unsigned arithmetic, so a large denominator wraps the sum | speed 0, toggling time 0xffff_ff00 ns: the sum wraps to 499743, and speed_div reports 0 kHz | the sum computed without wrap-around: 499999 / denominator + 1, so never 0 kHz | low, not executed | VerportConfig.SpeedDivWrapsToZero | VerportConfig.SpeedDivWide |
| src/jtag/drivers/verport/verport.c:94 | the 32-bit product `khz * verport_toggling_time_ns` can wrap to exactly 0, and 499999 is then divided by zero | khz = 536870912 (2^29, a valid `int`) at the default 1000 ns: the product is 125·2^32, so 0 modulo 2^32 | the product computed without wrap-around: 0 wait states, with no division by zero for any positive request | medium, not executed | VerportConfig.KhzDividesByZero | VerportConfig.KhzWide |
