/** The adapter's speed arithmetic and configuration commands
    (src/jtag/drivers/verport/verport.c): `speed`, `khz`, `speed_div`, and the
    `verport_port` and `verport_toggling_time` command handlers.

    Arithmetic follows C: `khz * toggling_ns` and `(speed + 1) * toggling_ns`
    are `uint32_t` products and wrap modulo 2^32; a division by a zero
    `uint32_t` and a signed overflow of `speed + 1` are undefined in C and
    are excluded by preconditions. */
module VerportConfig {
  import opened CTypes

  /** Half of the 1 000 000 ns in a 1 kHz period, minus one: with this
      numerator, integer division rounds the half period down. */
  const SPEED_NUMERATOR: nat := 499999

  /** `verport_toggling_time_ns` before any command changes it. */
  const DEFAULT_TOGGLING_NS: U32 := 1000

  /** Return codes: `ERROR_OK`, `ERROR_FAIL`, or a code passed on unchanged
      from a parser or from the debug tool's core. */
  datatype Status = Ok | Fail | Passed(code: int)

  /** A status together with the content of the `int *` out-parameter after
      the call (the caller's value when the call does not write it). */
  datatype Reply = Reply(status: Status, out: int)

  /** The result of a call into code outside the adapter (`parse_u32`,
      `COMMAND_PARSE_NUMBER`, `jtag_get_speed`). */
  datatype Foreign<T> = Got(value: T) | Failed(code: int)

  /** The adapter's configuration statics. */
  datatype Config = Config(port: U16, togglingNs: U32, waitStates: Int32)

  /** The statics at process start. */
  const INITIAL_CONFIG: Config := Config(0, DEFAULT_TOGGLING_NS, 0)

  /** A command's effect: the configuration afterwards and the status returned. */
  datatype Handled = Handled(config: Config, status: Status)

  /** The toggling time is never zero, so the speed conversions have a
      non-zero factor. */
  predicate Valid(c: Config)
  {
    c.togglingNs != 0
  }

  // ---------------------------------------------------------------------
  // Speed arithmetic
  // ---------------------------------------------------------------------

  /** Integer division characterised by its bounds. */
  lemma {:induction false} DivBounds(n: nat, d: nat)
    requires d > 0
    ensures (n / d) * d <= n < (n / d + 1) * d
  {
  }

  /** `(n + d) / d` is `n / d + 1`. */
  lemma {:induction false} DivPlusOne(n: nat, d: nat)
    requires d > 0
    ensures (n + d) / d == n / d + 1
  {
    DivBounds(n, d);
    var q := n / d;
    assert q * d + d <= n + d < (q + 1) * d + d;
    assert (q + 1) * d <= n + d < (q + 2) * d;
    DivUnique(n + d, d, q + 1);
  }

  /** A quotient is the only value whose multiples bracket the dividend. */
  lemma {:induction false} DivUnique(n: nat, d: nat, q: nat)
    requires d > 0
    requires q * d <= n < (q + 1) * d
    ensures n / d == q
  {
    DivBounds(n, d);
    var p := n / d;
    if p < q {
      MulLe(p + 1, q, d);
      assert false;
    } else if p > q {
      MulLe(q + 1, p, d);
      assert false;
    }
  }

  /** `q` whole copies of `d` fit in `n`, and one more would not. */
  predicate IsQuotient(n: int, d: int, q: int)
  {
    q * d <= n < (q + 1) * d
  }

  /** Multiplication by a natural number is monotone. */
  lemma {:induction false} MulLe(a: nat, b: nat, c: nat)
    requires a <= b
    ensures a * c <= b * c
  {
    var e := b - a;
    assert b * c == a * c + e * c;
  }

  /** The wait-state count the adapter means to derive from a frequency: the
      half period in nanoseconds divided by the toggle time, computed without
      any overflow. */
  function WaitStates(khz: nat, togglingNs: nat): (s: nat)
    requires khz > 0 && togglingNs > 0
    ensures s * (khz * togglingNs) <= SPEED_NUMERATOR < (s + 1) * (khz * togglingNs)
    ensures khz * togglingNs > SPEED_NUMERATOR ==> s == 0
  {
    var p := khz * togglingNs;
    DivBounds(SPEED_NUMERATOR, p);
    assert p > SPEED_NUMERATOR ==> SPEED_NUMERATOR / p == 0 by {
      if p > SPEED_NUMERATOR {
        DivUnique(SPEED_NUMERATOR, p, 0);
      }
    }
    SPEED_NUMERATOR / p
  }

  /** `verport_khz` as written: RCLK (0 kHz) is refused and `*jtag_speed` is
      left alone; otherwise the 32-bit product `khz * toggling_ns` divides
      499999. */
  function Khz(khz: Int32, togglingNs: U32, jtagSpeed: int): (r: Reply)
    requires khz != 0 ==> ToU32(khz * togglingNs) != 0
    ensures r.status == Fail <==> khz == 0
    ensures khz == 0 ==> r.out == jtagSpeed
    ensures khz != 0 ==> r.status == Ok && 0 <= r.out <= SPEED_NUMERATOR
    // the wait states are the most whole wrapped products that fit in 499999
    ensures khz != 0 ==> IsQuotient(SPEED_NUMERATOR, ToU32(khz * togglingNs), r.out)
  {
    if khz == 0 then
      Reply(Fail, jtagSpeed)
    else
      var p := ToU32(khz * togglingNs);
      DivBounds(SPEED_NUMERATOR, p);
      assert IsQuotient(SPEED_NUMERATOR, p, SPEED_NUMERATOR / p);
      Reply(Ok, SPEED_NUMERATOR / p)
  }

  /** `verport_khz` with the product widened to 64 bits, so that it neither
      wraps nor becomes zero: 0 kHz is still refused, and a positive request
      yields exactly `WaitStates`. */
  function KhzWide(khz: Int32, togglingNs: U32, jtagSpeed: int): (r: Reply)
    requires togglingNs != 0
    ensures r.status == Fail <==> khz == 0
    ensures khz == 0 ==> r.out == jtagSpeed
    ensures khz > 0 ==> r == Reply(Ok, WaitStates(khz, togglingNs))
  {
    if khz == 0 then
      Reply(Fail, jtagSpeed)
    else
      Reply(Ok, SPEED_NUMERATOR / (ToU32(khz) * togglingNs))
  }

  /** While the 32-bit product does not wrap, the code as written computes
      the intended wait-state count. */
  lemma {:induction false} KhzAgreesWithoutWrap(khz: Int32, togglingNs: U32, jtagSpeed: int)
    requires 0 < khz && 0 < togglingNs && khz * togglingNs < U32_MODULUS
    ensures Khz(khz, togglingNs, jtagSpeed) == KhzWide(khz, togglingNs, jtagSpeed)
  {
  }

  /** A faster request never yields more wait states. */
  lemma {:induction false} KhzWideAntitone(k1: Int32, k2: Int32, togglingNs: U32)
    requires 0 < k1 <= k2 && togglingNs != 0
    ensures KhzWide(k2, togglingNs, 0).out <= KhzWide(k1, togglingNs, 0).out
  {
    var s1 := WaitStates(k1, togglingNs);
    var s2 := WaitStates(k2, togglingNs);
    MulLe(k1, k2, togglingNs);
    assert s2 * (k1 * togglingNs) <= s2 * (k2 * togglingNs) by {
      MulLe(k1 * togglingNs, k2 * togglingNs, s2);
    }
    if s2 > s1 {
      MulLe(s1 + 1, s2, k1 * togglingNs);
      assert false;
    }
  }

  /** The as-written product wraps: asking for 4294968 kHz at the default
      1000 ns toggle time gives 710 wait states, where 0 was meant, and more
      than the 0 wait states that 1000 kHz gets. */
  lemma {:induction false} KhzWrapsAround()
    ensures Khz(4294968, 1000, 0) == Reply(Ok, 710)
    ensures KhzWide(4294968, 1000, 0) == Reply(Ok, 0)
    ensures Khz(1000, 1000, 0).out < Khz(4294968, 1000, 0).out
  {
    assert ToU32(4294968 * 1000) == 704;
    assert ToU32(1000 * 1000) == 1000000;
  }

  /** `verport_speed_div` as written: the 32-bit denominator
      `(speed + 1) * toggling_ns` divides the 32-bit sum `499999 + denominator`.
      Without wrap-around this is `499999 / denominator + 1`, so at least 1:
      the rounding is meant to keep the report above 0 kHz, which the wrapped
      sum defeats (`SpeedDivWrapsToZero`). */
  function SpeedDiv(speed: Int32, togglingNs: U32, khzOut: int): (r: Reply)
    requires speed < INT32_MAX
    requires ToU32((speed + 1) * togglingNs) != 0
    ensures r.status == Ok
    ensures var d := ToU32((speed + 1) * togglingNs);
            SPEED_NUMERATOR + d < U32_MODULUS ==> r.out == SPEED_NUMERATOR / d + 1 >= 1
  {
    var d := ToU32((speed + 1) * togglingNs);
    DivPlusOne(SPEED_NUMERATOR, d);
    Reply(Ok, ToU32(SPEED_NUMERATOR + d) / d)
  }

  /** The as-written sum wraps too: at speed 0 with a toggle time of
      0xffff_ff00 ns the 32-bit sum `499999 + denominator` wraps to 499743,
      below the denominator, and `speed_div` reports 0 kHz. */
  lemma {:induction false} SpeedDivWrapsToZero()
    ensures SpeedDiv(0, 0xffff_ff00, 0) == Reply(Ok, 0)
  {
    assert ToU32(1 * 0xffff_ff00) == 0xffff_ff00;
    assert ToU32(SPEED_NUMERATOR + 0xffff_ff00) == 499743;
  }

  /** `verport_speed_div` with the sum `499999 + denominator` widened so it
      cannot wrap: the report is one more than the whole number of
      denominators in 499999, so never 0 kHz. */
  function SpeedDivWide(speed: Int32, togglingNs: U32, khzOut: int): (r: Reply)
    requires speed < INT32_MAX
    requires ToU32((speed + 1) * togglingNs) != 0
    ensures r.status == Ok && r.out >= 1
    ensures IsQuotient(SPEED_NUMERATOR, ToU32((speed + 1) * togglingNs), r.out - 1)
  {
    var d := ToU32((speed + 1) * togglingNs);
    DivPlusOne(SPEED_NUMERATOR, d);
    DivBounds(SPEED_NUMERATOR, d);
    assert IsQuotient(SPEED_NUMERATOR, d, SPEED_NUMERATOR / d);
    Reply(Ok, (SPEED_NUMERATOR + d) / d)
  }

  /** While the 32-bit sum does not wrap, the code as written and the widened
      version report the same frequency. */
  lemma {:induction false} SpeedDivAgreesWithoutWrap(speed: Int32, togglingNs: U32, khzOut: int)
    requires speed < INT32_MAX
    requires ToU32((speed + 1) * togglingNs) != 0
    requires SPEED_NUMERATOR + ToU32((speed + 1) * togglingNs) < U32_MODULUS
    ensures SpeedDiv(speed, togglingNs, khzOut) == SpeedDivWide(speed, togglingNs, khzOut)
  {
    var d := ToU32((speed + 1) * togglingNs);
    assert ToU32(SPEED_NUMERATOR + d) == SPEED_NUMERATOR + d;
  }

  /** Converting a frequency k to wait states and back (both widened) never
      reports more than k, and never 0 kHz. It reports at least
      k·499999 / (499999 + k·togglingNs): little is lost while k·togglingNs is
      small against 499999. This holds as long as the denominator of
      `speed_div` fits in 32 bits. */
  lemma {:induction false} KhzRoundTrip(khz: Int32, togglingNs: U32)
    requires 0 < khz && 0 < togglingNs
    requires togglingNs + SPEED_NUMERATOR < U32_MODULUS
    ensures var s := KhzWide(khz, togglingNs, 0).out;
            s < INT32_MAX && ToU32((s + 1) * togglingNs) != 0
            && 1 <= SpeedDivWide(s, togglingNs, 0).out <= khz
            && SpeedDivWide(s, togglingNs, 0).out * (SPEED_NUMERATOR + khz * togglingNs) > khz * SPEED_NUMERATOR
  {
    var p := khz * togglingNs;
    var s := WaitStates(khz, togglingNs);
    assert KhzWide(khz, togglingNs, 0).out == s;
    // s toggles of togglingNs fit in the numerator, so d stays inside 32 bits
    MulLe(1, khz, togglingNs);
    MulLe(togglingNs, p, s);
    var d := (s + 1) * togglingNs;
    assert d == s * togglingNs + togglingNs <= SPEED_NUMERATOR + togglingNs;
    assert ToU32((s + 1) * togglingNs) == d;
    // d * khz is (s + 1) toggles of p, which exceeds the numerator
    assert d * khz == (s + 1) * p;
    var q := SpeedDivWide(s, togglingNs, 0).out - 1;
    assert IsQuotient(SPEED_NUMERATOR, d, q);
    if q >= khz {
      MulLe(khz, q, d);
      assert false;
    }
    RoundTripLowerBound(khz, togglingNs, s, q + 1);
  }

  /** The arithmetic behind the lower bound of the round trip: with s
      wait states for k·t and r the smallest count of (s + 1)·t above the
      numerator, r·(499999 + k·t) exceeds k·499999. */
  lemma {:induction false} RoundTripLowerBound(k: nat, t: nat, s: nat, r: nat)
    requires k > 0 && t > 0
    requires s * (k * t) <= SPEED_NUMERATOR < r * ((s + 1) * t)
    ensures r * (SPEED_NUMERATOR + k * t) > k * SPEED_NUMERATOR
  {
    var x := r * ((s + 1) * t);
    MulLt(SPEED_NUMERATOR, x, k);
    assert x * k == r * (s * (k * t) + k * t);
    MulLe(s * (k * t) + k * t, SPEED_NUMERATOR + k * t, r);
  }

  /** Multiplication by a positive natural number is strictly monotone. */
  lemma {:induction false} MulLt(a: nat, b: nat, c: nat)
    requires a < b && c > 0
    ensures a * c < b * c
  {
    var e := b - a;
    assert b * c == a * c + e * c;
  }

  /** The two regimes of the round trip. While k·togglingNs is at most
      499999, more than half of k comes back. Above that, `khz` gives 0 wait
      states, and the report is 499999 / togglingNs + 1 whatever k was. */
  lemma {:induction false} KhzRoundTripRegimes(khz: Int32, togglingNs: U32)
    requires 0 < khz && 0 < togglingNs
    requires togglingNs + SPEED_NUMERATOR < U32_MODULUS
    ensures var s := KhzWide(khz, togglingNs, 0).out;
            s < INT32_MAX && ToU32((s + 1) * togglingNs) != 0
            && (khz * togglingNs <= SPEED_NUMERATOR ==> 2 * SpeedDivWide(s, togglingNs, 0).out > khz)
            && (khz * togglingNs > SPEED_NUMERATOR ==> SpeedDivWide(s, togglingNs, 0).out == SPEED_NUMERATOR / togglingNs + 1)
  {
    KhzRoundTrip(khz, togglingNs);
    var s := KhzWide(khz, togglingNs, 0).out;
    var r := SpeedDivWide(s, togglingNs, 0).out;
    var p := khz * togglingNs;
    if p <= SPEED_NUMERATOR {
      MulLe(SPEED_NUMERATOR + p, 2 * SPEED_NUMERATOR, r);
      assert (2 * r) * SPEED_NUMERATOR > khz * SPEED_NUMERATOR;
      if 2 * r <= khz {
        assert false;
      }
    } else {
      assert s == 0;
      assert ToU32((s + 1) * togglingNs) == togglingNs;
      assert IsQuotient(SPEED_NUMERATOR, togglingNs, r - 1);
      DivUnique(SPEED_NUMERATOR, togglingNs, r - 1);
    }
  }

  /** At the default toggle time of 1000 ns, a request of 2^29 kHz (a valid
      `int`) makes the as-written 32-bit product exactly 0, so `khz` divides
      by zero: its precondition does not hold there. The widened product does
      not wrap and yields 0 wait states. */
  lemma {:induction false} KhzDividesByZero()
    ensures ToU32(536870912 * DEFAULT_TOGGLING_NS) == 0
    ensures !(536870912 != 0 ==> ToU32(536870912 * DEFAULT_TOGGLING_NS) != 0)
    ensures KhzWide(536870912, DEFAULT_TOGGLING_NS, 0) == Reply(Ok, 0)
  {
    assert 536870912 * 1000 == 125 * U32_MODULUS;
  }

  // ---------------------------------------------------------------------
  // Configuration
  // ---------------------------------------------------------------------

  /** `verport_speed`: stores the wait-state count and always succeeds. */
  function SetSpeed(c: Config, speed: Int32): (r: Handled)
    ensures r.status == Ok
    ensures r.config.waitStates == speed
    ensures r.config.port == c.port && r.config.togglingNs == c.togglingNs
  {
    Handled(c.(waitStates := speed), Ok)
  }

  /** `verport_port [port]`: with one argument, sets the port only while it is
      still 0; a port set once is refused with `ERROR_FAIL`. A parse failure is
      passed on and changes nothing. Any other argument count only displays
      the port. */
  function PortCommand(c: Config, args: seq<string>, parse: string -> Foreign<U16>): (r: Handled)
    ensures r.status != Ok ==> r.config == c
    ensures |args| != 1 ==> r == Handled(c, Ok)
    ensures |args| == 1 && c.port != 0 ==> r == Handled(c, Fail)
    ensures |args| == 1 && c.port == 0 && parse(args[0]).Got? ==>
              r == Handled(c.(port := parse(args[0]).value), Ok)
    ensures |args| == 1 && c.port == 0 && parse(args[0]).Failed? ==>
              r == Handled(c, Passed(parse(args[0]).code))
    ensures r.config.togglingNs == c.togglingNs && r.config.waitStates == c.waitStates
  {
    if |args| != 1 then
      Handled(c, Ok)
    else if c.port != 0 then
      Handled(c, Fail)
    else
      match parse(args[0])
      case Got(p) => Handled(c.(port := p), Ok)
      case Failed(code) => Handled(c, Passed(code))
  }

  /** A configured (non-zero) port stays as it is, whatever the command. */
  lemma {:induction false} PortSetOnce(c: Config, args: seq<string>, parse: string -> Foreign<U16>)
    requires c.port != 0
    ensures PortCommand(c, args, parse).config == c
  {
  }

  /** `verport_toggling_time [ns]`: with one argument, a parse failure is passed
      on and 0 ns is refused with `ERROR_FAIL`, both leaving everything as it
      was; any other value is stored and the wait-state count re-read from the
      debug tool's current speed, or reset to 0 when no speed is set yet. */
  function TogglingTimeCommand(c: Config, args: seq<string>, parse: string -> Foreign<U32>,
                               currentSpeed: Foreign<Int32>): (r: Handled)
    ensures r.status != Ok ==> r.config == c
    ensures |args| != 1 ==> r == Handled(c, Ok)
    ensures |args| == 1 && parse(args[0]).Failed? ==> r == Handled(c, Passed(parse(args[0]).code))
    ensures |args| == 1 && parse(args[0]) == Got(0) ==> r == Handled(c, Fail)
    // an accepted toggle time is stored, and the wait states follow the current speed
    ensures |args| == 1 && parse(args[0]).Got? && parse(args[0]).value != 0 ==>
              r.status == Ok && r.config.togglingNs == parse(args[0]).value
              && r.config.waitStates == (if currentSpeed.Got? then currentSpeed.value else 0)
    ensures r.config.togglingNs != c.togglingNs ==>
              |args| == 1 && parse(args[0]) == Got(r.config.togglingNs) && r.status == Ok
    ensures r.config.waitStates != c.waitStates ==>
              r.config.waitStates == (if currentSpeed.Got? then currentSpeed.value else 0)
    ensures r.config.port == c.port
    ensures Valid(c) ==> Valid(r.config)
  {
    if |args| != 1 then
      Handled(c, Ok)
    else
      match parse(args[0])
      case Failed(code) => Handled(c, Passed(code))
      case Got(ns) =>
        if ns == 0 then
          Handled(c, Fail)
        else
          var ws := match currentSpeed
                    case Got(v) => v
                    case Failed(_) => 0;
          Handled(c.(togglingNs := ns, waitStates := ws), Ok)
  }

  /** The commands of a configuration script that reach this adapter. */
  datatype Command = SpeedCmd(speed: Int32) | PortCmd(portArgs: seq<string>)
                   | TogglingCmd(nsArgs: seq<string>, currentSpeed: Foreign<Int32>)

  /** One command, with the parsers it uses. */
  function RunCommand(c: Config, cmd: Command, parse16: string -> Foreign<U16>, parse32: string -> Foreign<U32>): Handled
  {
    match cmd
    case SpeedCmd(speed) => SetSpeed(c, speed)
    case PortCmd(args) => PortCommand(c, args, parse16)
    case TogglingCmd(args, cur) => TogglingTimeCommand(c, args, parse32, cur)
  }

  /** A configuration script, first command first; every command keeps the
      toggle time non-zero. */
  function RunScript(c: Config, cmds: seq<Command>, parse16: string -> Foreign<U16>,
                    parse32: string -> Foreign<U32>): (r: Config)
    ensures Valid(c) ==> Valid(r)
    decreases |cmds|
  {
    if cmds == [] then c
    else RunScript(RunCommand(c, cmds[0], parse16, parse32).config, cmds[1..], parse16, parse32)
  }

  /** From process start, the toggle time is never 0, so the factor that
      `khz` and `speed_div` multiply by is never 0 (their products can still
      wrap to 0, which their own preconditions exclude). */
  lemma {:induction false} ToggleTimeNeverZero(cmds: seq<Command>, parse16: string -> Foreign<U16>,
                                               parse32: string -> Foreign<U32>)
    ensures RunScript(INITIAL_CONFIG, cmds, parse16, parse32).togglingNs != 0
  {
  }
}
