/**
  The motor outputs of DRIVER/PWM.c: two general-purpose timers, TIM2 and
  TIM4, each counting to PWM_RESOLUTION - 1 at PWM_FREQUENCY, and four
  capture/compare registers, one per motor, whose values are the motors'
  duty cycles out of PWM_RESOLUTION.

  The timers are objects whose registers the driver overwrites in place;
  the clamp and the motor-to-register table are the pure functions the
  driver's methods are proved against.
 */
module Pwm {
  import opened CTypes

  const MOTOR1: byte := 0
  const MOTOR2: byte := 1
  const MOTOR3: byte := 2
  const MOTOR4: byte := 3
  /** The number of motors, and of capture/compare channels per timer. */
  const MOTORS: nat := 4
  const CHANNELS: nat := 4

  /** Output frequency in Hz. */
  const PWM_FREQUENCY: nat := 5000
  /** Counter steps per period: duty cycles are out of 1000. */
  const PWM_RESOLUTION: nat := 1000
  const PWM_MIN_DUTY: u16 := 50
  const PWM_MAX_DUTY: u16 := 950
  /** TIM_Period: the counter runs from 0 to PWM_RESOLUTION - 1. */
  const PERIOD: u32 := 999

  // ---------------------------------------------------------------------
  // Duty clamp
  // ---------------------------------------------------------------------

  /** The duty PWM_SetDuty writes: raised to PWM_MIN_DUTY, lowered to PWM_MAX_DUTY. */
  function Clamp(duty: u16): (r: u16)
    ensures PWM_MIN_DUTY <= r <= PWM_MAX_DUTY
    ensures r == duty <==> PWM_MIN_DUTY <= duty <= PWM_MAX_DUTY
  {
    if duty < PWM_MIN_DUTY then PWM_MIN_DUTY
    else if duty > PWM_MAX_DUTY then PWM_MAX_DUTY
    else duty
  }

  function Min(a: int, b: int): int { if a <= b then a else b }
  function Max(a: int, b: int): int { if a <= b then b else a }

  /** The clamp is max(50, min(950, duty)), and its result is always a duty inside [50, 950]. */
  lemma ClampIsMaxMin(duty: u16)
    ensures Clamp(duty) as int == Max(PWM_MIN_DUTY as int, Min(PWM_MAX_DUTY as int, duty as int))
    ensures PWM_MIN_DUTY <= Clamp(duty) <= PWM_MAX_DUTY
  {
  }

  /** A duty already inside [50, 950] is written unchanged, and no other duty is. */
  lemma ClampKeepsInRange(duty: u16)
    ensures Clamp(duty) == duty <==> PWM_MIN_DUTY <= duty <= PWM_MAX_DUTY
  {
  }

  /** Clamping twice is clamping once. */
  lemma ClampIdempotent(duty: u16)
    ensures Clamp(Clamp(duty)) == Clamp(duty)
  {
  }

  /** A larger requested duty never gives a smaller compare value. */
  lemma ClampMonotone(a: u16, b: u16)
    requires a <= b
    ensures Clamp(a) <= Clamp(b)
  {
  }

  // ---------------------------------------------------------------------
  // Motor to compare register table
  // ---------------------------------------------------------------------

  datatype TimerId = TIM2 | TIM4

  /** The compare register a motor index selects, or none for an index outside 0..3. */
  datatype Target = NoTarget | Compare(timer: TimerId, channel: nat)

  /**
    The switch of PWM_SetDuty: MOTOR1 on TIM4 channel 2 (PB7), MOTOR2 on
    TIM4 channel 1 (PB6), MOTOR3 on TIM2 channel 3 (PB10), MOTOR4 on TIM2
    channel 1 (PA5). Channels are numbered from 1 as in TIM_SetCompareN.
   */
  function MotorTarget(motor: byte): (t: Target)
    ensures t.Compare? <==> motor as nat < MOTORS
    ensures t.Compare? ==> 1 <= t.channel <= CHANNELS
  {
    match motor
    case 0 => Compare(TIM4, 2)
    case 1 => Compare(TIM4, 1)
    case 2 => Compare(TIM2, 3)
    case 3 => Compare(TIM2, 1)
    case _ => NoTarget
  }

  /** Different motors drive different compare registers. */
  lemma MotorTargetInjective(m: byte, n: byte)
    requires MotorTarget(m).Compare? && MotorTarget(m) == MotorTarget(n)
    ensures m == n
  {
  }

  /** The four motors take TIM2 channels 1 and 3 and TIM4 channels 1 and 2; no other register is driven. */
  lemma MotorTargetsUsed(t: TimerId, ch: nat)
    ensures (exists m: byte :: MotorTarget(m) == Compare(t, ch))
        <==> (t == TIM2 && (ch == 1 || ch == 3)) || (t == TIM4 && (ch == 1 || ch == 2))
  {
    if t == TIM2 && ch == 1 {
      assert MotorTarget(MOTOR4) == Compare(t, ch);
    } else if t == TIM2 && ch == 3 {
      assert MotorTarget(MOTOR3) == Compare(t, ch);
    } else if t == TIM4 && ch == 1 {
      assert MotorTarget(MOTOR2) == Compare(t, ch);
    } else if t == TIM4 && ch == 2 {
      assert MotorTarget(MOTOR1) == Compare(t, ch);
    }
  }

  // ---------------------------------------------------------------------
  // Time base
  // ---------------------------------------------------------------------

  /**
    `(SystemCoreClock / 2) / (PWM_FREQUENCY * PWM_RESOLUTION) - 1` in
    uint32_t arithmetic: below a 10 MHz core clock the quotient is 0 and the
    subtraction wraps around.
   */
  function Prescaler(coreClock: u32): (p: u32)
    ensures coreClock >= 10_000_000 ==>
              (p as nat + 1) * (PWM_FREQUENCY * PWM_RESOLUTION) <= coreClock as nat / 2
              < (p as nat + 2) * (PWM_FREQUENCY * PWM_RESOLUTION)
    ensures coreClock < 10_000_000 ==> p == 0xFFFF_FFFF
  {
    U32((coreClock as nat / 2) / (PWM_FREQUENCY * PWM_RESOLUTION) - 1)
  }

  /** The timer input clock divided by the prescaler and by the period gives the update rate of the outputs. */
  function OutputFrequency(coreClock: u32, prescaler: u32, period: u32): nat
  {
    (coreClock as nat / 2) / ((prescaler as nat + 1) * (period as nat + 1))
  }

  /**
    Whenever half the core clock is a whole multiple of 5 MHz (100 MHz on
    this board gives prescaler 9), the outputs run at exactly PWM_FREQUENCY.
   */
  lemma {:induction false} PrescalerGivesFrequency(coreClock: u32)
    requires coreClock >= 10_000_000 && (coreClock as nat / 2) % (PWM_FREQUENCY * PWM_RESOLUTION) == 0
    ensures OutputFrequency(coreClock, Prescaler(coreClock), PERIOD) == PWM_FREQUENCY
  {
    var half, step := coreClock as nat / 2, PWM_FREQUENCY * PWM_RESOLUTION;
    var q := half / step;
    assert half == q * step;
    assert Prescaler(coreClock) as nat + 1 == q;
    assert (q * (PERIOD as nat + 1)) * PWM_FREQUENCY == half;
    DivExact(half, q * (PERIOD as nat + 1), PWM_FREQUENCY);
  }

  lemma DivExact(a: nat, d: nat, q: nat)
    requires d > 0 && d * q == a
    ensures a / d == q
  {
    var r := a / d;
    assert d * (q - r) == a % d;
    if q - r >= 1 {
      MulAtLeast(d, q - r);
    } else if q - r <= -1 {
      MulAtLeast(d, r - q);
    }
  }

  lemma PrescalerAt100MHz()
    ensures Prescaler(100_000_000) == 9
    ensures OutputFrequency(100_000_000, Prescaler(100_000_000), PERIOD) == PWM_FREQUENCY
  {
    PrescalerGivesFrequency(100_000_000);
  }

  // ---------------------------------------------------------------------
  // Timers and the driver
  // ---------------------------------------------------------------------

  /** The registers of one timer the driver writes: time base, the four compare values, and the counter enable. */
  class Timer {
    const id: TimerId
    var period: u32
    var prescaler: u32
    /** CCR1 to CCR4, at indices 0 to 3. */
    var ccr: seq<u32>
    var enabled: bool

    /** A timer out of reset: everything zero, counter stopped. */
    constructor (id: TimerId)
      ensures this.id == id && period == 0 && prescaler == 0 && ccr == [0, 0, 0, 0] && !enabled
    {
      this.id := id;
      period, prescaler := 0, 0;
      ccr := [0, 0, 0, 0];
      enabled := false;
    }

    /** TIM_TimeBaseInit: period and prescaler; the compare values and the enable bit stay. */
    method TimeBaseInit(period: u32, prescaler: u32)
      modifies this
      ensures this.period == period && this.prescaler == prescaler
      ensures ccr == old(ccr) && enabled == old(enabled)
    {
      this.period, this.prescaler := period, prescaler;
    }

    /** TIM_SetCompareN (and the pulse of TIM_OCNInit): compare register `channel` takes `value`. */
    method SetCompare(channel: nat, value: u32)
      requires 1 <= channel <= CHANNELS && |ccr| == CHANNELS
      modifies this
      ensures ccr == old(ccr)[channel - 1 := value]
      ensures period == old(period) && prescaler == old(prescaler) && enabled == old(enabled)
    {
      ccr := ccr[channel - 1 := value];
    }

    /** TIM_Cmd: starts or stops the counter. */
    method Cmd(enable: bool)
      modifies this
      ensures enabled == enable
      ensures period == old(period) && prescaler == old(prescaler) && ccr == old(ccr)
    {
      enabled := enable;
    }
  }

  /** The two timers the motors hang on. */
  class Motors {
    const tim2: Timer
    const tim4: Timer

    predicate Valid()
      reads this, tim2, tim4
    {
      tim2 != tim4 && tim2.id == TIM2 && tim4.id == TIM4 && |tim2.ccr| == CHANNELS && |tim4.ccr| == CHANNELS
    }

    constructor (tim2: Timer, tim4: Timer)
      requires tim2 != tim4 && tim2.id == TIM2 && tim4.id == TIM4
      requires |tim2.ccr| == CHANNELS && |tim4.ccr| == CHANNELS
      ensures this.tim2 == tim2 && this.tim4 == tim4 && Valid()
    {
      this.tim2, this.tim4 := tim2, tim4;
    }

    /** The compare value of register `channel` of timer `t`. */
    function Register(t: TimerId, channel: nat): u32
      requires Valid() && 1 <= channel <= CHANNELS
      reads this, tim2, tim4
    {
      if t == TIM2 then tim2.ccr[channel - 1] else tim4.ccr[channel - 1]
    }

    /** The duty motor `m` currently runs at: the compare register the table gives it. */
    function Duty(m: byte): u32
      requires Valid() && (m as nat) < MOTORS
      reads this, tim2, tim4
    {
      var t := MotorTarget(m);
      Register(t.timer, t.channel)
    }

    /**
      PWM_SetDuty: the duty is clamped in place, then the one compare
      register of `motor` takes it; a motor index outside 0..3 writes
      nothing. Every other register, both time bases and both enable bits
      stay as they were.
     */
    method SetDuty(motor: byte, duty: u16)
      requires Valid()
      modifies tim2, tim4
      ensures Valid()
      ensures forall t: TimerId, ch: nat {:trigger Register(t, ch)} :: 1 <= ch <= CHANNELS ==>
                Register(t, ch) == if MotorTarget(motor) == Compare(t, ch) then Clamp(duty) as u32 else old(Register(t, ch))
      ensures tim2.period == old(tim2.period) && tim2.prescaler == old(tim2.prescaler) && tim2.enabled == old(tim2.enabled)
      ensures tim4.period == old(tim4.period) && tim4.prescaler == old(tim4.prescaler) && tim4.enabled == old(tim4.enabled)
    {
      var d := duty;
      if d < PWM_MIN_DUTY {
        d := PWM_MIN_DUTY;
      } else if d > PWM_MAX_DUTY {
        d := PWM_MAX_DUTY;
      }
      match motor
      case 0 => tim4.SetCompare(2, d as u32);
      case 1 => tim4.SetCompare(1, d as u32);
      case 2 => tim2.SetCompare(3, d as u32);
      case 3 => tim2.SetCompare(1, d as u32);
      case _ =>
    }

    /** After PWM_SetDuty the motor runs at the clamped duty and the other three motors are untouched. */
    method SetMotor(motor: byte, duty: u16)
      requires Valid() && (motor as nat) < MOTORS
      modifies tim2, tim4
      ensures Valid()
      ensures Duty(motor) == Clamp(duty) as u32
      ensures forall m: byte :: m as nat < MOTORS && m != motor ==> Duty(m) == old(Duty(m))
    {
      SetDuty(motor, duty);
      forall m: byte | m as nat < MOTORS && m != motor
        ensures Duty(m) == old(Duty(m))
      {
        if MotorTarget(m) == MotorTarget(motor) {
          MotorTargetInjective(m, motor);
        }
      }
    }

    /** PWM_Start: both counters run; nothing else changes. */
    method Start()
      requires Valid()
      modifies tim2, tim4
      ensures Valid() && tim2.enabled && tim4.enabled
      ensures tim2.ccr == old(tim2.ccr) && tim2.period == old(tim2.period) && tim2.prescaler == old(tim2.prescaler)
      ensures tim4.ccr == old(tim4.ccr) && tim4.period == old(tim4.period) && tim4.prescaler == old(tim4.prescaler)
    {
      tim2.Cmd(true);
      tim4.Cmd(true);
    }

    /** PWM_Stop: both counters stop; the compare values and time bases are kept. */
    method Stop()
      requires Valid()
      modifies tim2, tim4
      ensures Valid() && !tim2.enabled && !tim4.enabled
      ensures tim2.ccr == old(tim2.ccr) && tim2.period == old(tim2.period) && tim2.prescaler == old(tim2.prescaler)
      ensures tim4.ccr == old(tim4.ccr) && tim4.period == old(tim4.period) && tim4.prescaler == old(tim4.prescaler)
    {
      tim2.Cmd(false);
      tim4.Cmd(false);
    }

    /** PWM_TIM2_Config and PWM_TIM4_Config for one timer: the time base, then a zero pulse on the two motor channels. */
    method ConfigureTimer(tim: Timer, coreClock: u32, first: nat, second: nat)
      requires Valid() && (tim == tim2 || tim == tim4)
      requires 1 <= first <= CHANNELS && 1 <= second <= CHANNELS
      modifies tim
      ensures Valid()
      ensures tim.period == PERIOD && tim.prescaler == Prescaler(coreClock) && tim.enabled == old(tim.enabled)
      ensures tim.ccr == old(tim.ccr)[first - 1 := 0][second - 1 := 0]
    {
      tim.TimeBaseInit(PERIOD, Prescaler(coreClock));
      tim.SetCompare(first, 0);
      tim.SetCompare(second, 0);
    }

    /**
      PWM_Init, with SystemCoreClock as a parameter: both timers count to
      999 behind the same prescaler, all four motors start at duty 0, and
      both counters run.
     */
    method Init(coreClock: u32)
      requires Valid()
      modifies tim2, tim4
      ensures Valid() && tim2.enabled && tim4.enabled
      ensures tim2.period == PERIOD && tim4.period == PERIOD
      ensures tim2.prescaler == Prescaler(coreClock) && tim4.prescaler == Prescaler(coreClock)
      ensures forall m: byte :: m as nat < MOTORS ==> Duty(m) == 0
      ensures tim2.ccr == old(tim2.ccr)[0 := 0][2 := 0] && tim4.ccr == old(tim4.ccr)[0 := 0][1 := 0]
    {
      ConfigureTimer(tim2, coreClock, 1, 3);
      ConfigureTimer(tim4, coreClock, 1, 2);
      Start();
    }
  }
}
