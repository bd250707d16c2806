/** The B02 board variant: a light strip driven by the operating mode, darkness,
    two latched PIR edges and the one-shot light commands; a temperature sensor
    sampled every few cycles; and a long-range PIR powered only in the dark.
    The transitions are stated as functions on values; the class `B02` holds the
    module statics and is proved to follow them. */
module BoardB02 {
  import opened Common
  import opened NodeTypes
  import opened CycleClock
  import opened BoardTypes
  import opened PinChange
  import opened Pcint

  /** Cycle thresholds: a stage reacts once strictly more cycles than these have
      elapsed since its baseline. */
  const TEMPERATURE_SENSOR_CYCLE_COUNT: nat := 8
  const INTRUSION_WHITE_AND_RED_CYCLE_COUNT: nat := 1
  const INTRUSION_WHITE_CYCLE_COUNT: nat := 2
  const SILENCE_WHITE_CYCLE_COUNT: nat := 1
  const SILENCE_GREEN_BLUE_CYCLE_COUNT: nat := 3

  /** The strip colours; WHITE_AND_RED also drives projectors and buzzer, WHITE the
      projectors, RED the buzzer. */
  datatype LightColor = NoLight | WhiteAndRed | White | Green | Blue | Red

  /** What the strip stage reads: the basic state and the two PIR latches. */
  datatype StripView = StripView(
    count: u16, isDark: bool, currentMode: int, newMode: int,
    enableCommand: bool, disableCommand: bool, doorPir: bool, verandaPir: bool)

  /** The strip's own state: its colour and its cycle baseline. */
  datatype Strip = Strip(color: LightColor, baseline: u16)

  /** One stage run: the new strip state and, when the run fills LIGHT_MSG, the
      destinations it addresses. */
  datatype StripOutcome = StripOutcome(strip: Strip, notify: Option<seq<NodeId>>)

  /** A mode change about to be committed, or a disable command, switches the strip
      off after the mode branch has run. */
  predicate ForcedOff(v: StripView) {
    v.currentMode != v.newMode || v.disableCommand
  }

  /** The colours INTRUSION treats as "alarm light already on". */
  predicate IntrusionLit(c: LightColor) {
    c == WhiteAndRed || c == White
  }

  /** INTRUSION switches on when it is dark and either PIR fired or a light-on
      command arrived. */
  predicate IntrusionStart(v: StripView) {
    v.isDark && (v.doorPir || v.verandaPir || v.enableCommand)
  }

  /** SILENCE switches on when it is dark and the door PIR fired or a light-on
      command arrived; the veranda PIR plays no part. */
  predicate SilenceStart(v: StripView) {
    v.isDark && (v.doorPir || v.enableCommand)
  }

  /** The GREEN/BLUE animation of SILENCE; every other colour is left as it is. */
  function Flip(c: LightColor): (f: LightColor)
    ensures (c == Green || c == Blue) <==> (f == Green || f == Blue)
    ensures (c == Green || c == Blue) ==> f != c
    ensures !(c == Green || c == Blue) ==> f == c
  {
    match c
    case Green => Blue
    case Blue => Green
    case _ => c
  }

  /** ALARM: on every call that sees a new cycle, blink WHITE_AND_RED/WHITE in the
      dark and RED/OFF in daylight. */
  function AlarmStep(s: Strip, v: StripView): (o: StripOutcome)
    requires s.baseline <= v.count
    ensures o.notify.None?
    ensures o.strip == s <==> s.baseline == v.count
    ensures s.baseline != v.count ==> o.strip.baseline == v.count && o.strip.color != s.color
    ensures s.baseline != v.count && v.isDark ==>
      (o.strip.color == WhiteAndRed || o.strip.color == White) &&
      (o.strip.color == White <==> s.color == WhiteAndRed)
    ensures s.baseline != v.count && !v.isDark ==>
      (o.strip.color == Red || o.strip.color == NoLight) &&
      (o.strip.color == NoLight <==> s.color == Red)
  {
    if s.baseline == v.count then StripOutcome(s, None)
    else
      var color :=
        if v.isDark then (if s.color != WhiteAndRed then WhiteAndRed else White)
        else (if s.color != Red then Red else NoLight);
      StripOutcome(Strip(color, v.count), None)
  }

  /** INTRUSION: an unlit strip starts WHITE_AND_RED (and tells B01 and T01 when a
      PIR triggered it); WHITE_AND_RED gives way to WHITE, and WHITE to OFF, once
      their thresholds have passed. */
  function IntrusionStep(s: Strip, v: StripView): (o: StripOutcome)
    requires s.baseline <= v.count
    ensures !IntrusionLit(s.color) ==>
      o.strip == (if IntrusionStart(v) then Strip(WhiteAndRed, v.count) else s)
    ensures s.color == WhiteAndRed ==>
      o.strip == (if v.count - s.baseline > INTRUSION_WHITE_AND_RED_CYCLE_COUNT then Strip(White, v.count) else s)
    ensures s.color == White ==>
      o.strip == (if v.count - s.baseline > INTRUSION_WHITE_CYCLE_COUNT then Strip(NoLight, v.count) else s)
    ensures o.notify.Some? <==> !IntrusionLit(s.color) && v.isDark && (v.doorPir || v.verandaPir)
    ensures o.notify.Some? ==> o.notify.value == [NODE_B01, NODE_T01] && o.strip.color == WhiteAndRed
  {
    if !IntrusionLit(s.color) then
      if IntrusionStart(v) then
        StripOutcome(Strip(WhiteAndRed, v.count),
                     if v.doorPir || v.verandaPir then Some([NODE_B01, NODE_T01]) else None)
      else StripOutcome(s, None)
    else if s.color != White then
      if v.count - s.baseline > INTRUSION_WHITE_AND_RED_CYCLE_COUNT then StripOutcome(Strip(White, v.count), None)
      else StripOutcome(s, None)
    else
      if v.count - s.baseline > INTRUSION_WHITE_CYCLE_COUNT then StripOutcome(Strip(NoLight, v.count), None)
      else StripOutcome(s, None)
  }

  /** SILENCE: a strip that is not WHITE starts WHITE (and tells T01 when the door
      PIR triggered it); otherwise it is switched off once the GREEN/BLUE threshold
      has passed, and else animates GREEN/BLUE. WHITE turns GREEN once its own
      threshold has passed. */
  function SilenceStep(s: Strip, v: StripView): (o: StripOutcome)
    requires s.baseline <= v.count
    ensures s.color != White && SilenceStart(v) ==> o.strip == Strip(White, v.count)
    ensures s.color != White && !SilenceStart(v) ==>
      o.strip == (if v.count - s.baseline > SILENCE_GREEN_BLUE_CYCLE_COUNT then Strip(NoLight, v.count)
                  else Strip(Flip(s.color), s.baseline))
    ensures s.color == White ==>
      o.strip == (if v.count - s.baseline > SILENCE_WHITE_CYCLE_COUNT then Strip(Green, v.count) else s)
    ensures o.notify.Some? <==> s.color != White && v.isDark && v.doorPir
    ensures o.notify.Some? ==> o.notify.value == [NODE_T01] && o.strip.color == White
  {
    if s.color != White then
      if SilenceStart(v) then
        StripOutcome(Strip(White, v.count), if v.doorPir then Some([NODE_T01]) else None)
      else if v.count - s.baseline > SILENCE_GREEN_BLUE_CYCLE_COUNT then
        StripOutcome(Strip(NoLight, v.count), None)
      else StripOutcome(Strip(Flip(s.color), s.baseline), None)
    else if v.count - s.baseline > SILENCE_WHITE_CYCLE_COUNT then
      StripOutcome(Strip(Green, v.count), None)
    else StripOutcome(s, None)
  }

  /** The branch for the current mode; an unknown mode leaves the strip alone. */
  function ModeStep(s: Strip, v: StripView): (o: StripOutcome)
    requires s.baseline <= v.count
    ensures o.strip.baseline <= v.count
    ensures o.notify.Some? ==> o.strip.baseline == v.count
    ensures v.currentMode != ALARM && v.currentMode != INTRUSION && v.currentMode != SILENCE ==> o == StripOutcome(s, None)
  {
    if v.currentMode == ALARM then AlarmStep(s, v)
    else if v.currentMode == INTRUSION then IntrusionStep(s, v)
    else if v.currentMode == SILENCE then SilenceStep(s, v)
    else StripOutcome(s, None)
  }

  /** `board_b02_process_light_strip`: clamp the baseline on wraparound, run the
      mode branch, then apply the forced switch-off. */
  function StripStep(s: Strip, v: StripView): (o: StripOutcome)
    ensures ForcedOff(v) ==> o.strip.color == NoLight
    ensures !ForcedOff(v) ==> o.strip == ModeStep(s.(baseline := Clamp(v.count, s.baseline)), v).strip
    ensures o.strip.baseline == ModeStep(s.(baseline := Clamp(v.count, s.baseline)), v).strip.baseline
    ensures o.notify == ModeStep(s.(baseline := Clamp(v.count, s.baseline)), v).notify
    ensures o.strip.baseline <= v.count
    ensures o.notify.Some? ==> o.strip.baseline == v.count && v.isDark
  {
    var m := ModeStep(s.(baseline := Clamp(v.count, s.baseline)), v);
    if ForcedOff(v) then m.(strip := m.strip.(color := NoLight)) else m
  }

  /** A light message names only nodes other than B02 and always says LIGHT_ON. */
  lemma NotifyTargets(s: Strip, v: StripView)
    ensures StripStep(s, v).notify.Some? ==>
      (v.currentMode == INTRUSION && StripStep(s, v).notify.value == [NODE_B01, NODE_T01]) ||
      (v.currentMode == SILENCE && StripStep(s, v).notify.value == [NODE_T01])
    ensures StripStep(s, v).notify.Some? ==> NODE_B02 !in StripStep(s, v).notify.value
  {
  }

  /** In SILENCE the veranda PIR has no effect on the strip or on the messages. */
  lemma SilenceIgnoresVeranda(s: Strip, v: StripView)
    requires v.currentMode == SILENCE
    ensures StripStep(s, v.(verandaPir := true)) == StripStep(s, v.(verandaPir := false))
  {
  }

  /** In the dark, two ALARM calls on successive new cycles blink from
      WHITE_AND_RED to WHITE and back. */
  lemma AlarmBlinks(b: u16, v1: StripView, v2: StripView)
    requires v1.currentMode == ALARM == v1.newMode && !v1.disableCommand && v1.isDark
    requires v2.currentMode == ALARM == v2.newMode && !v2.disableCommand && v2.isDark
    requires b < v1.count < v2.count
    ensures StripStep(Strip(WhiteAndRed, b), v1).strip == Strip(White, v1.count)
    ensures StripStep(StripStep(Strip(WhiteAndRed, b), v1).strip, v2).strip == Strip(WhiteAndRed, v2.count)
  {
  }

  /** The strip after running the stage once per view, in order. */
  function RunStrip(s: Strip, views: seq<StripView>): Strip
    decreases |views|
  {
    if |views| == 0 then s else RunStrip(StripStep(s, views[0]).strip, views[1..])
  }

  /** The count the last view shows, or `c` when there is none. */
  function LastCount(c: int, views: seq<StripView>): int
    decreases |views|
  {
    if |views| == 0 then c else LastCount(views[0].count, views[1..])
  }

  /** The stage runs at least once per cycle: starting from count `c`, each view's
      count is the previous one or the next (the counter does not wrap meanwhile). */
  ghost predicate Paced(c: int, views: seq<StripView>)
    decreases |views|
  {
    |views| == 0 || (c <= views[0].count <= c + 1 && Paced(views[0].count, views[1..]))
  }

  /** The mode stays put, no disable command arrives, and nothing would start the
      INTRUSION light again. */
  predicate IntrusionQuiet(v: StripView) {
    v.currentMode == INTRUSION && v.newMode == INTRUSION && !v.disableCommand &&
    !v.doorPir && !v.verandaPir && !v.enableCommand
  }

  /** The mode stays SILENCE, no disable command arrives, and neither the door PIR
      nor a light-on command restarts the light; the veranda PIR may fire. */
  predicate SilenceQuiet(v: StripView) {
    v.currentMode == SILENCE && v.newMode == SILENCE && !v.disableCommand &&
    !v.doorPir && !v.enableCommand
  }

  /** Where an INTRUSION light started at cycle `b` can be when the count is `c`. */
  ghost predicate IntrusionPhase(s: Strip, c: int, b: int) {
    (s.color == WhiteAndRed && s.baseline == b && b <= c <= b + 1) ||
    (s.color == White && s.baseline == b + 2 && b + 2 <= c <= b + 4) ||
    (s.color == NoLight && b + 5 <= c)
  }

  lemma IntrusionPhaseStep(s: Strip, c: int, b: int, v: StripView)
    requires IntrusionPhase(s, c, b) && c <= v.count <= c + 1 && IntrusionQuiet(v)
    ensures IntrusionPhase(StripStep(s, v).strip, v.count, b)
  {
  }

  lemma {:induction false} IntrusionPhases(s: Strip, c: int, b: int, views: seq<StripView>)
    requires IntrusionPhase(s, c, b) && Paced(c, views)
    requires forall k :: 0 <= k < |views| ==> IntrusionQuiet(views[k])
    ensures IntrusionPhase(RunStrip(s, views), LastCount(c, views), b)
    decreases |views|
  {
    if |views| > 0 {
      IntrusionPhaseStep(s, c, b, views[0]);
      IntrusionPhases(StripStep(s, views[0]).strip, views[0].count, b, views[1..]);
    }
  }

  /** An INTRUSION light started at cycle `b` stays on through cycle b+4 and is off
      from cycle b+5, however many calls each cycle sees. */
  lemma IntrusionLightTimeline(b: u16, views: seq<StripView>)
    requires Paced(b, views)
    requires forall k :: 0 <= k < |views| ==> IntrusionQuiet(views[k])
    ensures LastCount(b, views) <= b + 4 ==> RunStrip(Strip(WhiteAndRed, b), views).color != NoLight
    ensures LastCount(b, views) >= b + 5 ==> RunStrip(Strip(WhiteAndRed, b), views).color == NoLight
  {
    IntrusionPhases(Strip(WhiteAndRed, b), b, b, views);
  }

  /** Where a SILENCE light started at cycle `b` can be when the count is `c`. */
  ghost predicate SilencePhase(s: Strip, c: int, b: int) {
    (s.color == White && s.baseline == b && b <= c <= b + 1) ||
    ((s.color == Green || s.color == Blue) && s.baseline == b + 2 && b + 2 <= c <= b + 5) ||
    (s.color == NoLight && b + 6 <= c)
  }

  lemma SilencePhaseStep(s: Strip, c: int, b: int, v: StripView)
    requires SilencePhase(s, c, b) && c <= v.count <= c + 1 && SilenceQuiet(v)
    ensures SilencePhase(StripStep(s, v).strip, v.count, b)
  {
  }

  lemma {:induction false} SilencePhases(s: Strip, c: int, b: int, views: seq<StripView>)
    requires SilencePhase(s, c, b) && Paced(c, views)
    requires forall k :: 0 <= k < |views| ==> SilenceQuiet(views[k])
    ensures SilencePhase(RunStrip(s, views), LastCount(c, views), b)
    decreases |views|
  {
    if |views| > 0 {
      SilencePhaseStep(s, c, b, views[0]);
      SilencePhases(StripStep(s, views[0]).strip, views[0].count, b, views[1..]);
    }
  }

  /** A SILENCE light started at cycle `b` is WHITE through cycle b+1, animates
      GREEN/BLUE through cycle b+5 and is off from cycle b+6, whatever the veranda
      PIR does. */
  lemma SilenceLightTimeline(b: u16, views: seq<StripView>)
    requires Paced(b, views)
    requires forall k :: 0 <= k < |views| ==> SilenceQuiet(views[k])
    ensures LastCount(b, views) <= b + 1 ==> RunStrip(Strip(White, b), views).color == White
    ensures b + 2 <= LastCount(b, views) <= b + 5 ==>
      RunStrip(Strip(White, b), views).color == Green || RunStrip(Strip(White, b), views).color == Blue
    ensures LastCount(b, views) >= b + 6 ==> RunStrip(Strip(White, b), views).color == NoLight
  {
    SilencePhases(Strip(White, b), b, b, views);
  }

  /** A BMP280 reading, already converted to the int32 values the message carries. */
  datatype Reading = Reading(pressureHpa: i32, temperatureC: i32)

  /** The temperature stage samples when strictly more than
      TEMPERATURE_SENSOR_CYCLE_COUNT cycles have passed since its baseline; a count
      below the baseline (a wrap) never samples. */
  function TemperatureDue(baseline: u16, count: u16): (due: bool)
    ensures due <==> baseline + TEMPERATURE_SENSOR_CYCLE_COUNT < count
  {
    ElapsedSince(count, baseline) > TEMPERATURE_SENSOR_CYCLE_COUNT
  }

  /** The temperature baseline afterwards: the count on a sampling cycle, whether or
      not the read succeeded; otherwise the clamped baseline. */
  function TemperatureBaseline(baseline: u16, count: u16): (b: u16)
    ensures b <= count
    ensures TemperatureDue(baseline, count) ==> b == count
    ensures !TemperatureDue(baseline, count) ==> b == Clamp(count, baseline)
  {
    if TemperatureDue(baseline, count) then count else Clamp(count, baseline)
  }

  /** The TEMPERATURE_MSG a successful read produces. */
  function TemperatureMessage(r: Reading): (m: Message)
    ensures m.source == NODE_B02 && m.dests == [NODE_B01] && m.cmdId == UPDATE_TEMPERATURE
    ensures m.value0 == r.pressureHpa && m.value1 == r.temperatureC
  {
    Message(NODE_B02, [NODE_B01], UPDATE_TEMPERATURE, r.pressureHpa, r.temperatureC)
  }

  /** The LIGHT_MSG a PIR-triggered start writes over the slot's old contents; the
      second payload value is not touched. */
  function LightMessage(previous: Message, dests: seq<NodeId>): (m: Message)
    ensures m.source == NODE_B02 && m.dests == dests && m.cmdId == SET_LIGHT && m.value0 == LIGHT_ON
    ensures m.value1 == previous.value1
  {
    previous.(source := NODE_B02, dests := dests, cmdId := SET_LIGHT, value0 := LIGHT_ON)
  }

  /** The slots after the strip stage: LIGHT_MSG posted when the stage notified. */
  function AfterStrip(o: Outbox, notify: Option<seq<NodeId>>): (p: Outbox)
    requires o.Valid()
    ensures p.Valid()
    ensures notify.None? ==> p == o
    ensures notify.Some? ==> p == Post(o, LIGHT_MSG, LightMessage(o.messages[LIGHT_MSG], notify.value))
  {
    if notify.Some? then Post(o, LIGHT_MSG, LightMessage(o.messages[LIGHT_MSG], notify.value)) else o
  }

  /** The slots after the temperature stage: TEMPERATURE_MSG posted only on a
      sampling cycle whose read succeeded. */
  function AfterTemperature(o: Outbox, due: bool, reading: Option<Reading>): (p: Outbox)
    requires o.Valid()
    ensures p.Valid()
    ensures !(due && reading.Some?) ==> p == o
    ensures due && reading.Some? ==> p == Post(o, TEMPERATURE_MSG, TemperatureMessage(reading.value))
  {
    if due && reading.Some? then Post(o, TEMPERATURE_MSG, TemperatureMessage(reading.value)) else o
  }

  /** The long-range PIR gate: its new power state, and the power call made (on is
      `true`), if any. */
  function PirGate(enabled: bool, isDark: bool): (r: (bool, Option<bool>))
    ensures r.0 == isDark
    ensures r.1.Some? <==> enabled != isDark
    ensures r.1.Some? ==> r.1.value == isDark
  {
    if isDark && !enabled then (true, Some(true))
    else if !isDark && enabled then (false, Some(false))
    else (enabled, None)
  }

  /** Running the gate twice in the same light makes no second power call. */
  lemma PirGateIdempotent(enabled: bool, isDark: bool)
    ensures PirGate(PirGate(enabled, isDark).0, isDark).1.None?
  {
  }

  /** The branches of `board_b02_process_light_strip` as the code takes them, on
      the strip state and the view: the new strip state and the destinations of
      the light message, if one is written. */
  method LightStripBranches(s: Strip, v: StripView) returns (color: LightColor, baseline: u16, notify: Option<seq<NodeId>>)
    ensures StripStep(s, v) == StripOutcome(Strip(color, baseline), notify)
  {
    var count := v.count;
    color, baseline := s.color, s.baseline;
    if count < baseline {
      baseline := count;
    }
    notify := None;
    if v.currentMode == ALARM {
      if baseline != count {
        if v.isDark {
          if color != WhiteAndRed {
            color := WhiteAndRed;
          } else {
            color := White;
          }
        } else {
          if color != Red {
            color := Red;
          } else {
            color := NoLight;
          }
        }
        baseline := count;
      }
    } else if v.currentMode == INTRUSION {
      if color != WhiteAndRed && color != White {
        var isPirInterrupt := v.doorPir || v.verandaPir;
        var isTimeToStart := v.isDark && (isPirInterrupt || v.enableCommand);
        if isTimeToStart {
          color := WhiteAndRed;
          baseline := count;
          if isPirInterrupt {
            notify := Some([NODE_B01, NODE_T01]);
          }
        }
      } else if color != White {
        if count - baseline > INTRUSION_WHITE_AND_RED_CYCLE_COUNT {
          color := White;
          baseline := count;
        }
      } else {
        if count - baseline > INTRUSION_WHITE_CYCLE_COUNT {
          color := NoLight;
          baseline := count;
        }
      }
    } else if v.currentMode == SILENCE {
      if color != White {
        var isTimeToStart := v.isDark && (v.doorPir || v.enableCommand);
        if isTimeToStart {
          color := White;
          baseline := count;
          if v.doorPir {
            notify := Some([NODE_T01]);
          }
        } else if count - baseline > SILENCE_GREEN_BLUE_CYCLE_COUNT {
          color := NoLight;
          baseline := count;
        } else if color == Blue {
          color := Green;
        } else if color == Green {
          color := Blue;
        }
      } else {
        if count - baseline > SILENCE_WHITE_CYCLE_COUNT {
          color := Green;
          baseline := count;
        }
      }
    }
    if v.currentMode != v.newMode || v.disableCommand {
      color := NoLight;
    }
  }

  /** The registration id of `board_b02_pcint_16_ISR` in the port D registry. */
  const VERANDA_PIR_CALLBACK: CallbackId := 16

  /** The module statics of board_b02.c, including the two function-static
      baselines `prev_cycle_count`. */
  datatype B02State = B02State(
    isInt1Interrupt: bool, isPcint16Interrupt: bool,
    isDoorPirInterrupt: bool, isVerandaPirInterrupt: bool,
    currentLightColor: LightColor, isLongRangePirEnabled: bool,
    stripBaseline: u16, temperatureBaseline: u16)

  function StripViewOf(basic: BasicState, doorPir: bool, verandaPir: bool): (v: StripView)
    reads basic
  {
    StripView(basic.globalCycleCount, basic.isDark, basic.currentMode, basic.newMode,
              basic.isEnableLightCommand, basic.isDisableLightCommand, doorPir, verandaPir)
  }

  class B02 {
    /** Set by the INT1 (door PIR) and PCINT16 (veranda PIR) handlers. */
    var isInt1Interrupt: bool
    var isPcint16Interrupt: bool
    /** The latches as snapshotted for the current iteration. */
    var isDoorPirInterrupt: bool
    var isVerandaPirInterrupt: bool
    var currentLightColor: LightColor
    var isLongRangePirEnabled: bool
    var stripBaseline: u16
    var temperatureBaseline: u16
    /** The port D pin-change registry the veranda PIR is registered with. */
    const portD: Registry

    function State(): (st: B02State)
      reads this
    {
      B02State(isInt1Interrupt, isPcint16Interrupt, isDoorPirInterrupt, isVerandaPirInterrupt,
               currentLightColor, isLongRangePirEnabled, stripBaseline, temperatureBaseline)
    }

    ghost predicate Valid()
      reads this, portD, portD.configArray
    {
      portD.layout == PORT_D && portD.Valid()
    }

    /** Program start and `board_b02_init`: latches clear, strip off, long-range PIR
      unpowered, both baselines zero, and the veranda PIR registered on PCINT16
      without pull-up. */
    constructor ()
      ensures Valid() && fresh(portD) && fresh(portD.configArray) && fresh(portD.previousStateArray)
      ensures State() == B02State(false, false, false, false, NoLight, false, 0, 0)
      ensures portD.configArray[PCINT_D_16] == Entry(PCINT_D_16, false, Some(VERANDA_PIR_CALLBACK))
      ensures portD.configArray[PCINT_D_21].callback.None?
      ensures portD.previousStateArray[PCINT_D_16] == Unknown
      ensures portD.mask[0] && portD.portEnabled
    {
      isInt1Interrupt, isPcint16Interrupt := false, false;
      isDoorPirInterrupt, isVerandaPirInterrupt := false, false;
      currentLightColor := NoLight;
      isLongRangePirEnabled := false;
      stripBaseline, temperatureBaseline := 0, 0;
      portD := new Registry(PORT_D);
      new;
      portD.Init();
      portD.Add(PinConfig(PCINT_D_16, false, VERANDA_PIR_CALLBACK));
    }

    /** `board_b02_is_interrupt`: a PIR edge is latched and not yet processed. */
    function IsInterrupt(): (pending: bool)
      reads this
      ensures pending <==> State().isInt1Interrupt || State().isPcint16Interrupt
    {
      isInt1Interrupt || isPcint16Interrupt
    }

    /** `board_b02_int_1_ISR`: latch the door (or long-range) PIR edge. */
    method Int1Isr()
      modifies this
      ensures State() == old(State()).(isInt1Interrupt := true)
    {
      isInt1Interrupt := true;
    }

    /** `board_b02_pcint_16_ISR`: latch the veranda PIR only on a rising level. */
    method Pcint16Isr(level: Level)
      modifies this
      ensures State() == old(State()).(isPcint16Interrupt := old(isPcint16Interrupt) || level == High)
    {
      if level == High {
        isPcint16Interrupt := true;
      }
    }

    /** `ISR(PCINT2_vect)` delivering to this board: the registry decides which
      callbacks fire, and each call of the veranda callback reaches `Pcint16Isr`. */
    method OnPortDPinChange(pind: Register) returns (fired: seq<(CallbackId, Level)>)
      requires Valid()
      modifies this, portD.previousStateArray
      ensures Valid()
      ensures fired == FiredUpTo(portD.configArray[..], Samples(PORT_D, portD.configArray[..], pind),
                                 old(portD.previousStateArray[..]), portD.configArray.Length)
      ensures State() == old(State()).(isPcint16Interrupt :=
        old(isPcint16Interrupt) || (VERANDA_PIR_CALLBACK, High) in fired)
    {
      fired := portD.Dispatch(pind);
      for k := 0 to |fired|
        invariant State() == old(State()).(isPcint16Interrupt :=
          old(isPcint16Interrupt) || (VERANDA_PIR_CALLBACK, High) in fired[..k])
      {
        if fired[k].0 == VERANDA_PIR_CALLBACK {
          Pcint16Isr(fired[k].1);
        }
        assert fired[..k + 1] == fired[..k] + [fired[k]];
      }
      assert fired[..|fired|] == fired;
    }

    /** `board_b02_process_light_strip`. */
    method ProcessLightStrip(basic: BasicState, extra: ExtraState)
      requires extra.Valid()
      modifies this, extra, extra.sendMsgArray, extra.sendMsgRetryCount
      ensures extra.Valid()
      ensures var o := StripStep(Strip(old(currentLightColor), old(stripBaseline)),
                                 StripViewOf(basic, isDoorPirInterrupt, isVerandaPirInterrupt));
        State() == old(State()).(currentLightColor := o.strip.color, stripBaseline := o.strip.baseline) &&
        extra.Slots() == AfterStrip(old(extra.Slots()), o.notify)
      ensures extra.isLightOn == old(extra.isLightOn)
    {
      var color, baseline, notify := LightStripBranches(
        Strip(currentLightColor, stripBaseline), StripViewOf(basic, isDoorPirInterrupt, isVerandaPirInterrupt));
      if notify.Some? {
        extra.PostMessage(LIGHT_MSG, LightMessage(extra.sendMsgArray[LIGHT_MSG], notify.value));
      }
      currentLightColor, stripBaseline := color, baseline;
    }

    /** `board_b02_process_temperature_sensor`, with the sensor read's outcome as
      `reading` (None when the read fails); it is consulted only on a sampling
      cycle. */
    method ProcessTemperatureSensor(basic: BasicState, extra: ExtraState, reading: Option<Reading>)
      requires extra.Valid()
      modifies this, extra, extra.sendMsgArray, extra.sendMsgRetryCount
      ensures extra.Valid()
      ensures State() == old(State()).(temperatureBaseline :=
        TemperatureBaseline(old(temperatureBaseline), basic.globalCycleCount))
      ensures extra.Slots() ==
        AfterTemperature(old(extra.Slots()), TemperatureDue(old(temperatureBaseline), basic.globalCycleCount), reading)
      ensures extra.isLightOn == old(extra.isLightOn)
    {
      if basic.globalCycleCount < temperatureBaseline {
        temperatureBaseline := basic.globalCycleCount;
      }
      var isMeasuringCycle := basic.globalCycleCount - temperatureBaseline > TEMPERATURE_SENSOR_CYCLE_COUNT;
      if isMeasuringCycle {
        if reading.Some? {
          extra.PostMessage(TEMPERATURE_MSG, TemperatureMessage(reading.value));
        }
        temperatureBaseline := basic.globalCycleCount;
      }
    }

    /** The atomic snapshot at the head of `board_b02_process`: move both ISR
      latches into the iteration's PIR flags and clear them. */
    method LatchPirInterrupts()
      modifies this
      ensures State() == old(State()).(isDoorPirInterrupt := old(isInt1Interrupt), isVerandaPirInterrupt := old(isPcint16Interrupt),
                                       isInt1Interrupt := false, isPcint16Interrupt := false)
    {
      isDoorPirInterrupt := isInt1Interrupt;
      isVerandaPirInterrupt := isPcint16Interrupt;
      isInt1Interrupt := false;
      isPcint16Interrupt := false;
    }

    /** The long-range PIR gate of `board_b02_process`, with
      `board_b02_power_on_long_range_pir` and `board_b02_power_off_long_range_pir`:
      `powerCall` is the switch made, if any. */
    method GateLongRangePir(isDark: bool) returns (powerCall: Option<bool>)
      modifies this
      ensures State() == old(State()).(isLongRangePirEnabled := PirGate(old(isLongRangePirEnabled), isDark).0)
      ensures powerCall == PirGate(old(isLongRangePirEnabled), isDark).1
    {
      powerCall := None;
      if isDark && !isLongRangePirEnabled {
        isLongRangePirEnabled := true;
        powerCall := Some(true);
      } else if !isDark && isLongRangePirEnabled {
        isLongRangePirEnabled := false;
        powerCall := Some(false);
      }
    }

    /** `board_b02_process`: snapshot and clear the PIR latches, run the strip and
      temperature stages, gate the long-range PIR on darkness, and report whether
      the strip is lit. `powerCall` is the power switch made, if any. */
    method Process(basic: BasicState, extra: ExtraState, reading: Option<Reading>) returns (powerCall: Option<bool>)
      requires extra.Valid()
      modifies this, extra, extra.sendMsgArray, extra.sendMsgRetryCount
      ensures extra.Valid()
      ensures var o := StripStep(Strip(old(currentLightColor), old(stripBaseline)),
                                 StripViewOf(basic, old(isInt1Interrupt), old(isPcint16Interrupt)));
        var due := TemperatureDue(old(temperatureBaseline), basic.globalCycleCount);
        State() == B02State(false, false, old(isInt1Interrupt), old(isPcint16Interrupt),
                            o.strip.color, basic.isDark, o.strip.baseline,
                            TemperatureBaseline(old(temperatureBaseline), basic.globalCycleCount)) &&
        extra.Slots() == AfterTemperature(AfterStrip(old(extra.Slots()), o.notify), due, reading) &&
        extra.isLightOn == (o.strip.color != NoLight)
      ensures powerCall == PirGate(old(isLongRangePirEnabled), basic.isDark).1
      ensures !IsInterrupt()
    {
      LatchPirInterrupts();
      ProcessLightStrip(basic, extra);
      ProcessTemperatureSensor(basic, extra, reading);
      powerCall := GateLongRangePir(basic.isDark);
      extra.isLightOn := currentLightColor != NoLight;
    }
  }
}
