/** The common regulator layer: reference-counted enable and disable in
    front of the driver, and the checks made on voltage, current-limit and
    mode requests before they are handed to the driver.  The driver's
    operations are not modelled: whether the driver provides each one is part
    of `DriverApi`, and what a call returns is a parameter. */
module Regulator {
  import opened Errno

  /** `regulator_mode_t`, an 8-bit mode number. */
  type Mode = x: int | 0 <= x < 0x100

  /** `struct regulator_common_config`: the flags REGULATOR_ALWAYS_ON and
      REGULATOR_INIT_ENABLED, the allowed voltage window (microvolts), the
      allowed current-limit window (microamps) and the allowed modes
      (`allowed_modes[0 .. allowed_modes_cnt)`). */
  datatype Config = Config(
    alwaysOn: bool, initEnabled: bool,
    minUv: int, maxUv: int, minUa: int, maxUa: int,
    allowedModes: seq<Mode>)

  /** Which of the driver's optional operations are provided (not NULL). */
  datatype DriverApi = DriverApi(enable: bool, disable: bool, setVoltage: bool, setCurrentLimit: bool, setMode: bool)

  /** The conversion C makes when an `int` is returned from a `bool` function. */
  function AsBool(v: int): bool
  {
    v != 0
  }

  // ---------------------------------------------------------------------------
  // Read-only checks

  /** The search over the listed voltages from index `idx` on: is one of
      them strictly between `minUv` and `maxUv`? */
  function ListsVoltageWithin(volts: seq<int>, minUv: int, maxUv: int, idx: nat): (found: bool)
    requires idx <= |volts|
    ensures found <==> exists i :: idx <= i < |volts| && minUv < volts[i] < maxUv
    decreases |volts| - idx
  {
    if idx == |volts| then false
    else if minUv < volts[idx] && volts[idx] < maxUv then true
    else ListsVoltageWithin(volts, minUv, maxUv, idx + 1)
  }

  /** `regulator_is_supported_voltage`; `volts` are the levels the driver
      lists for indices 0 .. count-1.  A request outside the configured
      window returns -EINVAL from a `bool` function, which reads as true. */
  function IsSupportedVoltage(cfg: Config, volts: seq<int>, minUv: int, maxUv: int): (r: bool)
    ensures minUv < cfg.minUv || maxUv > cfg.maxUv ==> r
    ensures cfg.minUv <= minUv && maxUv <= cfg.maxUv ==>
      (r <==> exists i :: 0 <= i < |volts| && minUv < volts[i] < maxUv)
  {
    if minUv < cfg.minUv || maxUv > cfg.maxUv then AsBool(-EINVAL)
    else ListsVoltageWithin(volts, minUv, maxUv, 0)
  }

  /** What the common layer does with a request: reject it with an error
      code, or hand it unchanged to the driver's operation. */
  datatype Request = Reject(err: int) | Forward

  /** The value the C function returns, given what the driver's operation
      returned when it was called. */
  function ReturnCode(q: Request, driverRet: int): int
  {
    if q.Reject? then q.err else driverRet
  }

  /** The checks shared by the voltage and current-limit requests, in order:
      the operation must exist, then `[min, max]` must lie in `[lo, hi]`. */
  function RangeRequest(hasOp: bool, lo: int, hi: int, min: int, max: int): (q: Request)
    ensures !hasOp ==> q == Reject(-ENOSYS)
    ensures hasOp ==> (q == Forward <==> lo <= min && max <= hi)
    ensures hasOp && q != Forward ==> q == Reject(-EINVAL)
  {
    if !hasOp then Reject(-ENOSYS)
    else if min < lo || max > hi then Reject(-EINVAL)
    else Forward
  }

  /** `regulator_set_voltage`. */
  function SetVoltage(cfg: Config, api: DriverApi, minUv: int, maxUv: int): (q: Request)
    ensures q == Forward <==> api.setVoltage && cfg.minUv <= minUv && maxUv <= cfg.maxUv
    ensures q != Forward ==> q == Reject(if api.setVoltage then -EINVAL else -ENOSYS)
  {
    RangeRequest(api.setVoltage, cfg.minUv, cfg.maxUv, minUv, maxUv)
  }

  /** `regulator_set_current_limit`. */
  function SetCurrentLimit(cfg: Config, api: DriverApi, minUa: int, maxUa: int): (q: Request)
    ensures q == Forward <==> api.setCurrentLimit && cfg.minUa <= minUa && maxUa <= cfg.maxUa
    ensures q != Forward ==> q == Reject(if api.setCurrentLimit then -EINVAL else -ENOSYS)
  {
    RangeRequest(api.setCurrentLimit, cfg.minUa, cfg.maxUa, minUa, maxUa)
  }

  /** The search over the allowed modes from index `i` on. */
  function ModeListed(modes: seq<Mode>, mode: Mode, i: nat): (found: bool)
    requires i <= |modes|
    ensures found <==> mode in modes[i..]
    decreases |modes| - i
  {
    if i == |modes| then false
    else if mode == modes[i] then true
    else ModeListed(modes, mode, i + 1)
  }

  /** `regulator_set_mode`: with no allowed modes configured every mode is
      handed to the driver. */
  function SetMode(cfg: Config, api: DriverApi, mode: Mode): (q: Request)
    ensures q == Forward <==> api.setMode && (|cfg.allowedModes| == 0 || mode in cfg.allowedModes)
    ensures q != Forward ==> q == Reject(if api.setMode then -ENOTSUP else -ENOSYS)
  {
    if !api.setMode then Reject(-ENOSYS)
    else if |cfg.allowedModes| == 0 then Forward
    else if ModeListed(cfg.allowedModes, mode, 0) then Forward
    else Reject(-ENOTSUP)
  }

  /** A voltage request outside the window reads as supported, yet setting
      it is refused. */
  lemma SupportedButRefused(cfg: Config, api: DriverApi, volts: seq<int>, minUv: int, maxUv: int)
    requires api.setVoltage
    requires minUv < cfg.minUv || maxUv > cfg.maxUv
    ensures IsSupportedVoltage(cfg, volts, minUv, maxUv)
    ensures ReturnCode(SetVoltage(cfg, api, minUv, maxUv), 0) == -EINVAL
  {
  }

  /** The voltage match is strict: a level equal to either bound of the
      request does not make it supported. */
  lemma BoundaryLevelNotSupported(cfg: Config, v: int)
    requires cfg.minUv <= v <= cfg.maxUv
    ensures !IsSupportedVoltage(cfg, [v], v, v)
    ensures SetVoltage(cfg, DriverApi(true, true, true, true, true), v, v) == Forward
  {
  }

  // ---------------------------------------------------------------------------
  // Reference counting

  /** The outcome of one enable or disable: the value returned, the new
      count, and whether the driver's operation was called. */
  datatype Step = Step(ret: int, refcnt: int, driverCalled: bool)

  /** `regulator_enable`, given what the driver's enable returns if called. */
  function EnableStep(cfg: Config, api: DriverApi, refcnt: int, driverRet: int): (s: Step)
    ensures s.driverCalled <==> api.enable && !cfg.alwaysOn && refcnt == 0
    ensures s.ret == (if s.driverCalled then driverRet else 0)
    ensures s.refcnt == refcnt + 1 <==> api.enable && !cfg.alwaysOn && !(s.driverCalled && driverRet < 0)
    ensures s.refcnt == refcnt || s.refcnt == refcnt + 1
  {
    if !api.enable || cfg.alwaysOn then Step(0, refcnt, false)
    else if refcnt + 1 == 1 then
      (if driverRet < 0 then Step(driverRet, refcnt, true) else Step(driverRet, refcnt + 1, true))
    else Step(0, refcnt + 1, false)
  }

  /** `regulator_disable`, given what the driver's disable returns if called.
      Nothing stops the count from going below zero. */
  function DisableStep(cfg: Config, api: DriverApi, refcnt: int, driverRet: int): (s: Step)
    ensures s.driverCalled <==> api.disable && !cfg.alwaysOn && refcnt == 1
    ensures s.ret == (if s.driverCalled then driverRet else 0)
    ensures s.refcnt == refcnt - 1 <==> api.disable && !cfg.alwaysOn && !(s.driverCalled && driverRet < 0)
    ensures s.refcnt == refcnt || s.refcnt == refcnt - 1
  {
    if !api.disable || cfg.alwaysOn then Step(0, refcnt, false)
    else if refcnt - 1 == 0 then
      (if driverRet < 0 then Step(driverRet, refcnt, true) else Step(driverRet, refcnt - 1, true))
    else Step(0, refcnt - 1, false)
  }

  /** `regulator_is_enabled`. */
  function Enabled(cfg: Config, refcnt: int): (on: bool)
    ensures cfg.alwaysOn ==> on
    ensures !cfg.alwaysOn ==> (on <==> refcnt != 0)
  {
    if cfg.alwaysOn then true else refcnt != 0
  }

  /** Which of the driver's two operations a call went to, and what it returned. */
  datatype DriverOp = On | Off
  datatype DriverCall = DriverCall(op: DriverOp, ret: int)

  /** A call to `regulator_enable` or `regulator_disable`, with what the
      driver would return. */
  datatype Action = DoEnable(driverRet: int) | DoDisable(driverRet: int)

  function Apply(cfg: Config, api: DriverApi, refcnt: int, a: Action): Step
  {
    match a
    case DoEnable(d) => EnableStep(cfg, api, refcnt, d)
    case DoDisable(d) => DisableStep(cfg, api, refcnt, d)
  }

  /** The driver call `a` makes, if any. */
  function DriverCalls(a: Action, s: Step): seq<DriverCall>
  {
    if !s.driverCalled then []
    else [DriverCall(if a.DoEnable? then On else Off, a.driverRet)]
  }

  /** The count after a sequence of calls, and the driver calls they made. */
  datatype Trace = Trace(refcnt: int, log: seq<DriverCall>)

  function Replay(cfg: Config, api: DriverApi, refcnt: int, actions: seq<Action>): Trace
    decreases |actions|
  {
    if actions == [] then Trace(refcnt, [])
    else
      var s := Apply(cfg, api, refcnt, actions[0]);
      var t := Replay(cfg, api, s.refcnt, actions[1..]);
      Trace(t.refcnt, DriverCalls(actions[0], s) + t.log)
  }

  /** Every disable is matched by an earlier enable: none is made at count zero or below. */
  ghost predicate Balanced(cfg: Config, api: DriverApi, refcnt: int, actions: seq<Action>)
    decreases |actions|
  {
    actions == [] ||
    ((actions[0].DoDisable? ==> refcnt > 0) &&
     Balanced(cfg, api, Apply(cfg, api, refcnt, actions[0]).refcnt, actions[1..]))
  }

  /** Whether the output is on after the driver calls in `log`, starting
      from `on`: a failed call (negative return) leaves it as it was. */
  function OutputOn(on: bool, log: seq<DriverCall>): bool
    decreases |log|
  {
    if log == [] then on
    else OutputOn(if log[0].ret < 0 then on else log[0].op == On, log[1..])
  }

  /** Every successful driver call switches the output: the driver never sees
      a successful enable while on, nor a successful disable while off. */
  ghost predicate Alternates(on: bool, log: seq<DriverCall>)
    decreases |log|
  {
    log == [] ||
    ((log[0].ret >= 0 ==> (log[0].op == On) == !on) &&
     Alternates(if log[0].ret < 0 then on else log[0].op == On, log[1..]))
  }

  /** One enable or disable on a regulator whose count matches its output
      keeps them matched, and the driver call it makes (if any) switches the
      output. */
  lemma StepKeepsDriverInSync(cfg: Config, api: DriverApi, refcnt: int, on: bool, a: Action)
    requires api.enable && api.disable && !cfg.alwaysOn
    requires refcnt >= 0 && (on <==> refcnt > 0)
    requires a.DoDisable? ==> refcnt > 0
    ensures var s := Apply(cfg, api, refcnt, a);
      var calls := DriverCalls(a, s);
      s.refcnt >= 0 && (OutputOn(on, calls) <==> s.refcnt > 0) && Alternates(on, calls)
  {
  }

  lemma {:induction false} OutputOnAppend(on: bool, log: seq<DriverCall>, rest: seq<DriverCall>)
    ensures OutputOn(on, log + rest) == OutputOn(OutputOn(on, log), rest)
    ensures Alternates(on, log) && Alternates(OutputOn(on, log), rest) ==> Alternates(on, log + rest)
    decreases |log|
  {
    if log == [] {
      assert log + rest == rest;
    } else {
      assert (log + rest)[0] == log[0];
      assert (log + rest)[1..] == log[1..] + rest;
      OutputOnAppend(if log[0].ret < 0 then on else log[0].op == On, log[1..], rest);
    }
  }

  /** Under balanced use of a regulator that is neither always on nor missing
      an operation, the count stays non-negative, `regulator_is_enabled`
      agrees with the output the driver was last successfully told to have,
      and the driver is only ever told to switch the output. */
  lemma {:induction false} ReplayKeepsDriverInSync(cfg: Config, api: DriverApi, refcnt: int, on: bool, actions: seq<Action>)
    requires api.enable && api.disable && !cfg.alwaysOn
    requires refcnt >= 0 && (on <==> refcnt > 0)
    requires Balanced(cfg, api, refcnt, actions)
    ensures var t := Replay(cfg, api, refcnt, actions);
      t.refcnt >= 0 && (Enabled(cfg, t.refcnt) <==> OutputOn(on, t.log)) && Alternates(on, t.log)
    decreases |actions|
  {
    if actions != [] {
      var s := Apply(cfg, api, refcnt, actions[0]);
      var calls := DriverCalls(actions[0], s);
      StepKeepsDriverInSync(cfg, api, refcnt, on, actions[0]);
      ReplayKeepsDriverInSync(cfg, api, s.refcnt, OutputOn(on, calls), actions[1..]);
      var t := Replay(cfg, api, s.refcnt, actions[1..]);
      OutputOnAppend(on, calls, t.log);
    }
  }

  /** With REGULATOR_ALWAYS_ON set, no sequence of calls changes the count or
      reaches the driver. */
  lemma {:induction false} AlwaysOnUntouched(cfg: Config, api: DriverApi, refcnt: int, actions: seq<Action>)
    requires cfg.alwaysOn
    ensures Replay(cfg, api, refcnt, actions) == Trace(refcnt, [])
    decreases |actions|
  {
    if actions != [] {
      AlwaysOnUntouched(cfg, api, refcnt, actions[1..]);
    }
  }

  /** An enable followed by a disable, both reaching a willing driver,
      restores the count. */
  lemma EnableDisableRoundTrip(cfg: Config, api: DriverApi, refcnt: int, e: int, d: int)
    requires api.enable == api.disable
    requires e >= 0 && d >= 0
    ensures DisableStep(cfg, api, EnableStep(cfg, api, refcnt, e).refcnt, d).refcnt == refcnt
  {
  }

  /** A disable at count zero is not refused: the count goes to -1 without
      reaching the driver, `regulator_is_enabled` then reports true although
      the output is off, and the next enable does not reach the driver either. */
  lemma UnbalancedDisable(cfg: Config, api: DriverApi, d: int, e: int)
    requires api.enable && api.disable && !cfg.alwaysOn
    ensures DisableStep(cfg, api, 0, d) == Step(0, -1, false)
    ensures Enabled(cfg, -1) && !OutputOn(false, [])
    ensures EnableStep(cfg, api, -1, e) == Step(0, 0, false)
  {
  }

  // ---------------------------------------------------------------------------
  // The device

  /** A regulator device: its configuration, its driver, and the count kept
      in `struct regulator_common_data`.  `driverLog` records the calls made
      to the driver's enable and disable. */
  class Regulator {
    const config: Config
    const api: DriverApi
    var refcnt: int
    ghost var driverLog: seq<DriverCall>

    constructor (config: Config, api: DriverApi)
      ensures this.config == config && this.api == api
      ensures refcnt == 0 && driverLog == []
    {
      this.config := config;
      this.api := api;
      refcnt := 0;
      driverLog := [];
    }

    /** `regulator_common_data_init`. */
    method DataInit()
      modifies this`refcnt
      ensures refcnt == 0
    {
      refcnt := 0;
    }

    /** `regulator_common_init_enable`.  The driver's enable is called
        without a NULL check, so a regulator configured REGULATOR_INIT_ENABLED
        must have one. */
    method InitEnable(driverRet: int) returns (ret: int)
      requires config.initEnabled ==> api.enable
      modifies this`refcnt, this`driverLog
      ensures !config.initEnabled ==> ret == 0 && refcnt == old(refcnt) && driverLog == old(driverLog)
      ensures config.initEnabled ==> driverLog == old(driverLog) + [DriverCall(On, driverRet)]
      ensures config.initEnabled && driverRet < 0 ==> ret == driverRet && refcnt == old(refcnt)
      ensures config.initEnabled && driverRet >= 0 ==> ret == 0 && refcnt == old(refcnt) + 1
    {
      if config.initEnabled {
        driverLog := driverLog + [DriverCall(On, driverRet)];
        if driverRet < 0 {
          return driverRet;
        }
        refcnt := refcnt + 1;
      }
      return 0;
    }

    /** `regulator_enable`. */
    method Enable(driverRet: int) returns (ret: int)
      modifies this`refcnt, this`driverLog
      ensures var s := EnableStep(config, api, old(refcnt), driverRet);
        ret == s.ret && refcnt == s.refcnt && driverLog == old(driverLog) + DriverCalls(DoEnable(driverRet), s)
    {
      ret := 0;
      if !api.enable {
        return 0;
      }
      if config.alwaysOn {
        return 0;
      }
      refcnt := refcnt + 1;
      if refcnt == 1 {
        ret := driverRet;
        driverLog := driverLog + [DriverCall(On, driverRet)];
        if ret < 0 {
          refcnt := refcnt - 1;
        }
      }
    }

    /** `regulator_disable`. */
    method Disable(driverRet: int) returns (ret: int)
      modifies this`refcnt, this`driverLog
      ensures var s := DisableStep(config, api, old(refcnt), driverRet);
        ret == s.ret && refcnt == s.refcnt && driverLog == old(driverLog) + DriverCalls(DoDisable(driverRet), s)
    {
      ret := 0;
      if !api.disable {
        return 0;
      }
      if config.alwaysOn {
        return 0;
      }
      refcnt := refcnt - 1;
      if refcnt == 0 {
        ret := driverRet;
        driverLog := driverLog + [DriverCall(Off, driverRet)];
        if ret < 0 {
          refcnt := refcnt + 1;
        }
      }
    }

    /** `regulator_is_enabled`. */
    function IsEnabled(): (on: bool)
      reads this
      ensures config.alwaysOn ==> on
      ensures !config.alwaysOn ==> (on <==> refcnt != 0)
    {
      Enabled(config, refcnt)
    }
  }
}
