/**
  The thermostat accessory. Its behaviour depends on the device type, resolved once at
  construction into a capability record.
 */
module Thermostat {
  import opened Wrappers
  import opened DeviceStates
  import opened HomeKit
  import opened MiniSafe

  /** The four values the constructor derives from the device type. */
  datatype Capabilities = Capabilities(
    hasHeatingCoolingState: bool,
    hasHumiditySensor: bool,
    allowChange: bool,
    setTemperatureCommand: string)

  /**
    Only eltako_fhk reports a heating/cooling mode, only the two eltako_futh types a
    humidity, only eltako_tf_thermo is read-only, and only a5-20-04 uses the "setTo" verb.
   */
  function CapabilitiesOf(deviceType: string): (caps: Capabilities)
    ensures caps.hasHeatingCoolingState <==> deviceType == "eltako_fhk"
    ensures caps.hasHumiditySensor <==> deviceType == "eltako_futh" || deviceType == "eltako_futh_old"
    ensures caps.allowChange <==> deviceType != "eltako_tf_thermo"
    ensures caps.setTemperatureCommand == (if deviceType == "a5-20-04" then "setTo" else "tempTo")
    // consequences a caller can rely on: no type has two of the optional features
    ensures caps.hasHeatingCoolingState ==> caps.allowChange && !caps.hasHumiditySensor
    ensures caps.setTemperatureCommand == "setTo" ==> caps.allowChange && !caps.hasHeatingCoolingState && !caps.hasHumiditySensor
  {
    Capabilities(
      deviceType == "eltako_fhk",
      deviceType == "eltako_futh" || deviceType == "eltako_futh_old",
      deviceType != "eltako_tf_thermo",
      if deviceType == "a5-20-04" then "setTo" else "tempTo")
  }

  /** The characteristics the constructor gives a get handler. */
  function GetHandlers(caps: Capabilities): (hs: set<Characteristic>)
    ensures CurrentHeatingCoolingState in hs <==> caps.hasHeatingCoolingState
    ensures CurrentRelativeHumidity in hs <==> caps.hasHumiditySensor
    ensures {CurrentTemperature, TargetHeatingCoolingState, TargetTemperature, TemperatureDisplayUnits} <= hs
    ensures hs <= {CurrentTemperature, CurrentHeatingCoolingState, TargetHeatingCoolingState,
                   TargetTemperature, TemperatureDisplayUnits, CurrentRelativeHumidity}
  {
    {CurrentTemperature, TargetHeatingCoolingState, TargetTemperature, TemperatureDisplayUnits}
    + (if caps.hasHeatingCoolingState then {CurrentHeatingCoolingState} else {})
    + (if caps.hasHumiditySensor then {CurrentRelativeHumidity} else {})
  }

  /**
    The characteristics the constructor gives a set handler: none on a read-only type;
    the current mode only when the type reports one; every writable one is also readable.
   */
  function SetHandlers(caps: Capabilities): (hs: set<Characteristic>)
    ensures !caps.allowChange ==> hs == {}
    ensures CurrentHeatingCoolingState in hs <==> caps.hasHeatingCoolingState && caps.allowChange
    ensures TargetHeatingCoolingState in hs <==> caps.allowChange
    ensures TargetTemperature in hs <==> caps.allowChange
    ensures hs <= {CurrentHeatingCoolingState, TargetHeatingCoolingState, TargetTemperature}
    ensures hs <= GetHandlers(caps)
  {
    if !caps.allowChange then {}
    else {TargetHeatingCoolingState, TargetTemperature}
         + (if caps.hasHeatingCoolingState then {CurrentHeatingCoolingState} else {})
  }

  /** The `temperature` field of the first record with this sid, passed through; 0 when absent. */
  function GetCurrentTemperature(sid: string, cache: seq<DeviceState>): (r: Value)
    ensures forall i :: FirstMatch(cache, sid, i) && "temperature" in cache[i].state ==> r == cache[i].state["temperature"]
    ensures (forall i :: FirstMatch(cache, sid, i) ==> "temperature" !in cache[i].state) ==> r == Num(0)
  {
    Lookup(cache, sid, "temperature").GetOr(Num(0))
  }

  /**
    Off exactly when the first record with this sid has `operation_mode` "off"; otherwise,
    a missing record or field included, Heat. Cool and Auto are never reported.
   */
  function GetCurrentHeatingCoolingState(sid: string, cache: seq<DeviceState>): (r: HeatingCoolingMode)
    ensures r == Off || r == Heat
    ensures r == Off <==>
      exists i :: FirstMatch(cache, sid, i) && cache[i].Get("operation_mode") == Some(Str("off"))
    ensures NoMatch(cache, sid) ==> r == Heat
  {
    var mode := Lookup(cache, sid, "operation_mode").GetOr(Str(""));
    if mode == Str("off") then Off else Heat
  }

  /** The target mode is never tracked on its own: it always reads as the current mode. */
  function GetTargetHeatingCoolingState(sid: string, cache: seq<DeviceState>): (r: HeatingCoolingMode)
    ensures r == GetCurrentHeatingCoolingState(sid, cache)
    ensures r == Off <==>
      exists i :: FirstMatch(cache, sid, i) && cache[i].Get("operation_mode") == Some(Str("off"))
  {
    GetCurrentHeatingCoolingState(sid, cache)
  }

  /** The `setpoint` field of the first record with this sid, passed through; 0 when absent. */
  function GetTargetTemperature(sid: string, cache: seq<DeviceState>): (r: Value)
    ensures forall i :: FirstMatch(cache, sid, i) && "setpoint" in cache[i].state ==> r == cache[i].state["setpoint"]
    ensures (forall i :: FirstMatch(cache, sid, i) ==> "setpoint" !in cache[i].state) ==> r == Num(0)
  {
    Lookup(cache, sid, "setpoint").GetOr(Num(0))
  }

  /** Always Celsius, whatever the cache holds. */
  function GetTemperatureDisplayUnits(): (u: DisplayUnits)
    ensures u == Celsius
  {
    Celsius
  }

  /** The `humidity` field of the first record with this sid, passed through; 0 when absent. */
  function GetCurrentRelativeHumidity(sid: string, cache: seq<DeviceState>): (r: Value)
    ensures forall i :: FirstMatch(cache, sid, i) && "humidity" in cache[i].state ==> r == cache[i].state["humidity"]
    ensures (forall i :: FirstMatch(cache, sid, i) ==> "humidity" !in cache[i].state) ==> r == Num(0)
  {
    Lookup(cache, sid, "humidity").GetOr(Num(0))
  }

  /** What the get handler bound to `c` answers; `None` when the constructor bound none to `c`. */
  function Read(caps: Capabilities, c: Characteristic, sid: string, cache: seq<DeviceState>): (r: Option<CharValue>)
    ensures r.Some? <==> c in GetHandlers(caps)
  {
    match c
    case CurrentTemperature => Some(OfValue(GetCurrentTemperature(sid, cache)))
    case CurrentHeatingCoolingState =>
      if caps.hasHeatingCoolingState then Some(OfMode(GetCurrentHeatingCoolingState(sid, cache))) else None
    case TargetHeatingCoolingState => Some(OfMode(GetTargetHeatingCoolingState(sid, cache)))
    case TargetTemperature => Some(OfValue(GetTargetTemperature(sid, cache)))
    case TemperatureDisplayUnits => Some(OfUnits(GetTemperatureDisplayUnits()))
    case CurrentRelativeHumidity =>
      if caps.hasHumiditySensor then Some(OfValue(GetCurrentRelativeHumidity(sid, cache))) else None
    case _ => None
  }

  /**
    The values one `update()` pushes, in order. Every readable characteristic is pushed with
    what its get handler answers. The current mode is pushed even on a type that gives it no
    get handler; humidity only on a type that reads it.
   */
  function UpdatePushes(caps: Capabilities, sid: string, cache: seq<DeviceState>): (ps: seq<Push>)
    ensures Characteristics(ps) ==
      [CurrentTemperature, CurrentHeatingCoolingState, TargetHeatingCoolingState, TargetTemperature, TemperatureDisplayUnits]
      + (if caps.hasHumiditySensor then [CurrentRelativeHumidity] else [])
  {
    [ Push(CurrentTemperature, OfValue(GetCurrentTemperature(sid, cache))),
      Push(CurrentHeatingCoolingState, OfMode(GetCurrentHeatingCoolingState(sid, cache))),
      Push(TargetHeatingCoolingState, OfMode(GetTargetHeatingCoolingState(sid, cache))),
      Push(TargetTemperature, OfValue(GetTargetTemperature(sid, cache))),
      Push(TemperatureDisplayUnits, OfUnits(GetTemperatureDisplayUnits())) ]
    + (if caps.hasHumiditySensor then [Push(CurrentRelativeHumidity, OfValue(GetCurrentRelativeHumidity(sid, cache)))] else [])
  }

  /** The `k`-th push of `update()` against the get handler of its characteristic. */
  lemma UpdatePushAgainstHandler(caps: Capabilities, sid: string, cache: seq<DeviceState>, k: nat)
    requires k < |UpdatePushes(caps, sid, cache)|
    ensures var p := UpdatePushes(caps, sid, cache)[k];
      if p.c in GetHandlers(caps) then Read(caps, p.c, sid, cache) == Some(p.v)
      else !caps.hasHeatingCoolingState && p == Push(CurrentHeatingCoolingState, OfMode(GetCurrentHeatingCoolingState(sid, cache)))
  {
  }

  /**
    `update()` against the get handlers: every readable characteristic is pushed, each with
    what its handler answers; the one push without a handler is the current mode on a type
    that does not read it, and it carries the current-mode reading all the same.
   */
  lemma UpdateReportsHandlers(caps: Capabilities, sid: string, cache: seq<DeviceState>)
    ensures var ps := UpdatePushes(caps, sid, cache);
      && (forall c :: c in GetHandlers(caps) ==> c in Characteristics(ps))
      && (forall k :: 0 <= k < |ps| && ps[k].c in GetHandlers(caps) ==> Read(caps, ps[k].c, sid, cache) == Some(ps[k].v))
      && (forall k :: 0 <= k < |ps| && ps[k].c !in GetHandlers(caps) ==>
            !caps.hasHeatingCoolingState &&
            ps[k] == Push(CurrentHeatingCoolingState, OfMode(GetCurrentHeatingCoolingState(sid, cache))))
  {
    var ps := UpdatePushes(caps, sid, cache);
    var hs := GetHandlers(caps);
    var cs := Characteristics(ps);
    forall c | c in hs ensures c in cs {
      assert c == CurrentTemperature || c == CurrentHeatingCoolingState || c == TargetHeatingCoolingState
        || c == TargetTemperature || c == TemperatureDisplayUnits || c == CurrentRelativeHumidity;
    }
    forall k | 0 <= k < |ps| ensures ps[k].c in hs ==> Read(caps, ps[k].c, sid, cache) == Some(ps[k].v) {
      UpdatePushAgainstHandler(caps, sid, cache, k);
    }
    forall k | 0 <= k < |ps| && ps[k].c !in hs
      ensures !caps.hasHeatingCoolingState
      ensures ps[k] == Push(CurrentHeatingCoolingState, OfMode(GetCurrentHeatingCoolingState(sid, cache)))
    {
      UpdatePushAgainstHandler(caps, sid, cache, k);
    }
  }

  /** The one command a heating/cooling write sends: `operation_mode` "off" for Off, "on" for any other mode. */
  function OperationModeCommand(sid: string, value: HeatingCoolingMode): (cmd: Command)
    ensures cmd.WithValue? && cmd.sid == sid && cmd.field == "operation_mode"
    ensures cmd.value == "off" <==> value == Off
    ensures cmd.value == "on" <==> value != Off
  {
    WithValue(sid, "operation_mode", if value == Off then "off" else "on")
  }

  /** The one command a target-temperature write sends: the verb followed by the value's decimal text. */
  function TargetTemperatureCommand(verb: string, sid: string, value: int): (cmd: Command)
    ensures cmd.Opaque? && cmd.sid == sid
    ensures |verb| < |cmd.command| && cmd.command[..|verb|] == verb
    ensures cmd.command[|verb|..] == IntToDecimal(value)
    ensures ParseDecimal(cmd.command[|verb|..]) == Some(value)
  {
    var text := IntToDecimal(value);
    var command := verb + text;
    assert command[..|verb|] == verb && command[|verb|..] == text;
    IntDecimalRoundTrip(value);
    Opaque(sid, command)
  }

  /** Writing 21 sends "setTo21" to an a5-20-04 and "tempTo21" to every other type. */
  lemma TargetTemperatureCommandExamples(sid: string)
    ensures TargetTemperatureCommand(CapabilitiesOf("a5-20-04").setTemperatureCommand, sid, 21) == Opaque(sid, "setTo21")
    ensures TargetTemperatureCommand(CapabilitiesOf("eltako_fhk").setTemperatureCommand, sid, 21) == Opaque(sid, "tempTo21")
  {
  }

  /**
    A target-temperature command tells apart the device types by its verb and the written
    values by its text: a5-20-04 commands start with "setTo", all others with "tempTo",
    and two writes on the same device send the same command only for the same value.
   */
  lemma TargetTemperatureCommandDetermined(deviceType: string, sid: string, a: int, b: int)
    ensures var verb := CapabilitiesOf(deviceType).setTemperatureCommand;
      && (TargetTemperatureCommand(verb, sid, a).command[0] == 's' <==> deviceType == "a5-20-04")
      && (TargetTemperatureCommand(verb, sid, a) == TargetTemperatureCommand(verb, sid, b) <==> a == b)
  {
  }

  class EltakoThermostatAccessory {
    const sid: string
    const caps: Capabilities
    const service: Service
    const gateway: Gateway

    /**
      Derives the capabilities from the device type and registers the handlers they allow:
      a get handler on every readable characteristic, a set handler on every writable one.
     */
    constructor (deviceType: string, sid: string, service: Service, gateway: Gateway)
      modifies service
      ensures this.sid == sid && this.caps == CapabilitiesOf(deviceType)
      ensures this.service == service && this.gateway == gateway
      ensures service.getHandlers == old(service.getHandlers) + GetHandlers(caps)
      ensures service.setHandlers == old(service.setHandlers) + SetHandlers(caps)
      ensures service.pushes == old(service.pushes)
    {
      this.sid := sid;
      this.caps := CapabilitiesOf(deviceType);
      this.service := service;
      this.gateway := gateway;
      new;
      service.OnGet(CurrentTemperature);
      if caps.hasHeatingCoolingState {
        service.OnGet(CurrentHeatingCoolingState);
        if caps.allowChange {
          service.OnSet(CurrentHeatingCoolingState);
        }
      }
      service.OnGet(TargetHeatingCoolingState);
      if caps.allowChange {
        service.OnSet(TargetHeatingCoolingState);
      }
      service.OnGet(TargetTemperature);
      if caps.allowChange {
        service.OnSet(TargetTemperature);
      }
      service.OnGet(TemperatureDisplayUnits);
      if caps.hasHumiditySensor {
        service.OnGet(CurrentRelativeHumidity);
      }
    }

    /** Sends exactly one `operation_mode` command and nothing else. */
    method SetCurrentHeatingCoolingState(value: HeatingCoolingMode)
      modifies gateway
      ensures gateway.sent == old(gateway.sent) + [OperationModeCommand(sid, value)]
    {
      var operationMode := if value == Off then "off" else "on";
      gateway.SendGenericCommandWithValue(sid, "operation_mode", operationMode);
    }

    /** Delegates to the current-mode setter: both writes send the same single command. */
    method SetTargetHeatingCoolingState(value: HeatingCoolingMode)
      modifies gateway
      ensures gateway.sent == old(gateway.sent) + [OperationModeCommand(sid, value)]
    {
      SetCurrentHeatingCoolingState(value);
    }

    /** Sends exactly one opaque command: the device type's verb followed by the value. */
    method SetTargetTemperature(value: int)
      modifies gateway
      ensures gateway.sent == old(gateway.sent) + [TargetTemperatureCommand(caps.setTemperatureCommand, sid, value)]
    {
      var command := caps.setTemperatureCommand + IntToDecimal(value);
      gateway.SendGenericCommand(sid, command);
    }

    /** Pushes every reading in the order `UpdatePushes` gives; sends no command. */
    method Update(cache: seq<DeviceState>)
      modifies service
      ensures service.pushes == old(service.pushes) + UpdatePushes(caps, sid, cache)
      ensures service.getHandlers == old(service.getHandlers)
      ensures service.setHandlers == old(service.setHandlers)
      ensures gateway.sent == old(gateway.sent)
    {
      ghost var before := service.pushes;
      var temperature := OfValue(GetCurrentTemperature(sid, cache));
      var mode := OfMode(GetCurrentHeatingCoolingState(sid, cache));
      var targetMode := OfMode(GetTargetHeatingCoolingState(sid, cache));
      var setpoint := OfValue(GetTargetTemperature(sid, cache));
      var units := OfUnits(GetTemperatureDisplayUnits());
      service.UpdateValue(CurrentTemperature, temperature);
      service.UpdateValue(CurrentHeatingCoolingState, mode);
      service.UpdateValue(TargetHeatingCoolingState, targetMode);
      service.UpdateValue(TargetTemperature, setpoint);
      service.UpdateValue(TemperatureDisplayUnits, units);
      ghost var always := [ Push(CurrentTemperature, temperature), Push(CurrentHeatingCoolingState, mode),
        Push(TargetHeatingCoolingState, targetMode), Push(TargetTemperature, setpoint),
        Push(TemperatureDisplayUnits, units) ];
      assert service.pushes == before + always;
      ghost var optional := if caps.hasHumiditySensor
        then [Push(CurrentRelativeHumidity, OfValue(GetCurrentRelativeHumidity(sid, cache)))] else [];
      assert UpdatePushes(caps, sid, cache) == always + optional;
      if caps.hasHumiditySensor {
        service.UpdateValue(CurrentRelativeHumidity, OfValue(GetCurrentRelativeHumidity(sid, cache)));
      }
      assert service.pushes == before + always + optional;
    }
  }
}
