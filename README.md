# Eltako MiniSafe2 accessories for Homebridge — a Dafny model

The plugin shows Eltako devices behind a MiniSafe2 gateway as HomeKit accessories. The model
covers four of its accessory classes: contact sensor, garage door, motion sensor and thermostat. Each one
finds its device's record in the platform's device-state cache by `sid` and maps a few fields
of that record to HomeKit characteristic values. Each has a default for a missing record or
field. `update()` pushes those values to the host. The thermostat also derives capability
flags from the device type at construction. The flags decide which handlers it registers and
which command verb it uses. Writes to its characteristics become gateway commands.

Layout (one module per file):

- `wrappers.dfy` — `Option`, with `GetOr` for JavaScript's `??`.
- `device_states.dfy` — cache records (`DeviceState`: a sid and a map of field values, with
  strings, integers and booleans kept apart, so comparisons are strict), `Find` (first match,
  like `Array.find`), `Lookup` (`find(...)?.state?.field`), and the ghost predicates
  `FirstMatch` / `NoMatch` that the getters' contracts are stated with.
- `homekit.dfy` — the characteristics, their values as abstract enumerations, and `Service`.
  `Service` is a recording stand-in for the host's service object. It keeps the set of
  characteristics with a get handler, the set with a set handler, and the list of pushed values.
- `minisafe.dfy` — gateway commands and `Gateway`, a recording stand-in for the gateway client
  that keeps every command sent. Also integer-to-text conversion (`String(n)` in JavaScript)
  and its inverse.
- `contact.dfy`, `garage.dfy`, `motion.dfy`, `thermostat.dfy` — one module per accessory.
  Each has its getters as functions (every getter that reads the cache takes `(sid, cache)`), `GetHandlers`/`Read` (the handler table
  the constructor sets up) and `UpdatePushes` (what one `update()` pushes). Each has a class
  whose constructor registers handlers step by step and whose `Update` method pushes values.
  Both are proved against those functions. The thermostat class also has the three setters,
  proved against `OperationModeCommand` and `TargetTemperatureCommand`.

The device-state cache is a parameter of every getter that reads the cache and of `Update`. It is read fresh on
every call, as in the source.

A missing garage record reads as door OPEN (src/EltakoGarageAccessory.ts:34-36).
`update()` pushes in a fixed order, which the model keeps.

## Model

| member | source | states |
|---|---|---|
| `DeviceStates.Find` | src/EltakoContactAccessory.ts:27 | The result is empty exactly when no record has the sid. Otherwise it is the record at the first index whose sid matches. |
| `DeviceStates.Lookup` | src/EltakoThermostatAccessory.ts:86-87 | The field is the named field of the first matching record. It is absent when no record matches or that record lacks the field. |
| `DeviceStates.FindIgnoresLaterRecords` | src/EltakoContactAccessory.ts:27 | Once some record matches, appending records (same-sid duplicates included) never changes what is found. |
| `DeviceStates.FindIgnoresOtherSids` | src/EltakoMotionAccessory.ts:26 | Inserting a record with another sid anywhere in the cache never changes what is found. |
| `Contact.GetContactSensorState` | src/EltakoContactAccessory.ts:26-33 | Detected iff the first matching record has `contact` == "closed" or `state` == "closed" (strict string equality). Not detected when no record matches. |
| `Contact.ContactIgnoresLaterDuplicates` | src/EltakoContactAccessory.ts:27 | Later records with the same sid never change the contact state. |
| `Contact.Read` | src/EltakoContactAccessory.ts:22-23 | Only ContactSensorState has a get handler. |
| `Contact.UpdatePushes` | src/EltakoContactAccessory.ts:35-37 | `update()` pushes exactly one value, for ContactSensorState, equal to what its get handler answers. |
| `Contact.EltakoContactAccessory.constructor` | src/EltakoContactAccessory.ts:8-24 | Adds a get handler for ContactSensorState and no set handler. |
| `Contact.EltakoContactAccessory.Update` | src/EltakoContactAccessory.ts:35-37 | Appends `UpdatePushes` to the service's pushes and changes no handler. |
| `Garage.GetCurrentDoorState` | src/EltakoGarageAccessory.ts:32-37 | Always OPEN or CLOSED. CLOSED iff the first matching record has `doorState` == "closed". OPEN for any other value and for a missing record. |
| `Garage.GetTargetDoorState` | src/EltakoGarageAccessory.ts:39-43 | Mirrors the current state: OPEN iff current is OPEN, CLOSED iff current is CLOSED. |
| `Garage.GetObstructionDetected` | src/EltakoGarageAccessory.ts:45-47 | Never reports an obstruction. |
| `Garage.Read` | src/EltakoGarageAccessory.ts:22-29 | Exactly the current door, target door and obstruction characteristics have a get handler. |
| `Garage.UpdatePushes` | src/EltakoGarageAccessory.ts:49-53 | `update()` pushes current door, target door and obstruction, in that order, each equal to what its get handler answers. |
| `Garage.EltakoGarageAccessory.constructor` | src/EltakoGarageAccessory.ts:8-30 | Adds the three get handlers and no set handler, so nothing is writable. |
| `Garage.EltakoGarageAccessory.Update` | src/EltakoGarageAccessory.ts:49-53 | Appends `UpdatePushes` to the service's pushes and changes no handler. |
| `Motion.GetMotionDetected` | src/EltakoMotionAccessory.ts:25-31 | True iff the first matching record has `motion` == the string "true" or `state` == "on". False when no record matches. A boolean `true` is not motion. |
| `Motion.MotionIgnoresOtherSids` | src/EltakoMotionAccessory.ts:26 | Records of other devices never change the motion reading. |
| `Motion.Read` | src/EltakoMotionAccessory.ts:21-22 | Only MotionDetected has a get handler. |
| `Motion.UpdatePushes` | src/EltakoMotionAccessory.ts:33-35 | `update()` pushes exactly one value, for MotionDetected, equal to what its get handler answers. |
| `Motion.EltakoMotionAccessory.constructor` | src/EltakoMotionAccessory.ts:8-23 | Adds a get handler for MotionDetected and no set handler. |
| `Motion.EltakoMotionAccessory.Update` | src/EltakoMotionAccessory.ts:33-35 | Appends `UpdatePushes` to the service's pushes and changes no handler. |
| `Thermostat.CapabilitiesOf` | src/EltakoThermostatAccessory.ts:16-20 | hasHeatingCoolingState iff type is eltako_fhk. hasHumiditySensor iff type is eltako_futh or eltako_futh_old. allowChange iff type is not eltako_tf_thermo. Verb is "setTo" iff type is a5-20-04, else "tempTo". No type has two optional features, and the heating/cooling type is writable. |
| `Thermostat.GetHandlers` | src/EltakoThermostatAccessory.ts:33-82 | Current mode readable iff hasHeatingCoolingState. Humidity readable iff hasHumiditySensor. Current temperature, target mode, target temperature and units always readable. Nothing else is readable. |
| `Thermostat.SetHandlers` | src/EltakoThermostatAccessory.ts:36-74 | No set handler when allowChange is false. Current mode writable iff hasHeatingCoolingState and allowChange. Target mode and target temperature writable iff allowChange. Nothing else is writable, and every writable characteristic is readable. |
| `Thermostat.GetCurrentTemperature` | src/EltakoThermostatAccessory.ts:85-88 | The first matching record's `temperature`, passed through unchanged. 0 when the record or field is missing. |
| `Thermostat.GetCurrentHeatingCoolingState` | src/EltakoThermostatAccessory.ts:90-99 | Always OFF or HEAT. OFF iff the first matching record has `operation_mode` == "off". HEAT for a missing record. |
| `Thermostat.GetTargetHeatingCoolingState` | src/EltakoThermostatAccessory.ts:106-108 | Always equals the current mode, so OFF iff `operation_mode` is "off". |
| `Thermostat.GetTargetTemperature` | src/EltakoThermostatAccessory.ts:114-117 | The first matching record's `setpoint`, passed through unchanged. 0 when the record or field is missing. |
| `Thermostat.GetTemperatureDisplayUnits` | src/EltakoThermostatAccessory.ts:125-127 | Always CELSIUS. It takes no cache, so no state changes it. |
| `Thermostat.GetCurrentRelativeHumidity` | src/EltakoThermostatAccessory.ts:129-132 | The first matching record's `humidity`, passed through unchanged. 0 when the record or field is missing. |
| `Thermostat.Read` | src/EltakoThermostatAccessory.ts:33-82 | A characteristic's get handler answers iff the characteristic is in `GetHandlers`. |
| `Thermostat.UpdatePushes` | src/EltakoThermostatAccessory.ts:134-160 | Pushes current temperature, current mode, target mode, target temperature and units, in that order. Then humidity, only when hasHumiditySensor. |
| `Thermostat.UpdatePushAgainstHandler` | src/EltakoThermostatAccessory.ts:134-160 | Each push carries what its characteristic's get handler answers. The one push without a handler is the current mode on a type without hasHeatingCoolingState, and it still carries the current-mode reading. |
| `Thermostat.UpdateReportsHandlers` | src/EltakoThermostatAccessory.ts:134-160 | Every readable characteristic is pushed with its handler's answer. The only other push is the current mode when it has no handler. |
| `Thermostat.OperationModeCommand` | src/EltakoThermostatAccessory.ts:101-104 | A single named-field command for this sid on `operation_mode`. The value is "off" iff the written mode is OFF, and "on" for every other mode. |
| `Thermostat.TargetTemperatureCommand` | src/EltakoThermostatAccessory.ts:119-123 | A single opaque command for this sid. Its text is the verb followed by the value's canonical decimal text, which reads back as the written value. |
| `Thermostat.TargetTemperatureCommandExamples` | src/EltakoThermostatAccessory.ts:119-123 | Writing 21 sends "setTo21" on an a5-20-04 and "tempTo21" on another type. |
| `Thermostat.TargetTemperatureCommandDetermined` | src/EltakoThermostatAccessory.ts:119-123 | The command starts with "s" iff the type is a5-20-04. On one device, two writes send the same command iff they write the same value. |
| `Thermostat.EltakoThermostatAccessory.constructor` | src/EltakoThermostatAccessory.ts:12-83 | Capabilities are `CapabilitiesOf(deviceType)`. Adds exactly `GetHandlers` as get handlers and `SetHandlers` as set handlers. Pushes nothing. |
| `Thermostat.EltakoThermostatAccessory.SetCurrentHeatingCoolingState` | src/EltakoThermostatAccessory.ts:101-104 | Sends exactly one command, `OperationModeCommand(sid, value)`. |
| `Thermostat.EltakoThermostatAccessory.SetTargetHeatingCoolingState` | src/EltakoThermostatAccessory.ts:110-112 | Sends exactly the same single command as the current-mode setter. |
| `Thermostat.EltakoThermostatAccessory.SetTargetTemperature` | src/EltakoThermostatAccessory.ts:119-123 | Sends exactly one command, `TargetTemperatureCommand(verb, sid, value)`. |
| `Thermostat.EltakoThermostatAccessory.Update` | src/EltakoThermostatAccessory.ts:134-160 | Appends `UpdatePushes` to the service's pushes. Changes no handler and sends no gateway command. Two calls on one cache push the same values twice. |
| `MiniSafe.IntToDecimal` | src/EltakoThermostatAccessory.ts:120 | The text of an integer starts with "-" iff the integer is negative; the rest is a non-empty run of digits without leading zeros. |
| `MiniSafe.IntDecimalRoundTrip` | src/EltakoThermostatAccessory.ts:120 | The text of an integer reads back as the same integer. |

## Left out

- Host platform API: `getService`/`addService` (the service object is a constructor parameter). Also the AccessoryInformation characteristics (manufacturer, model, serial number) and the service's Name characteristic, because they carry no logic.
- `setProps` valid-value restrictions on the two heating/cooling characteristics: enforcing them is the host's job. The setters accept any of the four modes, and every mode other than OFF maps to "on".
- Gateway client behaviour: asynchrony, awaiting, retries and failures that propagate to the host. A setter's effect is modelled as the one command it hands to the client.
- Thermostat.EltakoThermostatAccessory.SetTargetHeatingCoolingState: does not model that the source does not await the delegated send (src/EltakoThermostatAccessory.ts:111). Without concurrency the command sent is the same.
- Thermostat.EltakoThermostatAccessory.SetTargetTemperature: the written value is an integer, and its text is plain decimal. Fractional temperatures and JavaScript's exponent form for magnitudes of 10^21 and above are not modelled.
- The debug log line in `setTargetTemperature`, because it is diagnostics only.
- Polling and replacing the device-state cache: the cache is an input to every read.
- Record field values are strings, integers or booleans. Floating-point and other JavaScript values are not modelled. A field that is `null` or `undefined` is treated as absent, which `??` and strict comparison to a string also do.
- Numeric codes of the HomeKit constants: they belong to the HomeKit Accessory Protocol and are abstract enumerations here. One enumeration serves both the current and the target heating/cooling characteristic.
- Accessory classes of the plugin other than these four (among them the motion-sensor variants that report brightness or an on/off status) are not part of this model.
