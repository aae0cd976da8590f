/**
  The HomeKit characteristics the four accessories expose, their values as abstract
  enumerations (the numeric codes belong to the HomeKit Accessory Protocol), and
  `Service`, a recording stand-in for the host's service object: it keeps which
  characteristics got a get or a set handler and every value pushed with `updateValue`.
 */
module HomeKit {
  import opened DeviceStates

  datatype Characteristic =
    | ContactSensorState
    | CurrentDoorState | TargetDoorState | ObstructionDetected
    | MotionDetected
    | CurrentTemperature | CurrentHeatingCoolingState | TargetHeatingCoolingState
    | TargetTemperature | TemperatureDisplayUnits | CurrentRelativeHumidity

  datatype ContactReading = ContactDetected | ContactNotDetected

  /** CurrentDoorState's full domain; the garage accessory only ever reports the first two. */
  datatype DoorPosition = DoorOpen | DoorClosed | DoorOpening | DoorClosing | DoorStopped

  datatype DoorTarget = TargetOpen | TargetClosed

  /** The heating/cooling modes of both the current and the target characteristic. */
  datatype HeatingCoolingMode = Off | Heat | Cool | Auto

  datatype DisplayUnits = Celsius | Fahrenheit

  /** A value handed to the host: a record field passed through, a boolean, or an enumeration constant. */
  datatype CharValue =
    | OfValue(value: Value)
    | OfBool(b: bool)
    | OfContact(contact: ContactReading)
    | OfDoor(door: DoorPosition)
    | OfDoorTarget(target: DoorTarget)
    | OfMode(mode: HeatingCoolingMode)
    | OfUnits(units: DisplayUnits)

  /** One `getCharacteristic(c).updateValue(v)` call. */
  datatype Push = Push(c: Characteristic, v: CharValue)

  /** The characteristics of `ps`, in push order. */
  function Characteristics(ps: seq<Push>): (cs: seq<Characteristic>)
    ensures |cs| == |ps|
    ensures forall k :: 0 <= k < |ps| ==> cs[k] == ps[k].c
  {
    if ps == [] then [] else [ps[0].c] + Characteristics(ps[1..])
  }

  class Service {
    var getHandlers: set<Characteristic>
    var setHandlers: set<Characteristic>
    var pushes: seq<Push>

    constructor ()
      ensures getHandlers == {} && setHandlers == {} && pushes == []
    {
      getHandlers, setHandlers, pushes := {}, {}, [];
    }

    /** `getCharacteristic(c).onGet(...)` */
    method OnGet(c: Characteristic)
      modifies this
      ensures getHandlers == old(getHandlers) + {c}
      ensures setHandlers == old(setHandlers) && pushes == old(pushes)
    {
      getHandlers := getHandlers + {c};
    }

    /** `getCharacteristic(c).onSet(...)` */
    method OnSet(c: Characteristic)
      modifies this
      ensures setHandlers == old(setHandlers) + {c}
      ensures getHandlers == old(getHandlers) && pushes == old(pushes)
    {
      setHandlers := setHandlers + {c};
    }

    /** `getCharacteristic(c).updateValue(v)` */
    method UpdateValue(c: Characteristic, v: CharValue)
      modifies this
      ensures pushes == old(pushes) + [Push(c, v)]
      ensures getHandlers == old(getHandlers) && setHandlers == old(setHandlers)
    {
      pushes := pushes + [Push(c, v)];
    }
  }
}
