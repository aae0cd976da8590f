/** The garage-door accessory: a read-only view of the door's position. */
module Garage {
  import opened Wrappers
  import opened DeviceStates
  import opened HomeKit

  /**
    Closed exactly when the first record with this sid has `doorState` "closed"; any other
    value, a missing field and a missing record all read as open. Opening, closing and
    stopped are never reported.
   */
  function GetCurrentDoorState(sid: string, cache: seq<DeviceState>): (r: DoorPosition)
    ensures r == DoorOpen || r == DoorClosed
    ensures r == DoorClosed <==>
      exists i :: FirstMatch(cache, sid, i) && cache[i].Get("doorState") == Some(Str("closed"))
    ensures NoMatch(cache, sid) ==> r == DoorOpen
  {
    if Lookup(cache, sid, "doorState") == Some(Str("closed")) then DoorClosed else DoorOpen
  }

  /** The target always mirrors the current position: no transition is ever in flight. */
  function GetTargetDoorState(sid: string, cache: seq<DeviceState>): (r: DoorTarget)
    ensures r == TargetOpen <==> GetCurrentDoorState(sid, cache) == DoorOpen
    ensures r == TargetClosed <==> GetCurrentDoorState(sid, cache) == DoorClosed
  {
    if GetCurrentDoorState(sid, cache) == DoorOpen then TargetOpen else TargetClosed
  }

  /** No sensor backs this characteristic: never an obstruction. */
  function GetObstructionDetected(): (r: bool)
    ensures !r
  {
    false
  }

  function GetHandlers(): set<Characteristic> {
    {CurrentDoorState, TargetDoorState, ObstructionDetected}
  }

  /** What the get handler bound to `c` answers; `None` when `c` has no get handler. */
  function Read(c: Characteristic, sid: string, cache: seq<DeviceState>): (r: Option<CharValue>)
    ensures r.Some? <==> c in GetHandlers()
  {
    match c
    case CurrentDoorState => Some(OfDoor(GetCurrentDoorState(sid, cache)))
    case TargetDoorState => Some(OfDoorTarget(GetTargetDoorState(sid, cache)))
    case ObstructionDetected => Some(OfBool(GetObstructionDetected()))
    case _ => None
  }

  /** The values one `update()` pushes, in order: each is what its get handler answers. */
  function UpdatePushes(sid: string, cache: seq<DeviceState>): (ps: seq<Push>)
    ensures Characteristics(ps) == [CurrentDoorState, TargetDoorState, ObstructionDetected]
    ensures forall k :: 0 <= k < |ps| ==> Read(ps[k].c, sid, cache) == Some(ps[k].v)
  {
    [ Push(CurrentDoorState, OfDoor(GetCurrentDoorState(sid, cache))),
      Push(TargetDoorState, OfDoorTarget(GetTargetDoorState(sid, cache))),
      Push(ObstructionDetected, OfBool(GetObstructionDetected())) ]
  }

  class EltakoGarageAccessory {
    const sid: string
    const service: Service

    /** Registers the three get handlers and no set handler: nothing is writable. */
    constructor (sid: string, service: Service)
      modifies service
      ensures this.sid == sid && this.service == service
      ensures service.getHandlers == old(service.getHandlers) + GetHandlers()
      ensures service.setHandlers == old(service.setHandlers)
      ensures service.pushes == old(service.pushes)
    {
      this.sid := sid;
      this.service := service;
      new;
      service.OnGet(CurrentDoorState);
      service.OnGet(TargetDoorState);
      service.OnGet(ObstructionDetected);
    }

    /** Pushes current door state, target door state and obstruction, in that order. */
    method Update(cache: seq<DeviceState>)
      modifies service
      ensures service.pushes == old(service.pushes) + UpdatePushes(sid, cache)
      ensures service.getHandlers == old(service.getHandlers)
      ensures service.setHandlers == old(service.setHandlers)
    {
      service.UpdateValue(CurrentDoorState, OfDoor(GetCurrentDoorState(sid, cache)));
      service.UpdateValue(TargetDoorState, OfDoorTarget(GetTargetDoorState(sid, cache)));
      service.UpdateValue(ObstructionDetected, OfBool(GetObstructionDetected()));
    }
  }
}
