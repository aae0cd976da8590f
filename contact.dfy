/** The contact-sensor accessory (window and door contacts). */
module Contact {
  import opened Wrappers
  import opened DeviceStates
  import opened HomeKit

  /**
    Detected when the first record with this sid reports "closed" in `contact`
    (the eltako_tf_contact protocol) or in `state` (the a5-14-09 protocol).
   */
  function GetContactSensorState(sid: string, cache: seq<DeviceState>): (r: ContactReading)
    ensures r == ContactDetected <==>
      exists i :: FirstMatch(cache, sid, i) &&
        (cache[i].Get("contact") == Some(Str("closed")) || cache[i].Get("state") == Some(Str("closed")))
    ensures NoMatch(cache, sid) ==> r == ContactNotDetected
  {
    if Lookup(cache, sid, "contact") == Some(Str("closed")) || Lookup(cache, sid, "state") == Some(Str("closed"))
    then ContactDetected
    else ContactNotDetected
  }

  /** A later record with the same sid is never consulted. */
  lemma ContactIgnoresLaterDuplicates(cache: seq<DeviceState>, rest: seq<DeviceState>, sid: string)
    requires !NoMatch(cache, sid)
    ensures GetContactSensorState(sid, cache + rest) == GetContactSensorState(sid, cache)
  {
    FindIgnoresLaterRecords(cache, rest, sid);
  }

  /** The characteristics the constructor gives a get handler. */
  function GetHandlers(): set<Characteristic>
  {
    {ContactSensorState}
  }

  /** What the get handler bound to `c` answers; `None` when `c` has no get handler. */
  function Read(c: Characteristic, sid: string, cache: seq<DeviceState>): (r: Option<CharValue>)
    ensures r.Some? <==> c in GetHandlers()
  {
    if c == ContactSensorState then Some(OfContact(GetContactSensorState(sid, cache))) else None
  }

  /** The values one `update()` pushes, in order. */
  function UpdatePushes(sid: string, cache: seq<DeviceState>): (ps: seq<Push>)
    ensures Characteristics(ps) == [ContactSensorState]
    ensures forall k :: 0 <= k < |ps| ==> Read(ps[k].c, sid, cache) == Some(ps[k].v)
  {
    [Push(ContactSensorState, OfContact(GetContactSensorState(sid, cache)))]
  }

  class EltakoContactAccessory {
    const sid: string
    const service: Service

    /** Registers the one get handler; no characteristic is writable. */
    constructor (sid: string, service: Service)
      modifies service
      ensures this.sid == sid && this.service == service
      ensures service.getHandlers == old(service.getHandlers) + GetHandlers()
      ensures service.setHandlers == old(service.setHandlers)
      ensures service.pushes == old(service.pushes)
    {
      this.sid := sid;
      this.service := service;
      new;
      service.OnGet(ContactSensorState);
    }

    /** Pushes the contact state read from the current cache. */
    method Update(cache: seq<DeviceState>)
      modifies service
      ensures service.pushes == old(service.pushes) + UpdatePushes(sid, cache)
      ensures service.getHandlers == old(service.getHandlers)
      ensures service.setHandlers == old(service.setHandlers)
    {
      service.UpdateValue(ContactSensorState, OfContact(GetContactSensorState(sid, cache)));
    }
  }
}
