/** The motion-sensor accessory. */
module Motion {
  import opened Wrappers
  import opened DeviceStates
  import opened HomeKit

  /**
    Motion when the first record with this sid has `motion` equal to the string "true"
    (the eltako_tf_motion protocol) or `state` equal to "on" (eltako_motion, eltako_motion2).
    Both are strict comparisons: a boolean `true` in `motion` is not motion.
   */
  function GetMotionDetected(sid: string, cache: seq<DeviceState>): (r: bool)
    ensures r <==>
      exists i :: FirstMatch(cache, sid, i) &&
        (cache[i].Get("motion") == Some(Str("true")) || cache[i].Get("state") == Some(Str("on")))
    ensures NoMatch(cache, sid) ==> !r
  {
    Lookup(cache, sid, "motion") == Some(Str("true")) || Lookup(cache, sid, "state") == Some(Str("on"))
  }

  /** A record of another device, wherever it sits in the cache, never changes the answer. */
  lemma MotionIgnoresOtherSids(before: seq<DeviceState>, other: DeviceState, after: seq<DeviceState>, sid: string)
    requires other.sid != sid
    ensures GetMotionDetected(sid, before + [other] + after) == GetMotionDetected(sid, before + after)
  {
    FindIgnoresOtherSids(before, other, after, sid);
  }

  function GetHandlers(): set<Characteristic> {
    {MotionDetected}
  }

  /** What the get handler bound to `c` answers; `None` when `c` has no get handler. */
  function Read(c: Characteristic, sid: string, cache: seq<DeviceState>): (r: Option<CharValue>)
    ensures r.Some? <==> c in GetHandlers()
  {
    if c == MotionDetected then Some(OfBool(GetMotionDetected(sid, cache))) else None
  }

  /** The values one `update()` pushes, in order. */
  function UpdatePushes(sid: string, cache: seq<DeviceState>): (ps: seq<Push>)
    ensures Characteristics(ps) == [MotionDetected]
    ensures forall k :: 0 <= k < |ps| ==> Read(ps[k].c, sid, cache) == Some(ps[k].v)
  {
    [Push(MotionDetected, OfBool(GetMotionDetected(sid, cache)))]
  }

  class EltakoMotionAccessory {
    const sid: string
    const service: Service

    /** Registers the one get handler; no characteristic is writable. */
    constructor (sid: string, service: Service)
      modifies service
      ensures this.sid == sid && this.service == service
      ensures service.getHandlers == old(service.getHandlers) + GetHandlers()
      ensures service.setHandlers == old(service.setHandlers)
      ensures service.pushes == old(service.pushes)
    {
      this.sid := sid;
      this.service := service;
      new;
      service.OnGet(MotionDetected);
    }

    /** Pushes the motion reading from the current cache. */
    method Update(cache: seq<DeviceState>)
      modifies service
      ensures service.pushes == old(service.pushes) + UpdatePushes(sid, cache)
      ensures service.getHandlers == old(service.getHandlers)
      ensures service.setHandlers == old(service.setHandlers)
    {
      service.UpdateValue(MotionDetected, OfBool(GetMotionDetected(sid, cache)));
    }
  }
}
