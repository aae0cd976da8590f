/**
  The device-state cache the platform polls from the gateway: an ordered list of
  records, each with the device id (`sid`) and a loosely typed bag of fields.
  Accessories never change it; they look their record up on every read.
 */
module DeviceStates {
  import opened Wrappers

  /** A field value as JavaScript sees it: a string, a number and a boolean are never strictly equal. */
  datatype Value = Str(s: string) | Num(n: int) | Bool(b: bool)

  /**
    One cache entry. A field that is missing, `undefined` or `null` is absent from `state`
    (JavaScript's `?.` and `??` treat all three alike); a record without a `state` object
    has an empty `state`.
   */
  datatype DeviceState = DeviceState(sid: string, state: map<string, Value>) {

    /** `record.state?.name`: the field, when it is present. */
    function Get(name: string): (r: Option<Value>)
      ensures r.Some? <==> name in state
      ensures r.Some? ==> r.value == state[name]
    {
      if name in state then Some(state[name]) else None
    }
  }

  /** Index `i` holds the first record of `cache` whose sid is `sid`. */
  ghost predicate FirstMatch(cache: seq<DeviceState>, sid: string, i: int) {
    && 0 <= i < |cache|
    && cache[i].sid == sid
    && forall j :: 0 <= j < i ==> cache[j].sid != sid
  }

  /** No record of `cache` has sid `sid`. */
  ghost predicate NoMatch(cache: seq<DeviceState>, sid: string) {
    forall i :: 0 <= i < |cache| ==> cache[i].sid != sid
  }

  /** `deviceStateCache.find(s => s.sid === sid)`: the first record with that sid, if any. */
  function Find(cache: seq<DeviceState>, sid: string): (r: Option<DeviceState>)
    ensures r.None? <==> NoMatch(cache, sid)
    ensures r.Some? ==> exists i :: FirstMatch(cache, sid, i)
    ensures forall i :: FirstMatch(cache, sid, i) ==> r == Some(cache[i])
  {
    if |cache| == 0 then None
    else if cache[0].sid == sid then assert FirstMatch(cache, sid, 0); Some(cache[0])
    else
      var r := Find(cache[1..], sid);
      assert forall i :: FirstMatch(cache, sid, i) ==> FirstMatch(cache[1..], sid, i - 1);
      assert forall i :: FirstMatch(cache[1..], sid, i) ==> FirstMatch(cache, sid, i + 1);
      r
  }

  /** `find(...)?.state?.name`: the named field of the first record with that sid. */
  function Lookup(cache: seq<DeviceState>, sid: string, name: string): (r: Option<Value>)
    ensures NoMatch(cache, sid) ==> r == None
    ensures r.Some? ==> exists i :: FirstMatch(cache, sid, i) && name in cache[i].state
    ensures forall i :: FirstMatch(cache, sid, i) ==> r == cache[i].Get(name)
  {
    match Find(cache, sid)
    case None => None
    case Some(rec) => rec.Get(name)
  }

  /** Records appended after the first match never change what the lookup finds. */
  lemma {:induction false} FindIgnoresLaterRecords(cache: seq<DeviceState>, rest: seq<DeviceState>, sid: string)
    requires !NoMatch(cache, sid)
    ensures Find(cache + rest, sid) == Find(cache, sid)
  {
    if cache[0].sid != sid {
      assert (cache + rest)[1..] == cache[1..] + rest;
      FindIgnoresLaterRecords(cache[1..], rest, sid);
    }
  }

  /** A record with another sid, wherever it sits, never changes what the lookup finds. */
  lemma {:induction false} FindIgnoresOtherSids(before: seq<DeviceState>, other: DeviceState, after: seq<DeviceState>, sid: string)
    requires other.sid != sid
    ensures Find(before + [other] + after, sid) == Find(before + after, sid)
  {
    var with, without := before + [other] + after, before + after;
    if before == [] {
      assert with[1..] == without;
    } else if before[0].sid != sid {
      assert with[1..] == before[1..] + [other] + after;
      assert without[1..] == before[1..] + after;
      FindIgnoresOtherSids(before[1..], other, after, sid);
    } else {
      assert with[0] == before[0] == without[0];
    }
  }
}
