/** An abstract Redis server: keys map to a list or a string, each key may
    carry an expiry in seconds (recorded, never counted down), and every
    write command sent is logged in order. Each command takes a `fault`
    oracle: `Some(msg)` means the call failed in transport and had no
    effect. */
module RedisStore {
  import opened Wrappers

  datatype Entry = List(items: seq<string>) | Text(s: string)

  datatype RedisError =
    | Nil                    // go-redis `redis.Nil`: the key does not exist
    | WrongType              // the key holds the other kind of value
    | Failure(msg: string)   // transport or server failure

  function ErrorText(e: RedisError): string {
    match e
    case Nil => "redis: nil"
    case WrongType => "WRONGTYPE Operation against a key holding the wrong kind of value"
    case Failure(msg) => msg
  }

  datatype Command =
    | LPushCmd(key: string, value: string)
    | ExpireCmd(key: string, seconds: nat)
    | LTrimCmd(key: string, start: nat, stop: nat)
    | SetCmd(key: string, value: string, seconds: nat)

  /** Reply to `LRANGE key 0 -1`: a missing key is an empty list. */
  function LRangeAll(data: map<string, Entry>, key: string, fault: Option<string>): Result<seq<string>, RedisError> {
    if fault.Some? then Err(Failure(fault.value))
    else if key !in data then Ok([])
    else match data[key]
      case List(items) => Ok(items)
      case Text(_) => Err(WrongType)
  }

  /** Reply to `GET key`. */
  function Get(data: map<string, Entry>, key: string, fault: Option<string>): Result<string, RedisError> {
    if fault.Some? then Err(Failure(fault.value))
    else if key !in data then Err(Nil)
    else match data[key]
      case Text(s) => Ok(s)
      case List(_) => Err(WrongType)
  }

  class Store {
    var data: map<string, Entry>
    var ttl: map<string, nat>
    var issued: seq<Command>

    constructor ()
      ensures data == map[] && ttl == map[] && issued == []
    {
      data, ttl, issued := map[], map[], [];
    }

    /** `LPUSH key value`: a missing key becomes a one-element list. */
    method LPush(key: string, value: string, fault: Option<string>) returns (err: Option<RedisError>)
      modifies this
      ensures issued == old(issued) + [LPushCmd(key, value)]
      ensures ttl == old(ttl)
      ensures err == (if fault.Some? then Some(Failure(fault.value))
                      else if key in old(data) && old(data)[key].Text? then Some(WrongType)
                      else None)
      ensures data == if err.Some? then old(data)
                      else old(data)[key := List([value] + (if key in old(data) then old(data)[key].items else []))]
    {
      issued := issued + [LPushCmd(key, value)];
      if fault.Some? {
        return Some(Failure(fault.value));
      }
      if key in data && data[key].Text? {
        return Some(WrongType);
      }
      var items := if key in data then data[key].items else [];
      data := data[key := List([value] + items)];
      err := None;
    }

    /** `EXPIRE key seconds`: no effect on a missing key. */
    method Expire(key: string, seconds: nat, fault: Option<string>)
      modifies this
      ensures issued == old(issued) + [ExpireCmd(key, seconds)]
      ensures data == old(data)
      ensures ttl == if fault.None? && key in data then old(ttl)[key := seconds] else old(ttl)
    {
      issued := issued + [ExpireCmd(key, seconds)];
      if fault.None? && key in data {
        ttl := ttl[key := seconds];
      }
    }

    /** `LTRIM key start stop` for non-negative bounds; a list trimmed to
        nothing is deleted together with its expiry. */
    method LTrim(key: string, start: nat, stop: nat, fault: Option<string>) returns (err: Option<RedisError>)
      modifies this
      ensures issued == old(issued) + [LTrimCmd(key, start, stop)]
      ensures err == (if fault.Some? then Some(Failure(fault.value))
                      else if key in old(data) && old(data)[key].Text? then Some(WrongType)
                      else None)
      ensures err.Some? || key !in old(data) ==> data == old(data) && ttl == old(ttl)
      ensures err.None? && key in old(data) ==>
        var items := old(data)[key].items;
        var kept := if start < |items| && start <= stop then items[start..if stop + 1 < |items| then stop + 1 else |items|] else [];
        if kept == [] then data == old(data) - {key} && ttl == old(ttl) - {key}
        else data == old(data)[key := List(kept)] && ttl == old(ttl)
    {
      issued := issued + [LTrimCmd(key, start, stop)];
      if fault.Some? {
        return Some(Failure(fault.value));
      }
      if key !in data {
        return None;
      }
      if data[key].Text? {
        return Some(WrongType);
      }
      var items := data[key].items;
      var kept := if start < |items| && start <= stop then items[start..if stop + 1 < |items| then stop + 1 else |items|] else [];
      if kept == [] {
        data := data - {key};
        ttl := ttl - {key};
      } else {
        data := data[key := List(kept)];
      }
      err := None;
    }

    /** `SET key value EX seconds`: overwrites whatever the key held. */
    method Set(key: string, value: string, seconds: nat, fault: Option<string>) returns (err: Option<RedisError>)
      modifies this
      ensures issued == old(issued) + [SetCmd(key, value, seconds)]
      ensures err == if fault.Some? then Some(Failure(fault.value)) else None
      ensures data == if err.Some? then old(data) else old(data)[key := Text(value)]
      ensures ttl == if err.Some? then old(ttl) else old(ttl)[key := seconds]
    {
      issued := issued + [SetCmd(key, value, seconds)];
      if fault.Some? {
        return Some(Failure(fault.value));
      }
      data := data[key := Text(value)];
      ttl := ttl[key := seconds];
      err := None;
    }
  }
}
