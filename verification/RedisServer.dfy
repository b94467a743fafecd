// The part of Redis the system uses: string keys with expiry, the recent-events list,
// the sessions hash, and the channel as a log of what was published. Each function is
// one command; the class runs the commands in place.
module RedisServer {
  import opened Options

  // ------------------------------------------------------------------
  // Commands, on values
  // ------------------------------------------------------------------

  // A string value and the time from which it is gone.
  datatype Entry = Entry(value: string, expiry: nat)

  function Lookup(keys: map<string, Entry>, key: string, now: nat): Option<string> {
    if key in keys && now < keys[key].expiry then Some(keys[key].value) else None
  }

  // How a command fared: done, or failed, with or without having taken effect.
  datatype Outcome = Done | Lost(effect: bool)

  function Trim<T>(list: seq<T>, last: nat): seq<T> {
    if |list| <= last + 1 then list else list[..last + 1]
  }

  // ------------------------------------------------------------------
  // The server
  // ------------------------------------------------------------------

  class Redis {
    var now: nat
    var keys: map<string, Entry>
    var channel: seq<string>
    var recent: seq<string>
    var sessions: map<string, string>

    constructor ()
      ensures now == 0 && keys == map[] && channel == [] && recent == [] && sessions == map[]
    {
      now, keys, channel, recent, sessions := 0, map[], [], [], map[];
    }

    method Setex(key: string, ttl: nat, value: string)
      modifies this`keys
      ensures keys == old(keys)[key := Entry(value, now + ttl)]
    {
      keys := keys[key := Entry(value, now + ttl)];
    }

    // None when no reply came.
    method TryGetdel(key: string, outcome: Outcome) returns (r: Option<Option<string>>)
      modifies this`keys
      ensures r == if outcome == Done then Some(Lookup(old(keys), key, now)) else None
      ensures keys == if outcome == Lost(false) then old(keys) else old(keys) - {key}
    {
      r := if outcome == Done then Some(Lookup(keys, key, now)) else None;
      if outcome != Lost(false) {
        keys := keys - {key};
      }
    }

    method Publish(text: string)
      modifies this`channel
      ensures channel == old(channel) + [text]
    {
      channel := channel + [text];
    }

    method Lpush(text: string)
      modifies this`recent
      ensures recent == [text] + old(recent)
    {
      recent := [text] + recent;
    }

    method Ltrim(last: nat)
      modifies this`recent
      ensures recent == Trim(old(recent), last)
    {
      recent := Trim(recent, last);
    }

    method Lrange() returns (r: seq<string>)
      ensures r == recent
    {
      r := recent;
    }

    method Hset(field: string, value: string)
      modifies this`sessions
      ensures sessions == old(sessions)[field := value]
    {
      sessions := sessions[field := value];
    }

    method Hdel(field: string)
      modifies this`sessions
      ensures sessions == old(sessions) - {field}
    {
      sessions := sessions - {field};
    }
  }
}
