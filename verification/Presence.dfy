/** The presence keys and their time to live (internal/store/presence.go). Times are in
    milliseconds, and every command takes the time at which the key store runs it. */
module Presence {
  const PRESENCE_TTL: int := 15_000

  /** When each key expires; a key whose time has come is as good as gone. */
  type Keys = map<string, int>

  function Beaten(keys: Keys, subdomain: string, now: int): Keys {
    keys[subdomain := now + PRESENCE_TTL]
  }

  predicate Shows(keys: Keys, subdomain: string, now: int) {
    subdomain in keys && now < keys[subdomain]
  }

  function Cleared(keys: Keys, subdomain: string): Keys {
    keys - {subdomain}
  }

  class Presence {
    var keys: Keys

    constructor ()
      ensures keys == map[]
    {
      keys := map[];
    }

    method Heartbeat(subdomain: string, now: int)
      modifies this
      ensures keys == old(keys)[subdomain := now + 15_000]
    {
      keys := keys[subdomain := now + PRESENCE_TTL];
    }

    method IsOnline(subdomain: string, now: int) returns (online: bool)
      ensures online <==> subdomain in keys && now < keys[subdomain]
    {
      return subdomain in keys && now < keys[subdomain];
    }

    method Clear(subdomain: string)
      modifies this
      ensures keys == old(keys) - {subdomain}
    {
      keys := keys - {subdomain};
    }
  }
}
