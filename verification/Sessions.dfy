/** The session registry (internal/edge/session.go). */
module Sessions {
  import opened Options

  // ----- What Put and Remove do, for sessions of any kind -----

  function PutIn<T>(current: map<string, T>, sub: string, s: T): map<string, T> {
    current[sub := s]
  }

  /** Put closes whatever it replaces. */
  predicate Replaces<T(==)>(current: map<string, T>, sub: string, s: T, x: T) {
    sub in current && current[sub] == x && x != s
  }

  /** Remove deletes a session only while it is the current one. */
  function RemovedFrom<T(==)>(current: map<string, T>, sub: string, s: T): map<string, T> {
    if sub in current && current[sub] == s then current - {sub} else current
  }

  class Session {
    const subdomain: string
    var closed: bool

    constructor (subdomain: string)
      ensures this.subdomain == subdomain && !closed
    {
      this.subdomain, closed := subdomain, false;
    }
  }

  class Registry {
    var sessions: map<string, Session>

    constructor ()
      ensures sessions == map[]
    {
      sessions := map[];
    }

    method Put(sess: Session)
      modifies this, sessions.Values
      ensures sessions == PutIn(old(sessions), sess.subdomain, sess)
      ensures forall x: Session :: x in old(sessions.Values) || x == sess ==>
        x.closed == (old(x.closed) || Replaces(old(sessions), sess.subdomain, sess, x))
    {
      if sess.subdomain in sessions && sessions[sess.subdomain] != sess {
        sessions[sess.subdomain].closed := true;
      }
      sessions := sessions[sess.subdomain := sess];
    }

    method Get(subdomain: string) returns (r: Option<Session>)
      ensures r == if subdomain in sessions then Some(sessions[subdomain]) else None
    {
      if subdomain in sessions { return Some(sessions[subdomain]); }
      return None;
    }

    method Remove(sess: Session)
      modifies this
      ensures sessions == RemovedFrom(old(sessions), sess.subdomain, sess)
    {
      if sess.subdomain in sessions && sessions[sess.subdomain] == sess {
        sessions := sessions - {sess.subdomain};
      }
    }
  }
}
