/**
 * SessionManager of auth.go: a registry of Authenticators by name. The map
 * holds references, so two names may share one Authenticator, and a session's
 * expiry is whatever its Authenticator caches at the time of asking.
 */
module Sessions {
  import opened Wrappers
  import opened Errors
  import opened Auth

  /** The names whose authenticator reports an expired token at `now`. */
  ghost function ExpiredNames(m: map<string, Authenticator>, now: int): set<string>
    reads m.Values
  {
    set name | name in m && m[name].IsTokenExpired(now)
  }

  /** A session whose expiry was never learnt is never swept, and neither is
    * one whose expiry lies ahead of `now`. */
  lemma CleanupSparesLiveSessions(m: map<string, Authenticator>, now: int, name: string)
    requires name in m
    ensures m[name].tokenExpiry == UnknownExpiry ==> name !in ExpiredNames(m, now)
    ensures now <= m[name].tokenExpiry ==> name !in ExpiredNames(m, now)
    ensures name in ExpiredNames(m, now) <==> Expired(m[name].tokenExpiry, now)
  {
  }

  /** Sweeping twice at the same time removes nothing the second time. */
  lemma CleanupIdempotent(m: map<string, Authenticator>, now: int)
    ensures ExpiredNames(m - ExpiredNames(m, now), now) == {}
  {
  }

  /** Moving `name` out of `pending` adds it to the swept names exactly when
    * it is expired. */
  lemma SweptStep(expired: set<string>, pending: set<string>, name: string)
    requires name in pending
    ensures name in expired ==> expired - (pending - {name}) == (expired - pending) + {name}
    ensures name in expired ==> |expired - (pending - {name})| == |expired - pending| + 1
    ensures name !in expired ==> expired - (pending - {name}) == expired - pending
  {
    if name in expired {
      assert name !in expired - pending;
    }
  }

  lemma RemoveOneMore<V>(m: map<string, V>, gone: set<string>, name: string)
    ensures (m - gone) - {name} == m - (gone + {name})
  {
  }

  class SessionManager {
    var sessions: map<string, Authenticator>

    /** NewSessionManager: an empty registry. */
    constructor ()
      ensures sessions == map[]
    {
      sessions := map[];
    }

    /** Inserts, or replaces whatever was registered under `name`. */
    method AddSession(name: string, auth: Authenticator)
      modifies this
      ensures sessions == old(sessions)[name := auth]
    {
      sessions := sessions[name := auth];
    }

    function GetSession(name: string): (r: Result<Authenticator, Error>)
      reads this
      ensures r.Ok? <==> name in sessions
      ensures r.Ok? ==> r.value == sessions[name]
      ensures r.Err? ==> r.error == SessionNotFound(name)
    {
      if name in sessions then Ok(sessions[name]) else Err(SessionNotFound(name))
    }

    /** Removes `name`; a name that is not registered is not an error. */
    method RemoveSession(name: string)
      modifies this
      ensures sessions == old(sessions) - {name}
      ensures name !in old(sessions) ==> sessions == old(sessions)
    {
      sessions := sessions - {name};
    }

    /** Every registered name once, in the map's (unspecified) order. */
    method ListSessions() returns (names: seq<string>)
      ensures |names| == |sessions|
      ensures forall i :: 0 <= i < |names| ==> names[i] in sessions
      ensures forall name :: name in sessions ==> name in names
      ensures forall i, j :: 0 <= i < j < |names| ==> names[i] != names[j]
    {
      names := [];
      var pending := sessions.Keys;
      while pending != {}
        invariant pending <= sessions.Keys
        invariant |names| + |pending| == |sessions.Keys|
        invariant forall i :: 0 <= i < |names| ==> names[i] in sessions && names[i] !in pending
        invariant forall name :: name in sessions ==> name in names || name in pending
        invariant forall i, j :: 0 <= i < j < |names| ==> names[i] != names[j]
        decreases pending
      {
        var name :| name in pending;
        names := names + [name];
        pending := pending - {name};
      }
    }

    /** Removes every session whose token has expired, counting them. */
    method CleanupExpiredSessions(now: int) returns (removed: nat)
      modifies this
      ensures sessions == old(sessions) - ExpiredNames(old(sessions), now)
      ensures removed == |ExpiredNames(old(sessions), now)|
    {
      var all := sessions;
      ghost var expired := ExpiredNames(all, now);
      removed := 0;
      var pending := all.Keys;
      while pending != {}
        invariant pending <= all.Keys
        invariant sessions == all - (expired - pending)
        invariant removed == |expired - pending|
        decreases pending
      {
        var name :| name in pending;
        SweptStep(expired, pending, name);
        if all[name].IsTokenExpired(now) {
          RemoveOneMore(all, expired - pending, name);
          sessions := sessions - {name};
          removed := removed + 1;
        }
        pending := pending - {name};
      }
      assert expired - {} == expired;
    }
  }
}
