/** SessionManager: the registry of live sessions. Each session id owns a service
  * scope (its own SessionIdProvider and LocaleManager) and the time it was last
  * accessed; a periodic sweep disposes the sessions idle for ten minutes. The clock
  * is the `now` parameter of each operation, in ticks. */
module Sessions {
  import opened Wrappers
  import opened Models
  import opened SessionIds
  import opened Locale

  /** SessionExpiredTimeout: ten minutes, in ticks. */
  const SessionExpiredTimeout: Ticks := 10 * 60 * 1000 * TicksPerMillisecond

  /** A service scope created for one session; the scoped services are made with it. */
  class ServiceScope {
    const sessionIdProvider: SessionIdProvider
    const localeManager: LocaleManager
    var disposed: bool

    constructor(localeOptions: Option<LocaleManagerOptions>)
      ensures fresh(sessionIdProvider) && fresh(localeManager)
      ensures sessionIdProvider.sessionId == EmptyGuid
      ensures localeManager.locale == StartingLocale(localeOptions)
      ensures !disposed
    {
      sessionIdProvider := new SessionIdProvider();
      localeManager := new LocaleManager(localeOptions);
      disposed := false;
    }

    method Dispose()
      modifies this
      ensures disposed
    {
      disposed := true;
    }
  }

  /** SessionDataDto: the scope and the last access time of one session. */
  datatype SessionData = SessionData(scope: ServiceScope, lastAccessTime: Ticks)

  /** The Session façade GetSession returns. */
  datatype Session = Session(id: Guid, localeManager: LocaleManager)

  /** A session idle for at least SessionExpiredTimeout is due for removal. */
  predicate Expired(data: SessionData, now: Ticks)
  {
    now - data.lastAccessTime >= SessionExpiredTimeout
  }

  /** The sessions after an access to `id` at `now`: the entry is stamped, and a missing
    * entry is created with `newScope`. */
  function Touch(sessions: map<Guid, SessionData>, id: Guid, newScope: ServiceScope, now: Ticks): map<Guid, SessionData>
  {
    var scope := if id in sessions then sessions[id].scope else newScope;
    sessions[id := SessionData(scope, now)]
  }

  /** The sessions left by a sweep at `now`. */
  function Sweep(sessions: map<Guid, SessionData>, now: Ticks): (r: map<Guid, SessionData>)
    ensures r.Keys <= sessions.Keys
  {
    map id | id in sessions && !Expired(sessions[id], now) :: sessions[id]
  }

  /** The ids a sweep at `now` removes. */
  function ExpiredIds(sessions: map<Guid, SessionData>, now: Ticks): set<Guid>
  {
    set id | id in sessions && Expired(sessions[id], now)
  }

  function Scopes(sessions: map<Guid, SessionData>): set<ServiceScope>
  {
    set id | id in sessions :: sessions[id].scope
  }

  /** The map without the given keys. */
  function Without<K, V>(m: map<K, V>, ks: seq<K>): map<K, V>
  {
    map k | k in m && k !in ks :: m[k]
  }

  lemma WithoutOneMore<K, V>(m: map<K, V>, ks: seq<K>, k: K)
    ensures Without(m, ks) - {k} == Without(m, ks + [k])
  {
  }

  /** An access to a known id keeps its scope; to an unknown id, adds exactly that id.
    * Either way only that entry changes, and it is stamped with `now`. */
  lemma TouchChangesOneEntry(sessions: map<Guid, SessionData>, id: Guid, newScope: ServiceScope, now: Ticks)
    ensures var r := Touch(sessions, id, newScope, now);
      && r.Keys == sessions.Keys + {id}
      && r[id].lastAccessTime == now
      && (id in sessions ==> r[id].scope == sessions[id].scope)
      && (id !in sessions ==> r[id].scope == newScope)
      && (forall other :: other in sessions && other != id ==> r[other] == sessions[other])
  {
  }

  /** The sweep keeps exactly the sessions that are not idle long enough, unchanged, and
    * removes exactly ExpiredIds. */
  lemma SweepKeepsLive(sessions: map<Guid, SessionData>, now: Ticks)
    ensures forall id :: id in Sweep(sessions, now) <==> id in sessions && !Expired(sessions[id], now)
    ensures forall id :: id in Sweep(sessions, now) ==> Sweep(sessions, now)[id] == sessions[id]
    ensures Sweep(sessions, now).Keys == sessions.Keys - ExpiredIds(sessions, now)
  {
  }

  /** A second sweep at the same time removes nothing more. */
  lemma SweepIdempotent(sessions: map<Guid, SessionData>, now: Ticks)
    ensures Sweep(Sweep(sessions, now), now) == Sweep(sessions, now)
  {
    var once := Sweep(sessions, now);
    assert forall id :: id in once ==> !Expired(once[id], now);
    assert Sweep(once, now).Keys == once.Keys;
  }

  /** A session accessed at `now` survives a sweep at any time less than ten minutes later. */
  lemma TouchedSurvivesSweep(sessions: map<Guid, SessionData>, id: Guid, newScope: ServiceScope, now: Ticks, later: Ticks)
    requires later < now + SessionExpiredTimeout
    ensures id in Sweep(Touch(sessions, id, newScope, now), later)
  {
    var r := Touch(sessions, id, newScope, now);
    assert r[id].lastAccessTime == now;
  }

  class SessionManager {
    /** The configuration the scoped LocaleManagers are created with. */
    const localeOptions: Option<LocaleManagerOptions>
    var sessions: map<Guid, SessionData>

    /** Each session has its own scope, and no live session's scope is disposed. */
    ghost predicate Valid()
      reads this, Scopes(sessions)
    {
      && (forall a, b :: a in sessions && b in sessions && a != b ==> sessions[a].scope != sessions[b].scope)
      && (forall id :: id in sessions ==> !sessions[id].scope.disposed)
    }

    constructor(localeOptions: Option<LocaleManagerOptions>)
      ensures this.localeOptions == localeOptions && sessions == map[]
      ensures Valid()
    {
      this.localeOptions := localeOptions;
      sessions := map[];
    }

    /** CreateSession: a fresh scope whose SessionIdProvider holds the session id. */
    method CreateSession(id: Guid) returns (data: SessionData)
      requires Valid() && id !in sessions
      modifies this
      ensures fresh(data.scope) && fresh(data.scope.sessionIdProvider) && fresh(data.scope.localeManager)
      ensures data.scope.sessionIdProvider.sessionId == id && !data.scope.disposed
      ensures data.scope.localeManager.locale == StartingLocale(localeOptions)
      ensures sessions == old(sessions)[id := data]
      ensures Valid()
    {
      var scope := new ServiceScope(localeOptions);
      data := SessionData(scope, 0);
      sessions := sessions[id := data];
      scope.sessionIdProvider.SetSessionId(id);
    }

    /** GetServiceScope: the scope of `id`, created on first access; the entry is
      * stamped with `now` on every access. */
    method GetServiceScope(id: Guid, now: Ticks) returns (scope: ServiceScope)
      requires Valid()
      modifies this
      ensures id in old(sessions) ==> scope == old(sessions)[id].scope
      ensures id !in old(sessions) ==>
        && fresh(scope) && fresh(scope.sessionIdProvider) && fresh(scope.localeManager)
        && scope.sessionIdProvider.sessionId == id
        && scope.localeManager.locale == StartingLocale(localeOptions)
      ensures sessions == Touch(old(sessions), id, scope, now)
      ensures Valid()
    {
      var data;
      if id in sessions {
        data := sessions[id];
      } else {
        data := CreateSession(id);
      }
      sessions := sessions[id := data.(lastAccessTime := now)];
      return data.scope;
    }

    /** GetSession: the session façade over the scope of `id`. */
    method GetSession(id: Guid, now: Ticks) returns (session: Session)
      requires Valid()
      modifies this
      ensures session.id == id
      ensures id in old(sessions) ==> session.localeManager == old(sessions)[id].scope.localeManager
      ensures id !in old(sessions) ==>
        fresh(session.localeManager) && session.localeManager.locale == StartingLocale(localeOptions)
      ensures id in sessions && sessions == Touch(old(sessions), id, sessions[id].scope, now)
      ensures Valid()
    {
      var scope := GetServiceScope(id, now);
      return Session(id, scope.localeManager);
    }

    /** PingSession: an access that only stamps (or creates) the entry. */
    method PingSession(id: Guid, now: Ticks)
      requires Valid()
      modifies this
      ensures id in sessions && sessions == Touch(old(sessions), id, sessions[id].scope, now)
      ensures id in old(sessions) ==> sessions[id].scope == old(sessions)[id].scope
      ensures id !in old(sessions) ==>
        fresh(sessions[id].scope) && sessions[id].scope.sessionIdProvider.sessionId == id
      ensures Valid()
    {
      var _ := GetServiceScope(id, now);
    }

    /** RemoveSession: drop the entry and dispose its scope. */
    method RemoveSession(id: Guid)
      requires Valid() && id in sessions
      modifies this, sessions[id].scope
      ensures sessions == old(sessions) - {id}
      ensures old(sessions)[id].scope.disposed
      ensures Valid()
    {
      var data := sessions[id];
      sessions := sessions - {id};
      data.scope.Dispose();
    }

    /** The expired ids, in the order the dictionary is enumerated (any order). */
    method CollectExpired(now: Ticks) returns (toRemove: seq<Guid>)
      ensures forall id :: id in toRemove <==> id in sessions && Expired(sessions[id], now)
      ensures forall i, j :: 0 <= i < j < |toRemove| ==> toRemove[i] != toRemove[j]
    {
      toRemove := [];
      var pending := sessions.Keys;
      while pending != {}
        invariant pending <= sessions.Keys
        invariant forall id :: id in toRemove <==> id in sessions && Expired(sessions[id], now) && id !in pending
        invariant forall i, j :: 0 <= i < j < |toRemove| ==> toRemove[i] != toRemove[j]
        decreases pending
      {
        var id :| id in pending;
        if Expired(sessions[id], now) {
          toRemove := toRemove + [id];
        }
        pending := pending - {id};
      }
    }

    /** CheckSessionsLifetime: collect the expired ids, then remove each. */
    method CheckSessionsLifetime(now: Ticks)
      requires Valid()
      modifies this, Scopes(sessions)
      ensures sessions == Sweep(old(sessions), now)
      ensures forall id :: id in ExpiredIds(old(sessions), now) ==> old(sessions)[id].scope.disposed
      ensures Valid()
    {
      var toRemove := CollectExpired(now);
      ghost var before := sessions;
      assert forall a, b :: a in before && b in before && a != b ==> before[a].scope != before[b].scope;
      for i := 0 to |toRemove|
        invariant Valid()
        invariant sessions == Without(before, toRemove[..i])
        invariant forall j :: 0 <= j < i ==> toRemove[j] in before && before[toRemove[j]].scope.disposed
      {
        var id := toRemove[i];
        assert id !in toRemove[..i];
        RemoveSession(id);
        assert toRemove[..i + 1] == toRemove[..i] + [id];
        WithoutOneMore(before, toRemove[..i], id);
      }
      assert toRemove[..|toRemove|] == toRemove;
      assert Without(before, toRemove) == Sweep(before, now);
    }
  }
}
