/**
 * The secondary session registry (`whatsapp.SessionManager`): live sessions
 * keyed by their client's id, each with an activity timestamp and statistics.
 */
module WhatsappSession {
  import Models
  import opened WhatsappClient

  class Session {
    const id: string
    const client: Client
    var lastActivity: int
    var stats: Models.Stats

    /** A session for `client`, filed under the client's id, with Go's zero statistics. */
    constructor (client: Client, now: int)
      ensures id == client.id && this.client == client
      ensures lastActivity == now && stats == Models.ZeroStats
    {
      id, this.client := client.id, client;
      lastActivity := now;
      stats := Models.ZeroStats;
    }

    method UpdateActivity(now: int)
      modifies this
      ensures lastActivity == now && stats == old(stats)
    {
      lastActivity := now;
    }

    /** Replaces the statistics wholesale. */
    method UpdateStats(stats: Models.Stats)
      modifies this
      ensures this.stats == stats && lastActivity == old(lastActivity)
    {
      this.stats := stats;
    }

    method GetStats() returns (s: Models.Stats)
      ensures s == stats
    {
      s := stats;
    }
  }

  class SessionManager {
    var sessions: map<string, Session>

    /** Every session is filed under its own id, which is its client's id. */
    ghost predicate Valid()
      reads this
    {
      forall k :: k in sessions ==> sessions[k].id == k && sessions[k].client.id == k
    }

    /** What removing `id` may touch: the session's client and that client's library client. */
    ghost function ClientOf(id: string): set<object>
      reads this
    {
      if id in sessions && sessions[id].client.wa != null
      then {sessions[id].client, sessions[id].client.wa as Protocol.WAClient}
      else if id in sessions then {sessions[id].client}
      else {}
    }

    /** `NewSessionManager`: no sessions. */
    constructor ()
      ensures sessions == map[] && Valid()
    {
      sessions := map[];
    }

    /** Files a new session for `client` under its id, replacing any session filed there. */
    method CreateSession(client: Client, now: int) returns (s: Session)
      requires Valid()
      modifies this
      ensures Valid()
      ensures fresh(s) && s.id == client.id && s.client == client
      ensures s.lastActivity == now && s.stats == Models.ZeroStats
      ensures sessions == old(sessions)[client.id := s]
    {
      s := new Session(client, now);
      sessions := sessions[client.id := s];
    }

    /** Lookup: found exactly when `id` is filed, and then the filed session. */
    method GetSession(id: string) returns (s: Session?, exists_: bool)
      ensures exists_ <==> id in sessions
      ensures exists_ ==> s == sessions[id]
      ensures !exists_ ==> s == null
    {
      if id in sessions {
        s, exists_ := sessions[id], true;
      } else {
        s, exists_ := null, false;
      }
    }

    /** If `id` is filed, disconnects its client and drops it; otherwise nothing happens. */
    method RemoveSession(id: string)
      requires Valid()
      requires id in sessions ==> sessions[id].client.wa != null
      modifies this, ClientOf(id)
      ensures Valid()
      ensures sessions == old(sessions) - {id}
      ensures id in old(sessions) ==>
                var c := old(sessions)[id].client;
                && !c.connected
                && c.wa.disconnectCalls == old(c.wa.disconnectCalls) + (if old(c.connected) then 1 else 0)
                && c.wa.connectCalls == old(c.wa.connectCalls) && c.wa.pollCalls == old(c.wa.pollCalls)
                && c.wa.pollAnswers == old(c.wa.pollAnswers) && c.wa.storeID == old(c.wa.storeID)
    {
      if id in sessions {
        var s := sessions[id];
        s.client.Disconnect();
        sessions := sessions - {id};
      }
    }
  }

  /** A session created and then removed is not found any more; other sessions stay filed. */
  method CreateThenRemove(sm: SessionManager, client: Client, now: int) returns (found: bool)
    requires sm.Valid() && client.wa != null
    modifies sm, client, client.wa
    ensures sm.Valid()
    ensures !found
    ensures sm.sessions == old(sm.sessions) - {client.id}
  {
    var _ := sm.CreateSession(client, now);
    sm.RemoveSession(client.id);
    var s;
    s, found := sm.GetSession(client.id);
  }

  /** Removing twice has the effect of removing once: the second call finds nothing. */
  method RemoveTwice(sm: SessionManager, id: string)
    requires sm.Valid()
    requires id in sm.sessions ==> sm.sessions[id].client.wa != null
    modifies sm, sm.ClientOf(id)
    ensures sm.Valid()
    ensures sm.sessions == old(sm.sessions) - {id}
    ensures id in old(sm.sessions) ==>
              var c := old(sm.sessions)[id].client;
              && !c.connected
              && c.wa.disconnectCalls == old(c.wa.disconnectCalls) + (if old(c.connected) then 1 else 0)
              && c.wa.connectCalls == old(c.wa.connectCalls) && c.wa.pollCalls == old(c.wa.pollCalls)
              && c.wa.pollAnswers == old(c.wa.pollAnswers) && c.wa.storeID == old(c.wa.storeID)
  {
    sm.RemoveSession(id);
    sm.RemoveSession(id);
  }

  /** Statistics read back are the statistics last written. */
  method StatsRoundTrip(s: Session, stats: Models.Stats) returns (got: Models.Stats)
    modifies s
    ensures got == stats
  {
    s.UpdateStats(stats);
    got := s.GetStats();
  }
}
