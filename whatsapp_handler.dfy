/**
 * The statistics event handler (`whatsapp.EventHandler`): it turns protocol
 * events into storage calls and keeps a message counter. Storage errors are
 * ignored: every call is issued whatever the previous ones returned.
 */
module StatsHandler {
  import opened Common
  import opened Protocol
  import opened Storage

  const DefaultName: string := "WhatsApp"

  datatype Counters = Counters(messageCount: int64, contacts: int64, groups: int64)

  const ZeroCounters: Counters := Counters(0, 0, 0)

  /** The counters after one event, and the storage calls it issues, in order. */
  function Step(sessionID: string, c: Counters, e: Event): (r: (Counters, seq<StorageCall>))
    ensures r.0.contacts == c.contacts && r.0.groups == c.groups
    ensures e.Message? ==> r.0.messageCount == Inc64(c.messageCount)
    ensures !e.Message? ==> r.0 == c
    ensures |r.1| <= 1
    ensures r.1 == [] <==> !(e.Connected? || e.PairSuccess? || e.Message? || e.LoggedOut?)
  {
    match e
    case Connected => (c, [SaveSession(sessionID, DefaultName, "", "")])
    case PairSuccess(id) => (c, [SaveSession(sessionID, DefaultName, id.text, id.user)])
    case Message(_) =>
      var next := c.(messageCount := Inc64(c.messageCount));
      (next, [UpdateSessionStats(sessionID, next.contacts, next.groups, next.messageCount)])
    case LoggedOut => (c, [DeleteSession(sessionID)])
    case _ => (c, [])
  }

  /** The counters after a stream of events, and all the storage calls issued, in order. */
  function Run(sessionID: string, c: Counters, es: seq<Event>): (r: (Counters, seq<StorageCall>))
    ensures r.0.contacts == c.contacts && r.0.groups == c.groups
    ensures |r.1| <= |es|
    decreases |es|
  {
    if es == [] then (c, [])
    else
      var (c1, calls1) := Step(sessionID, c, es[0]);
      var (c2, calls2) := Run(sessionID, c1, es[1..]);
      (c2, calls1 + calls2)
  }

  function CountMessages(es: seq<Event>): nat
    decreases |es|
  {
    if es == [] then 0 else (if es[0].Message? then 1 else 0) + CountMessages(es[1..])
  }

  /** The message counts carried by the statistics updates of a call log, in order. */
  function StatsUpdates(calls: seq<StorageCall>): seq<int64>
    decreases |calls|
  {
    if calls == [] then []
    else (if calls[0].UpdateSessionStats? then [calls[0].conversations] else []) + StatsUpdates(calls[1..])
  }

  /** Every call in the log is about this session, and statistics updates carry zero contacts and groups. */
  ghost predicate AboutSession(sessionID: string, calls: seq<StorageCall>) {
    forall k :: 0 <= k < |calls| ==>
      calls[k] != Close && calls[k] != GetAllSessions
      && (calls[k].SaveSession? ==> calls[k].id == sessionID && calls[k].name == DefaultName)
      && (calls[k].DeleteSession? ==> calls[k].id == sessionID)
      && (calls[k].UpdateSessionStats? ==>
            calls[k].sessionID == sessionID && calls[k].contacts == 0 && calls[k].groups == 0)
  }

  lemma {:induction false} StatsUpdatesAppend(a: seq<StorageCall>, b: seq<StorageCall>)
    ensures StatsUpdates(a + b) == StatsUpdates(a) + StatsUpdates(b)
    decreases |a|
  {
    if a == [] {
      assert a + b == b;
    } else {
      assert (a + b)[0] == a[0];
      assert (a + b)[1..] == a[1..] + b;
      StatsUpdatesAppend(a[1..], b);
    }
  }

  /** The counts 1, 2, ..., n after `m` earlier messages, each wrapped to int64. */
  function CountsAfter(m: int, n: nat): (r: seq<int64>)
    ensures |r| == n
    ensures forall k :: 0 <= k < n ==> r[k] == ToInt64(m + k + 1)
  {
    seq(n, k requires 0 <= k < n => ToInt64(m + k + 1))
  }

  lemma CountsAfterCons(m: int, n: nat)
    requires n > 0
    ensures CountsAfter(m, n) == [ToInt64(m + 1)] + CountsAfter(m + 1, n - 1)
  {
    var whole, tail := CountsAfter(m, n), CountsAfter(m + 1, n - 1);
    forall k | 0 <= k < n ensures whole[k] == ([ToInt64(m + 1)] + tail)[k] {
      if k > 0 { assert m + 1 + (k - 1) + 1 == m + k + 1; }
    }
  }

  /**
   * Over any stream of events the handler never changes contacts or groups
   * and counts exactly the Message events, in int64.
   */
  lemma {:induction false} RunCounters(sessionID: string, c: Counters, m: int, es: seq<Event>)
    requires c.messageCount == ToInt64(m)
    ensures Run(sessionID, c, es).0.contacts == c.contacts && Run(sessionID, c, es).0.groups == c.groups
    ensures Run(sessionID, c, es).0.messageCount == ToInt64(m + CountMessages(es))
    decreases |es|
  {
    if es != [] {
      var c1 := Step(sessionID, c, es[0]).0;
      var m1 := m + (if es[0].Message? then 1 else 0);
      if es[0].Message? {
        Inc64OfWrapped(m);
      }
      RunCounters(sessionID, c1, m1, es[1..]);
      assert m1 + CountMessages(es[1..]) == m + CountMessages(es);
    }
  }

  /** The k-th statistics update of a run carries the count after the k-th message. */
  lemma {:induction false} RunStatsUpdates(sessionID: string, c: Counters, m: int, es: seq<Event>)
    requires c.messageCount == ToInt64(m)
    ensures StatsUpdates(Run(sessionID, c, es).1) == CountsAfter(m, CountMessages(es))
    decreases |es|
  {
    if es != [] {
      var (c1, calls1) := Step(sessionID, c, es[0]);
      var m1 := m + (if es[0].Message? then 1 else 0);
      if es[0].Message? {
        Inc64OfWrapped(m);
        assert calls1[1..] == [];
        assert StatsUpdates(calls1) == [ToInt64(m + 1)];
        CountsAfterCons(m, CountMessages(es));
      } else {
        assert StatsUpdates(calls1) == [] by {
          if calls1 != [] { assert calls1[1..] == []; }
        }
      }
      RunStatsUpdates(sessionID, c1, m1, es[1..]);
      StatsUpdatesAppend(calls1, Run(sessionID, c1, es[1..]).1);
    }
  }

  /** Over any stream of events, starting from zero counters, every storage call concerns this session. */
  lemma {:induction false} RunStaysAboutSession(sessionID: string, c: Counters, es: seq<Event>)
    requires c.contacts == 0 && c.groups == 0
    ensures AboutSession(sessionID, Run(sessionID, c, es).1)
    decreases |es|
  {
    if es != [] {
      var (c1, calls1) := Step(sessionID, c, es[0]);
      RunStaysAboutSession(sessionID, c1, es[1..]);
      var calls2 := Run(sessionID, c1, es[1..]).1;
      assert Run(sessionID, c, es).1 == calls1 + calls2;
      assert AboutSession(sessionID, calls1);
      var all := calls1 + calls2;
      forall k | 0 <= k < |all| ensures all[k] == (if k < |calls1| then calls1[k] else calls2[k - |calls1|]) {
      }
    }
  }

  class EventHandler {
    const db: Database
    const sessionID: string
    var stats: Counters

    /** `NewEventHandler`: all counters at zero. */
    constructor (db: Database, sessionID: string)
      ensures this.db == db && this.sessionID == sessionID && stats == ZeroCounters
    {
      this.db, this.sessionID := db, sessionID;
      stats := ZeroCounters;
    }

    /** Handles one event: the counters and the calls issued are those of `Step`. */
    method Handle(e: Event)
      modifies this, db
      ensures stats == Step(sessionID, old(stats), e).0
      ensures db.log == old(db.log) + Step(sessionID, old(stats), e).1
      ensures stats.contacts == old(stats.contacts) && stats.groups == old(stats.groups)
      ensures e.Message? ==> stats.messageCount == Inc64(old(stats.messageCount))
      ensures !e.Message? ==> stats == old(stats)
    {
      match e {
        case Connected =>
          var _ := db.SaveSession(sessionID, DefaultName, "", "");
        case PairSuccess(id) =>
          var phoneNumber := id.user;
          var _ := db.SaveSession(sessionID, DefaultName, id.text, phoneNumber);
        case ClientOutdated =>
        case Disconnected =>
        case Message(_) =>
          stats := stats.(messageCount := Inc64(stats.messageCount));
          UpdateStats();
        case LoggedOut =>
          var _ := db.DeleteSession(sessionID);
        case _ =>
      }
    }

    /** Reports the current counters; the message count goes in the conversations slot. */
    method UpdateStats()
      modifies db
      ensures db.log == old(db.log) + [UpdateSessionStats(sessionID, stats.contacts, stats.groups, stats.messageCount)]
    {
      var _ := db.UpdateSessionStats(sessionID, stats.contacts, stats.groups, stats.messageCount);
    }
  }
}
