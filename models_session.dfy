/**
 * The persisted session record of the panel (`models.Session`): its
 * constructor, its status vocabulary, how it is displayed, and its mutators.
 * Timestamps are the caller's clock reading, passed in as `now`.
 */
module Models {
  import opened Common

  const StatusConnected: string := "connected"
  const StatusDisconnected: string := "disconnected"
  const StatusLoggedOut: string := "logged_out"
  const StatusPaired: string := "paired"
  const StatusPending: string := "pending"

  const KnownStatuses: set<string> :=
    {StatusConnected, StatusDisconnected, StatusLoggedOut, StatusPaired, StatusPending}

  const NotAvailable: string := "Não disponível"
  const DisplayPrefix: string := "WhatsApp ("
  const DisplaySuffix: string := ")"

  datatype Stats = Stats(contacts: int64, groups: int64, conversations: int64, messageCount: int64)

  const ZeroStats: Stats := Stats(0, 0, 0, 0)

  /** A status counts as active when the session is usable for messaging; only named statuses are. */
  function ActiveStatus(status: string): (r: bool)
    ensures r ==> status in KnownStatuses
    ensures status == StatusPending || status == StatusDisconnected || status == StatusLoggedOut ==> !r
  {
    status == StatusConnected || status == StatusPaired
  }

  /** The phone shown to the user: a placeholder when none is known. */
  function FormatPhone(phone: string): (r: string)
    ensures r != ""
    ensures phone != "" ==> r == phone
    ensures phone == "" ==> r == NotAvailable
  {
    if phone == "" then NotAvailable else phone
  }

  /** The label shown for a session: its name, or a label built around its phone. */
  function DisplayName(name: string, phone: string): (r: string)
    ensures r != ""
    ensures name != "" ==> r == name
    ensures name == "" ==> r == DisplayPrefix + FormatPhone(phone) + DisplaySuffix
  {
    if name != "" then name else DisplayPrefix + FormatPhone(phone) + DisplaySuffix
  }

  /** Reads the phone back out of a label built by DisplayName for an unnamed session. */
  function LabelPhone(shown: string): (r: Option<string>)
    ensures r.Some? ==> shown == DisplayPrefix + r.value + DisplaySuffix
  {
    if |shown| >= |DisplayPrefix| + |DisplaySuffix|
       && shown[..|DisplayPrefix|] == DisplayPrefix
       && shown[|shown| - |DisplaySuffix|..] == DisplaySuffix
    then Some(shown[|DisplayPrefix|..|shown| - |DisplaySuffix|])
    else None
  }

  /** An unnamed session's label carries its formatted phone, and nothing else. */
  lemma {:induction false} LabelCarriesPhone(phone: string)
    ensures LabelPhone(DisplayName("", phone)) == Some(FormatPhone(phone))
  {
    var f := FormatPhone(phone);
    var shown := DisplayPrefix + f + DisplaySuffix;
    assert shown[..|DisplayPrefix|] == DisplayPrefix;
    assert shown[|shown| - |DisplaySuffix|..] == DisplaySuffix;
    assert shown[|DisplayPrefix|..|shown| - |DisplaySuffix|] == f;
  }

  class Session {
    var id: string
    var name: string
    var jid: string
    var phoneNumber: string
    var connectedAt: int
    var lastActive: int
    var status: string
    var stats: Stats
    var createdAt: int

    /** `NewSession`: a pending record with zeroed statistics, all three timestamps equal to `now`. */
    constructor NewSession(id: string, name: string, jid: string, phoneNumber: string, now: int)
      ensures this.id == id && this.name == name && this.jid == jid && this.phoneNumber == phoneNumber
      ensures status == StatusPending && stats == ZeroStats
      ensures connectedAt == now && lastActive == now && createdAt == now
      ensures !IsActive()
    {
      this.id, this.name, this.jid, this.phoneNumber := id, name, jid, phoneNumber;
      connectedAt, lastActive, createdAt := now, now, now;
      status := StatusPending;
      stats := ZeroStats;
    }

    /** Active records are in one of the named statuses, and a pending one is not active. */
    function IsActive(): (r: bool)
      reads this
      ensures r ==> status in KnownStatuses
      ensures status == StatusPending ==> !r
    {
      ActiveStatus(status)
    }

    function FormatPhoneNumber(): (r: string)
      reads this
      ensures r != ""
      ensures phoneNumber != "" ==> r == phoneNumber
      ensures phoneNumber == "" ==> r == NotAvailable
    {
      FormatPhone(phoneNumber)
    }

    function GetDisplayName(): (r: string)
      reads this
      ensures r != ""
      ensures name != "" ==> r == name
      ensures name == "" ==> LabelPhone(r) == Some(FormatPhoneNumber())
    {
      LabelCarriesPhone(phoneNumber);
      DisplayName(name, phoneNumber)
    }

    /** Sets the three counts exactly; the message count and everything but `lastActive` stay. */
    method UpdateStats(contacts: int64, groups: int64, conversations: int64, now: int)
      modifies this
      ensures stats == Stats(contacts, groups, conversations, old(stats.messageCount))
      ensures lastActive == now
      ensures id == old(id) && name == old(name) && jid == old(jid) && phoneNumber == old(phoneNumber)
      ensures status == old(status) && connectedAt == old(connectedAt) && createdAt == old(createdAt)
    {
      stats := stats.(contacts := contacts, groups := groups, conversations := conversations);
      lastActive := now;
    }

    /** One more message; the other counts stay. */
    method IncrementMessageCount(now: int)
      modifies this
      ensures stats == old(stats).(messageCount := Inc64(old(stats.messageCount)))
      ensures old(stats.messageCount) as int < Int64Max ==> stats.messageCount as int == old(stats.messageCount) as int + 1
      ensures lastActive == now
      ensures id == old(id) && name == old(name) && jid == old(jid) && phoneNumber == old(phoneNumber)
      ensures status == old(status) && connectedAt == old(connectedAt) && createdAt == old(createdAt)
    {
      stats := stats.(messageCount := Inc64(stats.messageCount));
      lastActive := now;
    }

    /** Sets the status to any string, unvalidated. */
    method UpdateStatus(status: string, now: int)
      modifies this
      ensures this.status == status && lastActive == now
      ensures IsActive() <==> status in {StatusConnected, StatusPaired}
      ensures stats == old(stats) && name == old(name)
      ensures id == old(id) && jid == old(jid) && phoneNumber == old(phoneNumber)
      ensures connectedAt == old(connectedAt) && createdAt == old(createdAt)
    {
      this.status := status;
      lastActive := now;
    }
  }
}
