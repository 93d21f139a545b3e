/**
 * The storage collaborator (`DatabaseInterface`) seen only through the calls
 * made on it: every call is appended to a log, and whether calls fail is an
 * oracle fixed when the object is created.
 */
module Storage {
  import opened Common

  datatype StorageCall =
    | Close
    | SaveSession(id: string, name: string, jid: string, phoneNumber: string)
    | UpdateSessionStats(sessionID: string, contacts: int64, groups: int64, conversations: int64)
    | GetAllSessions
    | DeleteSession(id: string)

  class Database {
    const failing: bool
    var log: seq<StorageCall>

    constructor (failing: bool)
      ensures this.failing == failing && log == []
    {
      this.failing := failing;
      log := [];
    }

    method SaveSession(id: string, name: string, jid: string, phoneNumber: string) returns (err: bool)
      modifies this
      ensures log == old(log) + [StorageCall.SaveSession(id, name, jid, phoneNumber)]
      ensures err == failing
    {
      log := log + [StorageCall.SaveSession(id, name, jid, phoneNumber)];
      err := failing;
    }

    method UpdateSessionStats(sessionID: string, contacts: int64, groups: int64, conversations: int64) returns (err: bool)
      modifies this
      ensures log == old(log) + [StorageCall.UpdateSessionStats(sessionID, contacts, groups, conversations)]
      ensures err == failing
    {
      log := log + [StorageCall.UpdateSessionStats(sessionID, contacts, groups, conversations)];
      err := failing;
    }

    method DeleteSession(id: string) returns (err: bool)
      modifies this
      ensures log == old(log) + [StorageCall.DeleteSession(id)]
      ensures err == failing
    {
      log := log + [StorageCall.DeleteSession(id)];
      err := failing;
    }
  }
}
