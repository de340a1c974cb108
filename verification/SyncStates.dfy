/** The cursor rows, in memory: what survives between sessions. */
module SyncStates {
  import opened Rows
  import opened Protocol

  class MemorySyncState {
    var rows: Cursors

    constructor ()
      ensures rows == map[]
    {
      rows := map[];
    }

    /** A missing row reads as a fresh one. */
    method Cursor(peer: string, log: LogId) returns (c: Cursor)
      ensures c == CursorOf(rows, peer, log)
    {
      c := if (peer, log) in rows then rows[(peer, log)] else NO_CURSOR;
    }

    method SetCursor(peer: string, log: LogId, c: Cursor)
      modifies this
      ensures rows == old(rows)[(peer, log) := c]
    {
      rows := rows[(peer, log) := c];
    }
  }
}
