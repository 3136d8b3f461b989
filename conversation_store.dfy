/** DatabaseManager: the conversation log (table AIInteractions), kept as an
    in-memory sequence in insertion order. */
module ConversationStore {
  import opened Wrappers

  /** One row: role and message text (the timestamp column is not modelled). */
  datatype Turn = Turn(role: string, message: string)

  /** The `n` most recent rows, oldest first. */
  function Recent(rows: seq<Turn>, n: nat): (r: seq<Turn>)
    ensures |r| == if n < |rows| then n else |rows|
  {
    if n < |rows| then rows[|rows| - n..] else rows
  }

  /** List<T>.Reverse. */
  function Reversed(s: seq<Turn>): (r: seq<Turn>)
    ensures |r| == |s| && forall i :: 0 <= i < |s| ==> r[i] == s[|s| - 1 - i]
  {
    if s == [] then [] else Reversed(s[1..]) + [s[0]]
  }

  class DatabaseManager {
    /** The rows of the table, oldest first. */
    var rows: seq<Turn>

    /** Opening the database keeps whatever rows it already holds
        (CREATE TABLE IF NOT EXISTS). */
    constructor (existing: seq<Turn>)
      ensures rows == existing
    {
      rows := existing;
    }

    /** INSERT of one row. A null message violates the NOT NULL column and
        the insert throws; then nothing is written. */
    method AddMessage(role: string, message: Option<string>) returns (ok: bool)
      modifies this
      ensures ok == message.Some?
      ensures ok ==> rows == old(rows) + [Turn(role, message.value)]
      ensures !ok ==> rows == old(rows)
    {
      if message.None? {
        return false;
      }
      rows := rows + [Turn(role, message.value)];
      return true;
    }

    /** SELECT … ORDER BY Timestamp DESC LIMIT count, read newest first and
        then reversed. A negative LIMIT means no limit in SQLite. */
    method GetLastMessages(count: int) returns (msgs: seq<Turn>)
      ensures |msgs| == if count < 0 || count >= |rows| then |rows| else count
      ensures msgs == rows[|rows| - |msgs|..]
    {
      var newestFirst: seq<Turn> := [];
      var i := |rows|;
      while i > 0 && (count < 0 || |newestFirst| < count)
        invariant 0 <= i <= |rows|
        invariant |newestFirst| == |rows| - i
        invariant count >= 0 ==> |newestFirst| <= count
        invariant forall k :: 0 <= k < |newestFirst| ==> newestFirst[k] == rows[|rows| - 1 - k]
      {
        newestFirst := newestFirst + [rows[i - 1]];
        i := i - 1;
      }
      msgs := [];
      var j := |newestFirst|;
      while j > 0
        invariant 0 <= j <= |newestFirst|
        invariant msgs == rows[i..i + |newestFirst| - j]
      {
        msgs := msgs + [newestFirst[j - 1]];
        j := j - 1;
      }
    }

    /** DELETE FROM AIInteractions. */
    method ClearMessages()
      modifies this
      ensures rows == []
    {
      rows := [];
    }
  }
}
