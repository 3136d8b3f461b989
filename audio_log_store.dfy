/** DatabaseAudioManager (src/database/DatabaseAudioManager.cs): the log of
    spoken messages and the audio files made for them (table AudioLogs),
    kept as an in-memory sequence in insertion order. */
module AudioLogStore {
  import opened Wrappers

  datatype AudioRow = AudioRow(message: string, audioPath: string)

  /** The path of the most recent row whose message is exactly `message`. */
  function LatestPath(rows: seq<AudioRow>, message: string): (r: Option<string>)
    ensures r.None? <==> forall i :: 0 <= i < |rows| ==> rows[i].message != message
  {
    if rows == [] then None
    else if rows[|rows| - 1].message == message then Some(rows[|rows| - 1].audioPath)
    else LatestPath(rows[..|rows| - 1], message)
  }

  /** A found path belongs to a matching row with no matching row after it. */
  lemma {:induction false} LatestPathIsMostRecent(rows: seq<AudioRow>, message: string)
    requires LatestPath(rows, message).Some?
    ensures exists i :: 0 <= i < |rows| && rows[i] == AudioRow(message, LatestPath(rows, message).value)
                        && forall j :: i < j < |rows| ==> rows[j].message != message
  {
    var i := LatestRow(rows, message);
  }

  /** The row LatestPath reads, found by walking back from the end. */
  lemma {:induction false} LatestRow(rows: seq<AudioRow>, message: string) returns (i: nat)
    requires LatestPath(rows, message).Some?
    ensures i < |rows| && rows[i] == AudioRow(message, LatestPath(rows, message).value)
    ensures forall j :: i < j < |rows| ==> rows[j].message != message
  {
    var n := |rows| - 1;
    if rows[n].message == message {
      i := n;
    } else {
      i := LatestRow(rows[..n], message);
      assert rows[i] == rows[..n][i];
      assert forall j :: i < j < n ==> rows[j] == rows[..n][j];
    }
  }

  /** Adding a row for `message` answers the next lookup of `message` and
      leaves lookups of every other message as they were. */
  lemma AddThenLookup(rows: seq<AudioRow>, message: string, audioPath: string, other: string)
    ensures LatestPath(rows + [AudioRow(message, audioPath)], message) == Some(audioPath)
    ensures other != message ==> LatestPath(rows + [AudioRow(message, audioPath)], other) == LatestPath(rows, other)
  {
    assert (rows + [AudioRow(message, audioPath)])[..|rows|] == rows;
  }

  class DatabaseAudioManager {
    /** The rows of the table, oldest first. */
    var rows: seq<AudioRow>

    constructor (existing: seq<AudioRow>)
      ensures rows == existing
    {
      rows := existing;
    }

    /** INSERT of one row. */
    method AddAudioPath(message: string, audioPath: string)
      modifies this
      ensures rows == old(rows) + [AudioRow(message, audioPath)]
    {
      rows := rows + [AudioRow(message, audioPath)];
    }

    /** SELECT … WHERE Message = @Message ORDER BY Timestamp DESC LIMIT 1:
        the newest exact match, or null. */
    method GetAudioPath(message: string) returns (path: Option<string>)
      ensures path == LatestPath(rows, message)
    {
      var i := |rows|;
      assert rows[..i] == rows;
      while i > 0
        invariant 0 <= i <= |rows|
        invariant LatestPath(rows, message) == LatestPath(rows[..i], message)
      {
        if rows[i - 1].message == message {
          return Some(rows[i - 1].audioPath);
        }
        assert rows[..i][..i - 1] == rows[..i - 1];
        i := i - 1;
      }
      return None;
    }
  }
}
