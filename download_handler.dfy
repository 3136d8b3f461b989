/** StreamingDownloadHandler (src/util/audio/StreamingDownloadHandler.cs):
    copies each received block into a fresh array and hands it to the
    chunk callback. The callback is represented by the record of the chunks
    it has been given. */
module DownloadHandler {
  import opened Wrappers
  import opened Bytes

  /** Exceptions ReceiveData can raise from a bad length. */
  datatype CopyError = NegativeLength | LengthBeyondData

  class StreamingDownloadHandler {
    /** The callback is not null. */
    const hasCallback: bool
    /** The chunks handed to the callback so far. */
    var delivered: seq<seq<byte>>

    constructor (hasCallback: bool)
      ensures this.hasCallback == hasCallback && delivered == []
    {
      this.hasCallback := hasCallback;
      delivered := [];
    }

    /** Null data or a zero length is refused; otherwise the first
        `dataLength` bytes are copied into a new array, which goes to the
        callback, and true is returned. A negative length fails at the
        allocation and one beyond the data fails in the copy. */
    method ReceiveData(data: array?<byte>, dataLength: int) returns (r: Result<bool, CopyError>, chunk: array?<byte>)
      modifies this
      ensures data == null || dataLength == 0 ==> r == Success(false) && chunk == null && delivered == old(delivered)
      ensures data != null && dataLength < 0 ==> r == Failure(NegativeLength) && delivered == old(delivered)
      ensures data != null && dataLength > data.Length ==> r == Failure(LengthBeyondData) && delivered == old(delivered)
      ensures data != null && 0 < dataLength <= data.Length ==>
        && r == Success(true)
        && chunk != null && fresh(chunk) && chunk[..] == data[..dataLength]
        && delivered == old(delivered) + (if hasCallback then [data[..dataLength]] else [])
    {
      chunk := null;
      if data == null || dataLength == 0 {
        return Success(false), chunk;
      }
      if dataLength < 0 {
        return Failure(NegativeLength), chunk;
      }
      var copy := new byte[dataLength];
      if dataLength > data.Length {
        return Failure(LengthBeyondData), chunk;
      }
      for i := 0 to dataLength
        modifies copy
        invariant forall k :: 0 <= k < i ==> copy[k] == data[k]
      {
        copy[i] := data[i];
      }
      assert copy[..] == data[..dataLength];
      chunk := copy;
      if hasCallback {
        delivered := delivered + [copy[..]];
      }
      return Success(true), chunk;
    }

    /** Progress cannot be known while streaming. */
    function GetProgress(): (p: real)
      ensures p == 0.0
    {
      0.0
    }

    /** There is no text for binary data. */
    function GetText(): (t: Option<string>)
      ensures t.None?
    {
      None
    }
  }
}
