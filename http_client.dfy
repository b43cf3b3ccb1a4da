/**
 * The injected byte transfer. Its stream copy and network access are not modelled:
 * what one call does is given as a `Transfer` value (the file it leaves, if any, and the
 * I/O error it raises, if any), as a test stub would script it, and every call is
 * logged together with the filesystem it found.
 */
module HttpClients {
  import opened Strings
  import opened Naming
  import opened FileSystems

  /** What one download does: the size of the file it writes, if it creates one, and its I/O error, if any. */
  datatype Transfer = Transfer(written: Option<nat>, raised: Option<string>)

  /** One invocation: the URL, the destination and the filesystem at the moment of the call. */
  datatype Call = Call(url: string, destination: Path, before: map<Path, Entry>)

  /** The filesystem after the transfer wrote `written` bytes to `destination`, replacing what was there. */
  function Transferred(entries: map<Path, Entry>, destination: Path, written: Option<nat>): (r: map<Path, Entry>)
    ensures destination in r <==> destination in entries || written.Some?
    ensures written.Some? ==> r[destination] == File(written.value, true)
    ensures forall p {:trigger SameAt(entries, r, p)} :: p != destination || written.None? ==> SameAt(entries, r, p)
  {
    match written
    case None => entries
    case Some(n) => entries[destination := File(n, true)]
  }

  class HttpClient {
    const transfer: Transfer
    var calls: seq<Call>

    constructor (transfer: Transfer)
      ensures this.transfer == transfer && calls == []
    {
      this.transfer := transfer;
      calls := [];
    }

    /** Streams the dump at `url` into `destination`; returns the I/O error it raised, if any. */
    method Download(url: string, destination: Path, fs: FileSystem) returns (failure: Option<string>)
      modifies this, fs
      ensures calls == old(calls) + [Call(url, destination, old(fs.entries))]
      ensures fs.entries == Transferred(old(fs.entries), destination, transfer.written)
      ensures failure == transfer.raised
    {
      calls := calls + [Call(url, destination, fs.entries)];
      fs.entries := Transferred(fs.entries, destination, transfer.written);
      failure := transfer.raised;
    }
  }
}
