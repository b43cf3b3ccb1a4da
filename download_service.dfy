/**
 * IP2LocationDownloadService: `download(dbType)` checks the database type and
 * `to(downloadDir)` prepares the directory, clears a stale file at the destination,
 * runs the injected transfer and rejects an empty result.
 *
 * `Run` is the specification of `to`: from the filesystem before the call and the
 * oracle inputs (`Env`) it gives the result, the filesystem after the call and the
 * transfers invoked. The method `IP2LocationDownload.To` is proved to agree with it,
 * and the lemmas below state what the service promises in terms of `Run`.
 */
module DownloadService {
  import opened Strings
  import opened DatabaseTypes
  import opened Naming
  import opened FileSystems
  import opened HttpClients

  /** The exceptions the service raises: IllegalArgumentException, IllegalStateException, IOException. */
  datatype Error = InvalidArgument(message: string) | IllegalState(message: string) | IOFailure(message: string)

  datatype Result<T> = Ok(value: T) | Err(error: Error)

  function InvalidTypeMessage(dbType: string): string {
    "Invalid database type requested: '" + dbType + "'."
  }

  function NotADirectoryMessage(dir: Path): string {
    "Given dir '" + dir + "' is not a directory."
  }

  function NotWritableMessage(dir: Path): string {
    "Given dir '" + dir + "' is not writable."
  }

  function CannotCreateMessage(dir: Path): string {
    "Could not create dir '" + dir + "'."
  }

  function CannotDeleteMessage(file: Path): string {
    "Could not delete file '" + file + "'."
  }

  const EmptyDumpMessage: string := "Downloaded dump is empty."

  /** What the environment decides: where mkdirs and delete succeed, and what the transfer does. */
  datatype Env = Env(creatable: set<Path>, deletable: set<Path>, transfer: Transfer)

  /** The result of one `to` call, the filesystem it leaves and the transfers it invoked. */
  datatype Outcome = Outcome(result: Result<Path>, entries: map<Path, Entry>, calls: seq<Call>)

  /** The directory step of `to`: the filesystem once `dir` is a directory, or the error. */
  function PrepareDirectory(creatable: set<Path>, dir: Path, entries: map<Path, Entry>): Result<map<Path, Entry>> {
    if dir in entries then
      if !entries[dir].Dir? then Err(InvalidArgument(NotADirectoryMessage(dir)))
      else if !entries[dir].writable then Err(InvalidArgument(NotWritableMessage(dir)))
      else Ok(entries)
    else if dir !in creatable then Err(InvalidArgument(CannotCreateMessage(dir)))
    else Ok(entries[dir := Dir(true)])
  }

  /** The stale-file step of `to`: the filesystem without an entry at `dest`, or the error. */
  function ClearDestination(deletable: set<Path>, dest: Path, entries: map<Path, Entry>): Result<map<Path, Entry>> {
    if dest !in entries then Ok(entries)
    else if !entries[dest].writable || dest !in deletable then Err(InvalidArgument(CannotDeleteMessage(dest)))
    else Ok(entries - {dest})
  }

  /** `download(dbType).to(dir)` for a database type already accepted by `download`. */
  function Run(env: Env, token: string, dbType: string, dir: Path, timestamp: string, entries: map<Path, Entry>): (o: Outcome)
    // at most one transfer, with the vendor URL and the computed destination
    ensures |o.calls| <= 1
    ensures o.calls != [] ==>
      && o.calls[0].url == DumpUrl(token, dbType)
      && o.calls[0].destination == DestinationPath(dir, dbType, timestamp)
    // the transfer starts with the directory in place and no stale file at the destination
    ensures o.calls != [] ==>
      && dir in o.calls[0].before && o.calls[0].before[dir].Dir?
      && DestinationPath(dir, dbType, timestamp) !in o.calls[0].before
    // a failure before the transfer is an InvalidArgument
    ensures o.calls == [] ==> o.result.Err? && o.result.error.InvalidArgument?
    // success is the destination, holding a non-empty file
    ensures o.result.Ok? ==>
      && o.calls != []
      && o.result.value == DestinationPath(dir, dbType, timestamp)
      && o.result.value in o.entries && o.entries[o.result.value].File?
      && o.entries[o.result.value].size > 0
    // nothing but the directory and the destination changes
    ensures forall p {:trigger SameAt(entries, o.entries, p)} ::
      p != dir && p != DestinationPath(dir, dbType, timestamp) ==> SameAt(entries, o.entries, p)
  {
    var dest := DestinationPath(dir, dbType, timestamp);
    match PrepareDirectory(env.creatable, dir, entries)
    case Err(e) => Outcome(Err(e), entries, [])
    case Ok(prepared) =>
      match ClearDestination(env.deletable, dest, prepared)
      case Err(e) => Outcome(Err(e), prepared, [])
      case Ok(cleared) =>
        var call := Call(DumpUrl(token, dbType), dest, cleared);
        var after := Transferred(cleared, dest, env.transfer.written);
        if env.transfer.raised.Some? then Outcome(Err(IOFailure(env.transfer.raised.value)), after, [call])
        else if LengthIn(after, dest) == 0 then Outcome(Err(IllegalState(EmptyDumpMessage)), after, [call])
        else Outcome(Ok(dest), after, [call])
  }

  /** The whole flow `download(dbType).to(dir)`. */
  function Fetch(env: Env, token: string, dbType: string, dir: Path, timestamp: string, entries: map<Path, Entry>): Outcome {
    if !IsValidDbType(dbType) then Outcome(Err(InvalidArgument(InvalidTypeMessage(dbType))), entries, [])
    else Run(env, token, dbType, dir, timestamp, entries)
  }

  /** The conditions, on the filesystem before the call, under which `to` reaches the transfer. */
  predicate ReachesTransfer(env: Env, dir: Path, dest: Path, entries: map<Path, Entry>) {
    && (if dir in entries then entries[dir].Dir? && entries[dir].writable else dir in env.creatable)
    && (dest in entries ==> entries[dest].writable && dest in env.deletable)
  }

  // ---------------------------------------------------------------------------------
  // The classes
  // ---------------------------------------------------------------------------------

  class IP2LocationDownloadService {
    const httpClient: HttpClient
    const downloadToken: string

    constructor (httpClient: HttpClient, downloadToken: string)
      ensures this.httpClient == httpClient && this.downloadToken == downloadToken
    {
      this.httpClient := httpClient;
      this.downloadToken := downloadToken;
    }

    /** Prepares a download of `dbType`, refusing a malformed type; touches neither disk nor network. */
    method Download(dbType: string) returns (r: Result<IP2LocationDownload>)
      ensures r.Ok? <==> IsValidDbType(dbType)
      ensures r.Err? ==> r.error == InvalidArgument(InvalidTypeMessage(dbType))
      ensures r.Ok? ==> fresh(r.value) && r.value.service == this && r.value.dbType == dbType
    {
      if !IsValidDbType(dbType) {
        return Err(InvalidArgument(InvalidTypeMessage(dbType)));
      }
      var download := new IP2LocationDownload(this, dbType);
      return Ok(download);
    }
  }

  class IP2LocationDownload {
    const service: IP2LocationDownloadService
    const dbType: string

    constructor (service: IP2LocationDownloadService, dbType: string)
      ensures this.service == service && this.dbType == dbType
    {
      this.service := service;
      this.dbType := dbType;
    }

    /** Downloads the dump into a fresh file under `downloadDir` and returns that file's path. */
    method To(fs: FileSystem, downloadDir: Path, timestamp: string) returns (r: Result<Path>)
      modifies fs, service.httpClient
      ensures var o := Run(Env(fs.creatable, fs.deletable, service.httpClient.transfer),
                           service.downloadToken, dbType, downloadDir, timestamp, old(fs.entries));
        && r == o.result
        && fs.entries == o.entries
        && service.httpClient.calls == old(service.httpClient.calls) + o.calls
    {
      if fs.Exists(downloadDir) {
        if !fs.IsDirectory(downloadDir) {
          return Err(InvalidArgument(NotADirectoryMessage(downloadDir)));
        } else if !fs.CanWrite(downloadDir) {
          return Err(InvalidArgument(NotWritableMessage(downloadDir)));
        }
      } else {
        var created := fs.Mkdirs(downloadDir);
        if !created {
          return Err(InvalidArgument(CannotCreateMessage(downloadDir)));
        }
      }

      var destination := DestinationPath(downloadDir, dbType, timestamp);
      if fs.Exists(destination) {
        if !fs.CanWrite(destination) {
          return Err(InvalidArgument(CannotDeleteMessage(destination)));
        }
        var deleted := fs.Delete(destination);
        if !deleted {
          return Err(InvalidArgument(CannotDeleteMessage(destination)));
        }
      }

      var dumpUrl := DumpUrl(service.downloadToken, dbType);
      var failure := service.httpClient.Download(dumpUrl, destination, fs);
      if failure.Some? {
        return Err(IOFailure(failure.value));
      }

      if fs.Length(destination) == 0 {
        return Err(IllegalState(EmptyDumpMessage));
      }
      return Ok(destination);
    }
  }

  /** The chained call `service.download(dbType).to(downloadDir)`. */
  method DownloadTo(service: IP2LocationDownloadService, fs: FileSystem, dbType: string, downloadDir: Path, timestamp: string)
    returns (r: Result<Path>)
    modifies fs, service.httpClient
    ensures var o := Fetch(Env(fs.creatable, fs.deletable, service.httpClient.transfer),
                           service.downloadToken, dbType, downloadDir, timestamp, old(fs.entries));
      && r == o.result
      && fs.entries == o.entries
      && service.httpClient.calls == old(service.httpClient.calls) + o.calls
  {
    var prepared := service.Download(dbType);
    match prepared
    case Err(e) => r := Err(e);
    case Ok(download) => r := download.To(fs, downloadDir, timestamp);
  }

  // ---------------------------------------------------------------------------------
  // What the service promises
  // ---------------------------------------------------------------------------------

  /** A malformed type fails with its message before any filesystem or network effect. */
  lemma InvalidTypeHasNoEffect(env: Env, token: string, dbType: string, dir: Path, timestamp: string, entries: map<Path, Entry>)
    ensures var o := Fetch(env, token, dbType, dir, timestamp, entries);
      (o.result == Err(InvalidArgument(InvalidTypeMessage(dbType))) && o.entries == entries && o.calls == [])
      <==> !IsValidDbType(dbType)
  {
    if IsValidDbType(dbType) {
      var o := Run(env, token, dbType, dir, timestamp, entries);
      if o.calls == [] {
        // every message raised before the transfer starts with 'G' or 'C', not 'I'
        assert o.result.error.message[0] != InvalidTypeMessage(dbType)[0];
      }
    }
  }

  /** A path that exists but is no directory is refused first, whatever its permissions; nothing happens. */
  lemma RejectsNonDirectory(env: Env, token: string, dbType: string, dir: Path, timestamp: string, entries: map<Path, Entry>)
    requires dir in entries && entries[dir].File?
    ensures Run(env, token, dbType, dir, timestamp, entries)
      == Outcome(Err(InvalidArgument("Given dir '" + dir + "' is not a directory.")), entries, [])
  {
  }

  /** A directory that is not writable is refused; nothing happens. */
  lemma RejectsUnwritableDirectory(env: Env, token: string, dbType: string, dir: Path, timestamp: string, entries: map<Path, Entry>)
    requires dir in entries && entries[dir] == Dir(false)
    ensures Run(env, token, dbType, dir, timestamp, entries)
      == Outcome(Err(InvalidArgument("Given dir '" + dir + "' is not writable.")), entries, [])
  {
  }

  /** A missing directory that cannot be created is refused; nothing happens. */
  lemma RejectsUncreatableDirectory(env: Env, token: string, dbType: string, dir: Path, timestamp: string, entries: map<Path, Entry>)
    requires dir !in entries && dir !in env.creatable
    ensures Run(env, token, dbType, dir, timestamp, entries)
      == Outcome(Err(InvalidArgument("Could not create dir '" + dir + "'.")), entries, [])
  {
  }

  /** A missing directory that can be created is created, and stays, whatever happens afterwards. */
  lemma CreatesMissingDirectory(env: Env, token: string, dbType: string, dir: Path, timestamp: string, entries: map<Path, Entry>)
    requires dir !in entries && dir in env.creatable
    ensures var o := Run(env, token, dbType, dir, timestamp, entries);
      dir in o.entries && o.entries[dir] == Dir(true)
      && (o.calls != [] ==> o.calls[0].before[dir] == Dir(true))
  {
  }

  /** A stale file that is unwritable or cannot be deleted is refused before any transfer. */
  lemma RejectsUndeletableFile(env: Env, token: string, dbType: string, dir: Path, timestamp: string, entries: map<Path, Entry>)
    requires var dest := DestinationPath(dir, dbType, timestamp);
      && (if dir in entries then entries[dir] == Dir(true) else dir in env.creatable)
      && dest in entries && (!entries[dest].writable || dest !in env.deletable)
    ensures var o := Run(env, token, dbType, dir, timestamp, entries);
      o.result == Err(InvalidArgument("Could not delete file '" + DestinationPath(dir, dbType, timestamp) + "'."))
      && o.calls == []
  {
  }

  /** The transfer is invoked exactly once when the directory and destination steps pass, and never otherwise. */
  lemma TransferInvokedIff(env: Env, token: string, dbType: string, dir: Path, timestamp: string, entries: map<Path, Entry>)
    ensures var o := Run(env, token, dbType, dir, timestamp, entries);
      |o.calls| == 1 <==> ReachesTransfer(env, dir, DestinationPath(dir, dbType, timestamp), entries)
  {
  }

  /** An I/O error of the transfer is raised unchanged. */
  lemma TransferFailurePropagates(env: Env, token: string, dbType: string, dir: Path, timestamp: string, entries: map<Path, Entry>)
    requires ReachesTransfer(env, dir, DestinationPath(dir, dbType, timestamp), entries)
    requires env.transfer.raised.Some?
    ensures Run(env, token, dbType, dir, timestamp, entries).result == Err(IOFailure(env.transfer.raised.value))
  {
  }

  /** A transfer that creates no file, or an empty one, ends in "Downloaded dump is empty.". */
  lemma EmptyDumpRejected(env: Env, token: string, dbType: string, dir: Path, timestamp: string, entries: map<Path, Entry>)
    requires ReachesTransfer(env, dir, DestinationPath(dir, dbType, timestamp), entries)
    requires env.transfer.raised.None?
    requires env.transfer.written.None? || env.transfer.written == Some(0)
    ensures Run(env, token, dbType, dir, timestamp, entries).result == Err(IllegalState("Downloaded dump is empty."))
  {
  }

  /** `to` succeeds exactly when the transfer is reached, raises nothing and leaves a non-empty file. */
  lemma SucceedsIff(env: Env, token: string, dbType: string, dir: Path, timestamp: string, entries: map<Path, Entry>)
    ensures Run(env, token, dbType, dir, timestamp, entries).result.Ok? <==>
      && ReachesTransfer(env, dir, DestinationPath(dir, dbType, timestamp), entries)
      && env.transfer.raised.None?
      && env.transfer.written.Some? && env.transfer.written.value > 0
  {
  }

  /**
   * A successful download returns, under the given directory, a file whose name decodes to
   * the requested type and the timestamp, fetched from a URL that decodes to the token and
   * the type.
   */
  lemma FetchSuccessNamesArtifact(env: Env, token: string, dbType: string, dir: Path, timestamp: string, entries: map<Path, Entry>)
    requires Fetch(env, token, dbType, dir, timestamp, entries).result.Ok?
    ensures var o := Fetch(env, token, dbType, dir, timestamp, entries);
      && IsValidDbType(dbType)
      && |o.calls| == 1
      && ParseDumpUrl(o.calls[0].url) == Some((token, dbType))
      && o.result.value == Child(dir, DestinationName(dbType, timestamp))
      && ParseDestinationName(DestinationName(dbType, timestamp)) == Some((dbType, timestamp))
  {
    DumpUrlRoundTrip(token, dbType);
    DestinationNameRoundTrip(dbType, timestamp);
  }

  // ---------------------------------------------------------------------------------
  // The download test's scenarios, against the classes: a scripted client, a stand-in
  // temporary folder, and what each test expects
  // ---------------------------------------------------------------------------------

  const TestDir: Path := "/tmp/i2l-test"
  const TestTimestamp: string := "20180924-120000.0001"

  method ScenarioDownloaded() {
    var client := new HttpClient(Transfer(Some(18), None));
    var service := new IP2LocationDownloadService(client, "1234");
    var fs := new FileSystem(map[TestDir := Dir(true)], {}, {});
    DbTypeExamples();
    var r := DownloadTo(service, fs, "DB1", TestDir, TestTimestamp);
    SucceedsIff(Env({}, {}, client.transfer), "1234", "DB1", TestDir, TestTimestamp, map[TestDir := Dir(true)]);
    NamingExamples(TestDir, TestTimestamp);
    assert r == Ok(TestDir + "/IP2LOCATION_DB1_" + TestTimestamp + ".zip");
    assert client.calls[0].url == "https://www.ip2location.com/download?token=1234&file=DB1";
  }

  method ScenarioNoFile() {
    var client := new HttpClient(Transfer(None, None));
    var service := new IP2LocationDownloadService(client, "1234");
    var fs := new FileSystem(map[TestDir := Dir(true)], {}, {});
    DbTypeExamples();
    var r := DownloadTo(service, fs, "DB1", TestDir, TestTimestamp);
    EmptyDumpRejected(Env({}, {}, client.transfer), "1234", "DB1", TestDir, TestTimestamp, map[TestDir := Dir(true)]);
    assert r == Err(IllegalState("Downloaded dump is empty."));
  }

  method ScenarioEmptyFile() {
    var client := new HttpClient(Transfer(Some(0), None));
    var service := new IP2LocationDownloadService(client, "1234");
    var fs := new FileSystem(map[TestDir := Dir(true)], {}, {});
    DbTypeExamples();
    var r := DownloadTo(service, fs, "DB1", TestDir, TestTimestamp);
    EmptyDumpRejected(Env({}, {}, client.transfer), "1234", "DB1", TestDir, TestTimestamp, map[TestDir := Dir(true)]);
    assert r == Err(IllegalState("Downloaded dump is empty."));
  }

  method ScenarioInvalidType() {
    var client := new HttpClient(Transfer(Some(18), None));
    var service := new IP2LocationDownloadService(client, "1234");
    var fs := new FileSystem(map[TestDir := Dir(true)], {}, {});
    DbTypeExamples();
    var r := DownloadTo(service, fs, "DB 1", TestDir, TestTimestamp);
    assert r == Err(InvalidArgument(InvalidTypeMessage("DB 1")));
    assert client.calls == [];
  }

  method ScenarioNotADirectory() {
    var client := new HttpClient(Transfer(Some(18), None));
    var service := new IP2LocationDownloadService(client, "1234");
    var fs := new FileSystem(map[TestDir := File(0, true)], {}, {});
    DbTypeExamples();
    var r := DownloadTo(service, fs, "DB1", TestDir, TestTimestamp);
    RejectsNonDirectory(Env({}, {}, client.transfer), "1234", "DB1", TestDir, TestTimestamp, map[TestDir := File(0, true)]);
    assert r == Err(InvalidArgument(NotADirectoryMessage(TestDir)));
    assert client.calls == [];
  }

  method ScenarioCannotCreate() {
    var client := new HttpClient(Transfer(Some(18), None));
    var service := new IP2LocationDownloadService(client, "1234");
    var fs := new FileSystem(map[TestDir := Dir(false)], {}, {});
    var missing := TestDir + "/non-existing";
    DbTypeExamples();
    var r := DownloadTo(service, fs, "DB1", missing, TestTimestamp);
    RejectsUncreatableDirectory(Env({}, {}, client.transfer), "1234", "DB1", missing, TestTimestamp, map[TestDir := Dir(false)]);
    assert r == Err(InvalidArgument(CannotCreateMessage(missing)));
    assert client.calls == [];
  }

  method ScenarioNotWritable() {
    var client := new HttpClient(Transfer(Some(18), None));
    var service := new IP2LocationDownloadService(client, "1234");
    var fs := new FileSystem(map[TestDir := Dir(false)], {}, {});
    DbTypeExamples();
    var r := DownloadTo(service, fs, "DB1", TestDir, TestTimestamp);
    RejectsUnwritableDirectory(Env({}, {}, client.transfer), "1234", "DB1", TestDir, TestTimestamp, map[TestDir := Dir(false)]);
    assert r == Err(InvalidArgument(NotWritableMessage(TestDir)));
    assert client.calls == [];
  }
}
