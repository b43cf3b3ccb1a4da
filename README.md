# IP2Location dump downloader: download orchestration

This project models the core of a service that fetches the IP2Location geolocation
database dump from the vendor's download API and stores it on local disk. The core is
`IP2LocationDownloadService`:

- `download(dbType)` checks that the database type matches `(DB|PX)[0-9]{1,2}` as a
  whole string. It returns a prepared download or raises `IllegalArgumentException`.
- `to(downloadDir)` runs a short state machine. It checks or creates the directory,
  builds the destination `IP2LOCATION_<type>_<timestamp>.zip`, and removes a stale file
  at that path. Then it calls the injected `HttpClient` with the vendor URL and rejects
  a result that is missing or empty.

Files and modules:

- `strings.dfy` (`Strings`): `Option`, plus first and last occurrence of a character.
- `database_types.dfy` (`DatabaseTypes`): the regular expression, matched as a
  two-character alternation followed by a counted digit repetition. Includes the lemmas
  that characterise the accepted strings.
- `naming.dfy` (`Naming`): the destination file name, the destination path and the
  vendor URL. Each builder has a parser and round-trip lemmas in both directions.
- `file_system.dfy` (`FileSystems`): a `FileSystem` class. It holds a map from path to
  `Dir(writable)` or `File(size, writable)`. Two oracle sets decide where `mkdirs()` and
  `delete()` succeed.
- `http_client.dfy` (`HttpClients`): an `HttpClient` class. Its outcome is scripted as
  a `Transfer` value: the file it leaves, if any, and the I/O error it raises, if any.
  Every call is logged with its URL, its destination and the filesystem it found.
- `download_service.dfy` (`DownloadService`): the two service classes, the
  specification function `Run` of `to`, the function `Fetch` for the whole
  `download(t).to(dir)` flow, and the lemmas stating what the service promises. It
  also holds methods that replay the download tests against the classes.

`IP2LocationDownload.To` is an imperative method over the `FileSystem` and
`HttpClient` objects. Its postcondition ties the result, the new filesystem and the
new call log to `Run`. The lemmas about `Run` then give the error precedence, the
iff-condition for invoking the transfer and for success, and the frame ("nothing but
the directory and the destination changes").

Notes on the source:

- The empty-download error is an `IllegalStateException` (`IllegalState` here), not
  an `IllegalArgumentException` like the other checks of `to`.
- The `SimpleDateFormat` has no time zone set, so the timestamp uses the JVM's
  default zone. The model takes the formatted timestamp as an opaque string parameter.
- The doc comment of `to` (line 55) says `.csv`, but line 94 and the tests use
  `.zip`. The model uses `.zip`.

## Model

| member | source | states |
|---|---|---|
| DatabaseTypes.MatchesDigitsIff | src/main/java/cz/nx1/ip2location/IP2LocationDownloadService.java:40 | the repetition `[0-9]{lo,hi}` matches exactly the strings of ASCII digits whose length is between lo and hi (both directions) |
| DatabaseTypes.ValidDbTypeShape | src/main/java/cz/nx1/ip2location/IP2LocationDownloadService.java:40-43 | a type is accepted iff it has 3 or 4 characters, starts with "DB" or "PX", and the rest are ASCII digits |
| DatabaseTypes.ValidDbTypeHasNoSeparator | src/main/java/cz/nx1/ip2location/IP2LocationDownloadService.java:40 | an accepted type contains none of `_ = & /`, the separators around it in the file name and the URL |
| DatabaseTypes.DbTypeExamples | src/test/java/cz/nx1/ip2location/DownloadTest.java:104-117 | "DB1", "PX11", "DB24" are accepted; "DB 1", "DB", "DB123", "db1", "XX1" and "" are refused |
| Naming.DestinationNameShape | src/main/java/cz/nx1/ip2location/IP2LocationDownloadService.java:92-96 | the destination name starts with "IP2LOCATION_" and ends with ".zip" (not ".csv") |
| Naming.DestinationNameRoundTrip | src/main/java/cz/nx1/ip2location/IP2LocationDownloadService.java:94 | for a valid type, parsing the built file name gives back exactly the type and the timestamp |
| Naming.ParsedDestinationNameRebuilds | src/main/java/cz/nx1/ip2location/IP2LocationDownloadService.java:94 | every name the parser accepts is the name built from the parsed type and timestamp |
| Naming.DumpUrlRoundTrip | src/main/java/cz/nx1/ip2location/IP2LocationDownloadService.java:80 | for a valid type and any token, parsing the vendor URL gives back exactly the token and the type |
| Naming.ParsedDumpUrlRebuilds | src/main/java/cz/nx1/ip2location/IP2LocationDownloadService.java:80 | every URL the parser accepts is the URL built from the parsed token and type |
| Naming.NamingExamples | src/test/java/cz/nx1/ip2location/DownloadTest.java:57-63 | token "1234" and type "DB1" give the URL the test expects; the destination is `<dir>/IP2LOCATION_DB1_<ts>.zip` |
| FileSystems.FileSystem.Mkdirs | src/main/java/cz/nx1/ip2location/IP2LocationDownloadService.java:69 | creation succeeds iff the path is missing and creatable; on success a writable directory is added and nothing else changes |
| FileSystems.FileSystem.Delete | src/main/java/cz/nx1/ip2location/IP2LocationDownloadService.java:74 | deletion succeeds iff the path exists and is deletable; on success only that entry is removed |
| HttpClients.Transferred | src/main/java/cz/nx1/ip2location/HttpClient.java:22-27 | the transfer creates or replaces only the destination, as a writable file of the written size, or leaves the map as it was |
| HttpClients.HttpClient.Download | src/main/java/cz/nx1/ip2location/HttpClient.java:22-27 | one call is logged with its URL, destination and prior filesystem; only the destination changes; the scripted I/O error is returned |
| DownloadService.IP2LocationDownloadService.Download | src/main/java/cz/nx1/ip2location/IP2LocationDownloadService.java:39-44 | a new download object is returned iff the type is valid; otherwise the error is InvalidArgument "Invalid database type requested: '<t>'."; modifies nothing |
| DownloadService.IP2LocationDownload.To | src/main/java/cz/nx1/ip2location/IP2LocationDownloadService.java:61-90 | the result, the new filesystem and the appended transfer calls are exactly those of `Run` |
| DownloadService.DownloadTo | src/main/java/cz/nx1/ip2location/Server.java:53 | the chained `download(t).to(dir)` call agrees with `Fetch` in result, filesystem and transfer calls |
| DownloadService.Run | src/main/java/cz/nx1/ip2location/IP2LocationDownloadService.java:61-90 | at most one transfer, with the vendor URL and the computed destination; the transfer sees the directory in place and no stale file; failures before it are InvalidArgument; success is the destination holding a file of size > 0; only the directory and the destination change |
| DownloadService.InvalidTypeHasNoEffect | src/main/java/cz/nx1/ip2location/IP2LocationDownloadService.java:40-43 | the flow fails with InvalidArgument "Invalid database type requested: '<t>'." and no filesystem change and no transfer, iff the type is invalid |
| DownloadService.RejectsNonDirectory | src/main/java/cz/nx1/ip2location/IP2LocationDownloadService.java:63-65 | an existing non-directory fails with "Given dir '<dir>' is not a directory.", whatever its permissions; no change, no transfer |
| DownloadService.RejectsUnwritableDirectory | src/main/java/cz/nx1/ip2location/IP2LocationDownloadService.java:64-68 | an unwritable directory fails with "Given dir '<dir>' is not writable."; no change, no transfer |
| DownloadService.RejectsUncreatableDirectory | src/main/java/cz/nx1/ip2location/IP2LocationDownloadService.java:69-71 | a missing directory that cannot be created fails with "Could not create dir '<dir>'."; no change, no transfer |
| DownloadService.CreatesMissingDirectory | src/main/java/cz/nx1/ip2location/IP2LocationDownloadService.java:69-71 | a missing, creatable directory exists as a directory when the transfer starts and after the call, whatever the outcome |
| DownloadService.RejectsUndeletableFile | src/main/java/cz/nx1/ip2location/IP2LocationDownloadService.java:73-76 | a stale destination that is unwritable or cannot be deleted fails with "Could not delete file '<dest>'." and no transfer |
| DownloadService.TransferInvokedIff | src/main/java/cz/nx1/ip2location/IP2LocationDownloadService.java:62-81 | the transfer is invoked exactly once iff the directory is usable or creatable and any stale file is deletable; otherwise never |
| DownloadService.TransferFailurePropagates | src/main/java/cz/nx1/ip2location/IP2LocationDownloadService.java:80-81 | an I/O error raised by the transfer is the result, unchanged |
| DownloadService.EmptyDumpRejected | src/main/java/cz/nx1/ip2location/IP2LocationDownloadService.java:84-87 | a transfer that leaves no file or a zero-byte file ends in IllegalState "Downloaded dump is empty." |
| DownloadService.SucceedsIff | src/main/java/cz/nx1/ip2location/IP2LocationDownloadService.java:62-89 | success iff the transfer is reached, raises nothing and writes more than zero bytes |
| DownloadService.FetchSuccessNamesArtifact | src/main/java/cz/nx1/ip2location/IP2LocationDownloadService.java:39-96 | a successful flow had a valid type, one transfer whose URL decodes to (token, type), and returns `<dir>/<name>` where the name decodes to (type, timestamp) |

## Left out

- The freshness check (`isDownloaded(type).in(dir).during(period)`) is not part of
  this model. `Server.java` calls it and `DownloadCheckTest.java` tests it, but no
  source file here implements it. `DownloadPeriod` is used only by it.
- The network and the stream copy of `HttpClient` are not modelled. A call's effect
  is the scripted `Transfer` value: a file of some size or none, and an I/O error or
  none. A partially written file with an error is one of the allowed outcomes.
- The clock and `SimpleDateFormat` formatting: the timestamp `yyyyMMdd-HHmmss.SSSS`
  is an opaque string parameter.
- Paths are opaque strings and the filesystem is a flat map. A child path is
  `dir + "/" + name`. `java.io.File` path normalisation is not modelled: trailing
  separators, an empty parent. The error messages show the path as given
  (`File.toString()`), relative when `downloadDir` is relative, and so does the model.
- FileSystems.FileSystem.Mkdirs: adds only the requested directory, not parent
  directories that `mkdirs()` would also create. Whether creation succeeds is an oracle,
  and a created directory is writable.
- FileSystems.FileSystem.Delete: whether deletion succeeds is an oracle (the parent's
  permissions, a non-empty directory), not derived from the map.
- `File.length()` of a directory is unspecified in Java. It is 0 here. The model never
  reads it on a directory, because the destination is deleted or replaced first.
- `new URL(...)` is treated as a plain string. A `MalformedURLException` cannot occur
  for the fixed `https` prefix and is not modelled.
- A `null` database type (a `NullPointerException` in `matches`) is not modelled.
- Logging (line 78), Spring wiring, Lombok, the cron schedule and `@Retryable`
  backoff in `Server.java` are not modelled.
