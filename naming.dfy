/**
 * The two strings `to(downloadDir)` builds from the database type: the name of the
 * dump file (`createDestinationFile`) and the vendor download URL. Each builder has a
 * parser beside it, and the round-trip lemmas show that nothing is lost when a valid
 * database type is put into the string.
 */
module Naming {
  import opened Strings
  import opened DatabaseTypes

  type Path = string

  const FileNamePrefix: string := "IP2LOCATION_"
  const FileNameExtension: string := ".zip"
  const DownloadEndpoint: string := "https://www.ip2location.com/download?token="
  const FileParameter: string := "&file="

  /** `IP2LOCATION_<type>_<timestamp>.zip`; the timestamp is the already formatted clock reading. */
  function DestinationName(dbType: string, timestamp: string): string {
    FileNamePrefix + dbType + "_" + timestamp + FileNameExtension
  }

  /** The child `name` of directory `dir`, as `new File(parentDir, name)` spells it. */
  function Child(dir: Path, name: string): Path {
    dir + "/" + name
  }

  function DestinationPath(dir: Path, dbType: string, timestamp: string): Path {
    Child(dir, DestinationName(dbType, timestamp))
  }

  /** The vendor URL: the token and the database type as query parameters. */
  function DumpUrl(token: string, dbType: string): string {
    DownloadEndpoint + token + FileParameter + dbType
  }

  /** Splits a dump file name back into its database type and timestamp. */
  function ParseDestinationName(name: string): Option<(string, string)> {
    if |name| < |FileNamePrefix| + |FileNameExtension|
       || name[..|FileNamePrefix|] != FileNamePrefix
       || name[|name| - |FileNameExtension|..] != FileNameExtension
    then None
    else
      var body := name[|FileNamePrefix|..|name| - |FileNameExtension|];
      match IndexOf(body, '_')
      case None => None
      case Some(i) => Some((body[..i], body[i + 1..]))
  }

  /** Splits a vendor URL back into its token and its `file` parameter. */
  function ParseDumpUrl(url: string): Option<(string, string)> {
    if |url| < |DownloadEndpoint| || url[..|DownloadEndpoint|] != DownloadEndpoint then None
    else
      var query := url[|DownloadEndpoint|..];
      match LastIndexOf(query, '=')
      case None => None
      case Some(j) =>
        if j + 1 < |FileParameter| || query[j + 1 - |FileParameter|..j + 1] != FileParameter then None
        else Some((query[..j + 1 - |FileParameter|], query[j + 1..]))
  }

  /** The dump file name starts with the fixed prefix and ends with ".zip". */
  lemma DestinationNameShape(dbType: string, timestamp: string)
    ensures var name := DestinationName(dbType, timestamp);
      |name| >= |FileNamePrefix| + |FileNameExtension|
      && name[..|FileNamePrefix|] == "IP2LOCATION_"
      && name[|name| - |FileNameExtension|..] == ".zip"
  {
  }

  /** The type and the timestamp are recovered from the file name built from them. */
  lemma DestinationNameRoundTrip(dbType: string, timestamp: string)
    requires IsValidDbType(dbType)
    ensures ParseDestinationName(DestinationName(dbType, timestamp)) == Some((dbType, timestamp))
  {
    var name := DestinationName(dbType, timestamp);
    var body := dbType + "_" + timestamp;
    assert name == FileNamePrefix + body + FileNameExtension;
    assert name[..|FileNamePrefix|] == FileNamePrefix;
    assert name[|name| - |FileNameExtension|..] == FileNameExtension;
    assert name[|FileNamePrefix|..|name| - |FileNameExtension|] == body;
    ValidDbTypeHasNoSeparator(dbType);
    IndexOfAfter(dbType, '_', timestamp);
    assert body == dbType + ['_'] + timestamp;
    assert body[..|dbType|] == dbType;
    assert body[|dbType| + 1..] == timestamp;
  }

  /** Every name the parser accepts is the name built from what it returns. */
  lemma ParsedDestinationNameRebuilds(name: string)
    requires ParseDestinationName(name).Some?
    ensures var (dbType, timestamp) := ParseDestinationName(name).value;
      '_' !in dbType && DestinationName(dbType, timestamp) == name
  {
  }

  /** The token and the type are recovered from the URL built from them, whatever the token holds. */
  lemma DumpUrlRoundTrip(token: string, dbType: string)
    requires IsValidDbType(dbType)
    ensures ParseDumpUrl(DumpUrl(token, dbType)) == Some((token, dbType))
  {
    var url := DumpUrl(token, dbType);
    var query := token + FileParameter + dbType;
    assert url == DownloadEndpoint + query;
    assert url[..|DownloadEndpoint|] == DownloadEndpoint;
    assert url[|DownloadEndpoint|..] == query;
    ValidDbTypeHasNoSeparator(dbType);
    var before := token + "&file";
    assert query == before + ['='] + dbType;
    LastIndexOfBefore(before, '=', dbType);
    var j := |before|;
    assert query[j + 1 - |FileParameter|..j + 1] == FileParameter;
    assert query[..j + 1 - |FileParameter|] == token;
    assert query[j + 1..] == dbType;
  }

  /** Every URL the parser accepts is the URL built from what it returns. */
  lemma ParsedDumpUrlRebuilds(url: string)
    requires ParseDumpUrl(url).Some?
    ensures var (token, dbType) := ParseDumpUrl(url).value;
      '=' !in dbType && DumpUrl(token, dbType) == url
  {
  }

  /** The URL and file name the download test expects for token "1234" and type "DB1". */
  lemma NamingExamples(dir: Path, timestamp: string)
    ensures DumpUrl("1234", "DB1") == "https://www.ip2location.com/download?token=1234&file=DB1"
    ensures DestinationPath(dir, "DB1", timestamp) == dir + "/IP2LOCATION_DB1_" + timestamp + ".zip"
  {
  }
}
