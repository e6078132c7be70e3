/** The configuration readers: the JDBC URL of a database server split into
    host, port and database name, the server list, and the application
    settings with their defaults. */
module Config {
  import opened Wrappers
  import opened Decimal
  import opened Text

  // ---------------------------------------------------------------------------
  // `parse_jdbc_url`

  /** What a server URL names. */
  datatype JdbcTarget = JdbcTarget(host: string, port: nat, database: string)

  datatype ConfigError = CannotParseUrl(url: string)

  const UrlPrefix: string := "jdbc:sqlserver://"
  const DatabaseKey: string := ";DatabaseName="
  const DefaultDbPort: nat := 1433

  /** The characters a host may not contain. */
  const HostStop: set<char> := {':', ';'}

  /** `s` begins with `p`, compared one character at a time. */
  predicate HasPrefix(s: string, p: string)
    ensures HasPrefix(s, p) ==> |p| <= |s|
  {
    p == [] || (s != [] && s[0] == p[0] && HasPrefix(s[1..], p[1..]))
  }

  lemma {:induction false} HasPrefixIff(s: string, p: string)
    ensures HasPrefix(s, p) <==> |p| <= |s| && s[..|p|] == p
  {
    if p != [] && s != [] {
      HasPrefixIff(s[1..], p[1..]);
      if |p| <= |s| && s[..|p|] == p {
        assert s[1..][..|p| - 1] == p[1..];
      }
      if HasPrefix(s, p) {
        assert s[..|p|] == [s[0]] + s[1..][..|p| - 1];
      }
    }
  }

  /** How many leading characters of `s` lie outside `stop`. */
  function SpanOutside(s: string, stop: set<char>): (n: nat)
    ensures n <= |s|
  {
    if s == [] || s[0] in stop then 0 else 1 + SpanOutside(s[1..], stop)
  }

  /** The span covers characters outside `stop` and ends at one inside it
      or at the end. */
  lemma {:induction false} SpanOutsideStops(s: string, stop: set<char>)
    ensures var n := SpanOutside(s, stop);
      && (forall i :: 0 <= i < n ==> s[i] !in stop)
      && (n < |s| ==> s[n] in stop)
  {
    if s != [] && s[0] !in stop {
      SpanOutsideStops(s[1..], stop);
    }
  }

  /** How many leading characters of `s` are decimal digits. */
  function DigitSpan(s: string): (n: nat)
    ensures n <= |s| && AllDigits(s[..n])
  {
    if s == [] || !IsDigit(s[0]) then 0
    else
      var n := 1 + DigitSpan(s[1..]);
      assert s[..n] == [s[0]] + s[1..][..n - 1];
      n
  }

  /** The span covers digits and ends at a non-digit or at the end. */
  lemma {:induction false} DigitSpanStops(s: string)
    ensures var n := DigitSpan(s);
      && (forall i :: 0 <= i < n ==> IsDigit(s[i]))
      && (n < |s| ==> !IsDigit(s[n]))
  {
    if s != [] && IsDigit(s[0]) {
      DigitSpanStops(s[1..]);
    }
  }

  /** `re.match(r"jdbc:sqlserver://([^:;]+)(?::(\d+))?;DatabaseName=(.+)", url)`:
      the prefix, then the host, the optional port and the database name. */
  function ParseJdbcUrl(url: string): Result<JdbcTarget, ConfigError> {
    if !HasPrefix(url, UrlPrefix) then Err(CannotParseUrl(url))
    else ParseHost(url, url[|UrlPrefix|..])
  }

  /** The host is the longest run without ':' or ';', at least one character
      (a shorter run would leave a character the rest cannot match). */
  function ParseHost(url: string, rest: string): Result<JdbcTarget, ConfigError> {
    var h := SpanOutside(rest, HostStop);
    if h == 0 then Err(CannotParseUrl(url))
    else ParseAfterHost(url, rest[..h], rest[h..])
  }

  /** An optional ':' and at least one digit give the port, 1433 when
      absent; a ':' without digits cannot match. */
  function ParseAfterHost(url: string, host: string, after: string): Result<JdbcTarget, ConfigError> {
    if after != [] && after[0] == ':' then
      var ds := after[1..];
      var d := DigitSpan(ds);
      if d == 0 then Err(CannotParseUrl(url))
      else ParseDatabase(url, host, Parse(ds[..d]), ds[d..])
    else ParseDatabase(url, host, DefaultDbPort, after)
  }

  /** `;DatabaseName=`, then the name. */
  function ParseDatabase(url: string, host: string, port: nat, tail: string): Result<JdbcTarget, ConfigError> {
    if !HasPrefix(tail, DatabaseKey) then Err(CannotParseUrl(url))
    else ParseName(url, host, port, tail[|DatabaseKey|..])
  }

  /** `(.+)`: the rest of the line, at least one character; what follows a
      newline is not looked at. */
  function ParseName(url: string, host: string, port: nat, db: string): Result<JdbcTarget, ConfigError> {
    var n := SpanOutside(db, {'\n'});
    if n == 0 then Err(CannotParseUrl(url))
    else Ok(JdbcTarget(host, port, db[..n]))
  }

  /** The port as written: ":" and its digits, or nothing. */
  function PortPart(portText: Option<string>): string {
    if portText.Some? then ":" + portText.value else ""
  }

  /** The parts the pattern is made of: a host, an optional port text, a
      database name and whatever follows the matched line. */
  function UrlOf(host: string, portText: Option<string>, database: string, suffix: string): string {
    UrlPrefix + (host + (PortPart(portText) + (DatabaseKey + database + suffix)))
  }

  /** A host the pattern accepts: not empty, without ':' or ';'. */
  predicate ValidHost(host: string) {
    host != [] && forall i :: 0 <= i < |host| ==> host[i] !in HostStop
  }

  /** A database name the pattern accepts: one non-empty line. */
  predicate ValidDatabase(database: string) {
    database != [] && forall i :: 0 <= i < |database| ==> database[i] != '\n'
  }

  predicate ValidPortText(portText: Option<string>) {
    portText.Some? ==> portText.value != [] && AllDigits(portText.value)
  }

  /** Parts the pattern accepts, with a suffix that starts a new line. */
  predicate WellFormedParts(host: string, portText: Option<string>, database: string, suffix: string) {
    ValidHost(host) && ValidPortText(portText) && ValidDatabase(database) && (suffix == [] || suffix[0] == '\n')
  }

  /** The port the parts give: `int(port)` when present, else 1433. */
  function PortOf(portText: Option<string>): nat
    requires ValidPortText(portText)
  {
    if portText.Some? then Parse(portText.value) else DefaultDbPort
  }

  /** How a server URL is written: `jdbc:sqlserver://H:P;DatabaseName=D`. */
  function FormatJdbcUrl(t: JdbcTarget): string {
    UrlOf(t.host, Some(FromNat(t.port)), t.database, "")
  }

  lemma HasPrefixAppend(p: string, t: string)
    ensures HasPrefix(p + t, p) && (p + t)[|p|..] == t
  {
    HasPrefixIff(p + t, p);
    assert (p + t)[..|p|] == p;
  }

  /** A span that stops where the characters say it does. */
  lemma {:induction false} SpanOutsideExact(s: string, stop: set<char>, k: nat)
    requires k <= |s| && (forall i :: 0 <= i < k ==> s[i] !in stop) && (k == |s| || s[k] in stop)
    ensures SpanOutside(s, stop) == k
    decreases k
  {
    if k > 0 {
      SpanOutsideExact(s[1..], stop, k - 1);
    }
  }

  lemma {:induction false} DigitSpanExact(s: string, k: nat)
    requires k <= |s| && (forall i :: 0 <= i < k ==> IsDigit(s[i])) && (k == |s| || !IsDigit(s[k]))
    ensures DigitSpan(s) == k
    decreases k
  {
    if k > 0 {
      DigitSpanExact(s[1..], k - 1);
    }
  }

  lemma NameOf(url: string, host: string, port: nat, database: string, suffix: string)
    requires ValidDatabase(database) && (suffix == [] || suffix[0] == '\n')
    ensures ParseName(url, host, port, database + suffix) == Ok(JdbcTarget(host, port, database))
  {
    SpanOutsideExact(database + suffix, {'\n'}, |database|);
    assert (database + suffix)[..|database|] == database;
  }

  lemma DatabaseOf(url: string, host: string, port: nat, database: string, suffix: string)
    requires ValidDatabase(database) && (suffix == [] || suffix[0] == '\n')
    ensures ParseDatabase(url, host, port, DatabaseKey + database + suffix) == Ok(JdbcTarget(host, port, database))
  {
    assert DatabaseKey + database + suffix == DatabaseKey + (database + suffix);
    HasPrefixAppend(DatabaseKey, database + suffix);
    NameOf(url, host, port, database, suffix);
  }

  lemma AfterHostOf(url: string, host: string, portText: Option<string>, tail: string)
    requires ValidPortText(portText) && tail != [] && tail[0] == ';'
    ensures ParseAfterHost(url, host, PortPart(portText) + tail) == ParseDatabase(url, host, PortOf(portText), tail)
  {
    var after := PortPart(portText) + tail;
    if portText.Some? {
      var ds := portText.value;
      assert after[1..] == ds + tail;
      DigitSpanExact(ds + tail, |ds|);
      assert (ds + tail)[..|ds|] == ds && (ds + tail)[|ds|..] == tail;
    } else {
      assert after == tail;
    }
  }

  lemma HostOf(url: string, host: string, after: string)
    requires ValidHost(host) && after != [] && after[0] in HostStop
    ensures ParseHost(url, host + after) == ParseAfterHost(url, host, after)
  {
    SpanOutsideExact(host + after, HostStop, |host|);
    assert (host + after)[..|host|] == host && (host + after)[|host|..] == after;
  }

  /** Every URL of the pattern's shape parses to its own parts. */
  lemma ParseWellFormed(host: string, portText: Option<string>, database: string, suffix: string)
    requires WellFormedParts(host, portText, database, suffix)
    ensures ParseJdbcUrl(UrlOf(host, portText, database, suffix)) == Ok(JdbcTarget(host, PortOf(portText), database))
  {
    var tail := DatabaseKey + database + suffix;
    var after := PortPart(portText) + tail;
    var rest := host + after;
    HasPrefixAppend(UrlPrefix, rest);
    assert after[0] in HostStop;
    HostOf(UrlOf(host, portText, database, suffix), host, after);
    AfterHostOf(UrlOf(host, portText, database, suffix), host, portText, tail);
    DatabaseOf(UrlOf(host, portText, database, suffix), host, PortOf(portText), database, suffix);
  }

  lemma NameShape(url: string, host: string, port: nat, db: string) returns (suffix: string)
    requires ParseName(url, host, port, db).Ok?
    ensures var t := ParseName(url, host, port, db).value;
      && t.host == host && t.port == port && db == t.database + suffix
      && ValidDatabase(t.database) && (suffix == [] || suffix[0] == '\n')
  {
    var n := SpanOutside(db, {'\n'});
    SpanOutsideStops(db, {'\n'});
    suffix := db[n..];
    assert db == db[..n] + suffix;
  }

  lemma DatabaseShape(url: string, host: string, port: nat, tail: string) returns (suffix: string)
    requires ParseDatabase(url, host, port, tail).Ok?
    ensures var t := ParseDatabase(url, host, port, tail).value;
      && t.host == host && t.port == port && tail == DatabaseKey + t.database + suffix
      && ValidDatabase(t.database) && (suffix == [] || suffix[0] == '\n')
  {
    HasPrefixIff(tail, DatabaseKey);
    var db := tail[|DatabaseKey|..];
    suffix := NameShape(url, host, port, db);
    assert tail == DatabaseKey + db;
  }

  lemma AfterHostShape(url: string, host: string, after: string) returns (portText: Option<string>, tail: string)
    requires ParseAfterHost(url, host, after).Ok?
    ensures ValidPortText(portText) && after == PortPart(portText) + tail
    ensures ParseAfterHost(url, host, after) == ParseDatabase(url, host, PortOf(portText), tail)
  {
    if after != [] && after[0] == ':' {
      var ds := after[1..];
      var d := DigitSpan(ds);
      portText := Some(ds[..d]);
      tail := ds[d..];
      assert after == ":" + ds && ds == ds[..d] + tail;
    } else {
      portText := None;
      tail := after;
    }
  }

  lemma HostShape(url: string, rest: string) returns (host: string, after: string)
    requires ParseHost(url, rest).Ok?
    ensures ValidHost(host) && rest == host + after
    ensures ParseHost(url, rest) == ParseAfterHost(url, host, after)
  {
    var h := SpanOutside(rest, HostStop);
    SpanOutsideStops(rest, HostStop);
    host := rest[..h];
    after := rest[h..];
    assert rest == host + after;
  }

  /** Every URL that parses has the pattern's shape: it is made of
      well-formed parts, and those are the parts it parses to. */
  lemma ParsedHasShape(url: string) returns (portText: Option<string>, suffix: string)
    requires ParseJdbcUrl(url).Ok?
    ensures var t := ParseJdbcUrl(url).value;
      && WellFormedParts(t.host, portText, t.database, suffix)
      && url == UrlOf(t.host, portText, t.database, suffix)
      && t.port == PortOf(portText)
  {
    HasPrefixIff(url, UrlPrefix);
    var rest := url[|UrlPrefix|..];
    assert url == UrlPrefix + rest;
    var host, after := HostShape(url, rest);
    var tail;
    portText, tail := AfterHostShape(url, host, after);
    suffix := DatabaseShape(url, host, PortOf(portText), tail);
  }

  /** Formatting a target and parsing it back gives the target. */
  lemma FormatParseRoundTrip(t: JdbcTarget)
    requires t.host != [] && forall i :: 0 <= i < |t.host| ==> t.host[i] !in HostStop
    requires t.database != [] && forall i :: 0 <= i < |t.database| ==> t.database[i] != '\n'
    ensures ParseJdbcUrl(FormatJdbcUrl(t)) == Ok(t)
  {
    ParseWellFormed(t.host, Some(FromNat(t.port)), t.database, "");
    ParseFromNat(t.port);
  }

  /** A URL without a port names port 1433. */
  lemma DefaultPort(host: string, database: string)
    requires WellFormedParts(host, None, database, "")
    ensures ParseJdbcUrl(UrlOf(host, None, database, "")) == Ok(JdbcTarget(host, 1433, database))
  {
    ParseWellFormed(host, None, database, "");
  }

  /** A URL of another scheme raises. */
  lemma OtherSchemeRejected(url: string)
    requires !StartsWith(url, UrlPrefix)
    ensures ParseJdbcUrl(url) == Err(CannotParseUrl(url))
  {
    HasPrefixIff(url, UrlPrefix);
  }

  /** An empty host raises. */
  lemma EmptyHostRejected(tail: string)
    ensures ParseJdbcUrl(UrlPrefix + DatabaseKey + tail).Err?
  {
    var url := UrlPrefix + (DatabaseKey + tail);
    assert UrlPrefix + DatabaseKey + tail == url;
    HasPrefixAppend(UrlPrefix, DatabaseKey + tail);
    assert (DatabaseKey + tail)[0] == ';';
  }

  /** A ':' after the host that no digit follows raises. */
  lemma ColonWithoutDigitsRejected(host: string, rest: string)
    requires ValidHost(host) && (rest == [] || !IsDigit(rest[0]))
    ensures ParseJdbcUrl(UrlPrefix + (host + (":" + rest))).Err?
  {
    var url := UrlPrefix + (host + (":" + rest));
    HasPrefixAppend(UrlPrefix, host + (":" + rest));
    HostOf(url, host, ":" + rest);
    assert (":" + rest)[1..] == rest;
  }

  /** An empty database name raises. */
  lemma EmptyDatabaseRejected(host: string, portText: Option<string>, suffix: string)
    requires ValidHost(host) && ValidPortText(portText) && (suffix == [] || suffix[0] == '\n')
    ensures ParseJdbcUrl(UrlOf(host, portText, "", suffix)).Err?
  {
    var url := UrlOf(host, portText, "", suffix);
    var tail := DatabaseKey + "" + suffix;
    var after := PortPart(portText) + tail;
    HasPrefixAppend(UrlPrefix, host + after);
    assert after[0] in HostStop;
    HostOf(url, host, after);
    AfterHostOf(url, host, portText, tail);
    assert tail == DatabaseKey + suffix;
    HasPrefixAppend(DatabaseKey, suffix);
  }

  // ---------------------------------------------------------------------------
  // `load_database_servers`

  /** One entry of `DataBaseServer.json`'s `Servers` list. */
  datatype ServerEntry = ServerEntry(
    index: int, user: string, display: string, url: string, password: string, driver: Option<string>)

  datatype DatabaseServerInfo = DatabaseServerInfo(
    index: int, user: string, display: string, host: string, port: nat, database: string,
    password: string, driver: string)

  /** The server built from an entry whose URL parsed; a missing driver is "". */
  function ServerOf(e: ServerEntry, t: JdbcTarget): DatabaseServerInfo {
    DatabaseServerInfo(e.index, e.user, e.display, t.host, t.port, t.database, e.password,
      if e.driver.Some? then e.driver.value else "")
  }

  /** What each entry's URL parses to. */
  function ParsedUrls(entries: seq<ServerEntry>): (r: seq<Result<JdbcTarget, ConfigError>>)
    ensures |r| == |entries| && forall i :: 0 <= i < |entries| ==> r[i] == ParseJdbcUrl(entries[i].url)
  {
    seq(|entries|, i requires 0 <= i < |entries| => ParseJdbcUrl(entries[i].url))
  }

  /** The servers of a list of entries whose URLs parsed to `parsed`, in
      order, or the first error. */
  function Resolve(entries: seq<ServerEntry>, parsed: seq<Result<JdbcTarget, ConfigError>>): Result<seq<DatabaseServerInfo>, ConfigError>
    requires |parsed| == |entries|
    decreases |entries|
  {
    if entries == [] then Ok([])
    else
      var n := |entries| - 1;
      match Resolve(entries[..n], parsed[..n])
      case Err(e) => Err(e)
      case Ok(prev) =>
        match parsed[n]
        case Err(e) => Err(e)
        case Ok(t) => Ok(prev + [ServerOf(entries[n], t)])
  }

  function LoadServers(entries: seq<ServerEntry>): Result<seq<DatabaseServerInfo>, ConfigError> {
    Resolve(entries, ParsedUrls(entries))
  }

  /** Once a prefix fails, the whole list fails with the same error. */
  lemma {:induction false} ResolveErrSticks(entries: seq<ServerEntry>, parsed: seq<Result<JdbcTarget, ConfigError>>, k: nat)
    requires |parsed| == |entries| && k <= |entries| && Resolve(entries[..k], parsed[..k]).Err?
    ensures Resolve(entries, parsed) == Resolve(entries[..k], parsed[..k])
    decreases |entries| - k
  {
    if k < |entries| {
      var e := entries[..k + 1];
      var p := parsed[..k + 1];
      assert e[..k] == entries[..k] && p[..k] == parsed[..k];
      ResolveErrSticks(entries, parsed, k + 1);
    } else {
      assert entries[..k] == entries && parsed[..k] == parsed;
    }
  }

  /** The list resolves exactly when every URL parsed. */
  lemma {:induction false} ResolveOk(entries: seq<ServerEntry>, parsed: seq<Result<JdbcTarget, ConfigError>>)
    requires |parsed| == |entries|
    ensures Resolve(entries, parsed).Ok? <==> forall i :: 0 <= i < |parsed| ==> parsed[i].Ok?
    decreases |entries|
  {
    if entries != [] {
      var n := |entries| - 1;
      ResolveOk(entries[..n], parsed[..n]);
      assert forall i :: 0 <= i < n ==> parsed[..n][i] == parsed[i];
    }
  }

  /** A resolved list has one server per entry, built from the entry and its URL. */
  lemma {:induction false} ResolveContents(entries: seq<ServerEntry>, parsed: seq<Result<JdbcTarget, ConfigError>>)
    requires |parsed| == |entries| && Resolve(entries, parsed).Ok?
    ensures |Resolve(entries, parsed).value| == |entries|
    ensures forall i :: 0 <= i < |entries| ==>
      parsed[i].Ok? && Resolve(entries, parsed).value[i] == ServerOf(entries[i], parsed[i].value)
    decreases |entries|
  {
    if entries != [] {
      var n := |entries| - 1;
      ResolveContents(entries[..n], parsed[..n]);
      var prev := Resolve(entries[..n], parsed[..n]).value;
      var all := Resolve(entries, parsed).value;
      assert all == prev + [ServerOf(entries[n], parsed[n].value)];
      forall i | 0 <= i < |entries| ensures parsed[i].Ok? && all[i] == ServerOf(entries[i], parsed[i].value) {
        if i < n {
          assert entries[..n][i] == entries[i] && parsed[..n][i] == parsed[i];
        }
      }
    }
  }

  /** A list that does not resolve fails with the error of its first URL
      that did not parse. */
  lemma {:induction false} ResolveFirstError(entries: seq<ServerEntry>, parsed: seq<Result<JdbcTarget, ConfigError>>) returns (k: nat)
    requires |parsed| == |entries| && Resolve(entries, parsed).Err?
    ensures k < |entries| && parsed[k].Err? && Resolve(entries, parsed).error == parsed[k].error
    ensures forall j :: 0 <= j < k ==> parsed[j].Ok?
    decreases |entries|
  {
    var n := |entries| - 1;
    if Resolve(entries[..n], parsed[..n]).Err? {
      k := ResolveFirstError(entries[..n], parsed[..n]);
      assert parsed[..n][k] == parsed[k];
      assert forall j :: 0 <= j < k ==> parsed[..n][j] == parsed[j];
    } else {
      k := n;
      ResolveOk(entries[..n], parsed[..n]);
      assert forall j :: 0 <= j < n ==> parsed[..n][j] == parsed[j];
    }
  }

  /** `load_database_servers` loads a list exactly when every URL parses;
      server `i` is then built from entry `i` and what its URL names, and
      otherwise the error names the first URL that does not parse. */
  lemma LoadServersMeaning(entries: seq<ServerEntry>)
    ensures LoadServers(entries).Ok? <==> forall i :: 0 <= i < |entries| ==> ParseJdbcUrl(entries[i].url).Ok?
    ensures LoadServers(entries).Ok? ==>
      && |LoadServers(entries).value| == |entries|
      && (forall i :: 0 <= i < |entries| ==>
            && ParseJdbcUrl(entries[i].url).Ok?
            && LoadServers(entries).value[i] == ServerOf(entries[i], ParseJdbcUrl(entries[i].url).value))
    ensures LoadServers(entries).Err? ==>
      exists k :: && 0 <= k < |entries| && ParseJdbcUrl(entries[k].url).Err?
                  && LoadServers(entries).error == CannotParseUrl(entries[k].url)
                  && (forall j :: 0 <= j < k ==> ParseJdbcUrl(entries[j].url).Ok?)
  {
    var parsed := ParsedUrls(entries);
    ResolveOk(entries, parsed);
    if LoadServers(entries).Ok? {
      ResolveContents(entries, parsed);
    } else {
      var k := ResolveFirstError(entries, parsed);
      ParseErrorNamesUrl(entries[k].url);
    }
  }

  /** `load_database_servers` on the file's `Servers` list (None when the key
      is missing): the entries one by one, stopping at the first URL that
      does not parse. */
  method LoadDatabaseServers(servers: Option<seq<ServerEntry>>) returns (r: Result<seq<DatabaseServerInfo>, ConfigError>)
    ensures r == LoadServers(servers.GetOr([]))
  {
    var entries := servers.GetOr([]);
    ghost var parsed := ParsedUrls(entries);
    var result: seq<DatabaseServerInfo> := [];
    for i := 0 to |entries|
      invariant Resolve(entries[..i], parsed[..i]) == Ok(result)
    {
      assert entries[..i + 1][..i] == entries[..i] && parsed[..i + 1][..i] == parsed[..i];
      var url := entries[i].url;
      var target := ParseJdbcUrl(url);
      assert parsed[..i + 1][i] == target;
      if target.Err? {
        ResolveErrSticks(entries, parsed, i + 1);
        return Err(target.error);
      }
      result := result + [ServerOf(entries[i], target.value)];
    }
    assert entries[..|entries|] == entries && parsed[..|entries|] == parsed;
    return Ok(result);
  }

  /** The error of a URL that does not parse carries that URL. */
  lemma ParseErrorNamesUrl(url: string)
    requires ParseJdbcUrl(url).Err?
    ensures ParseJdbcUrl(url).error == CannotParseUrl(url)
  {
  }

  // ---------------------------------------------------------------------------
  // `AppConfig`, `load_app_config` and `save_app_config`

  datatype AppConfig = AppConfig(port: int, contextPath: string, selectedDbIndex: int)

  /** The dataclass defaults. */
  const DefaultAppConfig: AppConfig := AppConfig(8080, "", 1)

  /** The keys `app_config.json` holds, each possibly absent. */
  datatype ConfigFile = ConfigFile(port: Option<int>, contextPath: Option<string>, selectedDbIndex: Option<int>)

  /** `load_app_config`: a missing file gives the defaults, a missing key its
      default. */
  function LoadAppConfig(file: Option<ConfigFile>): AppConfig {
    if file.None? then DefaultAppConfig
    else AppConfig(file.value.port.GetOr(DefaultAppConfig.port), file.value.contextPath.GetOr(DefaultAppConfig.contextPath),
      file.value.selectedDbIndex.GetOr(DefaultAppConfig.selectedDbIndex))
  }

  /** `save_app_config`: all three keys are written. */
  function SaveAppConfig(c: AppConfig): ConfigFile {
    ConfigFile(Some(c.port), Some(c.contextPath), Some(c.selectedDbIndex))
  }

  /** Saving and loading again gives back the same settings. */
  lemma SaveLoadRoundTrip(c: AppConfig)
    ensures LoadAppConfig(Some(SaveAppConfig(c))) == c
  {
  }

  /** The defaults: port 8080, an empty context path, server 1; each key
      that is present wins over its default and the others stay default. */
  lemma LoadDefaults(file: Option<ConfigFile>)
    ensures file.None? || file == Some(ConfigFile(None, None, None)) ==>
      LoadAppConfig(file) == DefaultAppConfig && DefaultAppConfig == AppConfig(8080, "", 1)
    ensures file.Some? && file.value.port.Some? ==> LoadAppConfig(file).port == file.value.port.value
    ensures file.Some? && file.value.port.None? ==> LoadAppConfig(file).port == DefaultAppConfig.port
    ensures file.Some? && file.value.contextPath.Some? ==> LoadAppConfig(file).contextPath == file.value.contextPath.value
    ensures file.Some? && file.value.contextPath.None? ==> LoadAppConfig(file).contextPath == DefaultAppConfig.contextPath
    ensures file.Some? && file.value.selectedDbIndex.Some? ==> LoadAppConfig(file).selectedDbIndex == file.value.selectedDbIndex.value
    ensures file.Some? && file.value.selectedDbIndex.None? ==> LoadAppConfig(file).selectedDbIndex == DefaultAppConfig.selectedDbIndex
  {
  }
}
