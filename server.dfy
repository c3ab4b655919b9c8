/** The dashboard's HTTP handler: request routing, the headers every
    response carries, the status mapping of the API proxy, and the two pieces
    of `handle_*` logic that are not shell output parsing: the `psql` table
    listing parser and the defaults of the disk components.

    The upstream request, the subprocesses and the file system are replaced
    by their outcomes, given as inputs. */
module Server {
  import opened Wrappers
  import opened Text

  const Port := 8888
  const ApiBaseUrl := "http://localhost:4000"

  const DiskPath := "/api/admin/system/disk"
  const ComponentsPath := "/api/admin/system/components"
  const PerformancePath := "/api/admin/system/performance"
  const DockerPath := "/api/admin/system/docker"
  const IndexPath := "/public/index.html"

  // ---------------------------------------------------------------------
  // Routing

  /** Where `do_GET` sends a request. */
  datatype Route =
    | DiskInfo
    | ComponentSizes
    | PerformanceMetrics
    | DockerStats
    | Proxy(target: string)
    | Static(file: string)

  /** The four monitoring endpoints match their paths exactly; any other
      path under `/api` goes to the pool API unchanged; `/` serves the public
      dashboard and every other path is a static file. */
  function RouteOf(path: string): (r: Route)
    ensures r == DiskInfo <==> path == DiskPath
    ensures r == ComponentSizes <==> path == ComponentsPath
    ensures r == PerformanceMetrics <==> path == PerformancePath
    ensures r == DockerStats <==> path == DockerPath
    ensures r.Proxy? <==> StartsWith(path, "/api") && path !in {DiskPath, ComponentsPath, PerformancePath, DockerPath}
    ensures r.Proxy? ==> r.target == ApiBaseUrl + path
    ensures r.Static? ==> r.file == if path == "/" then IndexPath else path
  {
    if path == DiskPath then DiskInfo
    else if path == ComponentsPath then ComponentSizes
    else if path == PerformancePath then PerformanceMetrics
    else if path == DockerPath then DockerStats
    else if StartsWith(path, "/api") then Proxy(ApiBaseUrl + path)
    else Static(if path == "/" then IndexPath else path)
  }

  /** A query string defeats the exact match of a monitoring endpoint: the
      request is proxied instead. */
  lemma QueryFallsThrough(query: string)
    requires query != []
    ensures RouteOf(DiskPath + "?" + query) == Proxy(ApiBaseUrl + DiskPath + "?" + query)
  {
    var p := DiskPath + "?" + query;
    assert p[..|DiskPath|] == DiskPath && p[|DiskPath|] == '?';
    assert p != ComponentsPath && p != PerformancePath by {
      assert p[18] == 'd';
    }
    assert p != DockerPath by {
      assert p[19] == 'i';
    }
    assert p[..4] == "/api";
  }

  // ---------------------------------------------------------------------
  // Responses

  datatype Header = Header(name: string, value: string)

  /** What `end_headers` adds to every response. */
  const CorsHeaders := [
    Header("Access-Control-Allow-Origin", "*"),
    Header("Access-Control-Allow-Methods", "GET, POST, OPTIONS"),
    Header("Access-Control-Allow-Headers", "Content-Type"),
    Header("Cache-Control", "no-store, no-cache, must-revalidate")]

  const JsonType := Header("Content-Type", "application/json")
  const AnyOrigin := Header("Access-Control-Allow-Origin", "*")

  /** A response body: bytes passed through, or a JSON object
      `{"error": message}`. */
  datatype Body = Raw(data: seq<bv8>) | JsonObject(text: string) | JsonError(message: string)

  /** The outcome of the request to the pool API: its body, an `HTTPError`
      with its code and reason, or any other exception. */
  datatype Upstream = UpstreamOk(data: seq<bv8>) | UpstreamHttpError(code: int, reason: string) | UpstreamFailed(reason: string)

  /** The status the proxy answers with. */
  function ProxyStatus(u: Upstream): (status: int)
    ensures u.UpstreamOk? ==> status == 200
    ensures u.UpstreamHttpError? ==> status == u.code
    ensures u.UpstreamFailed? ==> status == 500
  {
    match u
    case UpstreamOk(_) => 200
    case UpstreamHttpError(code, _) => code
    case UpstreamFailed(_) => 500
  }

  /** The headers the proxy sends before `end_headers`. */
  function ProxyHeaders(u: Upstream): (hs: seq<Header>)
    ensures |hs| >= 1 && hs[0] == JsonType
    ensures AnyOrigin in hs <==> u.UpstreamOk?
  {
    if u.UpstreamOk? then [JsonType, AnyOrigin] else [JsonType]
  }

  function ProxyBody(u: Upstream): (b: Body)
    ensures u.UpstreamOk? <==> b.Raw?
  {
    match u
    case UpstreamOk(data) => Raw(data)
    case UpstreamHttpError(_, reason) => JsonError(reason)
    case UpstreamFailed(reason) => JsonError("Proxy error: " + reason)
  }

  /** The headers of a finished response end with the CORS and cache
      headers. */
  predicate Finished(hs: seq<Header>) {
    |hs| >= |CorsHeaders| && hs[|hs| - |CorsHeaders|..] == CorsHeaders
  }

  /** One request being answered. */
  class DashboardHandler {
    /** `self.path`, which `do_GET` may rewrite. */
    var path: string
    /** The status line sent, if any. */
    var status: Option<int>
    /** The headers sent, in order. */
    var headers: seq<Header>
    /** The body written, if any. */
    var body: Option<Body>

    constructor (path: string)
      ensures this.path == path && status == None && headers == [] && body == None
    {
      this.path := path;
      status := None;
      headers := [];
      body := None;
    }

    /** `end_headers`: adds the CORS and cache headers. */
    method EndHeaders()
      modifies this
      ensures headers == old(headers) + CorsHeaders
      ensures Finished(headers)
      ensures path == old(path) && status == old(status) && body == old(body)
    {
      headers := headers + CorsHeaders;
    }

    /** `do_OPTIONS`: an empty 200 with the CORS headers. */
    method DoOptions()
      requires status == None && headers == []
      modifies this
      ensures status == Some(200) && headers == CorsHeaders && Finished(headers)
      ensures path == old(path) && body == old(body)
    {
      status := Some(200);
      EndHeaders();
    }

    /** `send_json_response`. */
    method SendJsonResponse(json: string)
      requires status == None && headers == []
      modifies this
      ensures status == Some(200) && body == Some(JsonObject(json))
      ensures headers == [JsonType, AnyOrigin] + CorsHeaders && Finished(headers)
      ensures path == old(path)
    {
      status := Some(200);
      headers := headers + [JsonType, AnyOrigin];
      EndHeaders();
      body := Some(JsonObject(json));
    }

    /** `send_error_response`. */
    method SendErrorResponse(message: string)
      requires status == None && headers == []
      modifies this
      ensures status == Some(500) && body == Some(JsonError(message))
      ensures headers == [JsonType] + CorsHeaders && Finished(headers)
      ensures path == old(path)
    {
      status := Some(500);
      headers := headers + [JsonType];
      EndHeaders();
      body := Some(JsonError(message));
    }

    /** `proxy_api_request`: forwards the path to the pool API and answers
        with what came back; returns the URL requested. */
    method ProxyApiRequest(upstream: Upstream) returns (target: string)
      requires status == None && headers == []
      modifies this
      ensures target == ApiBaseUrl + path
      ensures status == Some(ProxyStatus(upstream))
      ensures headers == ProxyHeaders(upstream) + CorsHeaders && Finished(headers)
      ensures body == Some(ProxyBody(upstream))
      ensures path == old(path)
    {
      target := ApiBaseUrl + path;
      match upstream {
        case UpstreamOk(data) =>
          status := Some(200);
          headers := headers + [JsonType, AnyOrigin];
          EndHeaders();
          body := Some(Raw(data));
        case UpstreamHttpError(code, reason) =>
          status := Some(code);
          headers := headers + [JsonType];
          EndHeaders();
          body := Some(JsonError(reason));
        case UpstreamFailed(reason) =>
          status := Some(500);
          headers := headers + [JsonType];
          EndHeaders();
          body := Some(JsonError("Proxy error: " + reason));
      }
    }

    /** `do_GET`. A proxied request is answered from `upstream`; the
        monitoring handlers and the static file server are not modelled, so
        for those routes only the route taken and the rewritten path are. */
    method DoGet(upstream: Upstream) returns (r: Route)
      requires status == None && headers == []
      modifies this
      ensures r == RouteOf(old(path))
      ensures path == if r.Static? then r.file else old(path)
      ensures r.Proxy? ==> status == Some(ProxyStatus(upstream)) && body == Some(ProxyBody(upstream)) && Finished(headers)
      ensures !r.Proxy? ==> status == None && headers == [] && body == old(body)
    {
      if path == DiskPath {
        return DiskInfo;
      } else if path == ComponentsPath {
        return ComponentSizes;
      } else if path == PerformancePath {
        return PerformanceMetrics;
      } else if path == DockerPath {
        return DockerStats;
      }
      if StartsWith(path, "/api") {
        var target := ProxyApiRequest(upstream);
        return Proxy(target);
      }
      if path == "/" {
        path := IndexPath;
      }
      r := Static(path);
    }
  }

  // ---------------------------------------------------------------------
  // The psql table listing

  /** One line of the listing: a `name | size` pair when the line splits on
      `|` into exactly two parts, both stripped. */
  function Row(line: string): (r: Option<(string, string)>)
    ensures r.Some? ==> '|' in line && Stripped(r.value.0) && Stripped(r.value.1)
  {
    if '|' in line then
      var parts := Split(line, '|');
      if |parts| == 2 then
        StripEnds(parts[0]);
        StripEnds(parts[1]);
        Some((Strip(parts[0]), Strip(parts[1])))
      else None
    else None
  }

  /** A line is a row exactly when it holds one `|`. */
  lemma RowIffOneBar(line: string)
    ensures Row(line).Some? <==> Count(line, '|') == 1
  {
    SplitCount(line, '|');
    if Count(line, '|') == 1 {
      CountPositive(line, '|');
    }
  }

  lemma {:induction false} CountPositive(s: string, c: char)
    requires Count(s, c) > 0
    ensures c in s
    decreases |s|
  {
    if s[0] != c {
      CountPositive(s[1..], c);
    }
  }

  /** The rows of the lines, one per line. */
  function Rows(lines: seq<string>): (rows: seq<Option<(string, string)>>)
    ensures |rows| == |lines|
    ensures forall i :: 0 <= i < |lines| ==> rows[i] == Row(lines[i])
  {
    seq(|lines|, i requires 0 <= i < |lines| => Row(lines[i]))
  }

  /** The table of the rows, read in order; a later row for the same name
      overwrites an earlier one. */
  function TablesOf(rows: seq<Option<(string, string)>>): (m: map<string, string>)
    ensures rows != [] && rows[|rows| - 1].Some? ==>
      var (name, size) := rows[|rows| - 1].value; name in m && m[name] == size
    decreases |rows|
  {
    if rows == [] then map[]
    else
      var t := TablesOf(rows[..|rows| - 1]);
      match rows[|rows| - 1]
      case Some((name, size)) => t[name := size]
      case None => t
  }

  predicate RowFor(row: Option<(string, string)>, name: string) {
    row.Some? && row.value.0 == name
  }

  /** The last row adds or overwrites a name exactly when it is a row for
      it. */
  lemma TablesOfSnoc(rows: seq<Option<(string, string)>>, name: string)
    requires rows != []
    ensures name in TablesOf(rows) <==> name in TablesOf(rows[..|rows| - 1]) || RowFor(rows[|rows| - 1], name)
    ensures RowFor(rows[|rows| - 1], name) ==> TablesOf(rows)[name] == rows[|rows| - 1].value.1
    ensures !RowFor(rows[|rows| - 1], name) && name in TablesOf(rows) ==>
      TablesOf(rows)[name] == TablesOf(rows[..|rows| - 1])[name]
  {
  }

  /** A name is in the table exactly when some row is for it. */
  lemma {:induction false} TablesOfKeys(rows: seq<Option<(string, string)>>, name: string)
    ensures name in TablesOf(rows) <==> exists i :: 0 <= i < |rows| && RowFor(rows[i], name)
    decreases |rows|
  {
    if rows != [] {
      var init := rows[..|rows| - 1];
      TablesOfKeys(init, name);
      TablesOfSnoc(rows, name);
      if name in TablesOf(init) {
        var i :| 0 <= i < |init| && RowFor(init[i], name);
        assert rows[i] == init[i];
      }
      if i :| 0 <= i < |rows| - 1 && RowFor(rows[i], name) {
        assert init[i] == rows[i];
      }
    }
  }

  /** Every entry of the table is the pair of some row. */
  lemma {:induction false} TablesOfEntries(rows: seq<Option<(string, string)>>)
    ensures forall name :: name in TablesOf(rows) ==> Some((name, TablesOf(rows)[name])) in rows
    decreases |rows|
  {
    if rows != [] {
      var init := rows[..|rows| - 1];
      TablesOfEntries(init);
      forall name | name in TablesOf(rows)
        ensures Some((name, TablesOf(rows)[name])) in rows
      {
        TablesOfSnoc(rows, name);
        if !RowFor(rows[|rows| - 1], name) {
          assert Some((name, TablesOf(init)[name])) in init;
        }
      }
    }
  }

  /** The size of a name is that of the last row for it: later rows
      overwrite earlier ones. */
  lemma {:induction false} TablesOfLastWins(rows: seq<Option<(string, string)>>, name: string, i: int)
    requires 0 <= i < |rows| && RowFor(rows[i], name)
    requires forall j :: i < j < |rows| ==> !RowFor(rows[j], name)
    ensures name in TablesOf(rows) && TablesOf(rows)[name] == rows[i].value.1
    decreases |rows|
  {
    var init := rows[..|rows| - 1];
    TablesOfSnoc(rows, name);
    if i < |rows| - 1 {
      assert !RowFor(rows[|rows| - 1], name);
      forall j | i < j < |init|
        ensures !RowFor(init[j], name)
      {
        assert init[j] == rows[j];
      }
      assert init[i] == rows[i];
      TablesOfLastWins(init, name, i);
    }
  }

  /** The lines of `result.stdout.strip()`. */
  function ListingLines(stdout: string): (lines: seq<string>)
    ensures |lines| >= 1
    ensures forall i :: 0 <= i < |lines| ==> '\n' !in lines[i]
  {
    SplitPartsFree(Strip(stdout), '\n');
    Split(Strip(stdout), '\n')
  }

  /** One more row of a prefix adds its pair, if any, to the table. */
  lemma TablesOfPrefix(rows: seq<Option<(string, string)>>, i: nat)
    requires i < |rows|
    ensures TablesOf(rows[..i + 1]) ==
      if rows[i].Some? then TablesOf(rows[..i])[rows[i].value.0 := rows[i].value.1] else TablesOf(rows[..i])
  {
    assert rows[..i + 1][..i] == rows[..i];
  }

  /** The table-listing loop of `handle_component_sizes`. */
  method ParseTables(stdout: string) returns (tables: map<string, string>)
    ensures tables == TablesOf(Rows(ListingLines(stdout)))
  {
    var lines := ListingLines(stdout);
    ghost var rows := Rows(lines);
    tables := map[];
    var i := 0;
    assert rows[..0] == [];
    while i < |lines|
      invariant 0 <= i <= |lines|
      invariant tables == TablesOf(rows[..i])
    {
      var line := lines[i];
      TablesOfPrefix(rows, i);
      assert rows[i] == Row(line);
      if '|' in line {
        var parts := Split(line, '|');
        if |parts| == 2 {
          assert rows[i] == Some((Strip(parts[0]), Strip(parts[1])));
          tables := tables[Strip(parts[0]) := Strip(parts[1])];
        } else {
          assert rows[i] == None;
        }
      } else {
        assert rows[i] == None;
      }
      assert tables == TablesOf(rows[..i + 1]);
      i := i + 1;
    }
    assert rows[..i] == rows;
  }

  // ---------------------------------------------------------------------
  // Disk components

  /** The outcome of one subprocess: it raised (timeout, missing binary),
      or it exited with a code and an output. */
  datatype Probe = ProbeRaised | ProbeExited(code: int, stdout: string)

  /** The size `du -sh` reports: the first field of its output; a raise, or
      an output with no field (`IndexError`), gives `'N/A'`; a non-zero exit
      gives nothing. */
  function DuSize(p: Probe): (size: Option<string>)
    ensures p.ProbeRaised? ==> size == Some("N/A")
    ensures p.ProbeExited? && p.code != 0 ==> size == None
    ensures p.ProbeExited? && p.code == 0 ==> size == Some(FirstField(p.stdout).GetOr("N/A"))
  {
    match p
    case ProbeRaised => Some("N/A")
    case ProbeExited(code, stdout) =>
      if code != 0 then None
      else match FirstField(stdout)
        case None => Some("N/A")
        case Some(w) => Some(w)
  }

  /** A directory that may be missing, and its `du` probe. */
  datatype Directory = Missing | Present(du: Probe)

  /** The entry of a directory: its size, or `missing` when it does not
      exist. */
  function DirectorySize(d: Directory, missing: string): (size: Option<string>)
    ensures size.None? <==> d.Present? && d.du.ProbeExited? && d.du.code != 0
    ensures size.Some? && missing != "" ==> size.value != ""
  {
    match d
    case Missing => Some(missing)
    case Present(p) => DuSize(p)
  }

  /** The keys of `components`. */
  datatype Component = Postgresql | ErgoNode | Logs | Backups
  {
    function Key(): string {
      match this
      case Postgresql => "postgresql"
      case ErgoNode => "ergoNode"
      case Logs => "logs"
      case Backups => "backups"
    }
  }

  function Put(m: map<Component, string>, key: Component, value: Option<string>): map<Component, string> {
    if value.Some? then m[key := value.value] else m
  }

  /** The size `psql` reports for the database: its stripped output, `'N/A'`
      when it raised, nothing when it exited with an error. */
  function DatabaseSize(p: Probe): (size: Option<string>)
    ensures size.None? <==> p.ProbeExited? && p.code != 0
    ensures size.Some? ==> Stripped(size.value)
  {
    match p
    case ProbeRaised => Some("N/A")
    case ProbeExited(code, stdout) =>
      StripEnds(stdout);
      if code == 0 then Some(Strip(stdout)) else None
  }

  /** The `components` of `handle_disk_info`: each component is present,
      with its size, exactly when its size was found. */
  function DiskComponents(postgres: Probe, ergo: Directory, logs: Directory, backups: Directory): (m: map<Component, string>)
    ensures Postgresql in m <==> DatabaseSize(postgres).Some?
    ensures ErgoNode in m <==> DirectorySize(ergo, "N/A").Some?
    ensures Logs in m <==> DirectorySize(logs, "N/A").Some?
    ensures Backups in m <==> DirectorySize(backups, "0B").Some?
    ensures Postgresql in m ==> m[Postgresql] == DatabaseSize(postgres).value
    ensures ErgoNode in m ==> m[ErgoNode] == DirectorySize(ergo, "N/A").value
    ensures Logs in m ==> m[Logs] == DirectorySize(logs, "N/A").value
    ensures Backups in m ==> m[Backups] == DirectorySize(backups, "0B").value
  {
    var m := Put(map[], Postgresql, DatabaseSize(postgres));
    var m := Put(m, ErgoNode, DirectorySize(ergo, "N/A"));
    var m := Put(m, Logs, DirectorySize(logs, "N/A"));
    Put(m, Backups, DirectorySize(backups, "0B"))
  }

  /** A missing directory is listed as `'N/A'`, except backups as `0B`; a
      probe that raised is listed as `'N/A'`; only a probe that exited with
      an error leaves its component out. */
  lemma ComponentDefaults(postgres: Probe, ergo: Directory, logs: Directory, backups: Directory)
    ensures var m := DiskComponents(postgres, ergo, logs, backups);
      && (ergo.Missing? ==> ErgoNode in m && m[ErgoNode] == "N/A")
      && (logs.Missing? ==> Logs in m && m[Logs] == "N/A")
      && (backups.Missing? ==> Backups in m && m[Backups] == "0B")
      && (postgres.ProbeRaised? ==> Postgresql in m && m[Postgresql] == "N/A")
      && (Postgresql !in m <==> postgres.ProbeExited? && postgres.code != 0)
      && (Backups !in m <==> backups.Present? && backups.du.ProbeExited? && backups.du.code != 0)
  {
  }
}
