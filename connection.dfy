// The connection helpers of testBenchConnection.ts: the base URL a
// `PlayServerConnection` is built with and forgets on `clearSessionData`,
// project selection by name, the status tables of the two upload calls,
// and the choice of server name and port at login.

module Connection {
  import opened Wrappers
  import opened Text

  // ---------------------------------------------------------------------
  // Base URL
  // ---------------------------------------------------------------------

  /** `https://${serverName}:${portNumber}/api`, with the port written in decimal. */
  function BaseURL(serverName: string, portNumber: int): (url: string)
    ensures |url| > 12 + |serverName| && url[..8] == "https://" && url[|url| - 4..] == "/api"
    ensures url[8..8 + |serverName|] == serverName && url[8 + |serverName|] == ':'
  {
    "https://" + serverName + ":" + IntToString(portNumber) + "/api"
  }

  /** Reading a port back: an optional minus sign and decimal digits. */
  function ParsePort(s: string): Option<int>
  {
    if |s| > 1 && s[0] == '-' && forall i :: 1 <= i < |s| ==> IsDigit(s[i]) then
      var magnitude: int := DigitsValue(s[1..]);
      Some(-magnitude)
    else if |s| > 0 && forall i :: 0 <= i < |s| ==> IsDigit(s[i]) then Some(DigitsValue(s))
    else None
  }

  /** Reading a base URL back into server and port: the port follows the last ":". */
  function ParseBaseURL(url: string): (r: Option<(string, int)>)
    ensures r.Some? ==> |url| >= 12 && url[..8] == "https://" && url[|url| - 4..] == "/api"
    ensures r.Some? ==> 8 + |r.value.0| < |url| - 4 && url[8..8 + |r.value.0|] == r.value.0 && url[8 + |r.value.0|] == ':'
  {
    if |url| >= 12 && url[..8] == "https://" && url[|url| - 4..] == "/api" then
      var middle := url[8..|url| - 4];
      var i := LastIndexOf(middle, ':');
      if i < 0 then None
      else match ParsePort(middle[i + 1..])
        case None => None
        case Some(port) => Some((middle[..i], port))
    else None
  }

  lemma ParsePortOfIntToString(p: int)
    ensures ParsePort(IntToString(p)) == Some(p)
    ensures ':' !in IntToString(p)
  {
    DigitsValueOfNatToString(if p < 0 then -p else p);
    if p < 0 {
      var s := IntToString(p);
      assert s[1..] == NatToString(-p);
    }
  }

  lemma EnclosedSlices(prefix: string, middle: string, suffix: string)
    ensures var url := prefix + middle + suffix;
      url[..|prefix|] == prefix && url[|url| - |suffix|..] == suffix && url[|prefix|..|url| - |suffix|] == middle
  {
  }

  /** The base URL determines the server name and the port it was built from. */
  lemma BaseURLDeterminesServerAndPort(serverName: string, portNumber: int)
    ensures ParseBaseURL(BaseURL(serverName, portNumber)) == Some((serverName, portNumber))
  {
    var port := IntToString(portNumber);
    ParsePortOfIntToString(portNumber);
    var middle := serverName + [':'] + port;
    ConcatAssociates("https://", serverName + [':'], port);
    ConcatAssociates("https://", serverName, [':']);
    assert BaseURL(serverName, portNumber) == "https://" + middle + "/api";
    EnclosedSlices("https://", middle, "/api");
    LastIndexOfSeparator(serverName, ':', port);
    EnclosedSlices(serverName, [':'], port);
  }

  // ---------------------------------------------------------------------
  // The connection object
  // ---------------------------------------------------------------------

  /**
   * `PlayServerConnection`. `keepAliveScheduled` stands for a non-null
   * `keepAliveIntervalId`; the HTTP client and the keep-alive requests
   * themselves are not part of this model.
   */
  class PlayServerConnection {
    var serverName: string
    var portNumber: int
    var sessionToken: string
    var baseURL: string
    var keepAliveScheduled: bool

    /** Connected with its own server and port, or cleared. */
    predicate Consistent()
      reads this
    {
      (baseURL == BaseURL(serverName, portNumber) && keepAliveScheduled) || Cleared()
    }

    predicate Cleared()
      reads this
    {
      baseURL == "" && serverName == "" && portNumber == 0 && sessionToken == "" && !keepAliveScheduled
    }

    /** The constructor builds the base URL and starts the keep-alive interval. */
    constructor (serverName: string, portNumber: int, sessionToken: string)
      ensures this.serverName == serverName && this.portNumber == portNumber && this.sessionToken == sessionToken
      ensures baseURL == BaseURL(serverName, portNumber) && keepAliveScheduled
      ensures Consistent()
    {
      this.serverName := serverName;
      this.portNumber := portNumber;
      this.sessionToken := sessionToken;
      baseURL := BaseURL(serverName, portNumber);
      keepAliveScheduled := true;
    }

    /** `clearSessionData`: every session field reset. */
    method ClearSessionData()
      modifies this
      ensures Cleared() && Consistent()
    {
      baseURL := "";
      serverName := "";
      portNumber := 0;
      sessionToken := "";
      keepAliveScheduled := false;
    }

    /** The base URL, parsed, gives the connection's server and port; a cleared connection has none. */
    lemma BaseURLMatchesFields()
      requires Consistent()
      ensures ParseBaseURL(baseURL) == (if Cleared() then None else Some((serverName, portNumber)))
    {
      if !Cleared() {
        BaseURLDeterminesServerAndPort(serverName, portNumber);
      }
    }
  }

  // ---------------------------------------------------------------------
  // Project selection
  // ---------------------------------------------------------------------

  /** The fields of a `types.Project` the selection reads. */
  datatype Project = Project(key: string, name: string)

  /** `projectsData.find(p => p.name === name)`: the index of the first project so named. */
  function FindByName(projects: seq<Project>, name: string): (i: int)
    ensures -1 <= i < |projects|
    ensures i >= 0 ==> projects[i].name == name
    ensures forall j :: 0 <= j < |projects| && (i < 0 || j < i) ==> projects[j].name != name
    decreases |projects|
  {
    if projects == [] then -1
    else if projects[0].name == name then 0
    else var k := FindByName(projects[1..], name); if k < 0 then -1 else k + 1
  }

  /**
   * `selectProjectKeyFromProjectList`: `picked` is what the quick pick
   * returns, `None` when it is dismissed. An empty pick counts as none.
   */
  function SelectProjectKey(projects: seq<Project>, picked: Option<string>): (key: Option<string>)
    ensures picked.None? || picked.value == "" ==> key.None?
    ensures key.Some? ==> exists j :: 0 <= j < |projects| && projects[j].name == picked.value && projects[j].key == key.value
  {
    if picked.None? || picked.value == "" then None
    else
      var i := FindByName(projects, picked.value);
      if i < 0 then None else Some(projects[i].key)
  }

  /** A key is returned exactly when a project has the picked name, and it is the key of the first such project. */
  lemma SelectProjectKeyIsFirstByName(projects: seq<Project>, picked: Option<string>)
    ensures SelectProjectKey(projects, picked).Some? <==>
              picked.Some? && picked.value != "" && exists j :: 0 <= j < |projects| && projects[j].name == picked.value
    ensures SelectProjectKey(projects, picked).Some? ==>
              exists j :: 0 <= j < |projects| && projects[j].name == picked.value &&
                SelectProjectKey(projects, picked).value == projects[j].key &&
                forall k :: 0 <= k < j ==> projects[k].name != picked.value
  {
    if picked.Some? && picked.value != "" {
      var i := FindByName(projects, picked.value);
      if i >= 0 {
        assert projects[i].name == picked.value;
      }
    }
  }

  // ---------------------------------------------------------------------
  // Status tables
  // ---------------------------------------------------------------------

  /** The errors the two calls throw, one per branch of their `switch`. */
  datatype CallError =
    | MissingFileName
    | MissingJobID
    | BadRequest
    | Forbidden
    | NotFound
    | UnprocessableEntity
    | UnexpectedStatus(status: int)

  /** The `switch (response.status)` of `uploadExecutionResults`; a missing or empty `fileName` is no file name. */
  function UploadOutcome(status: int, fileName: Option<string>): (r: Result<string, CallError>)
    ensures r.Success? <==> status == 201 && fileName.Some? && fileName.value != ""
    ensures r.Success? ==> r.value == fileName.value
  {
    match status
    case 201 => if fileName.Some? && fileName.value != "" then Success(fileName.value) else Failure(MissingFileName)
    case 403 => Failure(Forbidden)
    case 404 => Failure(NotFound)
    case 422 => Failure(UnprocessableEntity)
    case _ => Failure(UnexpectedStatus(status))
  }

  /** The `switch (response.status)` of `importExecutionResults`; a missing or empty `jobID` is no job. */
  function ImportOutcome(status: int, jobID: Option<string>): (r: Result<string, CallError>)
    ensures r.Success? <==> status == 200 && jobID.Some? && jobID.value != ""
    ensures r.Success? ==> r.value == jobID.value
  {
    match status
    case 200 => if jobID.Some? && jobID.value != "" then Success(jobID.value) else Failure(MissingJobID)
    case 400 => Failure(BadRequest)
    case 403 => Failure(Forbidden)
    case 404 => Failure(NotFound)
    case 422 => Failure(UnprocessableEntity)
    case _ => Failure(UnexpectedStatus(status))
  }

  /** Within each table, two different failing statuses never give the same error. */
  lemma ErrorsIdentifyTheStatus(s1: int, p1: Option<string>, s2: int, p2: Option<string>)
    requires s1 != s2
    ensures UploadOutcome(s1, p1).Failure? && UploadOutcome(s2, p2).Failure? ==>
              UploadOutcome(s1, p1).error != UploadOutcome(s2, p2).error
    ensures ImportOutcome(s1, p1).Failure? && ImportOutcome(s2, p2).Failure? ==>
              ImportOutcome(s1, p1).error != ImportOutcome(s2, p2).error
  {
  }

  /**
   * The two tables differ only at the import's success status 200, the
   * upload's success status 201 and the import's extra 400 branch; on
   * every other status they throw the same kind of error (`CallError`)
   * whatever the payload. The messages themselves differ between the calls.
   */
  lemma TablesAgreeElsewhere(status: int, fileName: Option<string>, jobID: Option<string>)
    ensures status !in {200, 201, 400} ==>
              UploadOutcome(status, fileName).Failure? && UploadOutcome(status, fileName) == ImportOutcome(status, jobID)
    ensures UploadOutcome(400, fileName) == Failure(UnexpectedStatus(400)) && ImportOutcome(400, jobID) == Failure(BadRequest)
    ensures UploadOutcome(200, fileName) == Failure(UnexpectedStatus(200))
    ensures ImportOutcome(201, jobID) == Failure(UnexpectedStatus(201))
  {
  }

  // ---------------------------------------------------------------------
  // Server name and port at login
  // ---------------------------------------------------------------------

  /** The port input box's check: empty, or decimal digits only; otherwise the message shown. */
  function ValidatePort(value: string): (r: Option<string>)
    ensures r.None? <==> value == "" || forall i :: 0 <= i < |value| ==> IsDigit(value[i])
  {
    if value != "" && !(forall i :: 0 <= i < |value| ==> IsDigit(value[i])) then Some("Port number must be a number")
    else None
  }

  /**
   * The server name used: the input when it is not empty, else the
   * configured one; `None` (cancel) when the box is dismissed or both are empty.
   */
  function ChooseServerName(input: Option<string>, configured: string): (r: Option<string>)
    ensures r.None? <==> input.None? || (input.value == "" && configured == "")
    ensures r.Some? ==> r.value == (if input.value != "" then input.value else configured) && r.value != ""
  {
    if (input.Some? && input.value == "" && configured == "") || input.None? then None
    else if input.value != "" then input
    else Some(configured)
  }

  /**
   * The port used: `parseInt` of the input when it is not empty, else the
   * configured port (0 counts as none). Only inputs the input box accepts
   * reach it.
   */
  function ChoosePort(input: Option<string>, configured: int): (r: Option<int>)
    requires input.Some? ==> ValidatePort(input.value).None?
    ensures r.None? <==> input.None? || (input.value == "" && configured == 0)
    ensures r.Some? && input.value == "" ==> r.value == configured
  {
    if (input.Some? && input.value == "" && configured == 0) || input.None? then None
    else if input.value != "" then Some(DigitsValue(input.value))
    else Some(configured)
  }

  /** A typed port is read back exactly as the number it spells. */
  lemma TypedPortIsUsed(p: nat, configured: int)
    ensures ChoosePort(Some(NatToString(p)), configured) == Some(p)
  {
    DigitsValueOfNatToString(p);
  }
}
