/** The code-execution sandbox (`CodeSandbox`): dispatch on the language and on
    the isolation mode fixed at start-up, the four drivers that write the
    snippet to a temporary file and run it, the mapping from what the host
    reported to the result dict, and the two traceback parsers.

    The host is an oracle: every call receives a `HostRun` that says what
    creating the temporary file, `subprocess.run` and the Docker client did. */
module Sandbox {
  import opened Types
  import opened Text

  /** The `mode` key of a result: "docker" or "subprocess". */
  datatype Mode = Docker | Subprocess

  /** The `line` key: absent from the dict, or present with `None` or a number. */
  datatype LineField = NoLineKey | LineKey(line: Option<nat>)

  /** The dict `execute_code` returns. `Refused(e)` is `{"error": e, "output": ""}`
      (no other key); `Ran` carries the keys every driver sets. */
  datatype ExecResult =
    | Refused(message: string)
    | Ran(output: string, error: Option<string>, executedSuccessfully: bool, line: LineField, mode: Mode)
  {
    /** `result.get("error")`. */
    function Error(): Option<string> {
      if Refused? then Some(message) else error
    }

    /** `result.get("line")`. */
    function Line(): Option<nat> {
      if Ran? && line.LineKey? then line.line else None
    }
  }

  // ---------- what the host reports ----------

  /** What `subprocess.run([interpreter, temp_file], timeout=...)` did. */
  datatype ProcessRun =
    | Exited(code: int, stdout: string, stderr: string)
    | TimedOut                        // subprocess.TimeoutExpired
    | BinaryMissing(message: string)  // FileNotFoundError: no interpreter on PATH
    | RunRaised(message: string)      // any other exception

  /** What the Docker client did with a container. */
  datatype ContainerRun =
    | StartRaised(message: string)            // containers.run(...) raised
    | Completed(status: int, logs: string)    // wait() and logs().decode() returned
    | WaitRaised(stopRaised: Option<string>)  // wait/logs/decode raised (a timeout among
                                              // others); then stop() raised this, or not

  /** What `NamedTemporaryFile(delete=False)` and `f.write(code)` did. When
      the write raises (code the file's encoding cannot represent), the file
      already exists and stays, empty: the text is encoded before anything is
      buffered. */
  datatype TempWrite =
    | Written
    | CreateRaised(message: string)   // no file was created
    | WriteRaised(message: string)    // the file was created, the write raised

  /** Everything one execution asks of the host. */
  datatype HostRun = HostRun(temp: TempWrite, process: ProcessRun, container: ContainerRun)

  /** The four `_execute_*` drivers. */
  datatype Driver = PythonDocker | PythonSubprocess | JavascriptDocker | JavascriptSubprocess
  {
    predicate IsDocker() {
      PythonDocker? || JavascriptDocker?
    }

    predicate IsPython() {
      PythonDocker? || PythonSubprocess?
    }

    /** The suffix of the temporary file. */
    function Suffix(): string {
      if IsPython() then ".py" else ".js"
    }

    function ModeOf(): Mode {
      if IsDocker() then Docker else Subprocess
    }
  }

  /** A temporary file as the driver wrote it. */
  datatype TempFile = TempFile(suffix: string, contents: string)

  const PythonTimeoutMessage: string := "Execution timeout (5s limit)"
  const JavascriptTimeoutMessage: string := "Execution timeout"
  const UnsupportedMessage: string := "Unsupported language"

  // ---------- the two parsers ----------

  /** `_parse_python_error`: the last line of the stripped traceback. */
  function ParsePythonError(logs: string): (r: string)
    ensures logs == [] ==> r == "Unknown error"
    ensures logs != [] ==> '\n' !in r
    ensures logs != [] ==> |r| <= |Strip(logs)| && r == Strip(logs)[|Strip(logs)| - |r|..]
    ensures logs != [] && |r| < |Strip(logs)| ==> Strip(logs)[|Strip(logs)| - |r| - 1] == '\n'
  {
    if logs == [] then "Unknown error" else AfterLastNewline(Strip(logs))
  }

  /** A traceback made only of whitespace parses to the empty message. */
  lemma ParsePythonErrorBlank(logs: string)
    requires logs != []
    requires forall k :: 0 <= k < |logs| ==> IsSpace(logs[k])
    ensures ParsePythonError(logs) == ""
  {
    StripAllSpace(logs);
  }

  /** `re.search(r'line (\d+)', s)` matches at `i`. */
  predicate LineMarkerAt(s: string, i: int) {
    MatchAt(s, "line ", i) && i + 5 < |s| && IsDigit(s[i + 5])
  }

  /** `i` is the leftmost match. */
  predicate FirstLineMarker(s: string, i: int) {
    LineMarkerAt(s, i) && forall j :: 0 <= j < i ==> !LineMarkerAt(s, j)
  }

  /** Leftmost match at or after `from`. */
  function FindLineMarker(s: string, from: nat): (r: Option<nat>)
    requires forall j :: 0 <= j < from ==> !LineMarkerAt(s, j)
    ensures r.Some? ==> FirstLineMarker(s, r.value)
    ensures r.None? ==> forall j :: 0 <= j < |s| ==> !LineMarkerAt(s, j)
    decreases |s| - from
  {
    if from >= |s| then None
    else if LineMarkerAt(s, from) then Some(from)
    else FindLineMarker(s, from + 1)
  }

  /** `_extract_error_line`: the number after the first "line " that is
      followed by a digit, read greedily. */
  function ExtractErrorLine(logs: string): (r: Option<nat>)
    ensures r.None? <==> (logs == [] || forall i :: 0 <= i < |logs| ==> !LineMarkerAt(logs, i))
    ensures r.Some? ==> exists i :: 0 <= i < |logs| && FirstLineMarker(logs, i)
                                    && r.value == DecimalValue(DigitRun(logs[i + 5..]))
  {
    if logs == [] then None
    else match FindLineMarker(logs, 0)
      case None => None
      case Some(i) => Some(DecimalValue(DigitRun(logs[i + 5..])))
  }

  // ---------- the drivers' outcome mapping ----------

  /** The dict each driver returns for what the host reported. */
  function DriverResult(d: Driver, host: HostRun): (r: ExecResult)
    ensures r.Ran? && r.mode == d.ModeOf()
    ensures r.error.None? <==> r.executedSuccessfully
    ensures r.line.LineKey? ==> d.IsPython() && !r.executedSuccessfully
  {
    var mode := d.ModeOf();
    var prefix := if d.IsDocker() then "Docker error: " else "Execution error: ";
    var timeoutMessage := if d.IsPython() then PythonTimeoutMessage else JavascriptTimeoutMessage;
    var failed := (msg: string) => Ran("", Some(msg), false, NoLineKey, mode);
    if !host.temp.Written? then failed(prefix + host.temp.message)
    else if d.IsDocker() then
      match host.container
      case StartRaised(m) => failed(prefix + m)
      case WaitRaised(stopRaised) =>
        if stopRaised.Some? then failed(prefix + stopRaised.value) else failed(timeoutMessage)
      case Completed(status, logs) =>
        if status == 0 then Ran(logs, None, true, NoLineKey, mode)
        else if d.IsPython() then Ran(logs, Some(ParsePythonError(logs)), false, LineKey(ExtractErrorLine(logs)), mode)
        else Ran(logs, Some(logs), false, NoLineKey, mode)
    else
      match host.process
      case TimedOut => failed(timeoutMessage)
      case RunRaised(m) => failed(prefix + m)
      case BinaryMissing(m) => if d.IsPython() then failed(prefix + m) else failed("Node.js not installed")
      case Exited(code, out, err) =>
        if code == 0 then Ran(out, None, true, NoLineKey, mode)
        else if d.IsPython() then
          Ran(out, Some(if err != [] then err else ParsePythonError(err)), false, LineKey(ExtractErrorLine(err)), mode)
        else Ran(out, Some(err), false, NoLineKey, mode)
  }

  /** The driver returns without unlinking the temporary file it created. */
  predicate LeavesTempFile(d: Driver, host: HostRun) {
    match host.temp
    case CreateRaised(_) => false
    case WriteRaised(_) => true
    case Written =>
      if d.IsDocker() then !host.container.Completed?
      else host.process.BinaryMissing? || host.process.RunRaised?
  }

  /** The temporary file a driver leaves behind: the code, or nothing when
      the write raised. */
  function LeftFile(d: Driver, host: HostRun, code: string): TempFile {
    TempFile(d.Suffix(), if host.temp.WriteRaised? then "" else code)
  }

  /** The driver calls `container.stop()`. */
  predicate StopsContainer(d: Driver, host: HostRun) {
    d.IsDocker() && host.temp.Written? && host.container.WaitRaised?
  }

  /** Which driver `execute_code` runs, if any. */
  function Dispatch(dockerAvailable: bool, language: string): (r: Option<Driver>)
    ensures r.Some? <==> language == "python" || language == "javascript"
    ensures r.Some? ==> (r.value.IsDocker() <==> dockerAvailable)
    ensures r.Some? ==> (r.value.IsPython() <==> language == "python")
  {
    if language == "python" then Some(if dockerAvailable then PythonDocker else PythonSubprocess)
    else if language == "javascript" then Some(if dockerAvailable then JavascriptDocker else JavascriptSubprocess)
    else None
  }

  /** The dict `execute_code` hands back for `language` on this host. */
  function ExecuteOutcome(dockerAvailable: bool, language: string, host: HostRun): (r: ExecResult)
    ensures r.Refused? <==> language != "python" && language != "javascript"
    ensures r.Refused? ==> r == Refused(UnsupportedMessage)
  {
    match Dispatch(dockerAvailable, language)
    case None => Refused(UnsupportedMessage)
    case Some(d) => DriverResult(d, host)
  }

  /** The temporary files after `execute_code` ran `language` on this host,
      given the files before and the name the next file gets. */
  function TempsAfter(temps: map<nat, TempFile>, nextTemp: nat, dockerAvailable: bool,
                      language: string, host: HostRun, code: string): map<nat, TempFile>
  {
    match Dispatch(dockerAvailable, language)
    case None => temps
    case Some(d) => if LeavesTempFile(d, host) then temps[nextTemp := LeftFile(d, host, code)] else temps
  }

  /** The number of `container.stop()` calls after `execute_code`. */
  function StopsAfter(stopCalls: nat, dockerAvailable: bool, language: string, host: HostRun): nat {
    match Dispatch(dockerAvailable, language)
    case None => stopCalls
    case Some(d) => stopCalls + if StopsContainer(d, host) then 1 else 0
  }

  // ---------- the sandbox object ----------

  class CodeSandbox {
    /** Seconds given to a run; set once. */
    const timeout: nat
    /** The isolation mode, probed once in the constructor. */
    const dockerAvailable: bool
    /** The temporary files that exist, by name. */
    ghost var temps: map<nat, TempFile>
    /** The name the next temporary file gets. */
    var nextTemp: nat
    /** How many times `container.stop()` was called. */
    ghost var stopCalls: nat

    ghost predicate Valid()
      reads this
    {
      forall n :: n in temps ==> n < nextTemp
    }

    /** `__init__`: Docker is used exactly when the `docker` package imported
        and `docker.from_env()` and `ping()` both returned. */
    constructor (dockerImported: bool, clientResponds: bool)
      ensures Valid()
      ensures timeout == 5
      ensures dockerAvailable == (dockerImported && clientResponds)
      ensures temps == map[] && stopCalls == 0
    {
      timeout := 5;
      dockerAvailable := dockerImported && clientResponds;
      temps := map[];
      nextTemp := 0;
      stopCalls := 0;
    }

    /** `tempfile.NamedTemporaryFile(delete=False)`: a fresh, empty file. */
    method CreateTemp(suffix: string) returns (name: nat)
      requires Valid()
      modifies this`temps, this`nextTemp
      ensures Valid()
      ensures name == old(nextTemp) && name !in old(temps)
      ensures temps == old(temps)[name := TempFile(suffix, "")]
      ensures nextTemp == old(nextTemp) + 1
    {
      name := nextTemp;
      temps := temps[name := TempFile(suffix, "")];
      nextTemp := nextTemp + 1;
    }

    /** `f.write(code)` on the file just created. */
    method WriteTemp(name: nat, code: string)
      requires Valid() && name in temps
      modifies this`temps
      ensures Valid()
      ensures temps == old(temps)[name := TempFile(old(temps)[name].suffix, code)]
    {
      temps := temps[name := TempFile(temps[name].suffix, code)];
    }

    /** `os.unlink(name)`. */
    method Unlink(name: nat)
      requires Valid() && name in temps
      modifies this`temps
      ensures Valid()
      ensures temps == old(temps) - {name}
    {
      temps := temps - {name};
    }

    /** `container.stop()`. */
    method StopContainer()
      modifies this`stopCalls
      ensures stopCalls == old(stopCalls) + 1
    {
      stopCalls := stopCalls + 1;
    }

    /** `_execute_python_subprocess` and `_execute_javascript_subprocess`:
        write the snippet, run the interpreter, unlink on a normal exit and on a
        timeout, and map the outcome. */
    method ExecuteSubprocess(d: Driver, code: string, host: HostRun) returns (r: ExecResult)
      requires Valid() && !d.IsDocker()
      modifies this`temps, this`nextTemp
      ensures Valid()
      ensures r == DriverResult(d, host)
      ensures temps == if LeavesTempFile(d, host) then old(temps)[old(nextTemp) := LeftFile(d, host, code)]
                       else old(temps)
      ensures nextTemp == old(nextTemp) + if host.temp.CreateRaised? then 0 else 1
    {
      if host.temp.CreateRaised? {
        return DriverResult(d, host);
      }
      var name := CreateTemp(d.Suffix());
      if host.temp.WriteRaised? {
        return DriverResult(d, host);
      }
      WriteTemp(name, code);
      match host.process {
        case Exited(_, _, _) =>
          Unlink(name);
        case TimedOut =>
          Unlink(name);
        case BinaryMissing(_) =>
        case RunRaised(_) =>
      }
      r := DriverResult(d, host);
    }

    /** `_execute_python_docker` and `_execute_javascript_docker`: write the
        snippet, start a container, unlink once its logs are read, and stop the
        container when waiting for it or reading its logs raised. */
    method ExecuteDocker(d: Driver, code: string, host: HostRun) returns (r: ExecResult)
      requires Valid() && d.IsDocker()
      modifies this`temps, this`nextTemp, this`stopCalls
      ensures Valid()
      ensures r == DriverResult(d, host)
      ensures temps == if LeavesTempFile(d, host) then old(temps)[old(nextTemp) := LeftFile(d, host, code)]
                       else old(temps)
      ensures nextTemp == old(nextTemp) + if host.temp.CreateRaised? then 0 else 1
      ensures stopCalls == old(stopCalls) + if StopsContainer(d, host) then 1 else 0
    {
      if host.temp.CreateRaised? {
        return DriverResult(d, host);
      }
      var name := CreateTemp(d.Suffix());
      if host.temp.WriteRaised? {
        return DriverResult(d, host);
      }
      WriteTemp(name, code);
      match host.container {
        case StartRaised(_) =>
        case Completed(_, _) =>
          Unlink(name);
        case WaitRaised(_) =>
          StopContainer();
      }
      r := DriverResult(d, host);
    }

    /** `execute_code`: route on the language and on the mode fixed at start-up. */
    method ExecuteCode(code: string, language: string, host: HostRun) returns (r: ExecResult)
      requires Valid()
      modifies this`temps, this`nextTemp, this`stopCalls
      ensures Valid()
      ensures r == ExecuteOutcome(dockerAvailable, language, host)
      ensures temps == TempsAfter(old(temps), old(nextTemp), dockerAvailable, language, host, code)
      ensures stopCalls == StopsAfter(old(stopCalls), dockerAvailable, language, host)
      ensures nextTemp == old(nextTemp) + if Dispatch(dockerAvailable, language).None? || host.temp.CreateRaised? then 0 else 1
      ensures Dispatch(dockerAvailable, language).None? ==>
                r == Refused(UnsupportedMessage) && temps == old(temps)
                && nextTemp == old(nextTemp) && stopCalls == old(stopCalls)
      ensures Dispatch(dockerAvailable, language).Some? ==>
                var d := Dispatch(dockerAvailable, language).value;
                && r == DriverResult(d, host)
                && temps == (if LeavesTempFile(d, host) then old(temps)[old(nextTemp) := LeftFile(d, host, code)]
                             else old(temps))
                && stopCalls == old(stopCalls) + (if StopsContainer(d, host) then 1 else 0)
    {
      var driver := Dispatch(dockerAvailable, language);
      if driver.None? {
        return Refused(UnsupportedMessage);
      }
      if dockerAvailable {
        r := ExecuteDocker(driver.value, code, host);
      } else {
        r := ExecuteSubprocess(driver.value, code, host);
      }
    }

    /** `is_healthy`: always healthy, because the subprocess fallback exists. */
    function IsHealthy(): (healthy: bool)
      ensures healthy
    {
      true
    }
  }

  // ---------- properties of the outcome mapping ----------

  /** A Python program that exits non-zero under the subprocess driver reports
      its whole stderr, or "Unknown error" when stderr is empty, so the error
      is never empty; the line comes from stderr. */
  lemma PythonSubprocessFailure(host: HostRun, code: int, out: string, err: string)
    requires host.temp.Written? && host.process == Exited(code, out, err) && code != 0
    ensures DriverResult(PythonSubprocess, host).error == Some(if err != [] then err else "Unknown error")
    ensures DriverResult(PythonSubprocess, host).error.value != []
    ensures DriverResult(PythonSubprocess, host).output == out
    ensures DriverResult(PythonSubprocess, host).Line() == ExtractErrorLine(err)
  {
  }

  /** In subprocess mode a normal exit and a timeout both unlink the temporary
      file, so a file stays only when the write raised; a timeout yields the
      driver's fixed message and no output. */
  lemma SubprocessCleanup(d: Driver, host: HostRun)
    requires !d.IsDocker() && (host.process.Exited? || host.process.TimedOut?)
    ensures LeavesTempFile(d, host) <==> host.temp.WriteRaised?
    ensures host.temp.Written? && host.process.TimedOut? ==>
              DriverResult(d, host) == Ran("", Some(if d.IsPython() then PythonTimeoutMessage else JavascriptTimeoutMessage),
                                           false, NoLineKey, Subprocess)
  {
  }

  /** In Docker mode an exception from `wait` or `logs` stops the container
      and, unless `stop` itself raised, reports a timeout with no output. */
  lemma DockerWaitFailure(d: Driver, host: HostRun)
    requires d.IsDocker() && host.temp.Written? && host.container == WaitRaised(None)
    ensures StopsContainer(d, host)
    ensures DriverResult(d, host).output == [] && DriverResult(d, host).mode == Docker
    ensures DriverResult(d, host).error == Some(if d.IsPython() then PythonTimeoutMessage else JavascriptTimeoutMessage)
  {
  }

  /** A write that raises after the file was created is reported with the
      driver's prefix, and the empty file stays behind. */
  lemma WriteFailureLeavesFile(d: Driver, host: HostRun, code: string)
    requires host.temp.WriteRaised?
    ensures LeavesTempFile(d, host) && LeftFile(d, host, code) == TempFile(d.Suffix(), "")
    ensures DriverResult(d, host)
              == Ran("", Some((if d.IsDocker() then "Docker error: " else "Execution error: ") + host.temp.message),
                     false, NoLineKey, d.ModeOf())
  {
  }

  /** `_extract_error_line` reads back the number in "line N". */
  lemma {:induction false} ExtractErrorLineReadsNumber(n: nat, rest: string)
    requires rest == [] || !IsDigit(rest[0])
    ensures ExtractErrorLine("line " + NatToDecimal(n) + rest) == Some(n)
  {
    var d := NatToDecimal(n);
    var s := "line " + d + rest;
    assert s[..5] == "line ";
    assert LineMarkerAt(s, 0);
    assert s[5..] == d + rest;
    DigitRunOfDigits(d, rest);
    DecimalRoundTrip(n);
  }

  lemma {:induction false} DigitRunOfDigits(d: string, rest: string)
    requires AllDigits(d)
    requires rest == [] || !IsDigit(rest[0])
    ensures DigitRun(d + rest) == d
    decreases |d|
  {
    if d == [] {
      assert d + rest == rest;
    } else {
      assert (d + rest)[1..] == d[1..] + rest;
      DigitRunOfDigits(d[1..], rest);
      assert [d[0]] + d[1..] == d;
    }
  }
}
