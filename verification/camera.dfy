/** The camera abstraction: the factory that picks a camera variant for a
    platform, the configuration default, and the lifecycle a `with` block
    gives a camera (initialize on entry, shutdown on exit). */
module Camera {
  import opened Wrappers
  import PyStrings
  import TimeLapse

  /** The two camera variants: the macOS webcam and the Raspberry Pi camera. */
  datatype CameraKind = Mac | Pi

  /** A camera object: its variant and the configuration it stores. The
      configuration values are never inspected, so their type is left open. */
  datatype CameraInstance<V> = CameraInstance(kind: CameraKind, config: map<string, V>)

  /** The two exceptions the factory raises: `CameraError` when automatic
      detection meets an unknown platform, `ValueError` for an unknown
      explicit operating-system name. */
  datatype FactoryError = CameraError(platform: string) | ValueError(osType: string)

  /** `config if config else {}`: an absent configuration, and an empty one,
      become the empty map; a non-empty one is stored as given. */
  function StoredConfig<V>(config: Option<map<string, V>>): (c: map<string, V>)
    ensures config.None? ==> c == map[]
    ensures config.Some? ==> c == config.value
  {
    match config
    case None => map[]
    case Some(m) => if |m| == 0 then map[] else m
  }

  /** The `"auto"` branch of `get_camera`: the value of `sys.platform`
      turned into an operating-system name, or a `CameraError`. */
  function ResolveAuto(platform: string): (r: Result<string, FactoryError>)
    ensures r.Success? ==> r.value == TimeLapse.MacOS || r.value == TimeLapse.Linux
    ensures r.Failure? ==> r.error == CameraError(platform)
  {
    if platform == "darwin" then Success(TimeLapse.MacOS)
    else if PyStrings.StartsWith(platform, "linux") then Success(TimeLapse.Linux)
    else Failure(CameraError(platform))
  }

  /** `get_camera(os_type="auto", config=None)`, with the value of
      `sys.platform` passed in first (it is read only when `os_type` is
      "auto"). */
  function GetCamera<V>(platform: string, osType: string := "auto",
                        config: Option<map<string, V>> := None)
    : (r: Result<CameraInstance<V>, FactoryError>)
    ensures r.Success? ==> r.value.config == StoredConfig(config)
    ensures osType == TimeLapse.MacOS ==> r == Success(CameraInstance(Mac, StoredConfig(config)))
    ensures osType == TimeLapse.Linux ==> r == Success(CameraInstance(Pi, StoredConfig(config)))
    ensures osType != "auto" && osType != TimeLapse.MacOS && osType != TimeLapse.Linux
            ==> r == Failure(ValueError(osType))
    ensures osType == "auto" && r.Failure? ==> r.error == CameraError(platform)
  {
    var resolved := if osType == "auto" then ResolveAuto(platform) else Success(osType);
    match resolved
    case Failure(e) => Failure(e)
    case Success(os) =>
      if os == TimeLapse.MacOS then Success(CameraInstance(Mac, StoredConfig(config)))
      else if os == TimeLapse.Linux then Success(CameraInstance(Pi, StoredConfig(config)))
      else Failure(ValueError(os))
  }

  /** `get_camera()` with no arguments detects the platform and stores an
      empty configuration. */
  lemma DefaultArguments<V>(platform: string)
    ensures GetCamera<V>(platform) == GetCamera<V>(platform, "auto", None)
    ensures GetCamera<V>(platform).Success? ==> GetCamera<V>(platform).value.config == map[]
    ensures GetCamera<V>(platform).Failure? <==> TimeLapse.GetOperatingSystem(platform) == TimeLapse.Unsupported
  {
  }

  /** The camera variant serving each classification of `get_operating_system`. */
  function KindFor(os: string): Option<CameraKind> {
    if os == TimeLapse.MacOS then Some(Mac)
    else if os == TimeLapse.Linux then Some(Pi)
    else None
  }

  /** Automatic detection in the factory agrees with the application's own
      platform classification: it fails with `CameraError` exactly when the
      platform is unsupported, and otherwise builds the variant for the
      detected system. */
  lemma AutoAgreesWithClassification<V>(platform: string, config: Option<map<string, V>>)
    ensures var r := GetCamera(platform, "auto", config);
            var os := TimeLapse.GetOperatingSystem(platform);
            && (r.Failure? <==> os == TimeLapse.Unsupported)
            && (r.Failure? ==> r.error == CameraError(platform))
            && (r.Success? ==> KindFor(os) == Some(r.value.kind))
  {
  }

  /** With automatic detection, "darwin" gives the Mac camera, every name
      beginning with "linux" gives the Pi camera, anything else raises
      `CameraError`; a `ValueError` is never raised. */
  lemma AutoDetection<V>(platform: string, config: Option<map<string, V>>)
    ensures platform == "darwin"
            ==> GetCamera(platform, "auto", config) == Success(CameraInstance(Mac, StoredConfig(config)))
    ensures platform != "darwin" && "linux" <= platform
            ==> GetCamera(platform, "auto", config) == Success(CameraInstance(Pi, StoredConfig(config)))
    ensures platform != "darwin" && !("linux" <= platform)
            ==> GetCamera(platform, "auto", config) == Failure(CameraError(platform))
    ensures GetCamera(platform, "auto", config).Failure?
            ==> !GetCamera(platform, "auto", config).error.ValueError?
  {
  }

  /** The calls a camera receives over its lifetime. */
  datatype Call = Initialize | CaptureImage(filepath: string) | Shutdown

  /** A Python value as far as the camera methods return one. */
  datatype PyValue = PyNone | PyBool(b: bool)

  /** Python truthiness of a returned value. */
  predicate Truthy(v: PyValue) {
    v.PyBool? && v.b
  }

  /** The return value of each method of the two placeholder cameras
      (`MacCamera` and `PiCamera`). */
  function Returns(kind: CameraKind, call: Call): PyValue {
    match kind
    case Mac =>
      (match call
       case Initialize => PyBool(true)
       case CaptureImage(_) => PyBool(true)
       case Shutdown => PyNone)
    case Pi =>
      (match call
       case Initialize => PyBool(true)
       case CaptureImage(_) => PyBool(true)
       case Shutdown => PyNone)
  }

  /** The two placeholder cameras answer every call alike: `initialize` and
      `capture_image` report `True` for any file path, `shutdown` returns
      nothing. */
  lemma PlaceholdersAgree(call: Call)
    ensures Returns(Mac, call) == Returns(Pi, call)
    ensures call.Shutdown? <==> Returns(Mac, call) == PyNone
    ensures !call.Shutdown? <==> Truthy(Returns(Mac, call))
  {
  }

  /** What `__enter__` leaves behind: the object bound by `as`, and the value
      `initialize` returned (which `__enter__` itself discards). */
  datatype Entry<V> = Entry(bound: CameraInstance<V>, initialized: PyValue)

  /** `__enter__`: calls `initialize` and returns the camera itself. */
  function Enter<V>(cam: CameraInstance<V>): Entry<V> {
    Entry(cam, Returns(cam.kind, Initialize))
  }

  /** What `__exit__` leaves behind: the value `shutdown` returned, and the
      value `__exit__` itself returns. */
  datatype Departure = Departure(shutdownReturned: PyValue, returned: PyValue)

  /** `__exit__`: calls `shutdown`, whatever exception (if any) is passing,
      and returns nothing. */
  function Exit<V>(cam: CameraInstance<V>): Departure {
    Departure(Returns(cam.kind, Shutdown), PyNone)
  }

  /** One statement in the body of a `with` block: a capture, or raising an
      exception (named by its message). */
  datatype Statement = Capture(filepath: string) | Raise(exception: string)

  /** The number of statements that run before the first `Raise` (all of
      them when none raises). */
  function RunLength(body: seq<Statement>): (n: nat)
    ensures n <= |body|
    ensures forall k :: 0 <= k < n ==> body[k].Capture?
    ensures n < |body| ==> body[n].Raise?
    decreases |body|
  {
    if |body| == 0 || body[0].Raise? then 0 else 1 + RunLength(body[1..])
  }

  /** The exception, if any, that ends a body run early. */
  function Raised(body: seq<Statement>): Option<string> {
    var n := RunLength(body);
    if n < |body| then Some(body[n].exception) else None
  }

  /** A body run: the calls the camera received, the values its captures
      returned, and the exception that ended the run early, if any. */
  datatype BodyRun = BodyRun(calls: seq<Call>, results: seq<PyValue>, raised: Option<string>)

  /** The body of a `with` block run against a bound camera: the captures
      before the first raise happen in order, each reporting `True`, and
      the first raise (if any) is the exception that leaves the body. */
  function RunBody<V>(cam: CameraInstance<V>, body: seq<Statement>): (r: BodyRun)
    ensures |r.calls| == RunLength(body) && |r.results| == |r.calls|
    ensures forall k :: 0 <= k < |r.calls| ==> r.calls[k] == CaptureImage(body[k].filepath)
    ensures forall k :: 0 <= k < |r.results| ==> r.results[k] == PyBool(true)
    ensures r.raised == Raised(body)
    decreases |body|
  {
    if |body| == 0 then BodyRun([], [], None)
    else match body[0]
      case Raise(e) => BodyRun([], [], Some(e))
      case Capture(f) =>
        var rest := RunBody(cam, body[1..]);
        BodyRun([CaptureImage(f)] + rest.calls,
                [Returns(cam.kind, CaptureImage(f))] + rest.results, rest.raised)
  }

  /** A trace that opens with `Initialize`, closes with `Shutdown` and has
      only captures in between holds each of the two exactly once. */
  lemma BracketedOnce(ran: seq<Call>)
    requires forall k :: 0 <= k < |ran| ==> ran[k].CaptureImage?
    ensures var calls := [Initialize] + ran + [Shutdown];
            multiset(calls)[Initialize] == 1 && multiset(calls)[Shutdown] == 1
  {
  }

  /** The outcome of `with cam as c: body`: every call the camera received,
      the values `initialize`, the captures and `shutdown` returned, the
      object bound to `c`, and the exception that leaves the block. */
  datatype Scope<V> = Scope(calls: seq<Call>, initialized: PyValue, captures: seq<PyValue>,
                            shutdownReturned: PyValue, bound: CameraInstance<V>,
                            escaped: Option<string>)

  /** `with cam as c: body`. The camera is initialized once on entry and
      shut down once on exit, on normal and exceptional exit alike; the
      bound object is the camera itself; an exception raised in the body
      leaves the block unsuppressed. */
  function WithCamera<V>(cam: CameraInstance<V>, body: seq<Statement>): (s: Scope<V>)
    ensures s.bound == cam
    ensures |s.calls| == RunLength(body) + 2
    ensures s.calls[0] == Initialize && s.calls[|s.calls| - 1] == Shutdown
    ensures multiset(s.calls)[Initialize] == 1 && multiset(s.calls)[Shutdown] == 1
    ensures forall k :: 0 < k < |s.calls| - 1 ==> s.calls[k] == CaptureImage(body[k - 1].filepath)
    ensures Truthy(s.initialized) && s.shutdownReturned == PyNone
    ensures |s.captures| == RunLength(body)
    ensures forall k :: 0 <= k < |s.captures| ==> Truthy(s.captures[k])
    ensures s.escaped == Raised(body)
  {
    var entry := Enter(cam);
    var ran := RunBody(entry.bound, body);
    var departure := Exit(entry.bound);
    var escaped := if ran.raised.Some? && !Truthy(departure.returned) then ran.raised else None;
    var calls := [Initialize] + ran.calls + [Shutdown];
    BracketedOnce(ran.calls);
    Scope(calls, entry.initialized, ran.results, departure.shutdownReturned, entry.bound, escaped)
  }
}
