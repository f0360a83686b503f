/** The application entry point: host platform classification and the
    decision to stop early on an unsupported host. */
module TimeLapse {
  import PyStrings

  const MacOS := "macos"
  const Linux := "linux"
  const Unsupported := "unsupported"

  /** `get_operating_system`, with the value of `sys.platform` passed in:
      "darwin" is macOS, any platform name beginning with "linux" is Linux,
      and everything else is unsupported. */
  function GetOperatingSystem(platform: string): (os: string)
    ensures os == MacOS || os == Linux || os == Unsupported
    ensures os == MacOS <==> platform == "darwin"
    ensures os == Linux <==> platform != "darwin" && "linux" <= platform
    ensures os == Unsupported <==> platform != "darwin" && !("linux" <= platform)
  {
    PyStrings.StartsWithIsPrefix(platform, "linux");
    if platform == "darwin" then MacOS
    else if PyStrings.StartsWith(platform, "linux") then Linux
    else Unsupported
  }

  /** Every platform name that begins with "linux" is classified as Linux,
      whatever follows ("linux", "linux2", ...). */
  lemma LinuxFamily(suffix: string)
    ensures GetOperatingSystem("linux" + suffix) == Linux
  {
    var p := "linux" + suffix;
    assert p[..5] == "linux";
    assert p[0] != "darwin"[0];
  }

  /** The platform strings of the parametrised test, each with the
      classification the test expects. */
  lemma ParametrisedCases()
    ensures GetOperatingSystem("darwin") == MacOS
    ensures GetOperatingSystem("linux") == Linux
    ensures GetOperatingSystem("win32") == Unsupported
    ensures GetOperatingSystem("linux2") == Linux
    ensures GetOperatingSystem("cygwin") == Unsupported
    ensures GetOperatingSystem("freebsd11") == Unsupported
  {
  }

  /** How a run of `main` ends: through `sys.exit(status)`, or by reaching
      the final message. */
  datatype MainOutcome = SysExit(status: int) | Finished

  /** `main`, with the value of `sys.platform` passed in and the printed
      messages left out. */
  function MainRun(platform: string): (r: MainOutcome)
    ensures r.SysExit? <==> GetOperatingSystem(platform) == Unsupported
    ensures r.SysExit? ==> r.status == 1
    ensures r == Finished <==> platform == "darwin" || "linux" <= platform
  {
    var currentOs := GetOperatingSystem(platform);
    if currentOs == Unsupported then SysExit(1) else Finished
  }
}
