# PyTimeLapse core, modelled in Dafny

PyTimeLapse is a timelapse camera application for macOS and Raspberry Pi OS.
Its core, as it stands, is three small pieces of logic:

- **platform classification** (`main.py`): `get_operating_system` turns the
  host's `sys.platform` into `"macos"`, `"linux"` or `"unsupported"`, and
  `main` exits with status 1 on an unsupported host;
- **the camera layer** (`camera.py`): the `get_camera` factory picks the Mac
  or the Pi camera for an explicit or auto-detected operating system, or
  raises `CameraError` / `ValueError`; a camera stores its configuration
  (an absent or empty one becomes `{}`), and used as a context manager it is
  initialized on entry and shut down on exit without suppressing
  exceptions; both cameras are placeholders whose `initialize` and
  `capture_image` report `True`;
- **the video assembler** (`video_utils.py`): `compile_video_ffmpeg` looks
  for `ffmpeg`, creates the output directory when needed, builds a fixed
  15-element command line and reports success exactly when the encoder
  exits with code 0, catching the run's exceptions.

Everything the program asks of the host is an input of the model: the value
of `sys.platform`, the answer of `shutil.which("ffmpeg")`, whether the
output directory exists, how `os.makedirs` ends, and how `subprocess.run`
ends (a return code, `FileNotFoundError`, another `Exception`, or a
`BaseException` such as an interrupt, which `except Exception` does not
catch).

Modules, one per source file plus the library behaviour they rely on:

- `Wrappers` (`wrappers.dfy`): `Option` and `Result`.
- `PyStrings` (`pystrings.dfy`): Python's `str.startswith`, `str()` of an
  integer and its reading back.
- `PosixPath` (`posixpath.dfy`): Python's `posixpath.join` (two arguments)
  and `posixpath.dirname`.
- `TimeLapse` (`timelapse.dfy`): `main.py`.
- `Camera` (`camera.py`'s model, `camera.dfy`): factory, configuration,
  lifecycle. `get_camera` keeps its defaults (`os_type="auto"`,
  `config=None`); the platform string, which it reads from the host, comes
  first. A `with` block is modelled as a body of statements (captures
  and raises) run between `__enter__` and `__exit__`, producing the trace of
  calls the camera receives.
- `VideoUtils` (`videoutils.dfy`): the command line, its reading back, and
  the compile decision.

The cameras are placeholders with no device states, retries or warm-up.
A missing or failing encoder yields `False`, not an error. The output
directory is created only when the output path has a directory part that
does not exist. There is no capture loop.

## Model

| member | source | states |
|---|---|---|
| TimeLapse.GetOperatingSystem | main.py:9-18 | The result is always one of "macos", "linux", "unsupported"; "macos" exactly for "darwin", "linux" exactly for other platforms that have "linux" as a prefix, "unsupported" exactly for the rest |
| TimeLapse.LinuxFamily | main.py:15-16 | Every platform string beginning with "linux", whatever follows, classifies as "linux" |
| TimeLapse.ParametrisedCases | tests/test_main.py:9-24 | darwin→macos, linux→linux, win32→unsupported, linux2→linux, cygwin→unsupported, freebsd11→unsupported |
| TimeLapse.MainRun | main.py:20-39 | `main` calls `sys.exit(1)` exactly when the classification is "unsupported", and otherwise reaches its final message, which happens exactly for "darwin" and "linux"-prefixed platforms |
| PyStrings.StartsWithIsPrefix | main.py:15 | The character-by-character `startswith` test holds exactly when the prefix is a sequence prefix of the string |
| PyStrings.NatToDecimal | video_utils.py:53 | `str()` of a natural number is non-empty, all decimal digits, and has no leading zero unless the number is 0 |
| PyStrings.IntToStr | video_utils.py:53 | `str(fps)` is non-empty, starts with '-' exactly for negative values, and is digits after the first character |
| PyStrings.IntToStrRoundTrip | video_utils.py:53 | Reading back `str(i)` gives `i` for every integer |
| PyStrings.IntToStrInjective | video_utils.py:53 | Two integers have the same `str()` text exactly when they are equal |
| PosixPath.Join | video_utils.py:55 | `os.path.join(folder, pattern)` always ends with the pattern, starts with the folder when the pattern is relative, and is the pattern alone when it is absolute |
| PosixPath.Dirname | video_utils.py:38 | `os.path.dirname` of a path is a prefix of it |
| PosixPath.DirnameEmptyIff | video_utils.py:38-39 | The directory part of the output path is empty exactly when the path contains no '/' |
| PosixPath.DirnameOfJoin | video_utils.py:38 | The directory part of `join(dir, name)` is `dir` when `dir` is non-empty without a trailing '/' and `name` has no '/' |
| Camera.StoredConfig | camera.py:15-17 | An absent configuration is stored as the empty map; a given one, empty or not, is stored with the same contents |
| Camera.ResolveAuto | camera.py:79-87 | Auto-detection produces only "macos" or "linux", or else a `CameraError` naming the platform |
| Camera.GetCamera | camera.py:77-96 | Explicit "macos" gives the Mac camera and "linux" the Pi camera, with the stored configuration; any explicit name other than "auto", "macos", "linux" raises `ValueError` with that name; with "auto" the only error is `CameraError` |
| Camera.DefaultArguments | camera.py:77-87 | `get_camera()` with no arguments is the "auto" call without configuration: it fails exactly on an unsupported platform and otherwise stores an empty configuration |
| Camera.AutoAgreesWithClassification | camera.py:79-87 | With "auto", the factory fails exactly when `get_operating_system` says "unsupported", the error is then `CameraError`, and otherwise the camera variant is the one for the classified system |
| Camera.AutoDetection | camera.py:79-96 | With "auto": "darwin" gives the Mac camera, a "linux"-prefixed platform the Pi camera, anything else `CameraError`; `ValueError` is never raised |
| Camera.PlaceholdersAgree | camera.py:41-74 | The Mac and Pi placeholders return the same value for every call: `True` from `initialize` and from `capture_image` for any file path, nothing from `shutdown` |
| Camera.RunLength | camera.py:32-39 | The statements that run in a `with` body are the captures before the first raise |
| Camera.RunBody | camera.py:51-71 | The body's captures reach the camera in order with their file paths, each returns `True` (both variants), and the first raise is the exception leaving the body |
| Camera.WithCamera | camera.py:32-39 | A scoped use calls `initialize` first and `shutdown` last, each exactly once, with the body's captures in between, on normal and exceptional exit alike; the bound object is the camera; the body's exception escapes unsuppressed because `__exit__` returns nothing; `initialize` and every capture report `True` and `shutdown` returns nothing |
| VideoUtils.CommandFor | video_utils.py:49-65 | The command has 15 elements, starts with "ffmpeg", "-y" and ends with the output path |
| VideoUtils.FfmpegCommand | video_utils.py:49-65 | The command built from the four arguments has 15 elements, "-y" at index 1, `str(fps)` at index 3, `join(folder, pattern)` at index 5 and the output path last |
| VideoUtils.FfmpegCommandReadsBack | video_utils.py:49-65 | The command built from the four arguments reads back as exactly (join(folder, pattern), fps, output), so it depends on nothing else |
| VideoUtils.ParseCommandFor | video_utils.py:49-65 | Reading a command back recovers the request it was built from |
| VideoUtils.ParseCommandExact | video_utils.py:49-65 | Any argument vector that reads back as a request is exactly the command for that request |
| VideoUtils.CommandDeterminesRequest | video_utils.py:49-65 | Two commands are equal exactly when their input pattern, framerate and output path are equal |
| VideoUtils.EnsureOutputDir | video_utils.py:37-47 | Creation of `dirname(output)` is attempted exactly when the output path has a '/' and the directory does not exist; the call proceeds exactly when no creation was needed or it succeeded |
| VideoUtils.CompileVideo | video_utils.py:11-95 | Without ffmpeg: `False`, no directory, no command. A directory is created only when ffmpeg is found and the output's directory part is non-empty and missing; the command runs exactly when ffmpeg is found and no creation failed, and it is the fixed command; `True` exactly when it ran and exited with 0; only a non-`Exception` interrupt passes through |
| VideoUtils.CompileSucceedsIff | video_utils.py:25-87 | Compilation returns `True` exactly when ffmpeg is found, the output directory is unneeded, present or created, and the encoder exits with 0 |
| VideoUtils.RunFailuresAreCaught | video_utils.py:69-95 | Short of an interrupt the call always returns a boolean; `FileNotFoundError` and any other `Exception` from the run give `False` |
| VideoUtils.CompileIsRepeatable | video_utils.py:49-70 | Two calls with equal arguments on hosts that answer alike run the same command and end alike |

## Left out

- All printed messages, including the Linux notice in `main` (main.py:32-33), the diagnostics of `compile_video_ffmpeg`, and the encoder's captured stdout and stderr, which are only printed.
- `sys.platform`, `shutil.which`, `os.path.exists`, `os.makedirs` and `subprocess.run` are host calls; each one's answer is an input of the model.
- `os.makedirs` raising something other than `OSError` is not modelled; it would pass through `compile_video_ffmpeg`.
- The methods of `CameraBase` itself (which return `None`): the factory never builds a bare `CameraBase`.
- Camera.StoredConfig: a falsy configuration that is not a dictionary (`0`, `""`, `[]`) is outside the model, which types the configuration as an optional map.
- `str(fps)` is modelled for integer `fps` only; other Python values are outside the model.
- PyStrings.IntToStr: does not model the integer-to-text conversion limit of current Python (4300 decimal digits by default); the model writes every integer. In `compile_video_ffmpeg` the first conversion of a larger `fps` is the framerate message at video_utils.py:35, which raises `ValueError` outside any `try`.
- VideoUtils.CompileVideo: for an `fps` beyond that limit the real call, once ffmpeg is found, raises `ValueError` at video_utils.py:35, before it creates any directory or builds or runs the command. Every ensures of the model beyond the one for a missing ffmpeg therefore holds only below the limit.
- Object identity is not modelled: cameras and configurations are values. Python stores a non-empty configuration as the very dictionary the caller passed (an empty one is replaced by a fresh `{}`), and `__enter__` returns the same object; the model states equality of values only.
- `os.path` is modelled as `posixpath`, which is what it is on the supported macOS and Linux hosts; Windows path rules are not modelled.
- `posixpath.join` with more than two arguments and byte-string paths are not modelled; the code uses neither.
- No timeout applies to the encoder run, and the model has none either; a hanging encoder is not represented.
- A capture loop, interval timing, image numbering, device warm-up, retries and real camera drivers do not exist in the code (the cameras are placeholders), so none is modelled.
