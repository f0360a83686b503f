/** The video assembler: the encoder command line and the decision of
    `compile_video_ffmpeg`, with every interaction with the host (looking up
    the encoder, testing and creating the output directory, running the
    encoder) given as an input. */
module VideoUtils {
  import opened Wrappers
  import PyStrings
  import PosixPath

  /** What the encoder is asked to do: read the frames matching `input` at
      `fps` frames per second and write the video to `output`. */
  datatype EncodingRequest = EncodingRequest(input: string, fps: int, output: string)

  /** The fixed encoder invocation for a request: overwrite the output, H.264
      video, 4:2:0 pixel format, constant quality 23, preset "medium". */
  function CommandFor(req: EncodingRequest): (argv: seq<string>)
    ensures |argv| == 15
    ensures argv[0] == "ffmpeg" && argv[1] == "-y"
    ensures argv[|argv| - 1] == req.output
  {
    ["ffmpeg", "-y", "-framerate", PyStrings.IntToStr(req.fps), "-i", req.input,
     "-c:v", "libx264", "-pix_fmt", "yuv420p", "-crf", "23", "-preset", "medium", req.output]
  }

  /** The `command` list `compile_video_ffmpeg` builds from its arguments. */
  function FfmpegCommand(folder: string, pattern: string, output: string, fps: int)
    : (argv: seq<string>)
    ensures |argv| == 15
    ensures argv[1] == "-y"
    ensures argv[3] == PyStrings.IntToStr(fps)
    ensures argv[5] == PosixPath.Join(folder, pattern)
    ensures argv[|argv| - 1] == output
  {
    CommandFor(EncodingRequest(PosixPath.Join(folder, pattern), fps, output))
  }

  /** The command built from the four arguments reads back as exactly the
      frames source `join(folder, pattern)`, the framerate and the output. */
  lemma FfmpegCommandReadsBack(folder: string, pattern: string, output: string, fps: int)
    ensures ParseCommand(FfmpegCommand(folder, pattern, output, fps))
            == Some(EncodingRequest(PosixPath.Join(folder, pattern), fps, output))
  {
    ParseCommandFor(EncodingRequest(PosixPath.Join(folder, pattern), fps, output));
  }

  /** Reads an argument vector back as a request, when it has exactly the
      shape `CommandFor` produces (fixed flags in fixed places and a
      framerate written as `str()` writes integers). */
  function ParseCommand(argv: seq<string>): Option<EncodingRequest> {
    if |argv| == 15
       && argv[0] == "ffmpeg" && argv[1] == "-y" && argv[2] == "-framerate"
       && argv[4] == "-i" && argv[6] == "-c:v" && argv[7] == "libx264"
       && argv[8] == "-pix_fmt" && argv[9] == "yuv420p" && argv[10] == "-crf"
       && argv[11] == "23" && argv[12] == "-preset" && argv[13] == "medium"
       && PyStrings.IntToStr(PyStrings.ParseInt(argv[3])) == argv[3]
    then Some(EncodingRequest(argv[5], PyStrings.ParseInt(argv[3]), argv[14]))
    else None
  }

  /** Reading the command back recovers the request it was built from. */
  lemma ParseCommandFor(req: EncodingRequest)
    ensures ParseCommand(CommandFor(req)) == Some(req)
  {
    PyStrings.IntToStrRoundTrip(req.fps);
  }

  /** Every argument vector that reads back as a request is exactly the
      command for that request. */
  lemma ParseCommandExact(argv: seq<string>)
    ensures ParseCommand(argv).Some? ==> CommandFor(ParseCommand(argv).value) == argv
  {
  }

  /** Two commands are equal exactly when they encode the same frames
      source, framerate and output path. */
  lemma CommandDeterminesRequest(a: EncodingRequest, b: EncodingRequest)
    ensures CommandFor(a) == CommandFor(b) <==> a == b
  {
    if CommandFor(a) == CommandFor(b) {
      ParseCommandFor(a);
      ParseCommandFor(b);
    }
  }

  /** How `os.makedirs` ends: it creates the directory, or raises `OSError`. */
  datatype MkdirOutcome = Created | MkdirOSError

  /** How `subprocess.run` ends: the encoder exits with a return code, or
      the call raises `FileNotFoundError`, another `Exception`, or a
      `BaseException` that is not an `Exception` (such as an interrupt). */
  datatype RunOutcome = Exited(returnCode: int) | FileNotFound | OtherException | NonException

  /** The host as `compile_video_ffmpeg` observes it: the result of
      `shutil.which("ffmpeg")`, whether the output directory exists, and
      how creating that directory and running the encoder would end. */
  datatype Host = Host(which: Option<string>, outputDirExists: bool,
                       mkdir: MkdirOutcome, run: RunOutcome)

  /** `check_ffmpeg`: the encoder is found when `shutil.which` names a path. */
  predicate CheckFfmpeg(host: Host) {
    host.which.Some?
  }

  /** How a call of `compile_video_ffmpeg` ends: it returns a boolean, or an
      exception it does not catch passes through it. */
  datatype Outcome = Returned(ok: bool) | Propagated

  /** What a call did: the directory it tried to create, the command it ran,
      and how it ended. */
  datatype Compilation = Compilation(attemptedDir: Option<string>, ran: Option<seq<string>>,
                                     outcome: Outcome)

  /** Whether the encoder's end counts as success: return code 0 only. */
  function RunResult(run: RunOutcome): Outcome {
    match run
    case Exited(code) => if code != 0 then Returned(false) else Returned(true)
    case FileNotFound => Returned(false)
    case OtherException => Returned(false)
    case NonException => Propagated
  }

  /** The output path names a directory part that does not exist yet. */
  predicate NeedsOutputDir(output: string, host: Host) {
    PosixPath.Sep in output && !host.outputDirExists
  }

  /** The outcome of the output-directory step: the directory it tried to
      create, if any, and whether the call goes on to run the encoder. */
  datatype DirStep = DirStep(attempted: Option<string>, proceed: bool)

  /** The output-directory step: the directory part of the output path is
      created when it is non-empty and missing. */
  function EnsureOutputDir(output: string, host: Host): (r: DirStep)
    ensures r.attempted.Some? <==> NeedsOutputDir(output, host)
    ensures r.attempted.Some? ==> r.attempted.value == PosixPath.Dirname(output)
    ensures r.proceed <==> r.attempted.None? || host.mkdir == Created
  {
    var dir := PosixPath.Dirname(output);
    PosixPath.DirnameEmptyIff(output);
    if |dir| > 0 && !host.outputDirExists then
      DirStep(Some(dir), host.mkdir.Created?)
    else
      DirStep(None, true)
  }

  /** `compile_video_ffmpeg(image_folder, image_pattern, output_filename, fps)`. */
  function CompileVideo(folder: string, pattern: string, output: string, fps: int, host: Host)
    : (c: Compilation)
    ensures !CheckFfmpeg(host) ==> c == Compilation(None, None, Returned(false))
    ensures c.attemptedDir.Some? <==> CheckFfmpeg(host) && NeedsOutputDir(output, host)
    ensures c.attemptedDir.Some? ==> c.attemptedDir.value == PosixPath.Dirname(output)
    ensures c.ran.Some?
            <==> CheckFfmpeg(host) && (c.attemptedDir.None? || host.mkdir == Created)
    ensures c.ran.Some? ==> c.ran.value == FfmpegCommand(folder, pattern, output, fps)
    ensures c.outcome == Returned(true) <==> c.ran.Some? && host.run == Exited(0)
    ensures c.outcome == Propagated <==> c.ran.Some? && host.run == NonException
  {
    if !CheckFfmpeg(host) then Compilation(None, None, Returned(false))
    else
      var step := EnsureOutputDir(output, host);
      if !step.proceed then Compilation(step.attempted, None, Returned(false))
      else Compilation(step.attempted, Some(FfmpegCommand(folder, pattern, output, fps)), RunResult(host.run))
  }

  /** The one way a compilation succeeds: the encoder is found, the output
      directory is not needed, already exists or is created, and the encoder
      exits with return code 0. */
  lemma CompileSucceedsIff(folder: string, pattern: string, output: string, fps: int, host: Host)
    ensures CompileVideo(folder, pattern, output, fps, host).outcome == Returned(true)
            <==> && host.which.Some?
                 && (PosixPath.Sep !in output || host.outputDirExists || host.mkdir == Created)
                 && host.run == Exited(0)
  {
  }

  /** Short of an interrupt, the call always returns a boolean: every
      failure of the encoder run is caught. */
  lemma RunFailuresAreCaught(folder: string, pattern: string, output: string, fps: int, host: Host)
    requires host.run != NonException
    ensures CompileVideo(folder, pattern, output, fps, host).outcome.Returned?
    ensures host.run.FileNotFound? || host.run.OtherException?
            ==> CompileVideo(folder, pattern, output, fps, host).outcome == Returned(false)
  {
  }

  /** Two calls with the same arguments on hosts that answer alike run the
      same command and end alike: the path `shutil.which` reports for the
      encoder plays no part beyond its presence. */
  lemma CompileIsRepeatable(folder: string, pattern: string, output: string, fps: int,
                            h1: Host, h2: Host)
    requires h1.which.Some? == h2.which.Some? && h1.outputDirExists == h2.outputDirExists
    requires h1.mkdir == h2.mkdir && h1.run == h2.run
    ensures CompileVideo(folder, pattern, output, fps, h1) == CompileVideo(folder, pattern, output, fps, h2)
  {
  }
}
