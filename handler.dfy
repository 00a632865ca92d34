/**
 * The `POST /api/convert` handler: read the request, extract the upload's text,
 * synthesise audio, transcode it, delete the upload and the intermediate audio, and
 * send the output file, which the send-completion callback deletes. Any exception in
 * between lands in one catch block that answers 500. The disk is the set of paths
 * that exist.
 */
module Handler {
  import opened Results
  import Paths
  import Text
  import Audio

  /** `req.body.settings`; `format` is None when it is not a string. */
  datatype Settings = Settings(voice: string, format: Option<string>, speed: real)

  /**
   * What the handler reads from the request: the settings object (None when it is
   * undefined or null) and the name multer stored the upload under (None when the
   * request carried no file, so that `req.file` is undefined).
   */
  datatype Request = Request(settings: Option<Settings>, upload: Option<string>)

  /**
   * The outside world for one run: what `pdfParse` makes of the bytes at a path (None
   * when it rejects) and what `exec` reports for a command.
   */
  datatype Env = Env(parse: string -> Option<string>, exec: string -> Audio.ExecResult)

  /** The steps of the handler's try block, in source order. */
  datatype Stage = ReadRequest | Extract | Synthesize | Transcode | UnlinkUpload | UnlinkAudio | Send

  const Plan: seq<Stage> := [ReadRequest, Extract, Synthesize, Transcode, UnlinkUpload, UnlinkAudio, Send]

  /** What the try block can throw. */
  datatype Thrown =
    | NoSettings                 // destructuring undefined settings
    | NoUpload                   // reading `path` of an undefined `req.file`
    | ReadFailed(path: string)   // `fs.readFileSync` of a missing file
    | ParseFailed                // `pdfParse` rejects
    | Rejected(error: Audio.ConvError)
    | UnlinkFailed(path: string) // `fs.unlinkSync` of a missing file

  /** The HTTP answer: the file itself, or a status with a JSON object of strings. */
  datatype Response = SendFile(path: string) | Json(status: nat, body: map<string, string>)

  /** The catch block's answer, whatever was thrown. */
  const ConversionFailed: Response := Json(500, map["error" := "Conversion failed"])

  /**
   * One run of the handler: the stages that ran (the last one is the one that threw,
   * if any did), what was thrown and logged, the disk afterwards, and the response.
   */
  datatype Outcome = Outcome(trace: seq<Stage>, thrown: Option<Thrown>, disk: set<string>, response: Response)

  /** The catch block: it logs `thrown`, answers 500 and touches no file. */
  function Caught(trace: seq<Stage>, thrown: Thrown, disk: set<string>): Outcome
  {
    Outcome(trace, Some(thrown), disk, ConversionFailed)
  }

  /** The path the uploaded file is read from and deleted at. */
  function UploadOf(req: Request): string
    requires req.upload.Some?
  {
    Paths.UploadPath(req.upload.value)
  }

  /**
   * A run of the handler in server directory `dir`, starting from the files `disk`.
   * `ffmpeg` creates the output file when it succeeds; the speech stub creates nothing.
   */
  function Handle(dir: string, req: Request, env: Env, disk: set<string>): Outcome
  {
    if req.settings.None? then Caught([ReadRequest], NoSettings, disk)
    else if req.upload.None? then Caught([ReadRequest], NoUpload, disk)
    else
      var settings, pdfPath := req.settings.value, UploadOf(req);
      if pdfPath !in disk then Caught(Plan[..2], ReadFailed(pdfPath), disk)
      else match env.parse(pdfPath)
      case None => Caught(Plan[..2], ParseFailed, disk)
      case Some(text) =>
        var audioPath := Audio.ConvertTextToSpeech(dir, text, settings.voice, settings.speed);
        match Audio.ConvertAudioFormat(dir, audioPath, settings.format, env.exec).result
        case Err(e) => Caught(Plan[..4], Rejected(e), disk)
        case Ok(outputPath) =>
          var written := disk + {outputPath};
          // Unreachable, since extraction read the upload; the stages are spelled out because a
          // checked slice of Plan here would be proved only from contradictory facts.
          if pdfPath !in written then Caught([ReadRequest, Extract, Synthesize, Transcode, UnlinkUpload], UnlinkFailed(pdfPath), written)
          else
            var noUpload := written - {pdfPath};
            if audioPath !in noUpload then Caught(Plan[..6], UnlinkFailed(audioPath), noUpload)
            else Outcome(Plan, None, noUpload - {audioPath}, SendFile(outputPath))
  }

  /**
   * The stage that throws, read off the request and the disk at the start: the
   * request can be unreadable, the upload unreadable or unparsable, the conversion
   * rejected, or the intermediate audio file missing. Synthesis, the upload's deletion
   * and sending never throw.
   */
  function FailingStage(dir: string, req: Request, env: Env, disk: set<string>): Option<Stage>
  {
    if req.settings.None? || req.upload.None? then Some(ReadRequest)
    else if UploadOf(req) !in disk || env.parse(UploadOf(req)).None? then Some(Extract)
    else if Audio.ConvertAudioFormat(dir, Audio.TempAudioPath(dir), req.settings.value.format, env.exec).result.Err?
    then Some(Transcode)
    else if Audio.TempAudioPath(dir) !in disk then Some(UnlinkAudio)
    else None
  }

  /** The output path of a run whose request has a format string. */
  function OutputOf(dir: string, req: Request): string
    requires req.settings.Some? && req.settings.value.format.Some?
  {
    Audio.OutputPath(dir, req.settings.value.format.value)
  }

  // ---------------------------------------------------------------------------------
  // Properties of the handler

  /**
   * The stages run strictly in source order, each only after all before it finished;
   * the run either completes every stage or stops at the first that throws, and the
   * response is the 500 error exactly when something was thrown.
   */
  lemma StagesRunInOrder(dir: string, req: Request, env: Env, disk: set<string>)
    ensures var o := Handle(dir, req, env, disk);
      && 0 < |o.trace| <= |Plan| && o.trace == Plan[..|o.trace|]
      && (o.thrown.None? <==> o.trace == Plan)
      && (o.response == ConversionFailed <==> o.thrown.Some?)
      && (o.response.SendFile? <==> o.thrown.None?)
  {
  }

  /** A run throws exactly at the stage `FailingStage` names, and completes exactly when it names none. */
  lemma {:induction false} ThrowsExactlyAtFailingStage(dir: string, req: Request, env: Env, disk: set<string>)
    requires Paths.IsAbsolute(dir)
    ensures var o := Handle(dir, req, env, disk);
      && (o.thrown.None? <==> FailingStage(dir, req, env, disk).None?)
      && (o.thrown.Some? ==> FailingStage(dir, req, env, disk) == Some(o.trace[|o.trace| - 1]))
  {
    if req.settings.Some? && req.upload.Some? {
      var s := req.settings.value;
      var pdfPath := UploadOf(req);
      var audioPath := Audio.TempAudioPath(dir);
      Paths.UploadNotUnder(dir, "temp_audio.wav", req.upload.value);
      if s.format.Some? {
        Audio.OutputIsNotTempAudio(dir, s.format.value);
      }
      assert audioPath != pdfPath;
    }
  }

  /**
   * A completed run sends the output file of the requested format and leaves it on
   * disk for the send callback, after deleting the upload and the intermediate audio;
   * no other file changes. It can only complete if the intermediate audio file was
   * already on disk, since the speech stub does not create it.
   */
  lemma {:induction false} CompletedRun(dir: string, req: Request, env: Env, disk: set<string>)
    requires Paths.IsAbsolute(dir)
    requires Handle(dir, req, env, disk).thrown.None?
    ensures req.settings.Some? && req.upload.Some? && req.settings.value.format.Some?
    ensures var o, out := Handle(dir, req, env, disk), OutputOf(dir, req);
      && o.response == SendFile(out)
      && o.disk == (disk + {out}) - {UploadOf(req), Audio.TempAudioPath(dir)}
      && out in o.disk
      && UploadOf(req) in disk && Audio.TempAudioPath(dir) in disk
  {
    ThrowsExactlyAtFailingStage(dir, req, env, disk);
    var s := req.settings.value;
    Audio.ResolvesIffExecSucceeds(dir, Audio.TempAudioPath(dir), s.format, env.exec);
    Paths.UploadNotUnder(dir, "output." + Text.ToLower(s.format.value), req.upload.value);
    Audio.OutputIsNotTempAudio(dir, s.format.value);
  }

  /**
   * A run that throws deletes nothing unless it throws at the intermediate audio's
   * deletion, by which time it has deleted the upload and left the new output file
   * behind; every other failed run leaves the disk as it found it.
   */
  lemma {:induction false} FailedRun(dir: string, req: Request, env: Env, disk: set<string>)
    requires Paths.IsAbsolute(dir)
    requires Handle(dir, req, env, disk).thrown.Some?
    ensures var o := Handle(dir, req, env, disk);
      && (o.trace[|o.trace| - 1] != UnlinkAudio ==> o.disk == disk)
      && (o.trace[|o.trace| - 1] == UnlinkAudio ==>
            && req.settings.Some? && req.upload.Some? && req.settings.value.format.Some?
            && o.thrown == Some(UnlinkFailed(Audio.TempAudioPath(dir)))
            && o.disk == (disk + {OutputOf(dir, req)}) - {UploadOf(req)}
            && OutputOf(dir, req) in o.disk && UploadOf(req) in disk)
  {
    ThrowsExactlyAtFailingStage(dir, req, env, disk);
    if req.settings.Some? && req.upload.Some? && req.settings.value.format.Some? {
      var s := req.settings.value;
      Audio.ResolvesIffExecSucceeds(dir, Audio.TempAudioPath(dir), s.format, env.exec);
      Paths.UploadNotUnder(dir, "output." + Text.ToLower(s.format.value), req.upload.value);
    }
  }

  /**
   * Every completed run in one server directory sends one of only two files, whatever
   * the request: all requests for one format share one output file.
   */
  lemma SharedOutputFiles(dir: string, req: Request, env: Env, disk: set<string>)
    requires Paths.IsAbsolute(dir)
    requires Handle(dir, req, env, disk).thrown.None?
    ensures Handle(dir, req, env, disk).response.path
         == Paths.Join(dir, if req.settings.value.format == Some("MP3") then "output.mp3" else "output.wav")
  {
    CompletedRun(dir, req, env, disk);
    Audio.RejectsBeforeLaunch(dir, Audio.TempAudioPath(dir), req.settings.value.format, env.exec);
    Audio.ResolvesIffExecSucceeds(dir, Audio.TempAudioPath(dir), req.settings.value.format, env.exec);
    Audio.OutputPathsOfSupportedFormats(dir);
  }

  /**
   * Since the speech stub never recreates the intermediate audio file that a completed
   * run deletes, the run after a completed one cannot complete, whatever its request.
   */
  lemma {:induction false} NoTwoCompletedRunsInARow(dir: string, r1: Request, e1: Env, r2: Request, e2: Env,
                                                   disk: set<string>)
    requires Paths.IsAbsolute(dir)
    requires Handle(dir, r1, e1, disk).thrown.None?
    ensures Handle(dir, r2, e2, Handle(dir, r1, e1, disk).disk).thrown.Some?
  {
    var after := Handle(dir, r1, e1, disk).disk;
    CompletedRun(dir, r1, e1, disk);
    assert Audio.TempAudioPath(dir) !in after;
    if Handle(dir, r2, e2, after).thrown.None? {
      CompletedRun(dir, r2, e2, after);
      assert false;
    }
  }

  /** What the send-completion callback leads to. */
  datatype CallbackOutcome =
    | Removed
    | Uncaught(thrown: Thrown)   // thrown outside the try block: nothing catches it

  /** The server's file system and the send callbacks it is waiting for. */
  class Server {
    const dir: string
    var files: set<string>
    var pending: multiset<string>

    constructor (dir: string, files: set<string>)
      requires Paths.IsAbsolute(dir)
      ensures this.dir == dir && this.files == files && pending == multiset{}
    {
      this.dir := dir;
      this.files := files;
      pending := multiset{};
    }

    /** `fs.unlinkSync(path)`: deletes the file, or throws when there is none. */
    method Unlink(path: string) returns (ok: bool)
      modifies this`files
      ensures ok == (path in old(files))
      ensures files == old(files) - {path}
    {
      ok := path in files;
      files := files - {path};
    }

    /** The route handler for one request. */
    method Convert(req: Request, env: Env) returns (response: Response, trace: seq<Stage>, thrown: Option<Thrown>)
      requires Paths.IsAbsolute(dir)
      modifies this
      ensures var o := Handle(dir, req, env, old(files));
        response == o.response && trace == o.trace && thrown == o.thrown && files == o.disk
      ensures pending == if response.SendFile? then old(pending) + multiset{response.path} else old(pending)
      ensures response.SendFile? ==> response.path in files
    {
      ghost var disk := files;
      response, thrown := ConversionFailed, None;
      trace := [ReadRequest];
      if req.settings.None? {
        thrown := Some(NoSettings);
        return;
      }
      if req.upload.None? {
        thrown := Some(NoUpload);
        return;
      }
      var settings := req.settings.value;
      var pdfPath := Paths.UploadPath(req.upload.value);

      // 1. extract the text
      trace := trace + [Extract];
      if pdfPath !in files {
        thrown := Some(ReadFailed(pdfPath));
        return;
      }
      var data := env.parse(pdfPath);
      if data.None? {
        thrown := Some(ParseFailed);
        return;
      }
      var text := data.value;

      // 2. synthesise speech
      trace := trace + [Synthesize];
      var audioPath := Audio.ConvertTextToSpeech(dir, text, settings.voice, settings.speed);

      // 3. convert to the requested format
      trace := trace + [Transcode];
      var conversion := Audio.ConvertAudioFormat(dir, audioPath, settings.format, env.exec);
      if conversion.result.Err? {
        thrown := Some(Rejected(conversion.result.error));
        return;
      }
      var outputPath := conversion.result.value;
      files := files + {outputPath};

      // 4. clean up the temporary files
      trace := trace + [UnlinkUpload];
      var ok := Unlink(pdfPath);
      if !ok {
        thrown := Some(UnlinkFailed(pdfPath));
        return;
      }
      trace := trace + [UnlinkAudio];
      ok := Unlink(audioPath);
      if !ok {
        thrown := Some(UnlinkFailed(audioPath));
        return;
      }

      // 5. send the file; its deletion waits for the completion callback
      trace := trace + [Send];
      pending := pending + multiset{outputPath};
      response := SendFile(outputPath);
      CompletedRun(dir, req, env, disk);
    }

    /** The callback `res.sendFile` runs once the transfer is over: it deletes the file it sent. */
    method SendCompleted(path: string) returns (outcome: CallbackOutcome)
      requires path in pending
      modifies this
      ensures pending == old(pending) - multiset{path}
      ensures files == old(files) - {path}
      ensures outcome == if path in old(files) then Removed else Uncaught(UnlinkFailed(path))
    {
      pending := pending - multiset{path};
      var ok := Unlink(path);
      outcome := if ok then Removed else Uncaught(UnlinkFailed(path));
    }
  }
}
