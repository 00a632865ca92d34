# pdf-to-audiobook conversion core, modelled in Dafny

This project models the conversion core of the pdf-to-audiobook Express server
(`backend/server.js`) and proves properties of the model.

- **`convertAudioFormat`** (`Audio.ConvertAudioFormat`, backend/server.js:60-78; its output path is `Audio.OutputPath`,
  backend/server.js:62, and its command template `Audio.Command`, backend/server.js:64-68). This is a pure function of the server directory, the input path, the
  requested `format` and the outcome of `exec`. It computes `output.<lower-cased format>` under the server directory.
  For exactly `MP3` it builds the libmp3lame ffmpeg command and for exactly `WAV` the plain one. Any other string
  rejects with `Unsupported format` and a non-string rejects with a TypeError, in both cases before any command runs.
  Otherwise it resolves with the output path when `exec` reports no error and rejects with that error when it does.
  The result records the command handed to `exec`, if any, beside how the promise settles. `exec` is a function
  parameter, so every property holds for every outcome the external process may have.
- **`convertTextToSpeech`** (`Audio.ConvertTextToSpeech`, backend/server.js:50-58). This is the placeholder. It ignores its arguments, always names
  `temp_audio.wav` in the server directory, and creates no file.
- **The `/api/convert` handler** (module `Handler`). `Handle` (backend/server.js:18-48) is the specification of one
  run, and `Caught` (backend/server.js:44-47) is its catch block. It starts from the set
  of files on disk and gives the stages that ran, what was thrown, the disk afterwards and the response.
  `Server.Convert` is the imperative handler over a class holding the disk (`files`) and the send callbacks still
  outstanding (`pending`), and it is proved to behave as `Handle` says. `Server.SendCompleted` is the callback of
  `res.sendFile`, which deletes the file it sent.
- **Supporting modules.** `Text` models `toLowerCase`, `Paths` models `path.join` and multer's upload path, and `Shell`
  models how `/bin/sh` splits the command string into arguments.

What the proofs show about the code as written:

- The stages run strictly in order. The first exception ends the run with status 500 and `{error: 'Conversion failed'}`.
- A run that throws before the deletions leaves the disk exactly as it found it.
- The speech stub creates no file. A run can therefore only complete if `temp_audio.wav` was already on disk, and
  completing deletes it. So the run after a completed run always fails.
- A run that reaches the deletion of `temp_audio.wav` and finds it missing has already deleted the upload. It answers
  500 and leaves the new output file on disk with nobody to delete it. With a real ffmpeg this needs `temp_audio.wav`
  to disappear between the transcoding and its deletion, for example because a concurrent request deleted the shared
  file; ffmpeg itself fails when its input is missing. So the catch block removes nothing, but the upload's deletion
  may have happened before it.
- All completed runs in one server directory send one of two fixed files, `output.mp3` or `output.wav`. Requests for
  the same format therefore share one output file.
- Both paths are spliced into the command unquoted. When neither contains a space or any other character the shell
  treats specially, the shell hands ffmpeg exactly the intended arguments. An input path with a space reaches ffmpeg as two arguments.
- If the callback runs when its file is already gone, its `unlinkSync` throws outside the try block, and nothing
  catches that exception.

The code has no per-run unique names, no cleanup on failure, no voice or speed validation and no quoting of command
arguments, and the model has none of them either.

Stand-ins for the outside world:

- `pdfParse` is a function of the upload path, giving text or a rejection.
- `exec` is a function of the command string.
- `__dirname` is the parameter `dir`, or the constant field `Server.dir`. Every lemma that needs the paths to be
  distinct assumes it is absolute, as Node guarantees.
- The upload is the name multer stored it under, in `uploads/`.

## Model

| member | source | states |
|---|---|---|
| `Text.LowerChar` | backend/server.js:62 | ASCII upper-case letters map to their lower-case letter, 32 code points above; every other character is kept |
| `Text.ToLower` | backend/server.js:62 | `format.toLowerCase()` has the same length as `format` and lowers each character on its own |
| `Paths.Join` | backend/server.js:54 | `path.join(__dirname, name)` is absolute when the directory is |
| `Paths.JoinInjective` | backend/server.js:62 | within one directory, two joined paths are equal exactly when the names are |
| `Paths.UploadPath` | backend/server.js:11 | multer's upload path under `uploads/` is relative |
| `Paths.UploadNotUnder` | backend/server.js:21 | the upload path `req.file.path` never equals a path under the (absolute) server directory |
| `Shell.Word` | backend/server.js:73 | the first word the shell reads is the longest space-free prefix of the command |
| `Shell.Words` | backend/server.js:73 | every argument the shell splits off is non-empty and space-free |
| `Shell.WordsOfUnwords` | backend/server.js:73 | joining proper words with single spaces and splitting again gives back the same words |
| `Audio.SupportedFormatCommands` | backend/server.js:64-68 | for `MP3` the launched command is `ffmpeg -i <in> -codec:a libmp3lame -qscale:a 2 <dir>/output.mp3`, for `WAV` it is `ffmpeg -i <in> <dir>/output.wav` |
| `Audio.RejectsBeforeLaunch` | backend/server.js:62-71 | a command is launched if and only if the format is exactly `MP3` or `WAV`; any other string (`mp3`, `OGG`) rejects with the message `Unsupported format`, and a non-string rejects with a TypeError, both without launching anything |
| `Audio.ResolvesIffExecSucceeds` | backend/server.js:73-76 | the promise resolves if and only if a command was launched and `exec` reported no error; it then resolves with the format's output path, and otherwise rejects with exec's error |
| `Audio.OutputPathDependsOnlyOnFormat` | backend/server.js:62 | two output paths in one directory are equal exactly when the lower-cased formats are equal, so equal formats always share a path (for formats `path.join` does not normalize, see Left out) |
| `Audio.OutputPathsOfSupportedFormats` | backend/server.js:62-68 | the two accepted formats write to `<dir>/output.mp3` and `<dir>/output.wav` |
| `Audio.OutputIsNotTempAudio` | backend/server.js:54-62 | no output path is the intermediate `temp_audio.wav` (for formats `path.join` does not normalize, see Left out) |
| `Audio.CommandIsUnwords` | backend/server.js:66-68 | each command string is the intended ffmpeg argument list joined by single spaces, with both paths inserted verbatim |
| `Audio.CommandSplitsIntoArgv` | backend/server.js:66-73 | when neither path is empty or holds a space, the shell hands ffmpeg exactly the intended arguments |
| `Audio.SpaceInInputSplitsIt` | backend/server.js:66-73 | an input path `a b` is not quoted and reaches ffmpeg as the two arguments `a` and `b`, one more than intended |
| `Audio.SynthesisIgnoresInputs` | backend/server.js:50-57 | any two calls of the speech stub, whatever their text, voice and speed, name the same file `<dir>/temp_audio.wav` |
| `Handler.StagesRunInOrder` | backend/server.js:19-47 | the stages that ran are always a non-empty prefix of read-request, extract, synthesise, transcode, delete upload, delete audio, send; all ran exactly when nothing was thrown; the response is the 500 `{error: 'Conversion failed'}` exactly when something was thrown, and the file otherwise |
| `Handler.ThrowsExactlyAtFailingStage` | backend/server.js:20-37 | a run throws exactly when, and exactly at the stage where, the request lacks settings or a file, the upload is missing or unparsable, the conversion rejects, or `temp_audio.wav` is missing; synthesis and the upload's deletion never throw |
| `Handler.CompletedRun` | backend/server.js:30-42 | a completed run sends the output path of its format; the disk afterwards is the old disk plus the output minus the upload and the intermediate audio; the output stays on disk; the upload and `temp_audio.wav` were on disk before |
| `Handler.FailedRun` | backend/server.js:36-47 | a run that throws before the audio's deletion leaves the disk unchanged; one that throws there has deleted the upload and leaves the new output file behind |
| `Handler.SharedOutputFiles` | backend/server.js:62-68 | every completed run sends `<dir>/output.mp3` or `<dir>/output.wav`, chosen by the format alone |
| `Handler.NoTwoCompletedRunsInARow` | backend/server.js:37 | after a completed run, the next run on the resulting disk throws, whatever its request |
| `Handler.Server.Unlink` | backend/server.js:36-37 | `fs.unlinkSync` succeeds exactly when the file exists, and the file is gone afterwards |
| `Handler.Server.Convert` | backend/server.js:18-48 | the handler's response, stages, thrown value and new disk are those `Handle` gives; a completed run registers one pending send callback for the output, which is still on disk |
| `Handler.Server.SendCompleted` | backend/server.js:40-42 | the send callback deletes the sent file; if the file is already gone, the exception escapes uncaught; the callback is no longer pending |

## Left out

- Express and multer wiring, static serving and `app.listen` are HTTP plumbing. Multer's part is only the path it
  stored the upload under.
- `pdfParse` is not modelled. It is a function parameter of the upload path that gives text or a rejection.
  `readFileSync` fails exactly when the upload is not on disk.
- ffmpeg and `exec` are not modelled. The outcome is any function of the command string. A successful command creates
  the output file and a failed one creates nothing. Partial output, and ffmpeg's refusal to overwrite an existing file
  without `-y`, are not modelled.
- The filesystem is a set of path strings. Resolution of the relative upload path against the working directory is not
  modelled, and paths are compared as strings.
- Promise scheduling and concurrent requests are left out. Runs are successive calls on one `Server`. The
  fixed-filename collision is stated through the shared paths (`SharedOutputFiles`, `SynthesisIgnoresInputs`) and
  through `NoTwoCompletedRunsInARow`.
- `voice` is a string and `speed` a real. Neither is interpreted, since the stub ignores both.
- The transmission done by `res.sendFile` is left out. So are its error argument to the callback, which the callback
  ignores, and its synchronous rejection of a relative path, which cannot happen for a path under `__dirname`.
- `console.error` logging is left out. The logged value is returned as `thrown`.
- Text.LowerChar: keeps every non-ASCII character, while `toLowerCase` lowers letters such as 'É'.
- Text.ToLower: lowers only ASCII letters. JavaScript's `toLowerCase` also maps other Unicode letters. The difference
  only affects output paths of formats that are rejected anyway.
- Paths.Join: assumes a normalized directory (as `__dirname` is) and a plain file name. It does not normalize `.`,
  `..` or doubled slashes.
- Audio.OutputPathDependsOnlyOnFormat: rests on the Paths.Join assumption. A format holding `/` or `..`, such as
  `/../X`, is normalized by `path.join` and can give the same path as a different lower-cased format. Only rejected
  formats can hold such characters, so no command or sent file is affected.
- Audio.OutputIsNotTempAudio: rests on the same assumption. `path.join` turns the format `/../TEMP_AUDIO.WAV` into
  `<dir>/temp_audio.wav`, but that format is rejected before the path is used.
- The outcome of `exec` depends only on the command string, not on whether its input file exists. Real ffmpeg fails
  when `temp_audio.wav` is missing, so the model admits single-request runs that the real program would stop at
  transcoding.
- Shell.Words: splits only at spaces. Quotes, tabs, newlines and shell operators (`;`, `|`, `&`, `$`, backquotes) are
  not modelled, so the injection it shows is the mildest kind that unquoted paths allow.
- The code validates neither voice nor speed, uses fixed file names and removes nothing on failure, and the model does
  the same.
