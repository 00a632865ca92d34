/**
 * The two audio helpers of the server: `convertTextToSpeech`, a stub that names the
 * intermediate audio file, and `convertAudioFormat`, which picks an ffmpeg command for
 * the requested format and runs it.
 */
module Audio {
  import opened Results
  import Text
  import Paths
  import Shell

  /** The two formats `convertAudioFormat` dispatches on. */
  datatype Format = Mp3 | Wav

  /** What `exec` reports to its callback: no error, or an error with its message. */
  datatype ExecResult = Exited | ExecError(message: string)

  /** Why the promise of `convertAudioFormat` rejects. */
  datatype ConvError =
    | NotAString              // `format.toLowerCase` is not a function: a TypeError
    | UnsupportedFormat
    | ExecFailed(message: string)
  {
    /** The `message` of the rejection's error object, where the server fixes it. */
    function Message(): Option<string>
    {
      match this
      case UnsupportedFormat => Some("Unsupported format")
      case ExecFailed(m) => Some(m)
      case NotAString => None
    }
  }

  /**
   * One call of `convertAudioFormat`: the command handed to `exec`, if one was, and
   * how the returned promise settles.
   */
  datatype Conversion = Conversion(launched: Option<string>, result: Result<string, ConvError>)

  /** `path.join(__dirname, 'output.' + format.toLowerCase())`. */
  function OutputPath(dir: string, format: string): string
  {
    Paths.Join(dir, "output." + Text.ToLower(format))
  }

  /** `path.join(__dirname, 'temp_audio.wav')`. */
  function TempAudioPath(dir: string): string
  {
    Paths.Join(dir, "temp_audio.wav")
  }

  /** The arguments ffmpeg is meant to receive for each format. */
  function Argv(fmt: Format, input: string, output: string): seq<string>
  {
    match fmt
    case Mp3 => ["ffmpeg", "-i", input, "-codec:a", "libmp3lame", "-qscale:a", "2", output]
    case Wav => ["ffmpeg", "-i", input, output]
  }

  /** The command string of each branch: both paths are spliced in as they are, unquoted. */
  function Command(fmt: Format, input: string, output: string): string
  {
    match fmt
    case Mp3 => "ffmpeg -i " + input + " -codec:a libmp3lame -qscale:a 2 " + output
    case Wav => "ffmpeg -i " + input + " " + output
  }

  /**
   * `convertAudioFormat(inputPath, format)` with the server directory `dir`. `format` is
   * None when the request's `format` is not a string (for instance undefined). `exec` is
   * any outcome the external process may have, so every result holds for all of them.
   */
  function ConvertAudioFormat(dir: string, inputPath: string, format: Option<string>,
                              exec: string -> ExecResult): Conversion
  {
    match format
    case None => Conversion(None, Err(NotAString))
    case Some(f) =>
      var outputPath := OutputPath(dir, f);
      if f == "MP3" || f == "WAV" then
        var command := Command(if f == "MP3" then Mp3 else Wav, inputPath, outputPath);
        match exec(command)
        case ExecError(m) => Conversion(Some(command), Err(ExecFailed(m)))
        case Exited => Conversion(Some(command), Ok(outputPath))
      else
        Conversion(None, Err(UnsupportedFormat))
  }

  /** `convertTextToSpeech(text, voice, speed)`: a placeholder that creates nothing. */
  function ConvertTextToSpeech(dir: string, text: string, voice: string, speed: real): string
  {
    TempAudioPath(dir)
  }

  // ---------------------------------------------------------------------------------
  // Properties of convertAudioFormat

  /** For exactly "MP3" and "WAV" the command is the format's ffmpeg template. */
  lemma SupportedFormatCommands(dir: string, input: string, exec: string -> ExecResult)
    ensures ConvertAudioFormat(dir, input, Some("MP3"), exec).launched
         == Some("ffmpeg -i " + input + " -codec:a libmp3lame -qscale:a 2 " + Paths.Join(dir, "output.mp3"))
    ensures ConvertAudioFormat(dir, input, Some("WAV"), exec).launched
         == Some("ffmpeg -i " + input + " " + Paths.Join(dir, "output.wav"))
  {
    OutputPathsOfSupportedFormats(dir);
  }

  /**
   * A command is launched exactly for the case-sensitive strings "MP3" and "WAV"; any
   * other string rejects with "Unsupported format" and anything else with a TypeError,
   * both before `exec` is called.
   */
  lemma RejectsBeforeLaunch(dir: string, input: string, format: Option<string>, exec: string -> ExecResult)
    ensures var c := ConvertAudioFormat(dir, input, format, exec);
      && (c.launched.Some? <==> format == Some("MP3") || format == Some("WAV"))
      && (format.Some? && c.launched.None? ==> c.result == Err(UnsupportedFormat))
      && (format.None? ==> c.result == Err(NotAString))
      && (format.Some? && c.launched.None? ==> c.result.error.Message() == Some("Unsupported format"))
  {
  }

  /**
   * The promise resolves if and only if the launched command reports no error; it then
   * resolves with the format's output path, and otherwise rejects with exec's error.
   */
  lemma ResolvesIffExecSucceeds(dir: string, input: string, format: Option<string>, exec: string -> ExecResult)
    ensures var c := ConvertAudioFormat(dir, input, format, exec);
      && (c.result.Ok? <==> c.launched.Some? && exec(c.launched.value).Exited?)
      && (c.result.Ok? ==> c.result.value == OutputPath(dir, format.value))
      && (c.launched.Some? && exec(c.launched.value).ExecError? ==>
            c.result == Err(ExecFailed(exec(c.launched.value).message)))
  {
  }

  /** The output path depends on the format alone, and only through its lower-case form. */
  lemma OutputPathDependsOnlyOnFormat(dir: string, f1: string, f2: string)
    ensures OutputPath(dir, f1) == OutputPath(dir, f2) <==> Text.ToLower(f1) == Text.ToLower(f2)
  {
    Paths.JoinInjective(dir, "output." + Text.ToLower(f1), "output." + Text.ToLower(f2));
    if OutputPath(dir, f1) == OutputPath(dir, f2) {
      assert Text.ToLower(f1) == ("output." + Text.ToLower(f1))[7..];
      assert Text.ToLower(f2) == ("output." + Text.ToLower(f2))[7..];
    }
  }

  /** The two output files every successful conversion writes to. */
  lemma OutputPathsOfSupportedFormats(dir: string)
    ensures OutputPath(dir, "MP3") == Paths.Join(dir, "output.mp3")
    ensures OutputPath(dir, "WAV") == Paths.Join(dir, "output.wav")
  {
    assert Text.ToLower("MP3") == "mp3";
    assert Text.ToLower("WAV") == "wav";
  }

  /** No output path coincides with the intermediate audio file. */
  lemma OutputIsNotTempAudio(dir: string, format: string)
    ensures OutputPath(dir, format) != TempAudioPath(dir)
  {
    var name := "output." + Text.ToLower(format);
    Paths.JoinInjective(dir, name, "temp_audio.wav");
    assert name[0] != "temp_audio.wav"[0];
  }

  // ---------------------------------------------------------------------------------
  // How the shell reads the command

  /**
   * The command string is the intended arguments joined by single spaces. The helper
   * lemmas take the templates' fixed words as parameters because equalities between long
   * string literals are costly for the solver; only small literal facts are proved as such.
   */
  lemma CommandIsUnwords(fmt: Format, input: string, output: string)
    ensures Command(fmt, input, output) == Shell.Unwords(Argv(fmt, input, output))
  {
    match fmt
    case Mp3 =>
      SpelledOut(" -codec:a libmp3lame -qscale:a 2 ", " -codec:a", " libmp3lame", " -qscale:a", " 2 ");
      Mp3Shape("ffmpeg", "-i", "-codec:a", "libmp3lame", "-qscale:a", "2", "ffmpeg -i ",
               " -codec:a", " libmp3lame", " -qscale:a", " 2 ", " -codec:a libmp3lame -qscale:a 2 ", input, output);
    case Wav =>
      WavShape("ffmpeg", "-i", "ffmpeg -i ", input, output);
  }

  /** A template text cut into four pieces. */
  lemma SpelledOut(whole: string, p1: string, p2: string, p3: string, p4: string)
    requires whole == " -codec:a libmp3lame -qscale:a 2 "
    requires p1 == " -codec:a" && p2 == " libmp3lame" && p3 == " -qscale:a" && p4 == " 2 "
    ensures whole == p1 + p2 + p3 + p4
  {
  }

  /** The WAV template's shape, with its fixed words abstracted. */
  lemma WavShape(ff: string, i: string, prefix: string, input: string, output: string)
    requires prefix == ff + " " + i + " "
    ensures prefix + input + " " + output == Shell.Unwords([ff, i, input, output])
  {
    var a := [ff, i, input, output];
    assert a[3..] == [output];
    Shell.UnwordsAt(a, 2);
    Shell.UnwordsAt(a, 1);
    Shell.UnwordsAt(a, 0);
    assert a[0..] == a;
  }

  /** The MP3 template's shape, with its fixed words abstracted. */
  lemma Mp3Shape(ff: string, i: string, c: string, lame: string, q: string, two: string, prefix: string,
                 o1: string, o2: string, o3: string, o4: string, options: string, input: string, output: string)
    requires prefix == ff + " " + i + " "
    requires o1 == " " + c && o2 == " " + lame && o3 == " " + q && o4 == " " + two + " "
    requires options == o1 + o2 + o3 + o4
    ensures prefix + input + options + output == Shell.Unwords([ff, i, input, c, lame, q, two, output])
  {
    var a := [ff, i, input, c, lame, q, two, output];
    var u := Shell.Unwords(a[3..]);
    OptionsShape(c, lame, q, two, o1, o2, o3, o4, options, output, a[3..]);
    Shell.UnwordsAt(a, 2);
    Shell.UnwordsAt(a, 1);
    Shell.UnwordsAt(a, 0);
    assert a[0..] == a;
    calc {
      Shell.Unwords(a);
      ff + " " + (i + " " + (input + " " + u));
      (ff + " " + i + " ") + input + (" " + u);
      prefix + input + (options + output);
    }
  }

  /** The MP3 options and the output, as the shell would join them. */
  lemma OptionsShape(c: string, lame: string, q: string, two: string,
                     o1: string, o2: string, o3: string, o4: string, options: string, output: string,
                     rest: seq<string>)
    requires o1 == " " + c && o2 == " " + lame && o3 == " " + q && o4 == " " + two + " "
    requires options == o1 + o2 + o3 + o4
    requires rest == [c, lame, q, two, output]
    ensures " " + Shell.Unwords(rest) == options + output
  {
    assert rest[4..] == [output];
    Shell.UnwordsAt(rest, 3);
    Shell.UnwordsAt(rest, 2);
    Shell.UnwordsAt(rest, 1);
    Shell.UnwordsAt(rest, 0);
    assert rest[0..] == rest;
    calc {
      " " + Shell.Unwords(rest);
      " " + (c + " " + (lame + " " + (q + " " + (two + " " + output))));
      o1 + (o2 + (o3 + (o4 + output)));
    }
  }

  /** When neither path holds a space or is empty, ffmpeg receives exactly the intended arguments. */
  lemma CommandSplitsIntoArgv(fmt: Format, input: string, output: string)
    requires Shell.IsWord(input) && Shell.IsWord(output)
    ensures Shell.Words(Command(fmt, input, output)) == Argv(fmt, input, output)
  {
    CommandIsUnwords(fmt, input, output);
    ArgvAreWords(fmt, input, output);
    Shell.WordsOfUnwords(Argv(fmt, input, output));
  }

  /** The fixed words of both templates are single shell words. */
  lemma ArgvAreWords(fmt: Format, input: string, output: string)
    requires Shell.IsWord(input) && Shell.IsWord(output)
    ensures forall i :: 0 <= i < |Argv(fmt, input, output)| ==> Shell.IsWord(Argv(fmt, input, output)[i])
  {
  }

  /**
   * Because paths are not quoted, an input path with a space in it reaches ffmpeg as two
   * arguments: the second half becomes an extra argument in front of the rest.
   */
  lemma SpaceInInputSplitsIt(fmt: Format, a: string, b: string, output: string)
    requires Shell.IsWord(a) && Shell.IsWord(b) && Shell.IsWord(output)
    ensures Shell.Words(Command(fmt, a + " " + b, output))
         == Argv(fmt, a, output)[..3] + [b] + Argv(fmt, a, output)[3..]
  {
    var joined := Argv(fmt, a + " " + b, output);
    var split := Argv(fmt, a, output)[..3] + [b] + Argv(fmt, a, output)[3..];
    CommandIsUnwords(fmt, a + " " + b, output);
    SplitArgv(fmt, a, b, output, joined, split);
    Shell.UnwordsSplit(joined, split, 2, a, b);
    Shell.WordsOfUnwords(split);
  }

  /** The intended arguments with the input cut in two at its space. */
  lemma SplitArgv(fmt: Format, a: string, b: string, output: string, joined: seq<string>, split: seq<string>)
    requires Shell.IsWord(a) && Shell.IsWord(b) && Shell.IsWord(output)
    requires joined == Argv(fmt, a + " " + b, output)
    requires split == Argv(fmt, a, output)[..3] + [b] + Argv(fmt, a, output)[3..]
    ensures |joined| > 3 && joined[2] == a + " " + b
    ensures split == joined[..2] + [a, b] + joined[3..]
    ensures forall i :: 0 <= i < |split| ==> Shell.IsWord(split[i])
  {
    ArgvAreWords(fmt, a, output);
    var base := Argv(fmt, a, output);
    assert joined[..2] == base[..2] && joined[3..] == base[3..];
    assert base[..3] == base[..2] + [a];
    forall i | 0 <= i < |split| ensures Shell.IsWord(split[i]) {
      if i < 3 { assert split[i] == base[i]; }
      else if i > 3 { assert split[i] == base[i - 1]; }
    }
  }

  // ---------------------------------------------------------------------------------
  // Properties of convertTextToSpeech

  /** The stub ignores text, voice and speed: every call names the same fixed file. */
  lemma SynthesisIgnoresInputs(dir: string, t1: string, v1: string, s1: real, t2: string, v2: string, s2: real)
    ensures ConvertTextToSpeech(dir, t1, v1, s1) == ConvertTextToSpeech(dir, t2, v2, s2)
    ensures ConvertTextToSpeech(dir, t1, v1, s1) == Paths.Join(dir, "temp_audio.wav")
  {
  }
}
