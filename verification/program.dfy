/** The script's top level: probe for the token, and only in `auto` mode
    resolve the filename and download. A run is modelled as the ordered list
    of its effects (HTTP requests, the file write, debug lines); the three
    HTTP responses are inputs. */
module Program {

  import opened Wrappers
  import opened Page
  import opened Probe
  import opened Link
  import opened Metadata

  type Bytes = seq<bv8>

  /** The `Referer` header sent with the metadata and download requests. */
  const DriveOrigin := "https://drive.google.com"

  datatype Request = Request(url: string, params: map<string, string>, referer: Option<string>)

  datatype Effect =
    | Get(request: Request)
    | WriteFile(filename: string, content: Bytes)
    | Debug(message: string)

  /** How a run ends: normally, with the error raised while reading the token,
      or with the error `open` raises for a filename it cannot open whatever
      the file system holds. */
  datatype Exit = Completed | Raised(error: ProbeError) | WriteFailed(filename: string)

  datatype Run = Run(effects: seq<Effect>, exit: Exit)

  /** What the three requests return: the parsed preview page, the decoded
      metadata object and the downloaded body. */
  datatype Responses = Responses(page: seq<Element>, metadata: JsonObject, body: Bytes)

  function ProbeRequest(id: string): Request {
    Request(ProbeUrl(id), map[], None)
  }

  function MetadataRequest(id: string): Request {
    Request(ApiUrl(id), map["fields" := "title"], Some(DriveOrigin))
  }

  function FileRequest(link: string): Request {
    Request(link, map[], Some(DriveOrigin))
  }

  /** `debug_log` for each message: a debug line each when verbose, nothing otherwise. */
  function Log(verbose: bool, messages: seq<string>): (r: seq<Effect>)
    ensures verbose ==> |r| == |messages| && forall i :: 0 <= i < |messages| ==> r[i] == Debug(messages[i])
    ensures !verbose ==> r == []
  {
    if !verbose || |messages| == 0 then []
    else [Debug(messages[0])] + Log(verbose, messages[1..])
  }

  /** The name cannot name a regular file, whatever the file system holds:
      its last path component (the part after the last `/`) is empty, `.` or
      `..`. Spelled out: the name is empty, `.` or `..`, or it ends in `/`,
      `/.` or `/..`. */
  predicate NeverRegularFile(name: string) {
    || name == "" || name == "." || name == ".."
    || name[|name| - 1] == '/'
    || (|name| >= 2 && name[|name| - 2..] == "/.")
    || (|name| >= 3 && name[|name| - 3..] == "/..")
  }

  /** Names `open(name, 'wb')` can accept on a POSIX system for some contents
      of the file system. It rejects the rest whatever the file system holds:
      names holding a NUL character (`ValueError`), and names that cannot
      name a regular file (`FileNotFoundError` for the empty name, and
      `IsADirectoryError`, `NotADirectoryError` or `FileNotFoundError` for
      the others, depending on what the leading components name). */
  predicate Openable(filename: string) {
    '\0' !in filename && !NeverRegularFile(filename)
  }

  /** A name without `/` or NUL can be opened exactly when it is not empty,
      `.` or `..`. */
  lemma PlainNameOpenable(name: string)
    requires '/' !in name && '\0' !in name
    ensures Openable(name) <==> name != "" && name != "." && name != ".."
  {
    if |name| >= 1 {
      assert name[|name| - 1] in name;
    }
    if |name| >= 2 {
      var t := name[|name| - 2..];
      assert t != "/." by {
        assert t[0] == name[|name| - 2] && name[|name| - 2] in name;
      }
    }
    if |name| >= 3 {
      var t := name[|name| - 3..];
      assert t != "/.." by {
        assert t[0] == name[|name| - 3] && name[|name| - 3] in name;
      }
    }
  }

  /** A path ending in `/`, `/.` or `/..` cannot name a regular file
      and is never opened for writing, whatever precedes it. */
  lemma DirectoryPathsUnopenable(dir: string)
    ensures !Openable(dir + "/") && !Openable(dir + "/.") && !Openable(dir + "/..")
  {
    var a, b := dir + "/.", dir + "/..";
    assert a[|a| - 2..] == "/.";
    assert b[|b| - 3..] == "/..";
  }

  /** `download`: log the link, fetch it, write the body under `filename`.
      The fetch happens before `open`, so a name `open` rejects still costs
      the request but writes nothing. */
  function Download(id: string, token: Option<string>, filename: string, body: Bytes, verbose: bool): (r: seq<Effect>)
    ensures Quiet(r) == [Get(FileRequest(DownloadLink(id, token)))]
                        + (if Openable(filename) then [WriteFile(filename, body)] else [])
    ensures DebugLines(r) == if verbose then [DownloadLink(id, token)] else []
    ensures r[0] == if verbose then Debug(DownloadLink(id, token)) else Get(FileRequest(DownloadLink(id, token)))
  {
    var link := DownloadLink(id, token);
    var tail := [Get(FileRequest(link))] + (if Openable(filename) then [WriteFile(filename, body)] else []);
    LogLines(verbose, [link]);
    QuietConcat(Log(verbose, [link]), tail);
    DebugLinesConcat(Log(verbose, [link]), tail);
    QuietOfQuietRun(tail);
    Log(verbose, [link]) + tail
  }

  /** The main block. The filename argument is evaluated before `download`
      runs, so the metadata request precedes the file request. */
  function Main(id: string, auto: bool, verbose: bool, responses: Responses): (run: Run)
    ensures |run.effects| > 0 && run.effects[0] == Get(ProbeRequest(id))
    ensures run.exit.Raised? <==> GetUuid(responses.page).Failure?
    ensures run.exit.WriteFailed? <==>
              auto && GetUuid(responses.page).Success? && !Openable(Filename(responses.metadata))
  {
    var outcome := Decide(responses.page);
    var probed := [Get(ProbeRequest(id))] + Log(verbose, Messages(outcome));
    match Token(outcome)
    case Failure(e) => Run(probed, Raised(e))
    case Success(token) =>
      if auto then
        var filename := Filename(responses.metadata);
        var exit := if Openable(filename) then Completed else WriteFailed(filename);
        Run(probed + [Get(MetadataRequest(id))] + Download(id, token, filename, responses.body, verbose), exit)
      else
        Run(probed, Completed)
  }

  /** The effects of a run with its debug lines removed. */
  function Quiet(effects: seq<Effect>): (r: seq<Effect>)
    ensures |r| <= |effects|
    ensures forall i :: 0 <= i < |r| ==> !r[i].Debug?
  {
    if |effects| == 0 then []
    else if effects[0].Debug? then Quiet(effects[1..])
    else [effects[0]] + Quiet(effects[1..])
  }

  /** The debug lines of a run, in order. */
  function DebugLines(effects: seq<Effect>): (r: seq<string>)
    ensures |r| <= |effects|
  {
    if |effects| == 0 then []
    else if effects[0].Debug? then [effects[0].message] + DebugLines(effects[1..])
    else DebugLines(effects[1..])
  }

  lemma {:induction false} QuietConcat(a: seq<Effect>, b: seq<Effect>)
    ensures Quiet(a + b) == Quiet(a) + Quiet(b)
  {
    if |a| > 0 {
      assert (a + b)[1..] == a[1..] + b;
      QuietConcat(a[1..], b);
    } else {
      assert a + b == b;
    }
  }

  lemma {:induction false} DebugLinesConcat(a: seq<Effect>, b: seq<Effect>)
    ensures DebugLines(a + b) == DebugLines(a) + DebugLines(b)
  {
    if |a| > 0 {
      assert (a + b)[1..] == a[1..] + b;
      DebugLinesConcat(a[1..], b);
    } else {
      assert a + b == b;
    }
  }

  /** Logged lines are exactly the messages when verbose, none otherwise,
      and never anything but debug lines. */
  lemma {:induction false} LogLines(verbose: bool, messages: seq<string>)
    ensures Quiet(Log(verbose, messages)) == []
    ensures DebugLines(Log(verbose, messages)) == if verbose then messages else []
  {
    if verbose && |messages| > 0 {
      var rest := Log(verbose, messages[1..]);
      LogLines(verbose, messages[1..]);
      assert Log(verbose, messages) == [Debug(messages[0])] + rest;
      QuietConcat([Debug(messages[0])], rest);
      DebugLinesConcat([Debug(messages[0])], rest);
      assert messages == [messages[0]] + messages[1..];
    }
  }

  /** The requests and writes of every run, in order: the preview page is
      always fetched first; when reading the token raises, or when `auto` is
      off, nothing else happens (no link is built, no file is written);
      otherwise the metadata request and the download of the link built from
      the page's token follow, each exactly once, and then the write of the
      body under the resolved name unless `open` rejects that name. */
  lemma MainTrace(id: string, auto: bool, verbose: bool, responses: Responses)
    ensures var run := Main(id, auto, verbose, responses);
            var token := GetUuid(responses.page);
            var name := Filename(responses.metadata);
            Quiet(run.effects) ==
              if token.Success? && auto then
                [Get(ProbeRequest(id)), Get(MetadataRequest(id)),
                 Get(FileRequest(DownloadLink(id, token.value)))]
                + (if Openable(name) then [WriteFile(name, responses.body)] else [])
              else
                [Get(ProbeRequest(id))]
  {
    var outcome := Decide(responses.page);
    ProbedTrace(id, verbose, outcome);
    if Token(outcome).Success? && auto {
      AutoTrace(id, verbose, responses, Token(outcome).value);
    }
  }

  /** The `auto` case of `MainTrace`, for a page whose token was read. */
  lemma AutoTrace(id: string, verbose: bool, responses: Responses, token: Option<string>)
    requires Token(Decide(responses.page)) == Success(token)
    ensures var name := Filename(responses.metadata);
            Quiet(Main(id, true, verbose, responses).effects) ==
              [Get(ProbeRequest(id)), Get(MetadataRequest(id)), Get(FileRequest(DownloadLink(id, token)))]
              + (if Openable(name) then [WriteFile(name, responses.body)] else [])
  {
    var outcome := Decide(responses.page);
    var probed := [Get(ProbeRequest(id))] + Log(verbose, Messages(outcome));
    var name := Filename(responses.metadata);
    var download := Download(id, token, name, responses.body, verbose);
    var writes := if Openable(name) then [WriteFile(name, responses.body)] else [];
    var meta := [Get(MetadataRequest(id))];
    AutoEffects(id, verbose, responses, token);
    ProbedTrace(id, verbose, outcome);
    QuietConcat(probed + meta, download);
    QuietConcat(probed, meta);
    assert Quiet(meta) == meta;
    assert Quiet(download) == [Get(FileRequest(DownloadLink(id, token)))] + writes;
  }

  /** An `auto` run whose token was read: the probe's effects, the metadata
      request, then `download`'s effects. */
  lemma AutoEffects(id: string, verbose: bool, responses: Responses, token: Option<string>)
    requires Token(Decide(responses.page)) == Success(token)
    ensures Main(id, true, verbose, responses).effects ==
              [Get(ProbeRequest(id))] + Log(verbose, Messages(Decide(responses.page)))
              + [Get(MetadataRequest(id))]
              + Download(id, token, Filename(responses.metadata), responses.body, verbose)
  {
  }

  /** The effects up to and including the probe's debug line reduce to the
      preview request alone. */
  lemma ProbedTrace(id: string, verbose: bool, outcome: Outcome)
    ensures Quiet([Get(ProbeRequest(id))] + Log(verbose, Messages(outcome))) == [Get(ProbeRequest(id))]
  {
    LogLines(verbose, Messages(outcome));
    QuietConcat([Get(ProbeRequest(id))], Log(verbose, Messages(outcome)));
  }

  /** Without `auto`, a run consists of the preview request and debug lines only. */
  lemma ManualRunOnlyProbes(id: string, verbose: bool, responses: Responses)
    ensures var run := Main(id, false, verbose, responses);
            forall k :: 0 <= k < |run.effects| ==>
              run.effects[k] == Get(ProbeRequest(id)) || run.effects[k].Debug?
  {
  }

  /** The debug lines of a verbose run: the probe's message, then the link
      when a download happens. A quiet run has none. */
  lemma MainDebugLines(id: string, auto: bool, verbose: bool, responses: Responses)
    ensures var run := Main(id, auto, verbose, responses);
            var outcome := Decide(responses.page);
            DebugLines(run.effects) ==
              if !verbose then []
              else if auto && Token(outcome).Success? then Messages(outcome) + [DownloadLink(id, Token(outcome).value)]
              else Messages(outcome)
  {
    var outcome := Decide(responses.page);
    var logged := Log(verbose, Messages(outcome));
    LogLines(verbose, Messages(outcome));
    DebugLinesConcat([Get(ProbeRequest(id))], logged);
    if Token(outcome).Success? && auto {
      var probed := [Get(ProbeRequest(id))] + logged;
      var name := Filename(responses.metadata);
      DebugLinesConcat(probed + [Get(MetadataRequest(id))], Download(id, Token(outcome).value, name, responses.body, verbose));
      DebugLinesConcat(probed, [Get(MetadataRequest(id))]);
    }
  }

  /** Verbosity changes nothing but the debug lines: the same requests and
      writes in the same order, and the same exit. */
  lemma VerboseOnlyAddsDebugLines(id: string, auto: bool, responses: Responses)
    ensures Quiet(Main(id, auto, true, responses).effects) == Main(id, auto, false, responses).effects
    ensures Main(id, auto, true, responses).exit == Main(id, auto, false, responses).exit
  {
    MainTrace(id, auto, true, responses);
    MainTrace(id, auto, false, responses);
    MainDebugLines(id, auto, false, responses);
    QuietOfQuietRun(Main(id, auto, false, responses).effects);
  }

  /** A run with no debug lines is its own quiet form. */
  lemma {:induction false} QuietOfQuietRun(effects: seq<Effect>)
    requires DebugLines(effects) == []
    ensures Quiet(effects) == effects
  {
    if |effects| > 0 {
      assert !effects[0].Debug?;
      QuietOfQuietRun(effects[1..]);
      assert effects == [effects[0]] + effects[1..];
    }
  }
}
