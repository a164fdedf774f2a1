/** `docker scan images`, one task: `scanImage` runs a fixed sequence of
    stages (pull, render the recipe, pack it into a one-file tar archive,
    build, create and start a container, read and demultiplex its logs,
    decode them). The first stage that fails sends its error and ends the
    task; the container and the built image are force-removed on every exit
    after the container was created, and on no exit before. */
module ImageScan {
  import opened Wrappers
  import opened Text
  import opened Engine
  import opened Recipe

  datatype ImageScanSummary = ImageScanSummary(
    total: int, low: int, medium: int, high: int,
    negligible: int, sensitive: int, malware: int)

  datatype ImageScanResults = ImageScanResults(image: string, summary: ImageScanSummary)

  /** What decoding the scanner's JSON leaves in a results record that was
      preset with the target image: the `vulnerability_summary` object, and
      the value of an `Image` key if the JSON has one (it replaces the
      preset name, since decoding matches keys without regard to case). */
  datatype Decoded = Decoded(image: Option<string>, summary: ImageScanSummary)

  /** The answers of the engine and of the libraries, one per stage. */
  datatype Responses = Responses(
    pull: Status,
    parse: Status,
    execute: Status,
    writeHeader: Status,
    writeBody: Status,
    build: Status,
    buildOutput: Outcome<string>,
    create: Outcome<string>,
    start: Status,
    logs: Status,
    demux: Status,
    decode: Outcome<Decoded>)

  datatype Stage =
    | Pull | ParseTemplate | ExecuteTemplate | WriteHeader | WriteBody | Build
    | ReadBuildOutput | Create | Start | Logs | Demux | Decode

  /** What one scan works with: the target image, the build token, the
      generated tag and the build context packed for them. */
  datatype Context = Context(image: string, token: string, tag: string, archive: seq<TarEntry>)

  type Trace = seq<Event<ImageScanResults>>

  function Rank(s: Stage): nat
  {
    match s
    case Pull => 0
    case ParseTemplate => 1
    case ExecuteTemplate => 2
    case WriteHeader => 3
    case WriteBody => 4
    case Build => 5
    case ReadBuildOutput => 6
    case Create => 7
    case Start => 8
    case Logs => 9
    case Demux => 10
    case Decode => 11
  }

  /** The stage after `s`, in the order `scanImage` runs them. */
  function Next(s: Stage): (n: Stage)
    requires s != Decode
    ensures Rank(n) == Rank(s) + 1
  {
    match s
    case Pull => ParseTemplate
    case ParseTemplate => ExecuteTemplate
    case ExecuteTemplate => WriteHeader
    case WriteHeader => WriteBody
    case WriteBody => Build
    case Build => ReadBuildOutput
    case ReadBuildOutput => Create
    case Create => Start
    case Start => Logs
    case Logs => Demux
    case Demux => Decode
  }

  /** The first stage of a scan; `--no-pull` skips the pull. */
  function First(noPull: bool): Stage
  {
    if noPull then ParseTemplate else Pull
  }

  predicate Fails(s: Stage, r: Responses)
  {
    match s
    case Pull => r.pull.Failed?
    case ParseTemplate => r.parse.Failed?
    case ExecuteTemplate => r.execute.Failed?
    case WriteHeader => r.writeHeader.Failed?
    case WriteBody => r.writeBody.Failed?
    case Build => r.build.Failed?
    case ReadBuildOutput => r.buildOutput.Failure?
    case Create => r.create.Failure?
    case Start => r.start.Failed?
    case Logs => r.logs.Failed?
    case Demux => r.demux.Failed?
    case Decode => r.decode.Failure?
  }

  function ContainerId(r: Responses): string
  {
    if r.create.Success? then r.create.value else ""
  }

  function BuildLog(r: Responses): string
  {
    if r.buildOutput.Success? then r.buildOutput.value else ""
  }

  /** The error a failing stage sends. */
  function StageError(s: Stage, cx: Context, r: Responses): string
    requires Fails(s, r)
  {
    match s
    case Pull => Wrap("error pulling image", r.pull.cause)
    case ParseTemplate => Wrap("error parsing dockerfile template", r.parse.cause)
    case ExecuteTemplate => r.execute.cause
    case WriteHeader => r.writeHeader.cause
    case WriteBody => r.writeBody.cause
    case Build => Wrap("error building scan image " + cx.image, r.build.cause)
    case ReadBuildOutput => r.buildOutput.error
    case Create => Wrap("error creating scan container: build result: " + BuildLog(r), r.create.error)
    case Start => Wrap("error starting scan container " + ContainerId(r), r.start.cause)
    case Logs => Wrap("error getting logs from scan container (" + cx.image + ")", r.logs.cause)
    case Demux => Wrap("error parsing logs from scan container (" + cx.image + ")", r.demux.cause)
    case Decode => Wrap("error decoding logs for scan container (" + cx.image + ")", r.decode.error)
  }

  /** The build context: a tar archive of one entry, `Dockerfile`, holding
      the recipe rendered for `image` and `tag`, its size in bytes. */
  function BuildContext(image: string, tag: string): seq<TarEntry>
  {
    var recipe := Render(ImageScanConfig(image, tag));
    [TarEntry("Dockerfile", Utf8Length(recipe), recipe)]
  }

  function BuildOptionsFor(cx: Context): BuildOptions
  {
    BuildOptions("Dockerfile", [cx.tag], true, true, true, map["token" := cx.token])
  }

  /** The engine calls a stage issues. */
  function Issued(s: Stage, cx: Context, r: Responses): Trace
  {
    match s
    case Pull => [Invoke(ImagePull(cx.image, true))]
    case Build => [Invoke(ImageBuild(cx.archive, BuildOptionsFor(cx)))]
    case Create => [Invoke(ContainerCreate(cx.tag, false))]
    case Start => [Invoke(ContainerStart(ContainerId(r)))]
    case Logs => [Invoke(ContainerLogs(ContainerId(r), true, false))]
    case _ => []
  }

  /** The deferred removal registered once the container exists. */
  function Cleanup(cx: Context, r: Responses): Trace
  {
    [Invoke(ContainerRemove(ContainerId(r), true)), Invoke(ImageRemove(cx.tag, true))]
  }

  /** The result sent when every stage succeeded, the report included. */
  function Result(cx: Context, r: Responses): ImageScanResults
    requires r.decode.Success?
  {
    var d := r.decode.value;
    ImageScanResults(d.image.GetOr(cx.image), d.summary)
  }

  /** What the deferred calls do at exit: the removal if registered, then `wg.Done()`. */
  function Deferred(cx: Context, r: Responses, registered: bool): Trace
  {
    (if registered then Cleanup(cx, r) else []) + [Done]
  }

  /** The stage machine from stage `s` on: each stage issues its calls; the
      first that fails sends its error and exits; getting past `Create`
      registers the removal; getting past `Decode` sends the result. */
  function From(s: Stage, cx: Context, r: Responses, registered: bool): Trace
    decreases 11 - Rank(s)
  {
    Issued(s, cx, r) +
    if Fails(s, r) then [SendError(StageError(s, cx, r))] + Deferred(cx, r, registered)
    else if s == Decode then [SendResult(Result(cx, r))] + Deferred(cx, r, registered)
    else From(Next(s), cx, r, registered || s == Create)
  }

  /** The context of a scan of `image` when the clock reads `nanos`. */
  function ScanContext(image: string, token: string, nanos: int): Context
  {
    var tag := Tag(nanos);
    Context(image, token, tag, BuildContext(image, tag))
  }

  /** What a scan of `image` does when the clock reads `nanos`. */
  function Expected(image: string, token: string, noPull: bool, nanos: int, r: Responses): Trace
  {
    From(First(noPull), ScanContext(image, token, nanos), r, false)
  }

  /** The middle of `scanImage`: execute the template into a buffer, then
      write the tar header and the recipe. The first step that fails gives
      its error unwrapped. */
  method PackRecipe(image: string, buildImage: string, r: Responses) returns (packed: Outcome<seq<TarEntry>>)
    ensures packed.Failure? <==> r.execute.Failed? || r.writeHeader.Failed? || r.writeBody.Failed?
    ensures packed.Failure? ==>
      packed.error == if r.execute.Failed? then r.execute.cause
                      else if r.writeHeader.Failed? then r.writeHeader.cause
                      else r.writeBody.cause
    ensures packed.Success? ==> packed.value == BuildContext(image, buildImage)
  {
    if r.execute.Failed? {
      return Failure(r.execute.cause);
    }
    var dockerfile := Render(ImageScanConfig(image, buildImage));
    var header := TarEntry("Dockerfile", Utf8Length(dockerfile), "");
    if r.writeHeader.Failed? {
      return Failure(r.writeHeader.cause);
    }
    if r.writeBody.Failed? {
      return Failure(r.writeBody.cause);
    }
    packed := Success([header.(body := dockerfile)]);
  }

  /** A stage that succeeds issues its calls and hands over to the next. */
  lemma Passes(s: Stage, cx: Context, r: Responses, registered: bool)
    requires !Fails(s, r) && s != Decode
    ensures From(s, cx, r, registered) == Issued(s, cx, r) + From(Next(s), cx, r, registered || s == Create)
  {
  }

  /** Past a parsed template, the three packing stages either send the
      first packing error or lead to the build. */
  lemma PackingStages(cx: Context, r: Responses)
    requires !r.parse.Failed?
    ensures From(ParseTemplate, cx, r, false) ==
      if r.execute.Failed? || r.writeHeader.Failed? || r.writeBody.Failed? then
        [SendError(if r.execute.Failed? then r.execute.cause
                   else if r.writeHeader.Failed? then r.writeHeader.cause
                   else r.writeBody.cause)] + [Done]
      else From(Build, cx, r, false)
  {
    Passes(ParseTemplate, cx, r, false);
    if r.execute.Failed? {
      assert From(ExecuteTemplate, cx, r, false) == [SendError(r.execute.cause)] + [Done];
    } else {
      Passes(ExecuteTemplate, cx, r, false);
      if r.writeHeader.Failed? {
        assert From(WriteHeader, cx, r, false) == [SendError(r.writeHeader.cause)] + [Done];
      } else {
        Passes(WriteHeader, cx, r, false);
        if r.writeBody.Failed? {
          assert From(WriteBody, cx, r, false) == [SendError(r.writeBody.cause)] + [Done];
        } else {
          Passes(WriteBody, cx, r, false);
        }
      }
    }
  }

  /** The build either sends its error or its output's, or leads to the
      creation of the container. */
  lemma BuildStages(cx: Context, r: Responses)
    ensures From(Build, cx, r, false) == Issued(Build, cx, r) +
      if r.build.Failed? then [SendError(Wrap("error building scan image " + cx.image, r.build.cause))] + [Done]
      else if r.buildOutput.Failure? then [SendError(r.buildOutput.error)] + [Done]
      else From(Create, cx, r, false)
  {
    if !r.build.Failed? {
      Passes(Build, cx, r, false);
    }
  }

  /** `(a + b) + c` regrouped. */
  lemma Regroup(a: Trace, b: Trace, c: Trace)
    ensures a + (b + c) == (a + b) + c
  {
  }

  /** `scanImage`: `nanos` is `time.Now().UnixNano()` and `r` holds what the
      engine and the libraries answer at each stage. The stages are in
      `PrepareScanImage`, `BuildScanImage`, `RunScanContainer` and
      `ReadScanResults`, which call each other in turn. */
  method ScanImage(image: string, token: string, noPull: bool, nanos: int, r: Responses)
    returns (trace: Trace)
    ensures trace == Expected(image, token, noPull, nanos, r)
  {
    trace := PrepareScanImage(image, token, noPull, Tag(nanos), r, ScanContext(image, token, nanos));
  }

  /** `scanImage` up to the packing of the recipe for the build tag `buildImage`. */
  method PrepareScanImage(image: string, token: string, noPull: bool, buildImage: string, r: Responses,
                          ghost cx: Context)
    returns (trace: Trace)
    requires cx.image == image && cx.token == token && cx.tag == buildImage
    requires cx.archive == BuildContext(image, buildImage)
    ensures trace == From(First(noPull), cx, r, false)
  {
    var deferred: Trace := [Done];
    trace := [];
    if !noPull {
      trace := [Invoke(ImagePull(image, true))];
      if r.pull.Failed? {
        trace := trace + ([SendError(Wrap("error pulling image", r.pull.cause))] + deferred);
        return;
      }
      Passes(Pull, cx, r, false);
    }
    var packed := PackScanRecipe(image, token, buildImage, r, cx);
    trace := trace + packed;
  }

  /** `scanImage` from the parsing of the template on. */
  method PackScanRecipe(image: string, token: string, buildImage: string, r: Responses, ghost cx: Context)
    returns (trace: Trace)
    requires cx.image == image && cx.token == token && cx.tag == buildImage
    requires cx.archive == BuildContext(image, buildImage)
    ensures trace == From(ParseTemplate, cx, r, false)
  {
    var deferred: Trace := [Done];
    if r.parse.Failed? {
      return [SendError(Wrap("error parsing dockerfile template", r.parse.cause))] + deferred;
    }
    var packed := PackRecipe(image, buildImage, r);
    PackingStages(cx, r);
    if packed.Failure? {
      return [SendError(packed.error)] + deferred;
    }
    trace := BuildScanImage(image, token, buildImage, packed.value, r, cx);
  }

  /** `scanImage` from the build of the scan image on. */
  method BuildScanImage(image: string, token: string, buildImage: string, archive: seq<TarEntry>, r: Responses,
                        ghost cx: Context)
    returns (trace: Trace)
    requires cx == Context(image, token, buildImage, archive)
    ensures trace == From(Build, cx, r, false)
  {
    BuildStages(cx, r);
    var deferred: Trace := [Done];
    var options := BuildOptions("Dockerfile", [buildImage], true, true, true, map["token" := token]);
    trace := [Invoke(ImageBuild(archive, options))];
    if r.build.Failed? {
      trace := trace + ([SendError(Wrap("error building scan image " + image, r.build.cause))] + deferred);
      return;
    }
    if r.buildOutput.Failure? {
      trace := trace + ([SendError(r.buildOutput.error)] + deferred);
      return;
    }
    var buildOutput := r.buildOutput.value;
    var scanned := RunScanContainer(image, buildImage, buildOutput, r, cx);
    trace := trace + scanned;
  }

  /** `scanImage` from the creation of the scan container on: once the
      container exists, the deferred removal of the container and of the
      built image is registered, so every later exit runs it. */
  method RunScanContainer(image: string, buildImage: string, buildOutput: string, r: Responses, ghost cx: Context)
    returns (trace: Trace)
    requires cx.image == image && cx.tag == buildImage && r.buildOutput == Success(buildOutput)
    ensures trace == From(Create, cx, r, false)
  {
    var deferred: Trace := [Done];
    trace := [Invoke(ContainerCreate(buildImage, false))];
    if r.create.Failure? {
      trace := trace + ([SendError(Wrap("error creating scan container: build result: " + buildOutput, r.create.error))]
                        + deferred);
      return;
    }
    var id := r.create.value;
    deferred := [Invoke(ContainerRemove(id, true)), Invoke(ImageRemove(buildImage, true))] + deferred;
    assert deferred == Deferred(cx, r, true);
    Regroup(trace, [Invoke(ContainerStart(id))], From(Logs, cx, r, true));
    trace := trace + [Invoke(ContainerStart(id))];
    if r.start.Failed? {
      trace := trace + ([SendError(Wrap("error starting scan container " + id, r.start.cause))] + deferred);
      return;
    }
    var scanned := ReadScanResults(image, id, deferred, r, cx);
    trace := trace + scanned;
  }

  /** `scanImage` from the reading of the scanner's logs on. */
  method ReadScanResults(image: string, id: string, deferred: Trace, r: Responses, ghost cx: Context)
    returns (trace: Trace)
    requires cx.image == image && r.create == Success(id) && deferred == Deferred(cx, r, true)
    ensures trace == From(Logs, cx, r, true)
  {
    trace := [Invoke(ContainerLogs(id, true, false))];
    if r.logs.Failed? {
      trace := trace + ([SendError(Wrap("error getting logs from scan container (" + image + ")", r.logs.cause))]
                        + deferred);
      return;
    }
    assert From(Logs, cx, r, true) == trace + From(Demux, cx, r, true);
    if r.demux.Failed? {
      trace := trace + ([SendError(Wrap("error parsing logs from scan container (" + image + ")", r.demux.cause))]
                        + deferred);
      return;
    }
    var results := ImageScanResults(image, ImageScanSummary(0, 0, 0, 0, 0, 0, 0));
    if r.decode.Failure? {
      trace := trace + ([SendError(Wrap("error decoding logs for scan container (" + image + ")", r.decode.error))]
                        + deferred);
      return;
    }
    var decoded := r.decode.value;
    if decoded.image.Some? {
      results := results.(image := decoded.image.value);
    }
    results := results.(summary := decoded.summary);
    assert results == Result(cx, r);
    trace := trace + ([SendResult(results)] + deferred);
  }

  // ---------------------------------------------------------------------
  // The stage machine in closed form, and what it promises.

  /** Distinct stages have distinct ranks, and `Decode` is the last. */
  lemma RankInjective(a: Stage, b: Stage)
    ensures Rank(a) == Rank(b) ==> a == b
    ensures Rank(a) <= Rank(Decode)
  {
  }

  /** The stage at which a run from `s` stops: the first stage from `s` on
      that fails, or `Decode` when none does. */
  function Exit(s: Stage, r: Responses): (e: Stage)
    ensures Rank(s) <= Rank(e)
    ensures Fails(e, r) || e == Decode
    ensures forall g :: Rank(s) <= Rank(g) < Rank(e) ==> !Fails(g, r)
    decreases 11 - Rank(s)
  {
    if Fails(s, r) || s == Decode then s
    else
      var e := Exit(Next(s), r);
      assert forall g :: Rank(g) == Rank(s) ==> g == s by {
        forall g ensures Rank(g) == Rank(s) ==> g == s { RankInjective(g, s); }
      }
      e
  }

  /** The calls issued by the stages from `s` through `e`, in order. */
  function IssuedThrough(s: Stage, e: Stage, cx: Context, r: Responses): (t: Trace)
    requires Rank(s) <= Rank(e)
    decreases Rank(e) - Rank(s)
  {
    RankInjective(s, Decode);
    RankInjective(e, Decode);
    if s == e then Issued(s, cx, r) else Issued(s, cx, r) + IssuedThrough(Next(s), e, cx, r)
  }

  /** The message sent on leaving at stage `e`. */
  function ExitMessage(e: Stage, cx: Context, r: Responses): Event<ImageScanResults>
    requires Fails(e, r) || e == Decode
  {
    if Fails(e, r) then SendError(StageError(e, cx, r)) else SendResult(Result(cx, r))
  }

  /** A run from `s` that leaves at `e` has registered the removal when it got past `Create`. */
  predicate PastCreate(s: Stage, e: Stage)
  {
    Rank(s) <= Rank(Create) < Rank(e)
  }

  /** The run from `s` in closed form: the calls of the stages through its
      exit stage, the one message of that stage, and the deferred calls. */
  function Run(s: Stage, cx: Context, r: Responses, registered: bool): Trace
  {
    var e := Exit(s, r);
    IssuedThrough(s, e, cx, r) + ([ExitMessage(e, cx, r)] + Deferred(cx, r, registered || PastCreate(s, e)))
  }

  /** A stage that succeeds issues its calls and hands the closed form over to the next. */
  lemma RunStep(s: Stage, cx: Context, r: Responses, registered: bool)
    requires !Fails(s, r) && s != Decode
    ensures Run(s, cx, r, registered) == Issued(s, cx, r) + Run(Next(s), cx, r, registered || s == Create)
  {
    var n := Next(s);
    var e := Exit(s, r);
    var now := registered || PastCreate(s, e);
    assert e == Exit(n, r);
    assert (registered || s == Create || PastCreate(n, e)) == now by {
      RankInjective(s, Create);
    }
    var rest := IssuedThrough(n, e, cx, r);
    var tail := [ExitMessage(e, cx, r)] + Deferred(cx, r, now);
    assert IssuedThrough(s, e, cx, r) == Issued(s, cx, r) + rest by {
      RankInjective(s, e);
    }
    assert Run(s, cx, r, registered) == (Issued(s, cx, r) + rest) + tail;
    assert Run(n, cx, r, registered || s == Create) == rest + tail;
    Regroup(Issued(s, cx, r), rest, tail);
  }

  /** The stage machine agrees with its closed form. */
  lemma {:induction false} FromClosedForm(s: Stage, cx: Context, r: Responses, registered: bool)
    ensures From(s, cx, r, registered) == Run(s, cx, r, registered)
    decreases 11 - Rank(s)
  {
    if !Fails(s, r) && s != Decode {
      FromClosedForm(Next(s), cx, r, registered || s == Create);
      Passes(s, cx, r, registered);
      RunStep(s, cx, r, registered);
    } else {
      assert Exit(s, r) == s;
    }
  }

  /** The calls a scan in context `cx` may issue, with the arguments it
      must issue them with; every use of the tag is `cx.tag`. */
  predicate Conforms(c: Call, cx: Context, r: Responses)
  {
    match c
    case ImagePull(ref, all) => ref == cx.image && all
    case ImageBuild(archive, options) => archive == cx.archive && options == BuildOptionsFor(cx)
    case ContainerCreate(image, tty) => image == cx.tag && !tty
    case ContainerStart(id) => id == ContainerId(r)
    case ContainerLogs(id, out, err) => id == ContainerId(r) && out && !err
    case ContainerRemove(id, force) => id == ContainerId(r) && force
    case ImageRemove(image, force) => image == cx.tag && force
    case _ => false
  }

  predicate IsRemoval(c: Call)
  {
    c.ContainerRemove? || c.ImageRemove?
  }

  predicate IssuedCall(ev: Event<ImageScanResults>, s: Stage, cx: Context, r: Responses)
  {
    ev.Invoke? && Conforms(ev.call, cx, r) && !IsRemoval(ev.call) && (ev.call.ImagePull? ==> s == Pull)
  }

  /** The stages issue only engine calls, with their arguments taken from
      the context; none of them is a removal, and only the pull stage pulls. */
  lemma {:induction false} IssuedThroughCalls(s: Stage, e: Stage, cx: Context, r: Responses)
    requires Rank(s) <= Rank(e)
    ensures forall ev :: ev in IssuedThrough(s, e, cx, r) ==> IssuedCall(ev, s, cx, r)
    decreases Rank(e) - Rank(s)
  {
    RankInjective(s, Decode);
    RankInjective(e, Decode);
    if s != e {
      IssuedThroughCalls(Next(s), e, cx, r);
      assert IssuedThrough(s, e, cx, r) == Issued(s, cx, r) + IssuedThrough(Next(s), e, cx, r);
    }
  }

  /** The stages from `s` through `e` include the calls of every stage in between. */
  lemma {:induction false} IssuedThroughIncludes(s: Stage, g: Stage, e: Stage, cx: Context, r: Responses)
    requires Rank(s) <= Rank(g) <= Rank(e)
    ensures forall ev :: ev in Issued(g, cx, r) ==> ev in IssuedThrough(s, e, cx, r)
    decreases Rank(e) - Rank(s)
  {
    RankInjective(s, Decode);
    RankInjective(e, Decode);
    RankInjective(s, g);
    if s != e && s != g {
      IssuedThroughIncludes(Next(s), g, e, cx, r);
    }
  }

  /** A run fails exactly when some stage from its first on fails. */
  lemma ExitFails(s: Stage, r: Responses)
    ensures Fails(Exit(s, r), r) <==> exists g :: Rank(s) <= Rank(g) && Fails(g, r)
  {
    var e := Exit(s, r);
    if g :| Rank(s) <= Rank(g) && Fails(g, r) {
      RankInjective(g, Decode);
      RankInjective(e, Decode);
    }
  }

  /** No stage from `s` through `u` fails. */
  predicate PassesThrough(s: Stage, u: Stage, r: Responses)
  {
    Rank(s) <= Rank(u) && forall g :: Rank(s) <= Rank(g) <= Rank(u) ==> !Fails(g, r)
  }

  /** A run registers the removal exactly when every stage from its first
      through `Create` succeeds. */
  lemma ExitPastCreate(s: Stage, r: Responses)
    ensures PastCreate(s, Exit(s, r)) <==> PassesThrough(s, Create, r)
  {
    var e := Exit(s, r);
    if PassesThrough(s, Create, r) {
      RankInjective(e, Decode);
    }
  }

  /** Only engine calls: no message and no `wg.Done()`. */
  predicate OnlyCalls(t: Trace)
  {
    Count(t, ErrorKind) == 0 && Count(t, ResultKind) == 0 && Count(t, DoneKind) == 0
  }

  /** A trace made of calls, one message, further calls and `Done`. */
  lemma ExitShape(calls: Trace, m: Event<ImageScanResults>, cleanup: Trace)
    requires OnlyCalls(calls) && OnlyCalls(cleanup)
    requires m.SendError? || m.SendResult?
    ensures var t := calls + ([m] + (cleanup + [Done]));
      && Count(t, DoneKind) == 1 && t[|t| - 1] == Done
      && Messages(t) == 1 && m in t
      && (Count(t, ErrorKind) == 1 <==> m.SendError?)
      && (Count(t, ResultKind) == 1 <==> m.SendResult?)
  {
    var done: Trace := [Done];
    var t := calls + ([m] + (cleanup + done));
    forall k: Kind
      ensures Count(t, k) == Count(calls, k) + Count([m], k) + Count(cleanup, k) + Count(done, k)
    {
      CountAppend(cleanup, done, k);
      CountAppend([m], cleanup + done, k);
      CountAppend(calls, [m] + (cleanup + done), k);
    }
    assert t[|calls|] == m;
  }

  /** The stages issue nothing but engine calls. */
  lemma {:induction false} IssuedThroughOnlyCalls(s: Stage, e: Stage, cx: Context, r: Responses)
    requires Rank(s) <= Rank(e)
    ensures OnlyCalls(IssuedThrough(s, e, cx, r))
    decreases Rank(e) - Rank(s)
  {
    RankInjective(s, Decode);
    RankInjective(e, Decode);
    if s != e {
      IssuedThroughOnlyCalls(Next(s), e, cx, r);
      var head := Issued(s, cx, r);
      var rest := IssuedThrough(Next(s), e, cx, r);
      assert IssuedThrough(s, e, cx, r) == head + rest;
      CountAppend(head, rest, ErrorKind);
      CountAppend(head, rest, ResultKind);
      CountAppend(head, rest, DoneKind);
    }
  }

  /** A run calls `wg.Done()` exactly once, last, and sends one message:
      the one of its exit stage. */
  lemma RunMessage(s: Stage, cx: Context, r: Responses, registered: bool)
    ensures var t := Run(s, cx, r, registered);
      && Count(t, DoneKind) == 1 && t[|t| - 1] == Done
      && ExitMessage(Exit(s, r), cx, r) in t
      && Count(t, ErrorKind) == (if Fails(Exit(s, r), r) then 1 else 0)
      && Count(t, ResultKind) == (if Fails(Exit(s, r), r) then 0 else 1)
  {
    var e := Exit(s, r);
    var calls := IssuedThrough(s, e, cx, r);
    var m := ExitMessage(e, cx, r);
    var cleanup := if registered || PastCreate(s, e) then Cleanup(cx, r) else [];
    assert OnlyCalls(calls) by {
      IssuedThroughOnlyCalls(s, e, cx, r);
    }
    assert OnlyCalls(cleanup) by {
      if cleanup != [] {
        CleanupOnlyCalls(cx, r);
      }
    }
    assert m.SendError? <==> Fails(e, r);
    assert Run(s, cx, r, registered) == calls + ([m] + (cleanup + [Done]));
    ExitShape(calls, m, cleanup);
  }

  lemma CleanupOnlyCalls(cx: Context, r: Responses)
    ensures OnlyCalls(Cleanup(cx, r))
  {
    var c := Cleanup(cx, r);
    assert c[1..][1..] == [];
  }

  /** Every run sends exactly one message and calls `wg.Done()` exactly once,
      last. The message is the error of the first failing stage when a stage
      fails, and the result when none does. */
  lemma RunProtocol(s: Stage, cx: Context, r: Responses, registered: bool)
    ensures var t := Run(s, cx, r, registered);
      && Count(t, DoneKind) == 1 && t[|t| - 1] == Done
      && Messages(t) == 1
      && ExitMessage(Exit(s, r), cx, r) in t
      && (Count(t, ErrorKind) == 1 <==> exists g :: Rank(s) <= Rank(g) && Fails(g, r))
      && (Count(t, ResultKind) == 1 <==> forall g :: Rank(s) <= Rank(g) ==> !Fails(g, r))
  {
    RunMessage(s, cx, r, registered);
    ExitFails(s, r);
  }

  /** Whether a trace removes the container or the image. */
  predicate Removes(t: Trace)
  {
    exists ev :: ev in t && ev.Invoke? && IsRemoval(ev.call)
  }

  /** The container and the built image are force-removed exactly on the
      exits after `Create` succeeded, and then as the last calls before
      `wg.Done()`; every other exit removes nothing. */
  lemma RunCleanup(s: Stage, cx: Context, r: Responses)
    ensures var t := Run(s, cx, r, false);
      && (Removes(t) <==> PassesThrough(s, Create, r))
      && (Removes(t) ==> |t| >= 3 && t[|t| - 3..] == Cleanup(cx, r) + [Done])
  {
    ExitPastCreate(s, r);
    if PastCreate(s, Exit(s, r)) {
      RunRemoves(s, cx, r);
    } else {
      RunKeeps(s, cx, r);
    }
  }

  /** A run past `Create` ends with the removal and `wg.Done()`. */
  lemma RunRemoves(s: Stage, cx: Context, r: Responses)
    requires PastCreate(s, Exit(s, r))
    ensures var t := Run(s, cx, r, false);
      |t| >= 3 && t[|t| - 3..] == Cleanup(cx, r) + [Done] && Removes(t)
  {
    var e := Exit(s, r);
    var t := Run(s, cx, r, false);
    var calls := IssuedThrough(s, e, cx, r);
    var tail := [ExitMessage(e, cx, r)] + (Cleanup(cx, r) + [Done]);
    assert t == calls + tail;
    assert t[|t| - 3..] == tail[1..];
    assert t[|t| - 3] in t && t[|t| - 3] == Invoke(ContainerRemove(ContainerId(r), true));
  }

  /** A run that stops before `Create` succeeds removes nothing. */
  lemma RunKeeps(s: Stage, cx: Context, r: Responses)
    requires !PastCreate(s, Exit(s, r))
    ensures !Removes(Run(s, cx, r, false))
  {
    var e := Exit(s, r);
    var calls := IssuedThrough(s, e, cx, r);
    var m := ExitMessage(e, cx, r);
    assert !Removes(calls) by {
      IssuedThroughCalls(s, e, cx, r);
      IssuedRemovesNothing(calls, s, cx, r);
    }
    RunUnregistered(s, cx, r);
    KeepsAfterCalls(Run(s, cx, r, false), calls, m);
  }

  /** A run that stops before `Create` succeeds: its calls, its message, `Done`. */
  lemma RunUnregistered(s: Stage, cx: Context, r: Responses)
    requires !PastCreate(s, Exit(s, r))
    ensures var e := Exit(s, r);
      var m := ExitMessage(e, cx, r);
      Run(s, cx, r, false) == IssuedThrough(s, e, cx, r) + [m, Done] && !m.Invoke?
  {
    assert Deferred(cx, r, false || PastCreate(s, Exit(s, r))) == [Done];
  }

  /** Calls the stages issue remove nothing. */
  lemma IssuedRemovesNothing(calls: Trace, s: Stage, cx: Context, r: Responses)
    requires forall ev :: ev in calls ==> IssuedCall(ev, s, cx, r)
    ensures !Removes(calls)
  {
  }

  /** Calls that remove nothing, a message and `Done` remove nothing. */
  lemma KeepsAfterCalls(t: Trace, calls: Trace, m: Event<ImageScanResults>)
    requires t == calls + [m, Done] && !Removes(calls) && !m.Invoke?
    ensures !Removes(t)
  {
    forall ev | ev in calls + [m, Done]
      ensures !(ev.Invoke? && IsRemoval(ev.call))
    {
      if ev !in calls {
        assert ev in [m, Done];
      }
    }
  }

  // ---------------------------------------------------------------------
  // What a whole scan does.

  /** Every scan sends exactly one message, an error or a result, and calls
      `wg.Done()` exactly once, last. It sends an error exactly when one of
      its stages fails, and then the error of the first that fails. */
  lemma ScanProtocol(image: string, token: string, noPull: bool, nanos: int, r: Responses)
    ensures var t := Expected(image, token, noPull, nanos, r);
      && Count(t, DoneKind) == 1 && t[|t| - 1] == Done
      && Messages(t) == 1
      && (Count(t, ErrorKind) == 1 <==> exists g :: Rank(First(noPull)) <= Rank(g) && Fails(g, r))
      && (Count(t, ResultKind) == 1 <==> forall g :: Rank(First(noPull)) <= Rank(g) ==> !Fails(g, r))
      && (Fails(Exit(First(noPull), r), r) ==>
            SendError(StageError(Exit(First(noPull), r), ScanContext(image, token, nanos), r)) in t)
  {
    var cx := ScanContext(image, token, nanos);
    FromClosedForm(First(noPull), cx, r, false);
    RunProtocol(First(noPull), cx, r, false);
  }

  /** The container and the built image are force-removed, as the last
      calls, exactly when every stage up to and including `Create`
      succeeds; a scan that stops earlier removes nothing. The removed image
      is the scan's tag. */
  lemma ScanCleanup(noPull: bool, cx: Context, r: Responses)
    ensures var t := From(First(noPull), cx, r, false);
      && (Removes(t) <==> PassesThrough(First(noPull), Create, r))
      && (Removes(t) ==>
            r.create.Success? && |t| >= 3 &&
            t[|t| - 3..] == [Invoke(ContainerRemove(r.create.value, true)), Invoke(ImageRemove(cx.tag, true)), Done])
  {
    ScanRemovesExactly(noPull, cx, r);
    if PassesThrough(First(noPull), Create, r) {
      ScanRemovalLast(noPull, cx, r);
    }
  }

  lemma ScanRemovesExactly(noPull: bool, cx: Context, r: Responses)
    ensures Removes(From(First(noPull), cx, r, false)) <==> PassesThrough(First(noPull), Create, r)
  {
    FromClosedForm(First(noPull), cx, r, false);
    RunCleanup(First(noPull), cx, r);
  }

  lemma ScanRemovalLast(noPull: bool, cx: Context, r: Responses)
    requires PassesThrough(First(noPull), Create, r)
    ensures var t := From(First(noPull), cx, r, false);
      r.create.Success? && |t| >= 3 &&
      t[|t| - 3..] == [Invoke(ContainerRemove(r.create.value, true)), Invoke(ImageRemove(cx.tag, true)), Done]
  {
    assert !Fails(Create, r);
    assert Cleanup(cx, r) + [Done] ==
      [Invoke(ContainerRemove(r.create.value, true)), Invoke(ImageRemove(cx.tag, true)), Done];
    ExitPastCreate(First(noPull), r);
    RunRemoves(First(noPull), cx, r);
    FromClosedForm(First(noPull), cx, r, false);
  }

  /** The calls of a run are those of its stages and of the removal, each
      with the arguments the context prescribes; only a run that starts
      with the pull pulls. */
  lemma RunCalls(s: Stage, cx: Context, r: Responses, registered: bool)
    ensures forall ev :: ev in Run(s, cx, r, registered) && ev.Invoke? ==>
      Conforms(ev.call, cx, r) && (ev.call.ImagePull? ==> s == Pull)
  {
    var e := Exit(s, r);
    var calls := IssuedThrough(s, e, cx, r);
    var tail := [ExitMessage(e, cx, r)] + Deferred(cx, r, registered || PastCreate(s, e));
    assert Run(s, cx, r, registered) == calls + tail;
    IssuedThroughCalls(s, e, cx, r);
    ExitCalls(e, cx, r, registered || PastCreate(s, e));
  }

  /** After the exit stage only the removal is called, with the
      container's ID and the tag. */
  lemma ExitCalls(e: Stage, cx: Context, r: Responses, registered: bool)
    requires Fails(e, r) || e == Decode
    ensures forall ev :: ev in [ExitMessage(e, cx, r)] + Deferred(cx, r, registered) && ev.Invoke? ==>
      Conforms(ev.call, cx, r) && !ev.call.ImagePull?
  {
    var tail := [ExitMessage(e, cx, r)] + Deferred(cx, r, registered);
    if registered {
      assert tail == [ExitMessage(e, cx, r)] + Cleanup(cx, r) + [Done];
    } else {
      assert tail == [ExitMessage(e, cx, r), Done];
    }
  }

  /** Every engine call of a scan carries the arguments its context
      prescribes: the target image is pulled, the packed archive is built
      with the tag and the token, the container is created from the tag and
      the tag is the image removed. A `--no-pull` scan pulls nothing; any
      other starts with the pull. */
  lemma ScanCalls(noPull: bool, cx: Context, r: Responses)
    ensures var t := From(First(noPull), cx, r, false);
      && (forall ev :: ev in t && ev.Invoke? ==> Conforms(ev.call, cx, r))
      && (noPull ==> forall ev :: ev in t && ev.Invoke? ==> !ev.call.ImagePull?)
      && (!noPull ==> t[0] == Invoke(ImagePull(cx.image, true)))
  {
    if !noPull {
      assert From(Pull, cx, r, false)[0] == Invoke(ImagePull(cx.image, true));
    }
    FromClosedForm(First(noPull), cx, r, false);
    RunCalls(First(noPull), cx, r, false);
  }

  /** A failed pull sends its wrapped error and ends the scan before any
      other call. */
  lemma PullFailure(cx: Context, r: Responses)
    requires r.pull.Failed?
    ensures From(First(false), cx, r, false) ==
      [Invoke(ImagePull(cx.image, true)), SendError(Wrap("error pulling image", r.pull.cause)), Done]
  {
  }

  /** When `ImageBuild` returns no error but reading its output or creating
      the container fails, no removal is issued: an image the build did tag
      stays on the engine. */
  lemma BuiltImageLeaks(noPull: bool, cx: Context, r: Responses)
    requires PassesThrough(First(noPull), Build, r)
    requires r.buildOutput.Failure? || r.create.Failure?
    ensures var t := From(First(noPull), cx, r, false);
      Invoke(ImageBuild(cx.archive, BuildOptionsFor(cx))) in t && !Removes(t)
  {
    var s := First(noPull);
    var e := Exit(s, r);
    assert Rank(Build) < Rank(e) <= Rank(Create) by {
      RankInjective(e, Decode);
      if r.buildOutput.Failure? {
        assert Fails(ReadBuildOutput, r);
      }
    }
    assert !PassesThrough(s, Create, r) by {
      if r.buildOutput.Failure? {
        assert Fails(ReadBuildOutput, r);
      } else {
        assert Fails(Create, r);
      }
    }
    IssuedThroughIncludes(s, Build, e, cx, r);
    ScanCleanup(noPull, cx, r);
    FromClosedForm(s, cx, r, false);
  }

  /** Past the demultiplexing, a decoding failure sends its wrapped error
      and no result; a decoded report is sent as the result, with the
      target image unless the report names one. */
  lemma DecodeOutcome(noPull: bool, cx: Context, r: Responses)
    requires PassesThrough(First(noPull), Demux, r)
    ensures var t := From(First(noPull), cx, r, false);
      r.decode.Failure? ==>
        SendError(Wrap("error decoding logs for scan container (" + cx.image + ")", r.decode.error)) in t
        && Count(t, ResultKind) == 0
    ensures var t := From(First(noPull), cx, r, false);
      r.decode.Success? ==>
        SendResult(ImageScanResults(r.decode.value.image.GetOr(cx.image), r.decode.value.summary)) in t
        && Count(t, ErrorKind) == 0
  {
    var s := First(noPull);
    if r.decode.Failure? {
      assert StageError(Decode, cx, r) == Wrap("error decoding logs for scan container (" + cx.image + ")", r.decode.error);
    } else {
      assert Result(cx, r) == ImageScanResults(r.decode.value.image.GetOr(cx.image), r.decode.value.summary);
    }
    assert Exit(s, r) == Decode by {
      var e := Exit(s, r);
      RankInjective(e, Decode);
      if Rank(e) <= Rank(Demux) {
        assert !Fails(e, r);
      }
    }
    RunDecodes(s, cx, r, false);
    FromClosedForm(s, cx, r, false);
  }

  /** A run whose every stage before `Decode` succeeds ends with the
      message of the decoding. */
  lemma RunDecodes(s: Stage, cx: Context, r: Responses, registered: bool)
    requires Exit(s, r) == Decode
    ensures var t := Run(s, cx, r, registered);
      && (r.decode.Failure? ==> SendError(StageError(Decode, cx, r)) in t && Count(t, ResultKind) == 0)
      && (r.decode.Success? ==> SendResult(Result(cx, r)) in t && Count(t, ErrorKind) == 0)
  {
    var m := ExitMessage(Decode, cx, r);
    assert m == if r.decode.Failure? then SendError(StageError(Decode, cx, r)) else SendResult(Result(cx, r));
    RunMessage(s, cx, r, registered);
  }

  /** What a scan does once its container exists, when every later stage
      succeeds: start the container, read its logs, send the result, then
      the deferred removal of the container and of the image, and `Done`. */
  function Completion(cx: Context, r: Responses): Trace
    requires r.decode.Success?
  {
    [Invoke(ContainerStart(ContainerId(r))),
     Invoke(ContainerLogs(ContainerId(r), true, false)),
     SendResult(Result(cx, r)),
     Invoke(ContainerRemove(ContainerId(r), true)),
     Invoke(ImageRemove(cx.tag, true)),
     Done]
  }

  /** From the start of the container on, a run whose every stage succeeds
      is the completion. */
  lemma SucceedsFromStart(cx: Context, r: Responses)
    requires PassesThrough(Start, Decode, r)
    ensures From(Start, cx, r, true) == Completion(cx, r)
  {
    var id := ContainerId(r);
    var last := [SendResult(Result(cx, r)), Invoke(ContainerRemove(id, true)), Invoke(ImageRemove(cx.tag, true)), Done];
    assert From(Decode, cx, r, true) == last by {
      assert !Fails(Decode, r);
    }
    assert From(Demux, cx, r, true) == last by {
      assert !Fails(Demux, r);
      Passes(Demux, cx, r, true);
    }
    assert From(Logs, cx, r, true) == [Invoke(ContainerLogs(id, true, false))] + last by {
      assert !Fails(Logs, r);
      Passes(Logs, cx, r, true);
    }
    assert From(Start, cx, r, true) == [Invoke(ContainerStart(id))] + ([Invoke(ContainerLogs(id, true, false))] + last) by {
      assert !Fails(Start, r);
      Passes(Start, cx, r, true);
    }
  }

  /** From the creation of the container on, when every later stage
      succeeds: create it, then the completion. */
  lemma SucceedsFromCreate(cx: Context, r: Responses)
    requires PassesThrough(Create, Decode, r)
    ensures From(Create, cx, r, false) == [Invoke(ContainerCreate(cx.tag, false))] + Completion(cx, r)
  {
    assert From(Create, cx, r, false) == [Invoke(ContainerCreate(cx.tag, false))] + From(Start, cx, r, true) by {
      assert !Fails(Create, r);
      Passes(Create, cx, r, false);
    }
    assert PassesThrough(Start, Decode, r);
    SucceedsFromStart(cx, r);
  }

  /** From the build on, when every later stage succeeds: build the scan
      image, create the container, then the completion. */
  lemma SucceedsFromBuild(cx: Context, r: Responses)
    requires PassesThrough(Build, Decode, r)
    ensures From(Build, cx, r, false) ==
      [Invoke(ImageBuild(cx.archive, BuildOptionsFor(cx))), Invoke(ContainerCreate(cx.tag, false))] + Completion(cx, r)
  {
    var build := Invoke(ImageBuild(cx.archive, BuildOptionsFor(cx)));
    var create := Invoke(ContainerCreate(cx.tag, false));
    var created := From(Create, cx, r, false);
    assert From(ReadBuildOutput, cx, r, false) == created by {
      assert !Fails(ReadBuildOutput, r);
      Passes(ReadBuildOutput, cx, r, false);
    }
    assert From(Build, cx, r, false) == [build] + created by {
      assert !Fails(Build, r);
      Passes(Build, cx, r, false);
    }
    assert created == [create] + Completion(cx, r) by {
      assert PassesThrough(Create, Decode, r);
      SucceedsFromCreate(cx, r);
    }
    assert [build] + ([create] + Completion(cx, r)) == [build, create] + Completion(cx, r);
  }

  /** When the template and its packing succeed, the run goes on to the build. */
  lemma PackingPasses(cx: Context, r: Responses)
    requires PassesThrough(ParseTemplate, Decode, r)
    ensures PassesThrough(Build, Decode, r)
    ensures From(ParseTemplate, cx, r, false) == From(Build, cx, r, false)
  {
    assert !Fails(ParseTemplate, r) && !Fails(ExecuteTemplate, r);
    assert !Fails(WriteHeader, r) && !Fails(WriteBody, r);
    PackingStages(cx, r);
  }

  /** A scan whose every stage succeeds: the optional pull, the build, the
      container's creation, start and logs, the result, then the removal of
      the container and of the image, in that order. */
  lemma ScanSucceeds(noPull: bool, cx: Context, r: Responses)
    requires PassesThrough(First(noPull), Decode, r)
    ensures From(First(noPull), cx, r, false) ==
      (if noPull then [] else [Invoke(ImagePull(cx.image, true))]) +
      ([Invoke(ImageBuild(cx.archive, BuildOptionsFor(cx))), Invoke(ContainerCreate(cx.tag, false))] + Completion(cx, r))
  {
    var built := From(Build, cx, r, false);
    assert PassesThrough(ParseTemplate, Decode, r);
    PackingPasses(cx, r);
    SucceedsFromBuild(cx, r);
    if noPull {
      assert [] + built == built;
    } else {
      assert From(Pull, cx, r, false) == [Invoke(ImagePull(cx.image, true))] + built by {
        assert !Fails(Pull, r);
        Passes(Pull, cx, r, false);
      }
    }
  }

  /** The scan context: the tag is `scan-<nanos>`; the archive holds one
      entry, `Dockerfile`, whose body is the recipe with the target image
      (escaped) and the tag substituted, and whose size is the recipe's
      length in UTF-8 bytes; an ordinary image name is substituted as it is. */
  lemma ScanArchive(image: string, token: string, nanos: int)
    ensures var cx := ScanContext(image, token, nanos);
      var recipe := Head + (Escape(image) + (Middle + (Tag(nanos) + Tail)));
      && cx.image == image && cx.token == token && cx.tag == Tag(nanos)
      && BuildOptionsFor(cx).tags == [Tag(nanos)]
      && cx.archive == [TarEntry("Dockerfile", Utf8Length(recipe), recipe)]
      && |recipe| <= cx.archive[0].size <= 4 * |recipe|
      && (Plain(image) ==> cx.archive[0].body == Head + (image + (Middle + (Tag(nanos) + Tail))))
  {
    RecipeForScan(image, nanos);
  }
}
