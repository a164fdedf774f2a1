/** The `images` and `containers` commands of `docker scan`: one scan task
    per target, a header, and a table row for each result a task sends.
    The tasks run concurrently in the program; here they run one after
    another in the order they are launched, which is one of the orders the
    program allows. `stdout` is the text handed to the tab writer. */
module Commands {
  import opened Wrappers
  import opened Engine
  import opened ContainerScan
  import opened ImageScan
  import opened Report

  /** Why a command returns an error without scanning. */
  datatype Rejection =
    | TooFewArguments         // `cli.RequiresMinArgs(1)` refused the arguments
    | ListFailed(error: string)  // the container list call failed

  /** What a command did: the tasks' events, what it printed, its error. */
  datatype CommandRun<R> = CommandRun(log: seq<Event<R>>, stdout: string, error: Option<Rejection>)

  /** The tasks' traces one after another. */
  function Flatten<R>(ts: seq<seq<Event<R>>>): seq<Event<R>>
  {
    if ts == [] then [] else Flatten(ts[..|ts| - 1]) + ts[|ts| - 1]
  }

  lemma FlattenSnoc<R>(ts: seq<seq<Event<R>>>, i: nat)
    requires i < |ts|
    ensures Flatten(ts[..i + 1]) == Flatten(ts[..i]) + ts[i]
  {
    assert ts[..i + 1][..i] == ts[..i];
  }

  /** When every task has exactly one event of kind `k`, all of them
      together have one per task. */
  lemma {:induction false} FlattenOnce<R>(ts: seq<seq<Event<R>>>, k: Kind)
    requires forall i :: 0 <= i < |ts| ==> Count(ts[i], k) == 1
    ensures Count(Flatten(ts), k) == |ts|
    decreases |ts|
  {
    if ts != [] {
      var n := |ts| - 1;
      FlattenOnce(ts[..n], k);
      CountAppend(Flatten(ts[..n]), ts[n], k);
    }
  }

  /** When every task sends exactly one message, all of them together send
      one per task. */
  lemma {:induction false} FlattenMessages<R>(ts: seq<seq<Event<R>>>)
    requires forall i :: 0 <= i < |ts| ==> Messages(ts[i]) == 1
    ensures Messages(Flatten(ts)) == |ts|
    decreases |ts|
  {
    if ts != [] {
      var n := |ts| - 1;
      FlattenMessages(ts[..n]);
      CountAppend(Flatten(ts[..n]), ts[n], ErrorKind);
      CountAppend(Flatten(ts[..n]), ts[n], ResultKind);
    }
  }

  /** One step of a command's launch loop: running task `i` after the
      first `i` appends its trace to the log, and writing its rows after the
      rows of the earlier tasks gives the rows of them all. */
  lemma TableStep<R>(scans: seq<seq<Event<R>>>, i: nat, log: seq<Event<R>>, task: seq<Event<R>>,
                     text: string, row: R -> string)
    requires i < |scans| && log == Flatten(scans[..i]) && task == scans[i]
    ensures log + task == Flatten(scans[..i + 1])
    ensures text + Concat(Rows(log, row)) + Concat(Rows(task, row)) == text + Concat(Rows(log + task, row))
  {
    FlattenSnoc(scans, i);
    RowsAppend(log, task, row);
    ConcatAppend(Rows(log, row), Rows(task, row));
  }

  // `docker scan images`

  /** The scans of `images`, in launch order; scan `i` reads the clock as
      `clock[i]` and gets the engine answers `answers[i]`. */
  function ImageScans(images: seq<string>, token: string, noPull: bool, clock: seq<int>, answers: seq<Responses>)
    : (ts: seq<ImageScan.Trace>)
    requires |clock| == |images| && |answers| == |images|
    ensures |ts| == |images|
  {
    seq(|images|, i requires 0 <= i < |images| => Expected(images[i], token, noPull, clock[i], answers[i]))
  }

  /** `images`: at least one argument, then one scan per argument, and a
      row on the images table for each result. */
  method ScanImages(images: seq<string>, token: string, noPull: bool, clock: seq<int>, answers: seq<Responses>)
    returns (run: CommandRun<ImageScanResults>)
    requires |clock| == |images| && |answers| == |images|
    ensures |images| < 1 ==> run == CommandRun([], "", Some(TooFewArguments))
    ensures |images| >= 1 ==>
      var log := Flatten(ImageScans(images, token, noPull, clock, answers));
      run == CommandRun(log, ImagesHeader + Concat(Rows(log, ImageRow)), None)
  {
    if |images| < 1 {
      return CommandRun([], "", Some(TooFewArguments));
    }
    ghost var scans := ImageScans(images, token, noPull, clock, answers);
    var log: ImageScan.Trace := [];
    var stdout := ImagesHeader;
    var i := 0;
    while i < |images|
      invariant 0 <= i <= |images|
      invariant log == Flatten(scans[..i])
      invariant stdout == ImagesHeader + Concat(Rows(log, ImageRow))
    {
      var task := ScanImage(images[i], token, noPull, clock[i], answers[i]);
      assert log + task == Flatten(scans[..i + 1])
        && stdout + Concat(Rows(task, ImageRow)) == ImagesHeader + Concat(Rows(log + task, ImageRow)) by {
        assert task == scans[i];
        TableStep(scans, i, log, task, ImagesHeader, ImageRow);
      }
      log := log + task;
      stdout := stdout + Concat(Rows(task, ImageRow));
      i := i + 1;
    }
    assert scans[..i] == scans;
    run := CommandRun(log, stdout, None);
  }

  /** One task is launched per argument: the log ends `wg.Done()` once per
      image and sends exactly one message per image, so the table gets a
      row for every image whose scan did not send an error. */
  lemma ImagesLaunch(images: seq<string>, token: string, noPull: bool, clock: seq<int>, answers: seq<Responses>)
    requires |clock| == |images| && |answers| == |images|
    ensures var t := Flatten(ImageScans(images, token, noPull, clock, answers));
      && Count(t, DoneKind) == |images|
      && Messages(t) == |images|
      && |Rows(t, ImageRow)| == |images| - Count(t, ErrorKind)
  {
    var scans := ImageScans(images, token, noPull, clock, answers);
    forall i | 0 <= i < |scans|
      ensures Count(scans[i], DoneKind) == 1 && Messages(scans[i]) == 1
    {
      ScanProtocol(images[i], token, noPull, clock[i], answers[i]);
    }
    FlattenOnce(scans, DoneKind);
    FlattenMessages(scans);
    RowsCount(Flatten(scans), ImageRow);
  }

  // `docker scan containers`

  /** The engine's inspect answers fit the list: one per container, and
      every container that inspects is at least 12 bytes long (engine IDs are ASCII). */
  predicate Inspectable(containers: seq<Container>, inspected: seq<Outcome<ContainerJSON>>)
  {
    |inspected| == |containers| &&
    forall i :: 0 <= i < |containers| && inspected[i].Success? ==> |containers[i].id| >= 12
  }

  /** The scans of `containers`, in list order. */
  function ContainerScans(containers: seq<Container>, inspected: seq<Outcome<ContainerJSON>>)
    : (ts: seq<ContainerScan.Trace>)
    requires Inspectable(containers, inspected)
    ensures |ts| == |containers|
  {
    seq(|containers|, i requires 0 <= i < |containers| => ContainerTrace(containers[i], inspected[i]))
  }

  /** How many inspections failed. */
  function FailedInspections(inspected: seq<Outcome<ContainerJSON>>): nat
  {
    if inspected == [] then 0
    else FailedInspections(inspected[..|inspected| - 1]) + (if inspected[|inspected| - 1].Failure? then 1 else 0)
  }

  /** `containers`: list every container (`All: true`); a failed list is
      the command's error and nothing is scanned or printed (the header is
      still in the tab writer's buffer, which is never flushed). Otherwise
      one scan per listed container and a row for each finding. */
  method ScanContainers(listed: Outcome<seq<Container>>, inspected: seq<Outcome<ContainerJSON>>)
    returns (run: CommandRun<ContainerScanResults>)
    requires listed.Success? ==> Inspectable(listed.value, inspected)
    ensures listed.Failure? ==>
      run == CommandRun([Invoke(ContainerList(true))], "", Some(ListFailed(listed.error)))
    ensures listed.Success? ==>
      var log := [Invoke(ContainerList(true))] + Flatten(ContainerScans(listed.value, inspected));
      run == CommandRun(log, ContainersHeader + Concat(Rows(log, ContainerRow)), None)
  {
    var list: ContainerScan.Trace := [Invoke(ContainerList(true))];
    if listed.Failure? {
      return CommandRun(list, "", Some(ListFailed(listed.error)));
    }
    var containers := listed.value;
    ghost var scans := ContainerScans(containers, inspected);
    var log: ContainerScan.Trace := [];
    var stdout := ContainersHeader;
    assert Rows(list, ContainerRow) == [];
    var i := 0;
    while i < |containers|
      invariant 0 <= i <= |containers|
      invariant log == Flatten(scans[..i])
      invariant stdout == ContainersHeader + Concat(Rows(log, ContainerRow))
    {
      var task := ScanContainer(containers[i], inspected[i]);
      assert log + task == Flatten(scans[..i + 1])
        && stdout + Concat(Rows(task, ContainerRow)) == ContainersHeader + Concat(Rows(log + task, ContainerRow)) by {
        assert task == scans[i];
        TableStep(scans, i, log, task, ContainersHeader, ContainerRow);
      }
      log := log + task;
      stdout := stdout + Concat(Rows(task, ContainerRow));
      i := i + 1;
    }
    assert scans[..i] == scans;
    RowsAppend(list, log, ContainerRow);
    assert Rows(list, ContainerRow) + Rows(log, ContainerRow) == Rows(log, ContainerRow);
    run := CommandRun(list + log, stdout, None);
  }

  /** One task is launched per listed container: one inspect and one
      `wg.Done()` each, an error for each failed inspection, at most one
      message per container, and a row for each finding. */
  lemma ContainersLaunch(containers: seq<Container>, inspected: seq<Outcome<ContainerJSON>>)
    requires Inspectable(containers, inspected)
    ensures var t := Flatten(ContainerScans(containers, inspected));
      && Count(t, DoneKind) == |containers|
      && Count(t, CallKind) == |containers|
      && Count(t, ErrorKind) == FailedInspections(inspected)
      && Messages(t) <= |containers|
      && |Rows(t, ContainerRow)| == Messages(t) - FailedInspections(inspected)
  {
    var scans := ContainerScans(containers, inspected);
    ContainersPrefix(containers, inspected, |containers|);
    assert scans[..|containers|] == scans;
    assert inspected[..|containers|] == inspected;
    RowsCount(Flatten(scans), ContainerRow);
  }

  /** The counts of `ContainersLaunch` for the first `i` scans. */
  lemma {:induction false} ContainersPrefix(containers: seq<Container>, inspected: seq<Outcome<ContainerJSON>>, i: nat)
    requires Inspectable(containers, inspected) && i <= |containers|
    ensures var t := Flatten(ContainerScans(containers, inspected)[..i]);
      && Count(t, DoneKind) == i
      && Count(t, CallKind) == i
      && Count(t, ErrorKind) == FailedInspections(inspected[..i])
      && Messages(t) <= i
    decreases i
  {
    var scans := ContainerScans(containers, inspected);
    if i > 0 {
      var n := i - 1;
      assert inspected[..i][..n] == inspected[..n];
      ContainersPrefix(containers, inspected, n);
      FlattenSnoc(scans, n);
      var front := Flatten(scans[..n]);
      var last := scans[n];
      ContainerTraceProtocol(containers[n], inspected[n]);
      CountAppend(front, last, DoneKind);
      CountAppend(front, last, CallKind);
      CountAppend(front, last, ErrorKind);
      CountAppend(front, last, ResultKind);
    }
  }
}
