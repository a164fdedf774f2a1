/** `docker scan containers`, one task: inspect a container, look for the
    risk signals in its host configuration and report a finding only when
    one of privileged mode, added capabilities or publish-all-ports fired.
    Host bind mounts are recorded in the finding but never trigger one. */
module ContainerScan {
  import opened Wrappers
  import opened Text
  import opened Engine

  /** The parts of `container.HostConfig` that the scan reads. */
  datatype HostConfig = HostConfig(
    privileged: bool,
    capAdd: seq<string>,
    binds: seq<string>,
    publishAllPorts: bool)

  /** The parts of the inspect response (`types.ContainerJSON`) that the scan reads. */
  datatype ContainerJSON = ContainerJSON(running: bool, hostConfig: HostConfig)

  /** `containerScanResults`; an unset (nil) slice is the empty sequence. */
  datatype ContainerScanResults = ContainerScanResults(
    id: string,
    image: string,
    running: bool,
    privileged: bool,
    publishAllPorts: bool,
    hostMounts: seq<string>,
    capAdd: seq<string>)

  type Trace = seq<Event<ContainerScanResults>>

  /** A bind `src:dst` names a host path: exactly two `:`-separated parts
      and a source whose first `/` is at position 0. */
  predicate IsHostBind(bind: string)
  {
    var parts := Split(bind, ':');
    |parts| == 2 && IndexOf(parts[0], '/') == 0
  }

  function BindSource(bind: string): string
  {
    Split(bind, ':')[0]
  }

  /** The sources of the host binds, in the order of `binds`. */
  function HostMounts(binds: seq<string>): seq<string>
  {
    if binds == [] then []
    else (if IsHostBind(binds[0]) then [BindSource(binds[0])] else []) + HostMounts(binds[1..])
  }

  /** The signals that make the scan report a container. */
  predicate Alert(hc: HostConfig)
  {
    hc.privileged || |hc.capAdd| > 0 || hc.publishAllPorts
  }

  /** The finding reported for a container whose inspection succeeded: the
      12-byte ID prefix, the listed image, the inspected state and flags,
      the capabilities as configured, and the host mounts, which are
      absolute paths, at most one per bind. */
  function Finding(c: Container, info: ContainerJSON): (f: ContainerScanResults)
    requires |c.id| >= 12
    ensures |f.id| == 12 && f.id == c.id[..12] && f.image == c.image && f.running == info.running
    ensures f.privileged == info.hostConfig.privileged && f.publishAllPorts == info.hostConfig.publishAllPorts
    ensures f.capAdd == info.hostConfig.capAdd
    ensures Alert(info.hostConfig) <==> f.privileged || |f.capAdd| > 0 || f.publishAllPorts
    ensures |f.hostMounts| <= |info.hostConfig.binds|
    ensures forall i :: 0 <= i < |f.hostMounts| ==>
      |f.hostMounts[i]| > 0 && f.hostMounts[i][0] == '/' && ':' !in f.hostMounts[i]
  {
    var hc := info.hostConfig;
    HostMountsAbsolute(hc.binds);
    ContainerScanResults(c.id[..12], c.image, info.running, hc.privileged,
                         hc.publishAllPorts, HostMounts(hc.binds), hc.capAdd)
  }

  /** What one task does: inspect, then at most one message, then `Done`. */
  function ContainerTrace(c: Container, inspected: Outcome<ContainerJSON>): Trace
    requires inspected.Success? ==> |c.id| >= 12
  {
    [Invoke(ContainerInspect(c.id))] +
    (match inspected
     case Failure(e) => [SendError(e)]
     case Success(info) =>
       if Alert(info.hostConfig) then [SendResult(Finding(c, info))] else []) +
    [Done]
  }

  /** `scanContainer`: `inspected` is the engine's answer to the inspect call. */
  method ScanContainer(c: Container, inspected: Outcome<ContainerJSON>) returns (trace: Trace)
    requires inspected.Success? ==> |c.id| >= 12
    ensures trace == ContainerTrace(c, inspected)
  {
    var alert := false;
    trace := [Invoke(ContainerInspect(c.id))];
    if inspected.Failure? {
      trace := trace + [SendError(inspected.error), Done];
      return;
    }
    var info := inspected.value;
    var hc := info.hostConfig;
    var res := ContainerScanResults(c.id[..12], c.image, info.running, false, false, [], []);
    if hc.privileged {
      alert := true;
      res := res.(privileged := true);
    }
    if |hc.capAdd| > 0 {
      alert := true;
      res := res.(capAdd := hc.capAdd);
    }
    if |hc.binds| > 0 {
      var binds := CollectHostMounts(hc.binds);
      res := res.(hostMounts := binds);
    }
    if hc.publishAllPorts {
      alert := true;
      res := res.(publishAllPorts := true);
    }
    assert alert == Alert(hc);
    assert res == Finding(c, info);
    if !alert {
      trace := trace + [Done];
      return;
    }
    trace := trace + [SendResult(res), Done];
  }

  /** The loop over `Binds`: keep the source of each two-part bind whose
      source starts with `/`, in order. */
  method CollectHostMounts(binds: seq<string>) returns (mounts: seq<string>)
    ensures mounts == HostMounts(binds)
  {
    mounts := [];
    var i := 0;
    while i < |binds|
      invariant 0 <= i <= |binds|
      invariant mounts == HostMounts(binds[..i])
    {
      HostMountsAppend(binds[..i], [binds[i]]);
      assert binds[..i + 1] == binds[..i] + [binds[i]];
      var parts := Split(binds[i], ':');
      if |parts| == 2 {
        var source := parts[0];
        if IndexOf(source, '/') == 0 {
          mounts := mounts + [source];
        }
      }
      i := i + 1;
    }
    assert binds[..i] == binds;
  }

  /** One inspect call, one `Done` at the end, at most one message: an error
      exactly when the inspection failed, a finding exactly when it
      succeeded and a signal fired. */
  lemma ContainerTraceProtocol(c: Container, inspected: Outcome<ContainerJSON>)
    requires inspected.Success? ==> |c.id| >= 12
    ensures var t := ContainerTrace(c, inspected);
      && t[0] == Invoke(ContainerInspect(c.id))
      && Count(t, CallKind) == 1
      && Count(t, DoneKind) == 1 && t[|t| - 1] == Done
      && Messages(t) <= 1
      && (Count(t, ErrorKind) == 1 <==> inspected.Failure?)
      && (Count(t, ResultKind) == 1 <==> inspected.Success? && Alert(inspected.value.hostConfig))
  {
    var middle: Trace := match inspected
      case Failure(e) => [SendError(e)]
      case Success(info) =>
        if Alert(info.hostConfig) then [SendResult(Finding(c, info))] else [];
    var first: Trace := [Invoke(ContainerInspect(c.id))];
    var last: Trace := [Done];
    var t := ContainerTrace(c, inspected);
    assert t == first + middle + last;
    forall k: Kind
      ensures Count(t, k) == Count(first, k) + Count(middle, k) + Count(last, k)
    {
      CountAppend(first, middle, k);
      CountAppend(first + middle, last, k);
    }
    assert Count(first, CallKind) == 1 && Count(last, DoneKind) == 1;
    assert Count(first, ErrorKind) == Count(last, ErrorKind) == 0;
    assert Count(first, ResultKind) == Count(last, ResultKind) == 0;
    assert Count(first, DoneKind) == Count(last, CallKind) == 0;
    assert Count(middle, CallKind) == Count(middle, DoneKind) == 0;
    assert Count(middle, ErrorKind) == (if inspected.Failure? then 1 else 0);
    assert Count(middle, ResultKind) == (if inspected.Success? && Alert(inspected.value.hostConfig) then 1 else 0);
  }

  lemma {:induction false} HostMountsAppend(a: seq<string>, b: seq<string>)
    ensures HostMounts(a + b) == HostMounts(a) + HostMounts(b)
    decreases |a|
  {
    if a == [] {
      assert a + b == b;
    } else {
      var m := if IsHostBind(a[0]) then [BindSource(a[0])] else [];
      var ma, mb := HostMounts(a[1..]), HostMounts(b);
      assert HostMounts(a + b) == m + HostMounts(a[1..] + b) by {
        assert (a + b)[1..] == a[1..] + b;
        assert (a + b)[0] == a[0];
      }
      assert HostMounts(a[1..] + b) == ma + mb by {
        HostMountsAppend(a[1..], b);
      }
      assert HostMounts(a) == m + ma;
      assert m + (ma + mb) == (m + ma) + mb;
    }
  }

  /** A bind is kept exactly when it has one `:` and starts with `/`. */
  lemma HostBindCharacterization(bind: string)
    ensures IsHostBind(bind) <==> Occurrences(bind, ':') == 1 && |bind| > 0 && bind[0] == '/'
    ensures IsHostBind(bind) ==> Join([BindSource(bind), Split(bind, ':')[1]], ":") == bind
  {
    var parts := Split(bind, ':');
    if |parts| == 2 && |bind| > 0 && bind[0] == '/' {
      assert IndexOf(parts[0], '/') == 0;
    }
    if IsHostBind(bind) {
      JoinSplit(bind, ':');
    }
  }

  /** The kept sources are exactly the sources of the host binds. */
  lemma {:induction false} HostMountsMembership(binds: seq<string>, s: string)
    ensures s in HostMounts(binds) <==> exists b :: b in binds && IsHostBind(b) && BindSource(b) == s
    decreases |binds|
  {
    if binds != [] {
      HostMountsMembership(binds[1..], s);
      if s in HostMounts(binds[1..]) {
        var b :| b in binds[1..] && IsHostBind(b) && BindSource(b) == s;
        assert b in binds;
      }
      if exists b :: b in binds && IsHostBind(b) && BindSource(b) == s {
        var b :| b in binds && IsHostBind(b) && BindSource(b) == s;
        if b != binds[0] {
          assert b in binds[1..];
        }
      }
    }
  }

  /** Every kept source is an absolute path with no `:` in it. */
  lemma {:induction false} HostMountsAbsolute(binds: seq<string>)
    ensures |HostMounts(binds)| <= |binds|
    ensures forall i :: 0 <= i < |HostMounts(binds)| ==>
      var m := HostMounts(binds)[i]; |m| > 0 && m[0] == '/' && ':' !in m
    decreases |binds|
  {
    if binds != [] {
      HostMountsAbsolute(binds[1..]);
      if IsHostBind(binds[0]) {
        var parts := Split(binds[0], ':');
        assert IndexOf(parts[0], '/') == 0;
      }
    }
  }

  /** A `src:dst` bind is kept exactly when `src` starts with `/`
      (`/host/path:/container/path` is, `relative:/container/path` is not),
      and then its source is `src`. */
  lemma TwoPartBind(src: string, dst: string)
    requires ':' !in src && ':' !in dst
    ensures IsHostBind(src + ":" + dst) <==> |src| > 0 && src[0] == '/'
    ensures BindSource(src + ":" + dst) == src
  {
    SplitJoin([src, dst], ':');
    assert Join([src, dst], ":") == src + ":" + dst;
    if |src| > 0 && src[0] == '/' {
      assert IndexOf(src, '/') == 0;
    }
  }

  /** A spec with three parts, such as `/a:/b:ro`, is skipped. */
  lemma ThreePartBindSkipped(src: string, dst: string, mode: string)
    requires ':' !in src && ':' !in dst && ':' !in mode
    ensures !IsHostBind(src + ":" + dst + ":" + mode)
  {
    var parts := [src, dst, mode];
    SplitJoin(parts, ':');
    assert parts[1..] == [dst, mode] && [dst, mode][1..] == [mode];
    assert Join([dst, mode], ":") == dst + ":" + mode;
    assert Join(parts, ":") == src + ":" + (dst + ":" + mode);
    assert src + ":" + (dst + ":" + mode) == src + ":" + dst + ":" + mode;
  }

  /** A spec without `:` is skipped. */
  lemma OnePartBindSkipped(spec: string)
    requires ':' !in spec
    ensures !IsHostBind(spec)
  {
    SplitWithoutSeparator(spec, ':');
  }

  /** Host mounts alone never make a container reported, whatever they are. */
  lemma BindsNeverTrigger(c: Container, running: bool, binds: seq<string>)
    requires |c.id| >= 12
    ensures Count(ContainerTrace(c, Success(ContainerJSON(running, HostConfig(false, [], binds, false)))), ResultKind) == 0
  {
  }
}
