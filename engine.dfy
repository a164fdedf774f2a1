/** The Docker engine as the plugins see it: the API calls they make and
    the observable behaviour of one scan task. A task is modelled by its
    trace: the engine calls it issues, the messages it sends on the error
    and result channels, and the `wg.Done()` that ends it. What the engine
    answers is an input to each model, never computed. */
module Engine {

  /** An entry of the container list (`types.Container`); engine IDs are
      ASCII hex, so a character of `id` is one byte. */
  datatype Container = Container(id: string, image: string)

  /** One entry of a tar archive: the header's name and size, and the body. */
  datatype TarEntry = TarEntry(name: string, size: int, body: string)

  /** The fields of `types.ImageBuildOptions` that the scan sets. */
  datatype BuildOptions = BuildOptions(
    dockerfile: string,
    tags: seq<string>,
    pullParent: bool,
    noCache: bool,
    suppressOutput: bool,
    buildArgs: map<string, string>)

  datatype Call =
    | ContainerList(all: bool)
    | ContainerInspect(id: string)
    | ImagePull(ref: string, all: bool)
    | ImageBuild(context: seq<TarEntry>, options: BuildOptions)
    | ContainerCreate(image: string, tty: bool)
    | ContainerStart(id: string)
    | ContainerLogs(id: string, showStdout: bool, showStderr: bool)
    | ContainerRemove(id: string, force: bool)
    | ImageRemove(image: string, force: bool)

  /** What a task does, in order; `R` is the type sent on its result channel. */
  datatype Event<R> =
    | Invoke(call: Call)
    | SendError(error: string)
    | SendResult(result: R)
    | Done

  datatype Kind = CallKind | ErrorKind | ResultKind | DoneKind

  function KindOf<R>(e: Event<R>): Kind
  {
    match e
    case Invoke(_) => CallKind
    case SendError(_) => ErrorKind
    case SendResult(_) => ResultKind
    case Done => DoneKind
  }

  /** How many events of kind `k` the trace holds. */
  function Count<R>(t: seq<Event<R>>, k: Kind): (n: nat)
    ensures n <= |t|
  {
    if t == [] then 0
    else (if KindOf(t[0]) == k then 1 else 0) + Count(t[1..], k)
  }

  /** No event of kind `k` is counted exactly when the trace has none. */
  lemma {:induction false} CountZero<R>(t: seq<Event<R>>, k: Kind)
    ensures Count(t, k) == 0 <==> forall i :: 0 <= i < |t| ==> KindOf(t[i]) != k
    decreases |t|
  {
    if t != [] {
      CountZero(t[1..], k);
      if Count(t, k) == 0 {
        forall i | 0 <= i < |t|
          ensures KindOf(t[i]) != k
        {
          if i > 0 {
            assert t[i] == t[1..][i - 1];
          }
        }
      } else if KindOf(t[0]) != k {
        var j :| 0 <= j < |t[1..]| && KindOf(t[1..][j]) == k;
        assert t[j + 1] == t[1..][j];
      }
    }
  }

  /** Messages sent on either channel. */
  function Messages<R>(t: seq<Event<R>>): nat
  {
    Count(t, ErrorKind) + Count(t, ResultKind)
  }

  /** `errors.Wrap(cause, message)` as its `Error()` text. */
  function Wrap(message: string, cause: string): string
  {
    message + ": " + cause
  }

  /** Counting distributes over the concatenation of traces. */
  lemma {:induction false} CountAppend<R>(a: seq<Event<R>>, b: seq<Event<R>>, k: Kind)
    ensures Count(a + b, k) == Count(a, k) + Count(b, k)
    decreases |a|
  {
    if a != [] {
      CountAppend(a[1..], b, k);
      assert (a + b)[1..] == a[1..] + b;
      assert (a + b)[0] == a[0];
    } else {
      assert a + b == b;
    }
  }
}
