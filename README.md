# cli-plugins scan and dashboard core, modelled in Dafny

This project models the core of two Docker CLI plugins:

- `docker scan` (`docker-scan/`):
  - `scanContainer` inspects one container and classifies its risks.
  - `scanImage` builds a scanner image around a target image, runs it and collects its report.
  - The header and row lines of the two report tables.
  - The `images` and `containers` commands, which launch one task per target.
- `docker dashboard` (`docker-dashboard/`): the containers panel text (`getContainersText`) and the swarm panel text (`getSwarmInfoText`).

A scan task is modelled by its **trace**: the engine calls it issues, the messages it sends on the error and result channels, and the `wg.Done()` that ends it. What the engine answers (inspect results, pull or build failures, the created container's ID, the decoded report) is an input, never computed.

Modules, one file each:

- `wrappers.dfy`: `Option`, `Outcome` (value or error) and `Status` (ok or failed with a cause).
- `text.dfy`: Go's `strings.Split`, `strings.Join` and `strings.Index`, `%d`, and the UTF-8 byte length.
- `engine.dfy`: the engine calls, trace events and counting.
- `container.dfy`: `scanContainer` as a method. Its loop over `Binds` is proved against the function `HostMounts`.
- `recipe.dfy`: the `scanTemplate` Dockerfile template, with html/template's text escaping, and the `scan-<nanos>` tag.
- `image.dfy`: `scanImage` as a chain of methods with early returns. It is proved equal to a stage machine `From` (pull, parse, execute, write header, write body, build, read build output, create, start, logs, demux, decode). `From` is proved equal to a closed form `Run`, and the protocol lemmas are proved on `Run`.
- `report.dfy`: the table headers and rows, each proved to read back.
- `commands.dfy`: the `images` and `containers` commands.
- `dashboard.dfy`: the two dashboard panels.

The tasks of a command run concurrently in the program. Here they run one after another, in launch order, which is one of the interleavings the program allows.

Behaviour of the code that the model keeps:

- Host bind mounts are recorded in a container's finding, and they never trigger a finding on their own (`docker-scan/container.go:48-72`).
- A failed inspection sends the engine's error unchanged (`docker-scan/container.go:27-31`).
- The removal of the scan container and of the built image is registered only once `ContainerCreate` succeeds (`docker-scan/image.go:131-134`). If `ImageBuild` returns no error but reading the build output or creating the container fails, no removal is issued, so an image the build did tag stays on the engine (`ImageScan.BuiltImageLeaks`). A nil error from `ImageBuild` does not mean the tag exists: a failing Dockerfile step is reported inside the build output, and `ContainerCreate` then fails on the missing tag (`docker-scan/image.go:116-128`).
- When `containers` cannot list the containers, it returns before `tw.Flush()`, so nothing is printed, not even the header (`docker-scan/main.go:121-124`).

## Model

| member | source | states |
|---|---|---|
| ContainerScan.ScanContainer | docker-scan/container.go:22-73 | The task is the inspect call, then exactly one of: the inspect error; the finding, when privileged, added capabilities or publish-all-ports fired; or nothing. `Done` comes last. The finding has the 12-byte ID prefix, the list entry's image, the inspected running state, both flags as configured, `CapAdd` verbatim and the host mounts. |
| ContainerScan.Finding | docker-scan/container.go:32-67 | The finding carries the 12-byte ID prefix, the listed image, the inspected running state, the privileged and publish-all-ports flags and `CapAdd` as configured. It shows a signal exactly when the configuration fired one. Its host mounts are absolute paths without `:`, at most one per bind. |
| ContainerScan.CollectHostMounts | docker-scan/container.go:48-62 | The loop over `Binds` returns `HostMounts(binds)`: the source of every two-part bind whose source starts with `/`, in the order of `Binds`. |
| ContainerScan.ContainerTraceProtocol | docker-scan/container.go:22-73 | One inspect call, first. One `Done`, last. At most one message. An error exactly when the inspection failed. A result exactly when it succeeded and a signal fired. |
| ContainerScan.HostMountsAppend | docker-scan/container.go:50-60 | The mounts of two bind lists one after the other are the mounts of the first followed by those of the second, so order is kept. |
| ContainerScan.HostBindCharacterization | docker-scan/container.go:51-57 | A bind is kept exactly when it has one `:` and starts with `/`. The kept source joined with `:` to the rest gives back the bind. |
| ContainerScan.HostMountsMembership | docker-scan/container.go:50-61 | A path is among the host mounts exactly when some kept bind has it as its source. |
| ContainerScan.HostMountsAbsolute | docker-scan/container.go:56-59 | There are at most as many mounts as binds. Every mount is non-empty, starts with `/` and holds no `:`. |
| ContainerScan.TwoPartBind | docker-scan/container.go:51-59 | `src:dst` is kept exactly when `src` starts with `/`, and then its source is `src`. |
| ContainerScan.ThreePartBindSkipped | docker-scan/container.go:51-54 | A three-part spec such as `/a:/b:ro` is skipped. |
| ContainerScan.OnePartBindSkipped | docker-scan/container.go:51-54 | A spec without `:` is skipped. |
| ContainerScan.BindsNeverTrigger | docker-scan/container.go:48-71 | With no other signal, any binds at all produce no result. |
| Recipe.EscapePlain | docker-scan/image.go:78 | A value with none of html/template's special characters is substituted unchanged. |
| Recipe.FiveSegments | docker-scan/image.go:22-31 | For a template of text, `{{.Image}}`, text, `{{.BuildImage}}`, text: its source is the texts around the two actions, and executing it puts the escaped fields in their places. |
| Recipe.RenderSubstitutes | docker-scan/image.go:22-31 | `scanTemplate` is the fixed text around `{{.Image}}` and `{{.BuildImage}}`. `Render` (the template executed at `docker-scan/image.go:77-78`) replaces each action by its escaped field. |
| Recipe.TagProperties | docker-scan/image.go:75 | `Tag` is `scan-` followed by the clock reading in decimal, which reads back as the reading. Distinct readings give distinct tags. A tag needs no escaping. |
| Recipe.RecipeForScan | docker-scan/image.go:75-78 | The recipe is the fixed text with the (escaped) image after the second `FROM` and the tag as the stage name. An ordinary image name appears as it is. |
| ImageScan.PackRecipe | docker-scan/image.go:77-94 | Packing fails exactly when executing the template, writing the header or writing the body fails, with the first such error unwrapped. Otherwise the archive is the build context. |
| ImageScan.ScanImage | docker-scan/image.go:53-166 | The trace of `scanImage` is the stage machine from the first stage, in the context of the image, token and `scan-<nanos>` tag. |
| ImageScan.PrepareScanImage | docker-scan/image.go:56-61 | The optional pull; a failed pull sends the wrapped error and ends the task. |
| ImageScan.PackScanRecipe | docker-scan/image.go:63-94 | From parsing the template on, the trace is the stage machine from `ParseTemplate`. |
| ImageScan.BuildScanImage | docker-scan/image.go:95-120 | From the build on, the trace is the stage machine from `Build`. |
| ImageScan.RunScanContainer | docker-scan/image.go:122-139 | From the creation on, the trace is the stage machine from `Create`. The removal is registered once the container exists. |
| ImageScan.ReadScanResults | docker-scan/image.go:141-165 | From the logs on, the trace is the stage machine from `Logs`. The result has the target image unless the report names one, and the decoded summary. |
| ImageScan.PackingStages | docker-scan/image.go:77-94 | Past a parsed template, the packing stages send the first packing error, or lead on to the build. |
| ImageScan.BuildStages | docker-scan/image.go:96-120 | The build call. A failed build sends the wrapped error. A failed read of the build output sends its error. Otherwise the run goes on to the creation. |
| ImageScan.FromClosedForm | docker-scan/image.go:53-166 | The stage machine equals its closed form: the calls of the stages through the first failing one (or `Decode`), that stage's one message, and the deferred calls. |
| ImageScan.RunProtocol | docker-scan/image.go:53-166 | A run sends exactly one message and ends with its only `Done`. It sends an error exactly when some stage fails, and the result exactly when none does. |
| ImageScan.RunCleanup | docker-scan/image.go:123-134 | A run removes something exactly when every stage through `Create` succeeds. Then the container removal, the image removal and `Done` are its last three events. |
| ImageScan.ScanProtocol | docker-scan/image.go:53-166 | Every scan sends exactly one message, an error or a result, and calls `wg.Done()` exactly once, last. It sends an error exactly when a stage fails, and that error is the first failing stage's. |
| ImageScan.ScanCleanup | docker-scan/image.go:111-134 | Both removals are forced and come last. They happen exactly when every stage through `Create` succeeds. The container removed is the created one and the image removed is the tag. |
| ImageScan.ScanRemovesExactly | docker-scan/image.go:123-134 | A scan removes something exactly when every stage through `Create` succeeds. |
| ImageScan.ScanRemovalLast | docker-scan/image.go:131-134 | Once `Create` has succeeded, the scan ends with the forced removal of the created container, then of the tag, then `Done`. |
| ImageScan.ScanCalls | docker-scan/image.go:56-133 | Every call carries the context's values: the pulled image is the target, the build has the archive, the tag and the token, and the created container's image and the removed image are the tag. `--no-pull` pulls nothing; otherwise the pull comes first. |
| ImageScan.PullFailure | docker-scan/image.go:56-61 | A failed pull sends `error pulling image: <cause>` and ends the scan before any other call. |
| ImageScan.BuiltImageLeaks | docker-scan/image.go:111-134 | When `ImageBuild` was called and returned no error but reading its output or creating the container fails, no removal is issued, so an image the build did tag stays on the engine. |
| ImageScan.DecodeOutcome | docker-scan/image.go:158-165 | Past the demux, a decode failure sends the wrapped error and no result. A decoded report is sent as the result: its image is the target unless the report names one, and its summary is the report's. |
| ImageScan.SucceedsFromStart | docker-scan/image.go:131-165 | With every later stage succeeding, the run from the start is: start, logs, result, container removal, image removal, `Done`. |
| ImageScan.SucceedsFromCreate | docker-scan/image.go:122-165 | With every later stage succeeding, the run from the creation is the creation from the tag, then as from the start. |
| ImageScan.SucceedsFromBuild | docker-scan/image.go:95-165 | With every later stage succeeding, the run from the build is the build, then as from the creation. |
| ImageScan.ScanSucceeds | docker-scan/image.go:53-166 | A scan in which every stage succeeds: the optional pull, build, create, start, logs, result, then the two removals and `Done`, in that order. |
| ImageScan.ScanArchive | docker-scan/image.go:75-101 | States what `BuildContext` and `ScanContext` build. The tag is `scan-<nanos>` and is the only build tag. The archive has one entry, `Dockerfile`, holding the recipe, whose size is the recipe's UTF-8 length. |
| Text.Utf8Length | docker-scan/image.go:85 | The byte length of a string lies between its length and four times its length, and equals its length for ASCII text. |
| Text.IntToDecRoundTrip | docker-scan/main.go:56-63 | `%d` output reads back as the same integer. |
| Report.ImagesHeaderColumns | docker-scan/main.go:36 | The `images` header is the columns ID, TOTAL, LOW, MEDIUM, HIGH and MALWARE, each followed by a tab. |
| Report.ContainersHeaderColumns | docker-scan/main.go:87 | The `containers` header is the columns ID, IMAGE, RUNNING, PRIVILEGED, PUBLISHEDALLPORTS, HOSTMOUNTS and CAPADD, each followed by a tab. |
| Report.ImageRow | docker-scan/main.go:56-63 | A row is one newline-terminated line. When the image name holds no tab, it splits at its tabs into exactly the six printed fields. |
| Report.ImageRowRoundTrip | docker-scan/main.go:56-63 | An image row reads back as the image, total, low, medium, high and malware counts. Negligible and sensitive are not printed. |
| Report.CapsRoundTrip | docker-scan/main.go:107 | The comma-joined capabilities read back as the list. |
| Report.ContainerRow | docker-scan/main.go:107-116 | A row is one newline-terminated line. When no field holds a tab, it splits at its tabs into the seven printed fields and an empty piece after the last tab. |
| Report.ContainerRowRoundTrip | docker-scan/main.go:107-116 | A container row reads back as ID, image, the three flags, the number of host mounts (not the paths) and the capabilities. |
| Report.RowsCount | docker-scan/main.go:52-66 | The table gets exactly one row per result sent. |
| Report.RowsAppend | docker-scan/main.go:103-118 | The rows of two logs one after the other are the rows of the first followed by those of the second. |
| Commands.ScanImages | docker-scan/main.go:27-76 | Fewer than one argument is refused. Otherwise the log is the scans of the arguments in launch order, and the output is the header followed by one row per result, for runs whose rows are all written before the flush. |
| Commands.ImagesLaunch | docker-scan/main.go:68-71 | One task per image: one `Done` and one message per image. There is a row for every image whose scan did not send an error. |
| Commands.ScanContainers | docker-scan/main.go:78-134 | The containers are listed with `All: true`. A failed list is the command's error: no task runs and nothing is printed. Otherwise there is one scan per container and the output is the header followed by a row per finding, for runs whose rows are all written before the flush. |
| Commands.ContainersLaunch | docker-scan/main.go:126-129 | One task per listed container: one inspect and one `Done` each. There is one error per failed inspection, at most one message per container, and a row for every finding. |
| Dashboard.ContainerLines | docker-dashboard/main.go:78-81 | One line per container, in input order, line `i` being the line of container `i`. |
| Dashboard.ContainersText | docker-dashboard/main.go:77-84 | The appending loop produces the container lines joined with newlines. |
| Dashboard.ContainerLineFields | docker-dashboard/main.go:80 | A line is `ID: `, the first 12 bytes of the ID (engine IDs are ASCII), ` Image: `, then the image. |
| Dashboard.ContainersTextEmpty | docker-dashboard/main.go:78-83 | The panel is empty exactly when there are no containers. |
| Dashboard.ContainersTextLines | docker-dashboard/main.go:77-84 | Splitting the panel at newlines gives one line per container and no trailing empty line. |
| Dashboard.SwarmInfoText | docker-dashboard/main.go:86-98 | The panel says `Swarm not active` exactly when the node ID is empty. Otherwise it ends in a newline. |
| Dashboard.SwarmInfoTextRoundTrip | docker-dashboard/main.go:86-98 | The swarm panel reads back as inactive for an empty node ID. Otherwise it reads back as the node ID, address, state, managers and nodes, in that order. |

## Left out

- The tasks run concurrently (goroutines, the `sync.WaitGroup`, the result and error channels and their consumer loops). The model runs them in launch order, one after another, so other arrival orders of rows and errors are not modelled.
- Output can be lost in the program. A task's `wg.Done()` (deferred, `docker-scan/container.go:23`) can run before the consumer has written the row for the result that task just sent (`docker-scan/container.go:72`, `docker-scan/main.go:52-66` and `103-118`). Then `wg.Wait()` returns and `tw.Flush()` runs (`docker-scan/main.go:73-75` and `131-133`) before that write, so the row is never printed. The late write also races with `Flush` on the tab writer. Errors printed to stderr after the command returns can be lost the same way.
- Commands.ScanImages: its output, the header followed by one row per result, is what is printed only when the consumer has written every row before `tw.Flush()`; a run that loses its last rows is not modelled.
- Commands.ScanContainers: its output, the header followed by one row per finding, is what is printed only when the consumer has written every row before `tw.Flush()`; a run that loses its last rows is not modelled.
- Errors are printed to stderr by a consumer that busy-waits on its channel. The model keeps them as `SendError` events in the log and does not model the printing.
- The Docker engine is not modelled. Its answers are inputs: the responses of every image-scan stage, the inspect outcomes and the list outcome. The results of the removal calls are ignored by the code and are not modelled. Whether a build that returned no error actually tagged an image is engine state and is not modelled. `ContainerJSON` assumes the inspected `State` and `HostConfig` are present; the code dereferences both pointers (`docker-scan/container.go:35` and `38`) and would panic on a nil one.
- `time.Now().UnixNano()` is a parameter. Tags are not unique across concurrent runs with the same reading; only distinct readings are proved to give distinct tags.
- The tar encoding and its trailer, the `stdcopy` demultiplexing and JSON decoding are not modelled at the byte level. Decoding is an input outcome: a summary plus an optional `Image` value, which stands for the decoder matching keys without regard to case.
- The template parse of the fixed text never fails in practice. Its failure path is still an input stage, as the code has it.
- `tabwriter` alignment and padding are left out. A command's output is the text handed to the tab writer, and the error returned by `tw.Flush()` is not modelled.
- Summary counts are Go `int` and the tar size is `int64`. Both are unbounded integers here.
- `Close` calls on the tar writer and on the build response body are left out.
- Cobra wiring, flags, `PersistentPreRunE`, the root command's usage, the plugin metadata and `logrus.SetLevel` are left out. The message of `cli.RequiresMinArgs(1)` is reduced to `TooFewArguments`.
- Strings are sequences of code points, while Go strings are bytes. An image name holding invalid UTF-8 passes `html/template` unchanged and counts one byte per byte; `Recipe.Escape` and `Text.Utf8Length` cannot express such a name.
- `c.ID[:12]` panics on a shorter ID. The model requires IDs of at least 12 bytes where the code slices them. Go slices bytes and the model slices characters; the two agree because engine IDs are ASCII.
- The dashboard's `getInfoText`, `getEventText` and `update`, its termui render loop and `main`, and the `docker-hello` plugin are not part of this model: clocks, floating point and global widgets.
- Report.ImageRowRoundTrip: stated only for image names without a tab, since a tab in the name prints as an extra column.
- Report.ContainerRowRoundTrip: stated only for an ID, an image and capabilities without tabs, and capabilities without commas that are not a single empty name. Otherwise the printed columns are ambiguous.
- Report.CapsRoundTrip: stated only for capabilities without commas that are not a single empty name, since `[""]` prints like no capability.
- Dashboard.ContainersTextLines: stated only for a non-empty list whose short IDs and images hold no newline.
- Dashboard.SwarmInfoTextRoundTrip: stated only when the node ID, address and state hold no newline.
