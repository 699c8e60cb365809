# elmboard backend core, modelled in Dafny

elmboard is a dashboard server. Its Python backend has three parts, and this project models them:

- **The dashboard registry.** `DashboardsWatcher` in `backend-py3/dashboards_watcher.py` scans the watched directories for dashboard files. A dashboard file is a regular `.py` file whose stem does not start with `_`. The watcher imports each such file as module `dashboard.<stem>` and keeps a map from stem to `{path, module}`. Filesystem events (create, close-after-write, delete, move) keep that map current.
- **The websocket subscription bookkeeping.** The `Dashboards` class in `backend-py3/server.py` handles a websocket that selects a dashboard. For that socket it starts one producer task per graph of the dashboard. Each task's updates are tagged with `message='graph'`, the dashboard name and the graph index before they are sent. Unselecting the dashboard, or selecting another one, cancels the socket's tasks. `clean_dashboards_json_for_frontend` gives the frontend each dashboard's `info`.
- **The Jenkins poller.** `backend-py3/plugins/jenkins.py` has a polling loop that walks every build of every job. It turns Jenkins' raw build data into a record with a status and start and end times. It keeps a cache keyed by (job name, build number) and sends a record to its target the first time it sees a build.

Module layout:

- `common.dfy` (`Common`): `Option`, `Result`, Python's string order `<`, the concatenation of a sequence of sequences.
- `path_names.dfy` (`PathNames`): `pathlib`'s suffix and stem of a file name.
- `watcher.dfy` (`Watcher`): the registry, as class `DashboardsWatcher`, whose methods update its `dashboards` map. The functions `AfterLoad` and `ScanInto` specify those updates.
- `server.dfy` (`Server`): class `Dashboards`, plus the pure functions for the frontend view and the message tagging.
- `jenkins.dfy` (`Jenkins`): the build-record derivation, and one pass of the polling loop. The pass is written as the methods `PollPass`/`PollJob`/`PollBuild` and specified by the functions `Run`/`Step`.

The outside world is given as parameters:

- Executing a dashboard file is the oracle `exec: FsPath -> ExecOutcome`. It gives the namespace the file produced or the exception it raised.
- `Path.is_file()` is the `isFile` flag of a path.
- `path.iterdir()` of each watched directory is a listing given to the constructor.
- Jenkins' answers during a pass are the job listings and the oracle `fetch: BuildKey -> RawBuild`.
- Times are integer milliseconds since the epoch.
- A websocket is a number. A started producer task is a handle carrying the send target it was wired to. Cancelling a task puts its handle in the set `cancelled`.

What the code does, where a reader might expect otherwise:

- Producer tasks belong to one websocket, not one dashboard. Two sockets on the same dashboard each get their own tasks. There is no reference counting and no sharing of producers.
- A SCHEDULED build gets an end time: its start plus Jenkins' estimated duration. Only RUNNING has no end.
- The routing fields added to every update are `message='graph'`, `dashboard` and `graph_id`.
- A `KeyError` from an unknown Jenkins result ends the polling loop. It is not isolated to one job.
- The server reads `run` and `info` from a dashboard entry, but the watcher stores `path` and `module`. The two are kept as separate data types here (`Server.Dashboard` and `Watcher.Record`).

## Model

| member | source | states |
|---|---|---|
| PathNames.PySuffix | backend-py3/dashboards_watcher.py:78 | A name has suffix `.py` exactly when it ends in `.py` after at least one more character; its stem is then the name without those three characters. |
| PathNames.StemSuffixSplit | backend-py3/dashboards_watcher.py:78 | Stem followed by suffix gives back the file name; a non-empty suffix starts with a dot and follows a non-empty stem. |
| Watcher.IsDashboardByName | backend-py3/dashboards_watcher.py:69-78 | A path is a dashboard iff it is a file whose name ends in `.py` after at least one character and does not start with `_`; a dashboard's stem is non-empty, so a successful load returns a truthy name. |
| Watcher.AfterLoad | backend-py3/dashboards_watcher.py:80-99 | A non-dashboard or a file whose import raises leaves the registry unchanged; otherwise exactly the key `stem` is added or replaced, with the path and module `dashboard.<stem>`; every other entry is kept. |
| Watcher.ScanKeys | backend-py3/dashboards_watcher.py:53-56 | After the initial scan, a name is registered iff some scanned file loads under that stem. |
| Watcher.ScanLastWins | backend-py3/dashboards_watcher.py:53-56 | The entry under a name is the last scanned file that loads under that stem (later directories and later entries override earlier ones). |
| Watcher.ScanIntoAppend | backend-py3/dashboards_watcher.py:54-56 | Scanning one listing after another equals scanning their concatenation, so the nested loop over directories scans all entries in order. |
| Watcher.DashboardsWatcher.constructor | backend-py3/dashboards_watcher.py:53-56 | The registry starts empty and ends as the scan of every directory's listing, directory by directory. |
| Watcher.DashboardsWatcher.ScanDirectory | backend-py3/dashboards_watcher.py:55-56 | Loading each entry of one listing leaves the scan of that listing from the previous registry. |
| Watcher.DashboardsWatcher.GetDashboardNames | backend-py3/dashboards_watcher.py:66-67 | Returns the registered names in strictly ascending string order, each once, and nothing else. |
| Common.InsertSorted | backend-py3/dashboards_watcher.py:66-67 | Inserting a new name into an ascending list keeps it strictly ascending and adds exactly that name. |
| Common.SortedUnique | backend-py3/dashboards_watcher.py:66-67 | Two strictly ascending lists with the same elements are equal: the sorted listing of the names is unique. |
| Watcher.ImportModule | backend-py3/dashboards_watcher.py:144-148 | The import succeeds iff executing the file does; the module is named `dashboard.<stem>` and holds the file's namespace; a failure carries the exception raised. |
| Watcher.DashboardsWatcher.LoadDashboard | backend-py3/dashboards_watcher.py:80-99 | Updates the registry as `AfterLoad` says and returns the stem on success, `None` (Python `False`) otherwise. |
| Watcher.DashboardsWatcher.ProcessCreate | backend-py3/dashboards_watcher.py:101-106 | Loads the created file; returns its stem iff it loaded, `None` otherwise. |
| Watcher.DashboardsWatcher.ProcessCloseWrite | backend-py3/dashboards_watcher.py:115-120 | Reloads the rewritten file; a failed import keeps the previous entry; returns the stem iff it reloaded. |
| Watcher.DashboardsWatcher.RemoveEntry | backend-py3/dashboards_watcher.py:109-113 | Removes exactly the given key and returns it iff it was registered. |
| Watcher.DashboardsWatcher.ProcessDelete | backend-py3/dashboards_watcher.py:108-113 | As written: removes the key equal to the deleted file's full name (with `.py`), returning it iff it was present. |
| Watcher.DashboardsWatcher.ProcessDeleteIntended | backend-py3/dashboards_watcher.py:108-113 | Corrected: removes the deleted file's stem, the key its load used. |
| Watcher.AsWrittenDeleteKeepsDashboard | backend-py3/dashboards_watcher.py:108-113 | After a dashboard file is loaded, deleting by its file name leaves its entry registered. |
| Watcher.DeleteByStemUndoesCreate | backend-py3/dashboards_watcher.py:101-113 | Creating a new dashboard and then deleting by its stem gives back the registry as it was. |
| Watcher.DashboardsWatcher.ProcessMovedTo | backend-py3/dashboards_watcher.py:122-129 | As written: for a move pyinotify paired with a source path, the entry under the source's stem is removed and the destination is loaded as on create. Without a paired source, reading `src_pathname` raises and the registry stays as it was. |
| Watcher.MovedToReplaces | backend-py3/dashboards_watcher.py:122-129 | After a paired move, the only keys are the old ones minus the source's stem, plus the destination's stem. When the destination loads it is filed under its stem. When it does not, only the source's stem is removed, and an earlier entry under the destination's stem stays unless it is the source's stem. No other entry changes. |
| Watcher.AsWrittenUnpairedMoveIgnored | backend-py3/dashboards_watcher.py:126-129 | A loadable dashboard moved in from outside the watched directories is not registered by the handler as written. |
| Watcher.DashboardsWatcher.ProcessMovedToIntended | backend-py3/dashboards_watcher.py:122-129 | Corrected: a move without a paired source is handled as a create; a paired move is handled as written. |
| Watcher.MovedInIsLoaded | backend-py3/dashboards_watcher.py:122-129 | With the corrected handler, a loadable dashboard that arrives by any move is registered under its stem with its path and module, and a paired move gives the same registry as the handler as written. |
| Server.CleanForFrontend | backend-py3/server.py:70-71 | Same names as the registry, each mapped to that dashboard's `info`. |
| Server.CleanForFrontendReload | backend-py3/server.py:70-71 | Replacing one dashboard changes the frontend view under that name only. |
| Server.Tag | backend-py3/server.py:127 | The tagged message has the message's keys plus `message`, `dashboard`, `graph_id`, holding `'graph'`, the dashboard and the graph index; every other key keeps its value. |
| Server.TagIdempotent | backend-py3/server.py:127 | Tagging an already tagged message with the same target changes nothing. |
| Server.Deliver | backend-py3/server.py:123-129 | One message a producer sends goes to the target's socket, carrying `message='graph'`, the target's dashboard and graph index; every other key keeps its value. |
| Server.BuildMessage | backend-py3/plugins/jenkins.py:104-111 | A build record as a dictionary has exactly the keys `name`, `url`, `build`, `status`, `start`, `end`. |
| Server.BuildUpdateAsSent | backend-py3/server.py:123-129 | A build update reaches the task's socket with all six build fields intact and the three routing fields added. |
| Server.GraphIndexes | backend-py3/server.py:108 | `enumerate(graphs)` yields exactly the indexes below the number of graphs. |
| Server.StartTasks | backend-py3/server.py:101-110 | One task per graph index, each running the dashboard's `run`, sending to the socket under its own index, the task for index `i` having handle `next + i`, so the handles are distinct and fresh. |
| Server.Dashboards.constructor | backend-py3/server.py:83-88 | Starts with no dashboards, no websockets, nothing cancelled, and the invariant holds. |
| Server.Dashboards.Update | backend-py3/server.py:90-92 | Replaces the dashboards wholesale; registrations and their tasks stay. |
| Server.Dashboards.RegisterWebsocket | backend-py3/server.py:94-110 | An unknown name raises `KeyError` and changes nothing. Otherwise the socket's previous tasks are cancelled and one fresh task per graph of the selected dashboard is recorded for it. No other socket's entry changes, and the invariant (live tasks are fresh, uncancelled and wired to their own socket and index) is kept. |
| Server.Dashboards.UnregisterWebsocket | backend-py3/server.py:112-121 | An unregistered socket changes nothing. Otherwise exactly that socket's tasks are cancelled and its entry removed. The invariant is kept, so no other socket's task is cancelled. |
| Server.CancelAll | backend-py3/server.py:119-120 | Cancelling each task in turn cancels exactly the given tasks in addition to those already cancelled. |
| Server.DeliveredToSubscriberOnly | backend-py3/server.py:101-110 | Under the invariant, a socket's task delivers to that socket, tagged with the socket's dashboard and the task's index, and no other registered socket owns that task. |
| Jenkins.TerminalStatuses | backend-py3/plugins/jenkins.py:58 | The terminal status names are exactly SUCCESSFUL, FAILED and ABORTED. |
| Jenkins.ToTimestamp | backend-py3/plugins/jenkins.py:114-117 | No time gives none; a time gives its epoch milliseconds. |
| Jenkins.GetBuildInfo | backend-py3/plugins/jenkins.py:85-111 | With a non-empty result: a known one maps SUCCESS/FAILURE/ABORTED to SUCCESSFUL/FAILED/ABORTED with end = start + duration, and an unknown one raises `KeyError`. Without a result: RUNNING with no end while building, else SCHEDULED with end = start + estimated duration. Name, url and build come from the build reference; start is the reported timestamp. |
| Jenkins.BuildInfoStatus | backend-py3/plugins/jenkins.py:90-102 | A derived record is terminal iff Jenkins reported a result, and has no end time iff it is RUNNING. |
| Jenkins.JobBuilds | backend-py3/plugins/jenkins.py:76-82 | One reference per listed build number, in order, with the job's name and url. |
| Jenkins.JobsBuilds | backend-py3/plugins/jenkins.py:53-54 | For each job, in order, that job's build references. |
| Jenkins.AsWrittenNeverRefreshes | backend-py3/plugins/jenkins.py:60 | `info in ['SUCCESSFUL', 'FAILED', 'ABORTED']` with a record `info` is never true. |
| Jenkins.Step | backend-py3/plugins/jenkins.py:56-66 | After an exception nothing changes. Otherwise at most the current build's cache entry is added or replaced, and at most one record is appended to those sent. Whatever is sent is the record now cached for that build. |
| Jenkins.FirstSighting | backend-py3/plugins/jenkins.py:63-66 | A build not in the cache is fetched, cached and sent, or the pass stops with the lookup error. |
| Jenkins.RunAfterRaise | backend-py3/plugins/jenkins.py:59-64 | Once a `KeyError` has been raised, the rest of the pass does nothing. |
| Jenkins.RunAppend | backend-py3/plugins/jenkins.py:53-54 | Running two build lists one after the other equals running their concatenation. |
| Jenkins.PassExtends | backend-py3/plugins/jenkins.py:53-54 | The outer loop's next iteration runs the next job's builds after those of the jobs before it. |
| Jenkins.PassStopsAtRaise | backend-py3/plugins/jenkins.py:53-66 | A `KeyError` in one job's builds ends the whole pass: later jobs change nothing. |
| Jenkins.RunGrows | backend-py3/plugins/jenkins.py:50-66 | Over a pass the cache's keys only grow and what was sent stays sent, in order. |
| Jenkins.TerminalIsFinal | backend-py3/plugins/jenkins.py:57-58 | A build cached with a terminal status keeps its entry and is never sent again. |
| Jenkins.AsWrittenSendsOnlyNewBuilds | backend-py3/plugins/jenkins.py:56-66 | With the test as written, a pass leaves every cached entry as it was (an unfinished build is never updated). It sends records only for builds the cache did not hold, each at most once, and each is the record then cached. |
| Jenkins.CompletionIsForwarded | backend-py3/plugins/jenkins.py:58-62 | With the status test, an unfinished cached build that Jenkins reports finished is re-cached with its terminal record and that record is sent. |
| Jenkins.AsWrittenMissesCompletion | backend-py3/plugins/jenkins.py:58-62 | Build 5 of job `ci`, cached RUNNING and now SUCCESS: the code as written sends nothing and keeps it RUNNING; the status test sends the SUCCESSFUL record. |
| Jenkins.PollBuild | backend-py3/plugins/jenkins.py:56-66 | The loop body for one build computes exactly `Step`. |
| Jenkins.PollJob | backend-py3/plugins/jenkins.py:54-66 | The inner loop over one job's builds computes exactly `Run` over them, stopping at the first `KeyError`. |
| Jenkins.PollPass | backend-py3/plugins/jenkins.py:50-66 | One pass over every build of every job computes `Run` over all build references, job by job, from the cache before the pass. |

## Left out

- The aiohttp application: the HTTP and websocket handlers, JSON parsing of client messages, sending over the socket, start-up and shutdown. These are I/O.
- Setting up pyinotify watches, and scheduling the change callback with `asyncio.ensure_future`. These are event-loop plumbing. The callback sees the registry after the event, which the model states as the new `dashboards` field.
- `IN_MOVED_FROM` is in the watch mask but has no handler in the source, so it changes nothing. It has no member here.
- Logging.
- The producer coroutines themselves. Their loops, their cancellation at the next suspension point, and `asyncio.sleep` between builds and between passes are concurrency. The model records that a task is cancelled, not what the cancelled task does next.
- The unending `while True` of the Jenkins loop is modelled one pass at a time. Because the cache carries over, `PollPass` composes across passes.
- Connecting to Jenkins, the timezone conversion, and network errors from the Jenkins client. The client is the `fetch` oracle and its listings.
- `_to_timestamp` returns float milliseconds after a timezone round trip. The model uses exact integer milliseconds.
- The record sent to the target is the same dictionary as the one in the cache. The server's `message.update` therefore also adds the routing keys to the cached record. The model treats records as values and does not capture that aliasing.
- A dashboard entry given to the server without a `run` or `info` key would raise. The model's `Server.Dashboard` always has both.
- Watcher.DashboardsWatcher.ProcessMovedTo: removes the source's stem directly instead of going through `process_IN_DELETE` with a fake event object. The effect on the registry is the same. The `AttributeError` of an unpaired move is modelled only as "nothing changes". What the notifier then does with the exception is not modelled.
- Server.Dashboards.RegisterWebsocket: in the model a dashboard's `run` never raises. In the source, line 98 has already unregistered the socket when `run` is called once per graph inside the dictionary comprehension. If `run` raises for graph `i`, the exception leaves `register_websocket`: the socket ends with no entry, and the tasks already started for graphs `0..i-1` keep running, recorded nowhere, so no later unregister can cancel them. The model's `StartTasks` cannot fail.
- Server.Dashboards.Update: `self.dashboards = dashboards` binds the caller's dictionary without copying it, and the caller passes the watcher's own `dashboards` map. The watcher's later in-place changes therefore reach `register_websocket` at once, before the next `update`. The model stores a value, so the server's `dashboards` changes only through `Update`.
- Watcher.DashboardsWatcher.constructor: `path.iterdir()` raises for a watched path that is missing or is not a directory, and that aborts `__init__`. The model takes every directory's listing as given, so it does not capture a constructor that fails.
- Watcher.DashboardsWatcher.LoadDashboard: `except Exception` does not catch `SystemExit` or `KeyboardInterrupt` raised by a dashboard file's top-level code, so these propagate out of `load_dashboard` and out of every handler that calls it. The model's `Raised` outcome stands only for the exceptions that are caught.

## Findings

| source | as written | input that shows it | evidently intended | confidence | as-written member | corrected member |
|---|---|---|---|---|---|---|
| backend-py3/plugins/jenkins.py:60 | `if info in ['SUCCESSFUL', 'FAILED', 'ABORTED']` tests the whole record dictionary against status strings, so it is never true | build 5 of job `ci` cached as RUNNING, Jenkins now reporting result SUCCESS: nothing is sent and the cache keeps RUNNING on every later pass | `info['status'] in [...]`, so a build that finishes is re-cached and its final record sent. This minimal fix forwards completions only: a change from SCHEDULED to RUNNING is still not sent. | not executed | Jenkins.AsWrittenMissesCompletion | Jenkins.CompletionIsForwarded |
| backend-py3/dashboards_watcher.py:108-113 | `process_IN_DELETE` looks up `event.name`, the file name with `.py`, but entries are keyed by the stem | dashboard `ci` loaded from `ci.py`; deleting `ci.py` looks for key `ci.py` and leaves `ci` registered | look up and delete `Path(event.name).stem`, as the move handler at line 127 already does. Keyed by stem alone, deleting `ci.txt` or `ci.py~` also drops dashboard `ci`. | not executed | Watcher.AsWrittenDeleteKeepsDashboard | Watcher.DashboardsWatcher.ProcessDeleteIntended |
| backend-py3/dashboards_watcher.py:122-129 | `process_IN_MOVED_TO` reads `event.src_pathname`, which pyinotify sets only when it paired the move with an `IN_MOVED_FROM` in a watched directory | `mv /tmp/new.py` into a watched directory: line 127 raises `AttributeError` before either handler runs, and dashboard `new` is never loaded | handle an unpaired move-in as a create | not executed | Watcher.AsWrittenUnpairedMoveIgnored | Watcher.MovedInIsLoaded |
