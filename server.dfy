/** The websocket server's bookkeeping: class `Dashboards` records, per
    websocket, the dashboard it selected and one producer task per graph of
    that dashboard. Every socket gets its own tasks; tasks are not shared
    between sockets that selected the same dashboard.

    Starting a producer (`run(loop, target, graph_id)`) is represented by a
    task handle carrying the send target it was wired to; cancelling a task
    adds its handle to the set `cancelled`. */
module Server {
  import opened Common
  import Jenkins

  type Socket = nat

  datatype Graph = Graph(title: string, kind: string, config: map<string, string>)

  /** A dashboard's `info`: what the frontend is shown. */
  datatype Info = Info(title: string, graphs: seq<Graph>)

  /** A dashboard entry: `run` (the identity of its producer entry point)
      and `info`. */
  datatype Dashboard = Dashboard(run: nat, info: Info)

  datatype Json = JNull | JInt(i: int) | JStr(s: string)

  type Message = map<string, Json>

  /** The arguments bound into `send_to_websocket` for one producer. */
  datatype Target = Target(ws: Socket, dashboard: string, graphId: nat)

  /** A started producer task: a unique handle, the entry point it runs and
      the target it sends to. */
  datatype Task = Task(id: nat, run: nat, target: Target)

  /** The value of `websockets[ws]`. */
  datatype Subscription = Subscription(dashboard: string, tasks: map<nat, Task>)

  /** `register_websocket` returns normally or raises `KeyError`. */
  datatype Registration = Registered | NotFound(dashboard: string)

  const TagKeys: set<string> := {"message", "dashboard", "graph_id"}

  /** `clean_dashboards_json_for_frontend`: every dashboard's `info`, under the same name. */
  function CleanForFrontend(ds: map<string, Dashboard>): (r: map<string, Info>)
    ensures r.Keys == ds.Keys
    ensures forall k :: k in r ==> r[k] == ds[k].info
  {
    map k | k in ds :: ds[k].info
  }

  /** Reloading one dashboard changes the frontend's view under that name only. */
  lemma {:induction false} CleanForFrontendReload(ds: map<string, Dashboard>, k: string, d: Dashboard)
    ensures CleanForFrontend(ds[k := d]) == CleanForFrontend(ds)[k := d.info]
  {
    var l := CleanForFrontend(ds[k := d]);
    var r := CleanForFrontend(ds)[k := d.info];
    assert l.Keys == r.Keys;
    forall j | j in l
      ensures l[j] == r[j]
    {
    }
  }

  /** `message.update(message='graph', dashboard=..., graph_id=...)`. */
  function Tag(msg: Message, dashboard: string, graphId: nat): (r: Message)
    ensures r.Keys == msg.Keys + TagKeys
    ensures r["message"] == JStr("graph") && r["dashboard"] == JStr(dashboard) && r["graph_id"] == JInt(graphId)
    ensures forall k :: k in msg && k !in TagKeys ==> r[k] == msg[k]
  {
    msg["message" := JStr("graph")]["dashboard" := JStr(dashboard)]["graph_id" := JInt(graphId)]
  }

  /** Tagging twice with the same target is tagging once. */
  lemma {:induction false} TagIdempotent(msg: Message, dashboard: string, graphId: nat)
    ensures Tag(Tag(msg, dashboard, graphId), dashboard, graphId) == Tag(msg, dashboard, graphId)
  {
    var once := Tag(msg, dashboard, graphId);
    var twice := Tag(once, dashboard, graphId);
    assert twice.Keys == once.Keys;
    forall k | k in once
      ensures twice[k] == once[k]
    {
    }
  }

  /** What `send_to_websocket` does with one message a producer sends:
      the socket it goes to and the message as sent. */
  function Deliver(task: Task, msg: Message): (r: (Socket, Message))
    ensures r.0 == task.target.ws
    ensures r.1.Keys == msg.Keys + TagKeys
    ensures r.1["message"] == JStr("graph")
    ensures r.1["dashboard"] == JStr(task.target.dashboard) && r.1["graph_id"] == JInt(task.target.graphId)
    ensures forall k :: k in msg && k !in TagKeys ==> r.1[k] == msg[k]
  {
    (task.target.ws, Tag(msg, task.target.dashboard, task.target.graphId))
  }

  /** A Jenkins build record as the dictionary the poller sends. */
  function BuildMessage(info: Jenkins.BuildInfo): (m: Message)
    ensures m.Keys == {"name", "url", "build", "status", "start", "end"}
  {
    map[
      "name" := JStr(info.name),
      "url" := JStr(info.url),
      "build" := JInt(info.build),
      "status" := JStr(Jenkins.StatusName(info.status)),
      "start" := TimestampJson(info.start),
      "end" := TimestampJson(info.end)]
  }

  function TimestampJson(t: Option<int>): Json
  {
    match t
    case None => JNull
    case Some(ms) => JInt(ms)
  }

  /** A build update reaches the socket with every field of the build
      record intact and the three routing fields added. */
  lemma BuildUpdateAsSent(task: Task, info: Jenkins.BuildInfo)
    ensures var (ws, m) := Deliver(task, BuildMessage(info));
      && ws == task.target.ws
      && m.Keys == {"name", "url", "build", "status", "start", "end", "message", "dashboard", "graph_id"}
      && m["name"] == JStr(info.name) && m["url"] == JStr(info.url) && m["build"] == JInt(info.build)
      && m["status"] == JStr(Jenkins.StatusName(info.status))
      && m["start"] == TimestampJson(info.start) && m["end"] == TimestampJson(info.end)
      && m["message"] == JStr("graph")
      && m["dashboard"] == JStr(task.target.dashboard) && m["graph_id"] == JInt(task.target.graphId)
  {
    var m := BuildMessage(info);
    assert "name" !in TagKeys && "url" !in TagKeys && "build" !in TagKeys;
    assert "status" !in TagKeys && "start" !in TagKeys && "end" !in TagKeys;
  }

  /** The graph indexes of a dashboard with `n` graphs: `enumerate(graphs)`. */
  function GraphIndexes(n: nat): (r: set<nat>)
    ensures forall i: nat :: i in r <==> i < n
  {
    if n == 0 then {} else GraphIndexes(n - 1) + {n - 1}
  }

  /** The tasks `register_websocket` starts: one per graph index, with
      handles `next`, `next + 1`, ..., each sending to `ws` under that index. */
  function StartTasks(next: nat, run: nat, ws: Socket, dashboard: string, n: nat): (r: map<nat, Task>)
    ensures r.Keys == GraphIndexes(n)
    ensures forall i :: i in r ==> r[i].target == Target(ws, dashboard, i) && r[i].run == run
    ensures forall i :: i in r ==> r[i].id == next + i && next <= r[i].id < next + n
    ensures forall i, j :: i in r && j in r && i != j ==> r[i] != r[j]
  {
    map i: nat | i < n :: Task(next + i, run, Target(ws, dashboard, i))
  }

  class Dashboards {
    var dashboards: map<string, Dashboard>
    var websockets: map<Socket, Subscription>
    var cancelled: set<Task>
    /** The next fresh task handle. */
    var nextTask: nat

    /** Every live task was started before `nextTask`, has not been
        cancelled, and sends to its own socket under its own graph index. */
    ghost predicate Valid()
      reads this
    {
      && (forall t :: t in cancelled ==> t.id < nextTask)
      && (forall ws, i :: ws in websockets && i in websockets[ws].tasks ==>
            && websockets[ws].tasks[i].id < nextTask
            && websockets[ws].tasks[i] !in cancelled
            && websockets[ws].tasks[i].target == Target(ws, websockets[ws].dashboard, i))
    }

    /** The tasks `ws` currently owns, none if it is not registered. */
    ghost function TasksOf(ws: Socket): set<Task>
      reads this
    {
      if ws in websockets then websockets[ws].tasks.Values else {}
    }

    constructor ()
      ensures Valid()
      ensures dashboards == map[] && websockets == map[] && cancelled == {}
    {
      dashboards := map[];
      websockets := map[];
      cancelled := {};
      nextTask := 0;
    }

    /** `update`: the dashboards are replaced wholesale; registrations and
        their tasks stay, even for a dashboard that has gone. */
    method Update(ds: map<string, Dashboard>)
      requires Valid()
      modifies this
      ensures Valid()
      ensures dashboards == ds
      ensures websockets == old(websockets) && cancelled == old(cancelled) && nextTask == old(nextTask)
    {
      dashboards := ds;
    }

    /** `register_websocket`: an unknown name raises `KeyError` and changes
        nothing; otherwise the socket's earlier selection is unregistered and
        one task per graph of the selected dashboard is started for it. */
    method RegisterWebsocket(name: string, ws: Socket) returns (r: Registration)
      requires Valid()
      modifies this
      ensures Valid()
      ensures dashboards == old(dashboards)
      ensures r == if name in old(dashboards) then Registered else NotFound(name)
      ensures r.NotFound? ==>
        websockets == old(websockets) && cancelled == old(cancelled) && nextTask == old(nextTask)
      ensures r.Registered? ==>
        var d := old(dashboards)[name];
        && websockets == old(websockets)[ws := Subscription(name,
             StartTasks(old(nextTask), d.run, ws, name, |d.info.graphs|))]
        && cancelled == old(cancelled) + old(TasksOf(ws))
        && nextTask == old(nextTask) + |d.info.graphs|
    {
      if name !in dashboards {
        return NotFound(name);
      }
      UnregisterWebsocket(ws);
      var d := dashboards[name];
      var tasks := StartTasks(nextTask, d.run, ws, name, |d.info.graphs|);
      websockets := websockets[ws := Subscription(name, tasks)];
      nextTask := nextTask + |d.info.graphs|;
      r := Registered;
    }

    /** `unregister_websocket`: a socket that is not registered only draws a
        warning; otherwise each of its tasks is cancelled and its entry
        removed. */
    method UnregisterWebsocket(ws: Socket)
      requires Valid()
      modifies this
      ensures Valid()
      ensures websockets == old(websockets) - {ws}
      ensures cancelled == old(cancelled) + old(TasksOf(ws))
      ensures dashboards == old(dashboards) && nextTask == old(nextTask)
    {
      if ws !in websockets {
        return;
      }
      var owned := websockets[ws].tasks.Values;
      assert forall t :: t in owned ==> t.target.ws == ws;
      cancelled := CancelAll(cancelled, owned);
      websockets := websockets - {ws};
    }
  }

  /** `for task in tasks: task.cancel()`. */
  method CancelAll(cancelled: set<Task>, tasks: set<Task>) returns (r: set<Task>)
    ensures r == cancelled + tasks
  {
    r := cancelled;
    var remaining := tasks;
    while remaining != {}
      invariant remaining <= tasks
      invariant r == cancelled + (tasks - remaining)
      decreases |remaining|
    {
      var task :| task in remaining;
      r := r + {task};
      remaining := remaining - {task};
    }
  }

  /** Every update a socket's task sends goes to that socket, tagged with
      the dashboard the socket selected and the task's graph index; no other
      registered socket owns that task. */
  lemma DeliveredToSubscriberOnly(ds: Dashboards, ws: Socket, i: nat, msg: Message)
    requires ds.Valid()
    requires ws in ds.websockets && i in ds.websockets[ws].tasks
    ensures var (to, m) := Deliver(ds.websockets[ws].tasks[i], msg);
      && to == ws
      && m == Tag(msg, ds.websockets[ws].dashboard, i)
      && forall other, j :: other in ds.websockets && other != ws && j in ds.websockets[other].tasks ==>
           ds.websockets[other].tasks[j] != ds.websockets[ws].tasks[i]
  {
  }
}
