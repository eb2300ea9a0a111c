// The WebSocket server's bookkeeping: its clients, the one task it runs at
// a time, and its replies to client commands. Sockets, the event loop and
// an agent task's own run are outside; what the server sends is recorded in an
// outbox, one entry per send or broadcast.
module WebSocketServer {
  import opened Wrappers
  import opened Dicts
  import opened Json
  import Config
  import W = WebSocket
  import AgentDispatch

  /** One send: to a single client, or a broadcast to the clients then
    * connected. */
  datatype Delivery =
    | ToClient(client: nat, event: W.WebSocketEvent)
    | ToAll(clients: set<nat>, event: W.WebSocketEvent)

  /** What `_capture_screenshot` met: the device did not connect, the
    * capture raised, or the picture was saved under `path`. */
  datatype Capture = NotConnected | CaptureRaised | Saved(path: string)

  const WelcomeMessage := "Connected to CompText Mobile Agent"
  const Version := "2.1.0"
  const InvalidJson := "Invalid JSON message"
  const MissingTask := "Missing 'task' parameter"
  const Busy := "Another task is already running"
  const Cancelled := "Task cancelled by user"
  const UnknownPrefix := "Unknown command: "

  /** An event outside any task. */
  function Event(kind: W.EventType, payload: W.Payload): (e: W.WebSocketEvent)
    ensures e.kind == kind && e.taskId == None && e.payload == payload
  {
    W.WebSocketEvent(kind, None, payload)
  }

  /** `_send_error`'s event. */
  function ErrorEvent(message: string): (e: W.WebSocketEvent)
    ensures e.kind == W.Error && W.Data(e.payload) == [("error", JStr(message))]
  {
    Event(W.Error, W.ErrorInfo(message))
  }

  /** The welcome a newly connected client receives. */
  function WelcomeData(client: nat): (d: Dict<Json>)
    ensures Keys(d) == ["message", "version", "client_id"]
    ensures d[2].1 == JInt(client)
  {
    [("message", JStr(WelcomeMessage)), ("version", JStr(Version)), ("client_id", JInt(client))]
  }

  /** `_send_status`'s data: whether a task runs, how many clients are
    * connected, the mode and whether CompText is used. */
  function StatusData(running: bool, clients: nat, cfg: Config.MobileAgentConfig): (d: Dict<Json>)
    ensures Keys(d) == ["running", "clients", "mode", "comptext_enabled"]
    ensures d[1].1 == JInt(clients)
    ensures d[2].1.JStr? && Config.ModeOf(d[2].1.s) == Some(cfg.mode)
  {
    [("running", JBool(running)), ("clients", JInt(clients)), ("mode", JStr(Config.ModeValue(cfg.mode))),
     ("comptext_enabled", JBool(cfg.agent.useComptext))]
  }

  /** `_send_config`'s data, under the key "config". */
  function ConfigData(cfg: Config.MobileAgentConfig): (d: Dict<Json>)
    ensures Keys(d) == ["config"] && d[0].1.JObj?
    ensures Keys(d[0].1.fields) == ["mode", "model", "max_steps", "use_comptext"]
    ensures d[0].1.fields[0].1.JStr? && Config.ModeOf(d[0].1.fields[0].1.s) == Some(cfg.mode)
  {
    [("config", JObj([("mode", JStr(Config.ModeValue(cfg.mode))), ("model", JStr(cfg.ollama.model)),
                      ("max_steps", JInt(cfg.agent.maxSteps)), ("use_comptext", JBool(cfg.agent.useComptext))]))]
  }

  /** What `_broadcast` sends: nothing without clients, else one message to
    * all of them. */
  function Broadcasts(clients: set<nat>, e: W.WebSocketEvent): (r: seq<Delivery>)
    ensures clients == {} <==> r == []
    ensures r != [] ==> r == [ToAll(clients, e)]
  {
    if clients == {} then [] else [ToAll(clients, e)]
  }

  /** A decoded message's "command" entry (`None` for a message that is not
    * an object, on which `data.get` raises). */
  function Command(message: Json): (r: Option<Json>)
    ensures r.Some? <==> message.JObj?
    ensures message.JObj? && !HasKey(message.fields, "command") ==> r == Some(JNull)
  {
    if message.JObj? then Some(FieldOr(message.fields, "command", JNull)) else None
  }

  /** The commands the server knows. */
  predicate Known(command: Json)
  {
    command == JStr("run") || command == JStr("stop") || command == JStr("screenshot")
    || command == JStr("status") || command == JStr("config")
  }

  /** The error an unknown command gets back. */
  function UnknownError(command: Json): (m: string)
    ensures |m| >= |UnknownPrefix| && m[..|UnknownPrefix|] == UnknownPrefix
    ensures m[|UnknownPrefix|..] == PyStrOf(command)
  {
    UnknownPrefix + PyStrOf(command)
  }

  class MobileAgentWebSocketServer {
    const config: Config.MobileAgentConfig
    /** `_running`: between `start` and `stop`. */
    var serving: bool
    /** `_clients`, each connection by its `id`. */
    var clients: set<nat>
    /** A task was started and is not done yet. */
    var running: bool
    /** The tasks started, in order. */
    var started: seq<Json>
    var outbox: seq<Delivery>

    constructor (config: Config.MobileAgentConfig)
      ensures this.config == config
      ensures !serving && clients == {} && !running && started == [] && outbox == []
    {
      this.config := config;
      serving := false;
      clients := {};
      running := false;
      started := [];
      outbox := [];
    }

    /** `start`, once the listening socket is open. */
    method Start()
      modifies this`serving
      ensures serving
    {
      serving := true;
    }

    /** `stop`: the running task is cancelled and every client dropped. */
    method Stop()
      modifies this`serving, this`running, this`clients
      ensures !serving && !running && clients == {}
    {
      serving := false;
      running := false;
      clients := {};
    }

    /** `_send_to_client`; a send that fails is logged and dropped, which
      * leaves the outbox as it records attempts. */
    method SendTo(client: nat, e: W.WebSocketEvent)
      modifies this`outbox
      ensures outbox == old(outbox) + [ToClient(client, e)]
    {
      outbox := outbox + [ToClient(client, e)];
    }

    /** `_broadcast`: nothing at all when no client is connected. */
    method Broadcast(e: W.WebSocketEvent)
      modifies this`outbox
      ensures outbox == old(outbox) + Broadcasts(clients, e)
      ensures clients == {} ==> outbox == old(outbox)
    {
      if clients == {} {
        return;
      }
      outbox := outbox + [ToAll(clients, e)];
    }

    /** The start of `_handler`: the client joins and is welcomed. */
    method Connect(client: nat)
      modifies this`clients, this`outbox
      ensures clients == old(clients) + {client}
      ensures outbox == old(outbox) + [ToClient(client, Event(W.Connected, W.Fields(WelcomeData(client))))]
    {
      clients := clients + {client};
      SendTo(client, Event(W.Connected, W.Fields(WelcomeData(client))));
    }

    /** The end of `_handler`: the client leaves, whether it closed or not. */
    method Disconnect(client: nat)
      modifies this`clients
      ensures clients == old(clients) - {client}
    {
      clients := clients - {client};
    }

    /** The running task finishes (its `done()` turns true). */
    method TaskDone()
      modifies this`running
      ensures !running
    {
      running := false;
    }

    /** `_run_task`: refused while a task runs, else the new agent task starts. */
    method RunTask(task: Json)
      modifies this`running, this`started, this`outbox
      ensures old(running) ==> running && started == old(started)
                               && outbox == old(outbox) + Broadcasts(clients, ErrorEvent(Busy))
      ensures !old(running) ==> running && started == old(started) + [task] && outbox == old(outbox)
    {
      if running {
        Broadcast(ErrorEvent(Busy));
        return;
      }
      running := true;
      started := started + [task];
    }

    /** `_handle_message` from `client`; `message` is `None` where the text
      * is not JSON, and `capture` is what a screenshot command meets. */
    method HandleMessage(client: nat, message: Option<Json>, capture: Capture)
      modifies this`running, this`started, this`outbox
      ensures message.None? ==>
        running == old(running) && started == old(started)
        && outbox == old(outbox) + [ToClient(client, ErrorEvent(InvalidJson))]
      ensures message.Some? && !message.value.JObj? ==>
        running == old(running) && started == old(started)
        && outbox == old(outbox) + [ToClient(client, ErrorEvent(AgentDispatch.Raised))]
      ensures message.Some? && Command(message.value) == Some(JStr("run"))
              && !Truthy(FieldOr(message.value.fields, "task", JNull)) ==>
        running == old(running) && started == old(started)
        && outbox == old(outbox) + [ToClient(client, ErrorEvent(MissingTask))]
      ensures message.Some? && Command(message.value) == Some(JStr("run"))
              && Truthy(FieldOr(message.value.fields, "task", JNull)) ==>
        running
        && (old(running) ==> started == old(started) && outbox == old(outbox) + Broadcasts(clients, ErrorEvent(Busy)))
        && (!old(running) ==> started == old(started) + [FieldOr(message.value.fields, "task", JNull)]
                              && outbox == old(outbox))
      ensures message.Some? && Command(message.value) == Some(JStr("stop")) ==>
        !running && started == old(started)
        && outbox == old(outbox) + (if old(running) then Broadcasts(clients, Event(W.TaskFailed, W.ErrorInfo(Cancelled)))
                                    else [])
      ensures message.Some? && Command(message.value) == Some(JStr("screenshot")) ==>
        running == old(running) && started == old(started)
        && outbox == old(outbox) + match capture
             case NotConnected => []
             case CaptureRaised => [ToClient(client, ErrorEvent(AgentDispatch.Raised))]
             case Saved(path) => Broadcasts(clients, Event(W.ScreenUpdated, W.Fields([("screenshot_path", JStr(path))])))
      ensures message.Some? && Command(message.value) == Some(JStr("status")) ==>
        running == old(running) && started == old(started)
        && outbox == old(outbox) + [ToClient(client, Event(W.ProgressUpdate, W.Fields(StatusData(running, |clients|, config))))]
      ensures message.Some? && Command(message.value) == Some(JStr("config")) ==>
        running == old(running) && started == old(started)
        && outbox == old(outbox) + [ToClient(client, Event(W.Connected, W.Fields(ConfigData(config))))]
      ensures message.Some? && message.value.JObj? && !Known(Command(message.value).value) ==>
        running == old(running) && started == old(started)
        && outbox == old(outbox) + [ToClient(client, ErrorEvent(UnknownError(Command(message.value).value)))]
    {
      if message.None? {
        SendTo(client, ErrorEvent(InvalidJson));
        return;
      }
      var command := Command(message.value);
      if command.None? {
        SendTo(client, ErrorEvent(AgentDispatch.Raised));
        return;
      }
      var data := message.value.fields;
      if command.value == JStr("run") {
        var task := FieldOr(data, "task", JNull);
        if Truthy(task) {
          RunTask(task);
        } else {
          SendTo(client, ErrorEvent(MissingTask));
        }
      } else if command.value == JStr("stop") {
        if running {
          running := false;
          Broadcast(Event(W.TaskFailed, W.ErrorInfo(Cancelled)));
        }
      } else if command.value == JStr("screenshot") {
        match capture {
          case NotConnected =>
          case CaptureRaised =>
            SendTo(client, ErrorEvent(AgentDispatch.Raised));
          case Saved(path) =>
            Broadcast(Event(W.ScreenUpdated, W.Fields([("screenshot_path", JStr(path))])));
        }
      } else if command.value == JStr("status") {
        SendTo(client, Event(W.ProgressUpdate, W.Fields(StatusData(running, |clients|, config))));
      } else if command.value == JStr("config") {
        SendTo(client, Event(W.Connected, W.Fields(ConfigData(config))));
      } else {
        SendTo(client, ErrorEvent(UnknownError(command.value)));
      }
    }
  }
}
