/**
 * The stop handler of a single game-server instance (`stop_server_lambda.py`).
 *
 * It is invoked either by a log watcher when a player leaves (the departure path) or by
 * its own one-shot schedule after the grace period (the final-check path). Both paths
 * first make sure the instance is running and then sample the player count. On departure
 * with nobody online it arms a schedule named `SCHEDULE_NAME`; at the final check with
 * nobody online it stops the instance. An unknown count never leads to either action.
 *
 * The cloud services are abstract state: the instance's state (absent when the instance
 * does not exist), the named schedule if one exists, and the number of stop requests
 * issued. Whether each remote call fails is given by the caller in `Services`.
 *
 * Each step of the handler is defined once as a function over a `Cloud` value (`Shutdown`,
 * `Schedule`, `Handler`), which is the reference the properties are stated against, and
 * once as a method of `Deployment` that updates the same state in place and is proved to
 * agree with that function.
 */
module StopServer {
  import opened Wrappers
  import opened Strings
  import opened PlayerQuery

  const GRACE_PERIOD_MINUTES: nat := 5
  const SCHEDULE_NAME := "VorticeFinalCheckSchedule"
  const SCHEDULER_ROLE_ARN := "ARN_DA_SUA_IAM_ROLE_AQUI"
  /** The `source` the schedule's input carries, which selects the final-check path. */
  const FINAL_CHECK_SOURCE := "self-scheduled-check"

  /** EC2 instance states. */
  datatype InstanceState = Pending | Running | ShuttingDown | Terminated | Stopping | Stopped

  /** The state's name as EC2 reports it. */
  function StateName(s: InstanceState): string {
    match s
    case Pending => "pending"
    case Running => "running"
    case ShuttingDown => "shutting-down"
    case Terminated => "terminated"
    case Stopping => "stopping"
    case Stopped => "stopped"
  }

  /** The part of an invocation event the handler reads: `event.get('source')`. */
  datatype Event = Event(source: Option<string>)

  /** The event the armed schedule delivers, `{"source": "self-scheduled-check"}`. */
  const FINAL_CHECK_EVENT := Event(Some(FINAL_CHECK_SOURCE))

  /** A one-shot schedule: it invokes `target` with `input` at `fireAt` (seconds). */
  datatype Timer = Timer(
    name: string,
    fireAt: nat,
    target: string,
    roleArn: string,
    input: Event,
    deleteAfterCompletion: bool)

  /** What the services hold: the instance, the named schedule, and the stop requests so far. */
  datatype Cloud = Cloud(instance: Option<InstanceState>, timer: Option<Timer>, stopCalls: nat)

  /**
   * How each remote call of one invocation turns out: `Some(detail)` is an exception whose
   * text is `detail`. `query` is the fetched result of the player-count command. A create
   * conflict is not an input: the scheduler raises it exactly when the schedule exists, so
   * `createFault` is any other exception of the create (access denied, throttling, ...).
   */
  datatype Services = Services(
    describeFault: Option<string>,
    query: Invocation,
    createFault: Option<string>,
    deleteFault: Option<string>,
    stopFault: Option<string>)

  /** The handler's reply; `body` is the message before JSON encoding. */
  datatype Response = Response(statusCode: int, body: string)

  /** The schedule `create_shutdown_schedule` creates for a function and a fire time. */
  function FinalCheckTimer(functionArn: string, fireAt: nat): Timer {
    Timer(SCHEDULE_NAME, fireAt, functionArn, SCHEDULER_ROLE_ARN, FINAL_CHECK_EVENT, true)
  }

  /** Any schedule present is a final-check schedule that deletes itself after firing. */
  predicate Consistent(c: Cloud) {
    c.timer.Some? ==> c.timer.value == FinalCheckTimer(c.timer.value.target, c.timer.value.fireAt)
  }

  // Messages, word for word. Long ones are written as concatenated phrases.

  const INSTANCE_NOT_FOUND := "Instance not found"
  const STOP_SENT := "Comando de desligamento" + " enviado com sucesso."
  const STALE_TIMER_REMOVED := "Um agendamento antigo foi encontrado" + " e removido. Por favor," + " acione o evento novamente."
  const FINAL_CHECK_UNKNOWN := "Não foi possível" + " determinar a contagem" + " de jogadores" +
    " na verificação final." + " Desligamento cancelado" + " por segurança."
  const DEPARTURE_UNKNOWN := "Não foi possível" + " determinar a contagem" + " de jogadores" +
    " após evento de log." + " Nenhuma ação tomada" + " por segurança."

  function DescribeFailed(detail: string): string { "Error checking instance status: " + detail }
  function NotRunning(s: InstanceState): string {
    "Verificação cancelada. A instância" + " não está 'running' (estado: " + StateName(s) + ")."
  }
  function StopFailed(detail: string): string { "Erro durante o desligamento: " + detail }
  function Armed(fireAt: nat): string { "Verificação final agendada para " + NatToDigits(fireAt) + " UTC." }
  function DeleteFailed(detail: string): string { "Erro ao tentar remover " + "agendamento conflitante: " + detail }
  function CreateFailed(detail: string): string { "Erro ao criar " + "agendamento: " + detail }
  function Reconnected(count: nat): string {
    "Desligamento cancelado. " + NatToDigits(count) + " jogador(es) entraram no servidor."
  }
  function StillOccupied(count: nat): string {
    NatToDigits(count) + " jogadores ainda conectados." + " Nenhuma ação tomada."
  }

  /** The final status code: an error message is a 500 unless it concerns the schedule. */
  function StatusCode(message: string): (code: int)
    ensures code == 200 || code == 500
    ensures code == 500 ==> Contains(message, "Erro")
  {
    if Contains(message, "Erro") && !Contains(message, "agendamento") then 500 else 200
  }

  /** `shutdown_sequence`: one stop request; when it is accepted the instance starts stopping. */
  function Shutdown(c: Cloud, stopFault: Option<string>): (out: (Cloud, string))
    ensures out.0.stopCalls == c.stopCalls + 1
    ensures out.0.timer == c.timer
    ensures out.0.instance == if stopFault.None? then Some(Stopping) else c.instance
  {
    match stopFault
    case None => (c.(instance := Some(Stopping), stopCalls := c.stopCalls + 1), STOP_SENT)
    case Some(detail) => (c.(stopCalls := c.stopCalls + 1), StopFailed(detail))
  }

  /**
   * `create_shutdown_schedule`: create the named schedule, firing after the grace period.
   * A create that fails for any reason other than a conflict is reported and nothing else is
   * done. The scheduler refuses a second schedule of that name (a conflict); the stale one is
   * then deleted and none is created, so the caller has to deliver the event again.
   */
  function Schedule(c: Cloud, functionArn: string, now: nat, createFault: Option<string>, deleteFault: Option<string>): (out: (Cloud, string))
    ensures out.0.instance == c.instance && out.0.stopCalls == c.stopCalls
    ensures createFault.Some? ==> out.0 == c
    ensures c.timer.Some? ==> out.0.timer == c.timer || out.0.timer.None?
    ensures c.timer.None? && out.0.timer.Some? ==>
      out.0.timer == Some(FinalCheckTimer(functionArn, now + GRACE_PERIOD_MINUTES * 60))
    ensures Consistent(c) ==> Consistent(out.0)
  {
    match createFault
    case Some(detail) => (c, CreateFailed(detail))
    case None =>
      if c.timer.Some? then
        match deleteFault
        case None => (c.(timer := None), STALE_TIMER_REMOVED)
        case Some(detail) => (c, DeleteFailed(detail))
      else
        var fireAt := now + GRACE_PERIOD_MINUTES * 60;
        (c.(timer := Some(FinalCheckTimer(functionArn, fireAt))), Armed(fireAt))
  }

  /** The final-check path: stop only on a confirmed count of zero; the schedule is left alone. */
  function FinalCheck(c: Cloud, count: int, stopFault: Option<string>): (out: (Cloud, string))
    ensures out.0.stopCalls == if count == 0 then c.stopCalls + 1 else c.stopCalls
    ensures out.0.timer == c.timer
    ensures count != 0 ==> out.0 == c
  {
    if count == 0 then Shutdown(c, stopFault)
    else if count > 0 then (c, Reconnected(count))
    else (c, FINAL_CHECK_UNKNOWN)
  }

  /** The departure path: arm the schedule only on a confirmed count of zero; never stop. */
  function Departure(c: Cloud, count: int, functionArn: string, now: nat, createFault: Option<string>, deleteFault: Option<string>): (out: (Cloud, string))
    ensures out.0.instance == c.instance && out.0.stopCalls == c.stopCalls
    ensures count != 0 ==> out.0 == c
    ensures Consistent(c) ==> Consistent(out.0)
  {
    if count == 0 then Schedule(c, functionArn, now, createFault, deleteFault)
    else if count > 0 then (c, StillOccupied(count))
    else (c, DEPARTURE_UNKNOWN)
  }

  /** `lambda_handler`: the instance guard, then routing on the event's `source`. */
  function Handler(c: Cloud, event: Event, functionArn: string, now: nat, env: Services): (out: (Cloud, Response))
    // Outside the running state, or when the instance cannot be described, nothing changes.
    ensures env.describeFault.Some? || c.instance != Some(Running) ==> out.0 == c
    // A stop is requested at most once, and only by a final check that counted zero players.
    ensures out.0.stopCalls == c.stopCalls || out.0.stopCalls == c.stopCalls + 1
    ensures out.0.stopCalls != c.stopCalls ==>
      event.source == Some(FINAL_CHECK_SOURCE) && PlayerCount(env.query) == 0 && c.instance == Some(Running)
    // The schedule is touched only by a departure that counted zero players.
    ensures out.0.timer != c.timer ==>
      event.source != Some(FINAL_CHECK_SOURCE) && PlayerCount(env.query) == 0 && c.instance == Some(Running)
    // The instance changes only by an accepted stop.
    ensures out.0.instance != c.instance ==> out.0.instance == Some(Stopping)
    ensures Consistent(c) ==> Consistent(out.0)
  {
    if env.describeFault.Some? then (c, Response(500, DescribeFailed(env.describeFault.value)))
    else if c.instance.None? then (c, Response(404, INSTANCE_NOT_FOUND))
    else if c.instance.value != Running then (c, Response(200, NotRunning(c.instance.value)))
    else
      var count := PlayerCount(env.query);
      var (next, message) :=
        if event.source == Some(FINAL_CHECK_SOURCE) then FinalCheck(c, count, env.stopFault)
        else Departure(c, count, functionArn, now, env.createFault, env.deleteFault);
      (next, Response(StatusCode(message), message))
  }

  /**
   * The scheduler firing the schedule at or after its time: it invokes the target with
   * the schedule's input and, when the schedule deletes itself after completion, removes it.
   */
  function Fire(c: Cloud, time: int): (out: (Cloud, Event))
    requires c.timer.Some? && time >= c.timer.value.fireAt
    ensures out.1 == c.timer.value.input
    ensures out.0.instance == c.instance && out.0.stopCalls == c.stopCalls
    ensures out.0.timer == if c.timer.value.deleteAfterCompletion then None else c.timer
    // Every schedule the handler creates is a self-deleting final check: firing it delivers
    // the final-check event and leaves no schedule behind.
    ensures Consistent(c) ==> out == (c.(timer := None), FINAL_CHECK_EVENT)
  {
    var t := c.timer.value;
    (if t.deleteAfterCompletion then c.(timer := None) else c, t.input)
  }

  /** The services as mutable state, changed in place by the handler's steps. */
  class Deployment {
    var instance: Option<InstanceState>
    var timer: Option<Timer>
    var stopCalls: nat

    function Snapshot(): Cloud
      reads this
    {
      Cloud(instance, timer, stopCalls)
    }

    ghost predicate Valid()
      reads this
    {
      Consistent(Snapshot())
    }

    constructor (instance: Option<InstanceState>)
      ensures Snapshot() == Cloud(instance, None, 0)
      ensures Valid()
    {
      this.instance := instance;
      this.timer := None;
      this.stopCalls := 0;
    }

    method ShutdownSequence(stopFault: Option<string>) returns (message: string)
      modifies this
      ensures stopCalls == old(stopCalls) + 1 && timer == old(timer)
      ensures instance == if stopFault.None? then Some(Stopping) else old(instance)
      ensures (Snapshot(), message) == Shutdown(old(Snapshot()), stopFault)
    {
      stopCalls := stopCalls + 1;
      match stopFault
      case None =>
        instance := Some(Stopping);
        message := STOP_SENT;
      case Some(detail) =>
        message := StopFailed(detail);
    }

    method CreateShutdownSchedule(functionArn: string, now: nat, createFault: Option<string>, deleteFault: Option<string>)
      returns (message: string)
      modifies this
      ensures old(Valid()) ==> Valid()
      ensures instance == old(instance) && stopCalls == old(stopCalls)
      ensures (Snapshot(), message) == Schedule(old(Snapshot()), functionArn, now, createFault, deleteFault)
    {
      var fireAt := now + GRACE_PERIOD_MINUTES * 60;
      if createFault.Some? {
        // Any create failure other than a conflict.
        message := CreateFailed(createFault.value);
      } else if timer.Some? {
        // The scheduler reports a conflict: try to remove the stale schedule.
        match deleteFault
        case None =>
          timer := None;
          message := STALE_TIMER_REMOVED;
        case Some(detail) =>
          message := DeleteFailed(detail);
      } else {
        timer := Some(FinalCheckTimer(functionArn, fireAt));
        message := Armed(fireAt);
      }
    }

    method LambdaHandler(event: Event, functionArn: string, now: nat, env: Services) returns (response: Response)
      modifies this
      ensures old(Valid()) ==> Valid()
      ensures (Snapshot(), response) == Handler(old(Snapshot()), event, functionArn, now, env)
    {
      if env.describeFault.Some? {
        return Response(500, DescribeFailed(env.describeFault.value));
      }
      if instance.None? {
        return Response(404, INSTANCE_NOT_FOUND);
      }
      if instance.value != Running {
        return Response(200, NotRunning(instance.value));
      }
      var message: string;
      var count := PlayerCount(env.query);
      if event.source == Some(FINAL_CHECK_SOURCE) {
        if count == 0 {
          message := ShutdownSequence(env.stopFault);
        } else if count > 0 {
          message := Reconnected(count);
        } else {
          message := FINAL_CHECK_UNKNOWN;
        }
      } else {
        if count == 0 {
          message := CreateShutdownSchedule(functionArn, now, env.createFault, env.deleteFault);
        } else if count > 0 {
          message := StillOccupied(count);
        } else {
          message := DEPARTURE_UNKNOWN;
        }
      }
      response := Response(StatusCode(message), message);
    }
  }
}
