/**
 * What the stop handler guarantees, stated over `StopServer.Handler`: the instance guard,
 * the fail-safe treatment of an unknown player count, the two decision paths, the
 * conflict protocol for the named schedule, the status codes, and the full
 * arm-fire-stop cycle.
 */
module StopServerProperties {
  import opened Wrappers
  import opened Strings
  import opened PlayerQuery
  import opened StopServer

  // ---- Status codes of the messages -------------------------------------------------

  /** A message without a capital `E` cannot report an error, so it is a 200. */
  lemma QuietStatus(message: string)
    requires 'E' !in message
    ensures StatusCode(message) == 200
  {
    NotContainsMissingChar(message, "Erro", 0);
  }

  /** A message made of six phrases, none with a capital `E`, is a 200. */
  lemma SixPhrasesQuiet(message: string, a: string, b: string, c: string, d: string, e: string, f: string)
    requires message == a + b + c + d + e + f
    requires 'E' !in a && 'E' !in b && 'E' !in c && 'E' !in d && 'E' !in e && 'E' !in f
    ensures StatusCode(message) == 200
  {
    QuietStatus(message);
  }

  /** Decimal digits hold no capital `E`. */
  lemma DigitsQuiet(n: nat)
    ensures 'E' !in NatToDigits(n)
  {
  }

  /** An accepted stop request is a 200. */
  lemma StopSentStatus()
    ensures StatusCode(STOP_SENT) == 200
  {
    assert 'E' !in STOP_SENT;
    QuietStatus(STOP_SENT);
  }

  /** Removing a stale schedule after a conflict is a 200. */
  lemma StaleTimerRemovedStatus()
    ensures StatusCode(STALE_TIMER_REMOVED) == 200
  {
    assert 'E' !in STALE_TIMER_REMOVED;
    QuietStatus(STALE_TIMER_REMOVED);
  }

  /** An unknown count at the final check is a 200. */
  lemma FinalCheckUnknownStatus()
    ensures StatusCode(FINAL_CHECK_UNKNOWN) == 200
  {
    SixPhrasesQuiet(FINAL_CHECK_UNKNOWN, "Não foi possível", " determinar a contagem", " de jogadores",
      " na verificação final.", " Desligamento cancelado", " por segurança.");
  }

  /** An unknown count after a departure is a 200. */
  lemma DepartureUnknownStatus()
    ensures StatusCode(DEPARTURE_UNKNOWN) == 200
  {
    SixPhrasesQuiet(DEPARTURE_UNKNOWN, "Não foi possível", " determinar a contagem", " de jogadores",
      " após evento de log.", " Nenhuma ação tomada", " por segurança.");
  }

  /** Players back at the final check is a 200. */
  lemma ReconnectedStatus(count: nat)
    ensures StatusCode(Reconnected(count)) == 200
  {
    DigitsQuiet(count);
    QuietStatus(Reconnected(count));
  }

  /** Players still online after a departure is a 200. */
  lemma StillOccupiedStatus(count: nat)
    ensures StatusCode(StillOccupied(count)) == 200
  {
    DigitsQuiet(count);
    QuietStatus(StillOccupied(count));
  }

  /** An armed schedule is a 200. */
  lemma ArmedStatus(fireAt: nat)
    ensures StatusCode(Armed(fireAt)) == 200
  {
    DigitsQuiet(fireAt);
    QuietStatus(Armed(fireAt));
  }

  /** A failed schedule create or delete names the schedule ("agendamento"), so it is a 200. */
  lemma ScheduleFailureStatus(detail: string)
    ensures StatusCode(CreateFailed(detail)) == 200
    ensures StatusCode(DeleteFailed(detail)) == 200
  {
    assert OccursAt("agendamento: ", "agendamento", 0);
    ContainsExtended("Erro ao criar ", "agendamento: ", detail, "agendamento");
    assert OccursAt("agendamento conflitante: ", "agendamento", 0);
    ContainsExtended("Erro ao tentar remover ", "agendamento conflitante: ", detail, "agendamento");
  }

  /**
   * A failed stop is a 500 -- unless the exception's own text happens to contain
   * "agendamento", since the rule looks at the whole message.
   */
  lemma StopFailureStatus(detail: string)
    ensures StatusCode(StopFailed(detail)) == if Contains(detail, "agendamento") then 200 else 500
  {
    var prefix := "Erro durante o desligamento: ";
    assert StopFailed(detail) == prefix + detail;
    assert OccursAt(prefix + detail, "Erro", 0);
    StopPrefixQuiet(prefix);
    ContainsAfterBarrier(prefix, detail, "agendamento");
  }

  /** The stop-failure prefix does not mention "agendamento" and ends outside that word. */
  lemma StopPrefixQuiet(prefix: string)
    requires prefix == "Erro durante o desligamento: "
    ensures prefix[|prefix| - 1] !in "agendamento"
    ensures !Contains(prefix, "agendamento")
  {
    var head, rest := "Erro durante o desli", "gamento: ";
    assert head + rest == prefix;
    NotContainsMissingChar(head, "agendamento", 1);
    NotContainsShorter(rest, "agendamento");
    ContainsAfterBarrier(head, rest, "agendamento");
  }

  // ---- The instance guard -----------------------------------------------------------

  /**
   * Before anything else the handler describes the instance: a failure is a 500, a missing
   * instance a 404, a state other than running a 200. In all three cases nothing changes:
   * no player query, no schedule created or deleted, no stop.
   */
  lemma InstanceGuard(c: Cloud, event: Event, functionArn: string, now: nat, env: Services)
    requires env.describeFault.Some? || c.instance != Some(Running)
    ensures Handler(c, event, functionArn, now, env).0 == c
    ensures Handler(c, event, functionArn, now, env).1 ==
      if env.describeFault.Some? then Response(500, DescribeFailed(env.describeFault.value))
      else if c.instance.None? then Response(404, INSTANCE_NOT_FOUND)
      else Response(200, NotRunning(c.instance.value))
  {
  }

  // ---- Unknown counts are fail-safe ----------------------------------------------------

  /** An unknown player count changes nothing on either path, and the reply is a 200. */
  lemma UnknownCountNeverActs(c: Cloud, event: Event, functionArn: string, now: nat, env: Services)
    requires env.describeFault.None? && c.instance == Some(Running)
    requires PlayerCount(env.query) == UNKNOWN
    ensures Handler(c, event, functionArn, now, env).0 == c
    ensures Handler(c, event, functionArn, now, env).1.statusCode == 200
  {
    FinalCheckUnknownStatus();
    DepartureUnknownStatus();
  }

  // ---- The final-check path -----------------------------------------------------------

  /**
   * The final check with nobody online requests exactly one stop and leaves the schedule
   * alone; an accepted stop is a 200 and leaves the instance stopping.
   */
  lemma FinalCheckStops(c: Cloud, functionArn: string, now: nat, env: Services)
    requires env.describeFault.None? && c.instance == Some(Running)
    requires PlayerCount(env.query) == 0
    ensures var out := Handler(c, FINAL_CHECK_EVENT, functionArn, now, env);
      out.0.stopCalls == c.stopCalls + 1 && out.0.timer == c.timer &&
      (env.stopFault.None? ==> out.0.instance == Some(Stopping) && out.1 == Response(200, STOP_SENT)) &&
      (env.stopFault.Some? ==> out.0.instance == c.instance)
  {
    StopSentStatus();
  }

  /** The final check with players online changes nothing and reports how many came back. */
  lemma FinalCheckAborts(c: Cloud, functionArn: string, now: nat, env: Services)
    requires env.describeFault.None? && c.instance == Some(Running)
    requires PlayerCount(env.query) > 0
    ensures Handler(c, FINAL_CHECK_EVENT, functionArn, now, env) ==
      (c, Response(200, Reconnected(PlayerCount(env.query))))
  {
    ReconnectedStatus(PlayerCount(env.query));
  }

  /** Only the exact source `self-scheduled-check` can lead to a stop. */
  lemma OnlyFinalCheckStops(c: Cloud, event: Event, functionArn: string, now: nat, env: Services)
    requires event.source != Some(FINAL_CHECK_SOURCE)
    ensures Handler(c, event, functionArn, now, env).0.stopCalls == c.stopCalls
    ensures Handler(c, event, functionArn, now, env).0.instance == c.instance
  {
  }

  // ---- The departure path -------------------------------------------------------------

  /**
   * A departure with nobody online and no schedule yet arms exactly one schedule: named
   * `SCHEDULE_NAME`, firing `GRACE_PERIOD_MINUTES` (5) minutes from now, carrying the
   * final-check event and deleting itself afterwards. Nothing else changes.
   */
  lemma DepartureArms(c: Cloud, event: Event, functionArn: string, now: nat, env: Services)
    requires env.describeFault.None? && c.instance == Some(Running) && c.timer.None?
    requires event.source != Some(FINAL_CHECK_SOURCE) && PlayerCount(env.query) == 0
    requires env.createFault.None?
    ensures var out := Handler(c, event, functionArn, now, env);
      out.0 == c.(timer := Some(Timer(SCHEDULE_NAME, now + 300, functionArn, SCHEDULER_ROLE_ARN,
                                      Event(Some("self-scheduled-check")), true))) &&
      out.1 == Response(200, Armed(now + 300))
  {
    ArmedStatus(now + 300);
  }

  /**
   * A departure with nobody online while the schedule already exists: the create conflicts,
   * the old schedule is deleted and no new one is made; the reply asks for the event again.
   */
  lemma DepartureConflict(c: Cloud, event: Event, functionArn: string, now: nat, env: Services)
    requires env.describeFault.None? && c.instance == Some(Running) && c.timer.Some?
    requires event.source != Some(FINAL_CHECK_SOURCE) && PlayerCount(env.query) == 0
    requires env.createFault.None? && env.deleteFault.None?
    ensures Handler(c, event, functionArn, now, env) ==
      (c.(timer := None), Response(200, STALE_TIMER_REMOVED))
  {
    StaleTimerRemovedStatus();
  }

  /** A departure whose schedule create or conflict delete fails changes nothing and is a 200. */
  lemma DepartureScheduleFailure(c: Cloud, event: Event, functionArn: string, now: nat, env: Services)
    requires env.describeFault.None? && c.instance == Some(Running)
    requires event.source != Some(FINAL_CHECK_SOURCE) && PlayerCount(env.query) == 0
    requires env.createFault.Some? || (c.timer.Some? && env.deleteFault.Some?)
    ensures Handler(c, event, functionArn, now, env).0 == c
    ensures Handler(c, event, functionArn, now, env).1.statusCode == 200
  {
    ScheduleFailureStatus(if env.createFault.Some? then env.createFault.value else env.deleteFault.value);
  }

  /**
   * A create that fails for a reason other than a conflict is reported as such even while
   * the schedule exists: the existing schedule is kept, nothing is deleted.
   */
  lemma DepartureCreateFailure(c: Cloud, event: Event, functionArn: string, now: nat, env: Services)
    requires env.describeFault.None? && c.instance == Some(Running)
    requires event.source != Some(FINAL_CHECK_SOURCE) && PlayerCount(env.query) == 0
    requires env.createFault.Some?
    ensures Handler(c, event, functionArn, now, env) ==
      (c, Response(200, CreateFailed(env.createFault.value)))
  {
    ScheduleFailureStatus(env.createFault.value);
  }

  /**
   * A departure while players are still online does nothing, so delivering it again
   * gives the same reply and still changes nothing.
   */
  lemma OccupiedDepartureIdempotent(c: Cloud, event: Event, functionArn: string, now: nat, env: Services)
    requires env.describeFault.None? && c.instance == Some(Running)
    requires event.source != Some(FINAL_CHECK_SOURCE) && PlayerCount(env.query) > 0
    ensures var out := Handler(c, event, functionArn, now, env);
      out.0 == c && Handler(out.0, event, functionArn, now, env) == out && out.1.statusCode == 200
  {
    StillOccupiedStatus(PlayerCount(env.query));
  }

  // ---- Status codes of the handler -----------------------------------------------------

  /**
   * The handler answers 404 exactly for a missing instance and 500 exactly for a failed
   * describe or a failed stop (whose text does not mention "agendamento"); every other
   * outcome, aborts and schedule failures included, is a 200.
   */
  lemma HandlerStatus(c: Cloud, event: Event, functionArn: string, now: nat, env: Services)
    ensures var code := Handler(c, event, functionArn, now, env).1.statusCode;
      (code == 404 <==> env.describeFault.None? && c.instance.None?) &&
      (code == 500 <==>
        env.describeFault.Some? ||
        (c.instance == Some(Running) && event.source == Some(FINAL_CHECK_SOURCE) &&
         PlayerCount(env.query) == 0 && env.stopFault.Some? &&
         !Contains(env.stopFault.value, "agendamento"))) &&
      (code == 200 || code == 404 || code == 500)
  {
    var count := PlayerCount(env.query);
    StopSentStatus();
    StaleTimerRemovedStatus();
    FinalCheckUnknownStatus();
    DepartureUnknownStatus();
    if count > 0 {
      ReconnectedStatus(count);
      StillOccupiedStatus(count);
    }
    ArmedStatus(now + GRACE_PERIOD_MINUTES * 60);
    if env.stopFault.Some? {
      StopFailureStatus(env.stopFault.value);
    }
    if env.createFault.Some? {
      ScheduleFailureStatus(env.createFault.value);
    }
    if env.deleteFault.Some? {
      ScheduleFailureStatus(env.deleteFault.value);
    }
  }

  // ---- The arm, fire, stop cycle --------------------------------------------------------

  /** The armed schedule, once it fires, delivers the final-check event and is gone. */
  lemma ArmedScheduleFires(c: Cloud, functionArn: string, now: nat, time: int)
    requires c.timer == Some(FinalCheckTimer(functionArn, now + GRACE_PERIOD_MINUTES * 60))
    requires time >= now + GRACE_PERIOD_MINUTES * 60
    ensures Fire(c, time) == (c.(timer := None), FINAL_CHECK_EVENT)
    ensures Fire(c, time).1.source == Some(FINAL_CHECK_SOURCE)
  {
  }

  /**
   * A departure on an empty server arms the schedule; when it fires five minutes later and
   * the server is still empty, the final check issues one stop; the same final-check event
   * delivered again finds the instance no longer running and does nothing.
   */
  // The reply's tail is a parameter fixed by `requires` so that the verifier reasons about
  // it symbolically instead of unfolding the parser on one long literal.
  lemma ShutdownCycle(functionArn: string, now: nat, tail: string)
    requires tail == " of a max of 20 players online: "
    ensures
      var empty := Services(None, Returned(SUCCESS, "There are 0" + tail), None, None, None);
      var c0 := Cloud(Some(Running), None, 0);
      var (c1, r1) := Handler(c0, Event(None), functionArn, now, empty);
      r1.statusCode == 200 && c1.timer.Some? && c1.timer.value.fireAt == now + 300 &&
      var (c2, event) := Fire(c1, now + 300);
      var (c3, r3) := Handler(c2, event, functionArn, now + 300, empty);
      var (c4, r4) := Handler(c3, event, functionArn, now + 300, empty);
      event == FINAL_CHECK_EVENT &&
      c3 == Cloud(Some(Stopping), None, 1) && r3 == Response(200, STOP_SENT) &&
      c4 == c3 && r4 == Response(200, NotRunning(Stopping))
  {
    var empty := Services(None, Returned(SUCCESS, "There are 0" + tail), None, None, None);
    EmptyServerReply(tail);
    var c0 := Cloud(Some(Running), None, 0);
    DepartureArms(c0, Event(None), functionArn, now, empty);
    var c1 := Handler(c0, Event(None), functionArn, now, empty).0;
    ArmedScheduleFires(c1, functionArn, now, now + 300);
    var c2 := Fire(c1, now + 300).0;
    FinalCheckStops(c2, functionArn, now + 300, empty);
  }
}
