# Idle shutdown of a game-server instance, in Dafny

This project models the stop handler of a single on-demand game-server instance
(`lambda_functions/stop_server_lambda.py`). The handler keeps the instance running only
while players are online. When a player leaves, it counts the players still connected. If
nobody is online, it arms a one-shot schedule that invokes the handler again after a grace
period of five minutes. When that final check runs and the server is still empty, it stops
the instance. A player count that cannot be read is never treated as zero: it never arms
the schedule and never stops the instance.

The model has four parts:

- `Strings` (`strings.dfy`): the Python string operations the handler uses. These are the
  substring test `in`, `str.split(' ')` with its inverse `join`, `isdigit` with `int`, and
  `str(n)`.
- `PlayerQuery` (`player_count.dfy`): `get_player_count` as a pure function of the fetched
  command result. It yields `-1` (unknown) for a failed call, a non-`Success` status, a
  refused console connection, or a reply outside the grammar `There are <digits> ...`.
- `StopServer` (`stop_server.dfy`): the cloud services as abstract state. This is the
  instance state (absent when the instance does not exist), the schedule named
  `VorticeFinalCheckSchedule` if it exists, and the number of stop requests issued. The
  handler's steps appear twice: as specification functions over a `Cloud` value
  (`Shutdown`, `Schedule`, `FinalCheck`, `Departure`, `Handler`), and as methods of the
  class `Deployment` that update those fields in place and are proved equal to the
  functions. Each remote call's outcome (success, or an exception with its text) is an input
  in `Services`. A schedule create conflicts exactly when the schedule already exists; any
  other create failure (access denied, throttling) is a caller-supplied exception, reported
  as such whether or not the schedule exists.
- `StopServerProperties` (`stop_server_properties.dfy`): the guarantees. These cover the
  instance guard, fail-safe unknown counts, the two paths, the conflict protocol, every
  status code, and the whole arm, fire and stop cycle.

Two consequences of the status rule at line 148:

- A failed schedule create or delete answers 200, not a failure code. The status rule
  (line 148) exempts any message containing "agendamento", and both schedule error messages
  contain it.
- For the same reason, a failed stop answers 200 instead of 500 when the exception's own
  text contains "agendamento" (`StopFailureStatus`).

Each step's outcome is the handler's own Portuguese message, word for word.

## Model

| member | source | states |
|---|---|---|
| `Strings.Split` | lambda_functions/stop_server_lambda.py:52 | `s.split(' ')` yields at least one piece, no piece contains the separator, and joining the pieces gives back `s`; a string without the separator is one piece |
| `Strings.SplitJoin` | lambda_functions/stop_server_lambda.py:52 | splitting undoes joining for separator-free pieces |
| `Strings.NatToDigits` | lambda_functions/stop_server_lambda.py:130 | `str(n)` of a count is a non-empty digit string without a leading zero |
| `Strings.DigitsRoundTrip` | lambda_functions/stop_server_lambda.py:54 | `int(str(n)) == n` |
| `PlayerQuery.PlayerCount` | lambda_functions/stop_server_lambda.py:42-62 | the sample is -1 or a non-negative count, and a count is only read from a successful invocation whose output has no "Connection refused" |
| `PlayerQuery.KnownCountSound` | lambda_functions/stop_server_lambda.py:52-56 | a known count came from output that starts with `There are `, then that count's digits, then the end or a space |
| `PlayerQuery.CountReplyRead` | lambda_functions/stop_server_lambda.py:52-56 | output `There are <digits>`, optionally followed by a space and text without "Connection refused", reads as `int(<digits>)`, leading zeros included |
| `PlayerQuery.CountRoundTrip` | lambda_functions/stop_server_lambda.py:52-56 | output `There are <str(n)>`, optionally followed by a space and text without "Connection refused", reads as `n` |
| `PlayerQuery.PaddedCountReply` | lambda_functions/stop_server_lambda.py:53-54 | the reply `There are 007` reads as 7 |
| `PlayerQuery.EmptyServerReply` | lambda_functions/stop_server_lambda.py:52-56 | the reply `There are 0 of a max of 20 players online: ` reads as 0 |
| `PlayerQuery.RefusedReplyUnknown` | lambda_functions/stop_server_lambda.py:47-50 | output containing "Connection refused" reads as unknown |
| `PlayerQuery.RefusalOutputUnknown` | lambda_functions/stop_server_lambda.py:48-50 | the output `Connection refused` reads as unknown |
| `PlayerQuery.GarbageReplyUnknown` | lambda_functions/stop_server_lambda.py:57-59 | the output `garbage`, outside the reply grammar, reads as unknown |
| `PlayerQuery.FailedInvocationUnknown` | lambda_functions/stop_server_lambda.py:42-62 | an exception while running or fetching the command, or a status other than `Success`, reads as unknown |
| `StopServer.StatusCode` | lambda_functions/stop_server_lambda.py:148 | the final code is 200 or 500, and 500 only for a message containing "Erro" |
| `StopServer.Shutdown` | lambda_functions/stop_server_lambda.py:64-71 | one stop request is issued; an accepted one leaves the instance stopping, a failed one leaves it as it was; the schedule is untouched |
| `StopServer.Schedule` | lambda_functions/stop_server_lambda.py:73-103 | never stops or changes the instance; a create that fails other than by a conflict changes nothing; never replaces an existing schedule (it keeps it or deletes it); a new schedule is the named, self-deleting final-check schedule firing 5 minutes from now; keeps schedules consistent |
| `StopServer.FinalCheck` | lambda_functions/stop_server_lambda.py:123-134 | one stop request exactly when the count is 0; the schedule is never touched; any other count changes nothing |
| `StopServer.Departure` | lambda_functions/stop_server_lambda.py:136-146 | never stops or changes the instance; any count other than 0 changes nothing; keeps schedules consistent |
| `StopServer.Handler` | lambda_functions/stop_server_lambda.py:106-149 | nothing changes unless the instance is described and running; at most one stop, only from a final check that counted 0; the schedule changes only on a departure that counted 0; the instance only moves to stopping; keeps schedules consistent |
| `StopServer.Fire` | lambda_functions/stop_server_lambda.py:80-90 | firing any schedule the handler can have created (a consistent state) delivers exactly the final-check event `{"source": "self-scheduled-check"}` and, because of `ActionAfterCompletion='DELETE'`, leaves no schedule behind, the instance and stop requests unchanged |
| `StopServer.Deployment.ShutdownSequence` | lambda_functions/stop_server_lambda.py:64-71 | in place: one more stop request, the instance stopping if it was accepted, the schedule unchanged, as `Shutdown` says |
| `StopServer.Deployment.CreateShutdownSchedule` | lambda_functions/stop_server_lambda.py:73-103 | in place: instance and stop requests unchanged, the schedule and message as `Schedule` says, consistency kept |
| `StopServer.Deployment.LambdaHandler` | lambda_functions/stop_server_lambda.py:106-149 | in place: new state and response as `Handler` says, consistency kept |
| `StopServerProperties.StopSentStatus` | lambda_functions/stop_server_lambda.py:148 | an accepted stop answers 200 |
| `StopServerProperties.StaleTimerRemovedStatus` | lambda_functions/stop_server_lambda.py:148 | removing a stale schedule answers 200 |
| `StopServerProperties.FinalCheckUnknownStatus` | lambda_functions/stop_server_lambda.py:148 | an unknown count at the final check answers 200 |
| `StopServerProperties.DepartureUnknownStatus` | lambda_functions/stop_server_lambda.py:148 | an unknown count after a departure answers 200 |
| `StopServerProperties.ReconnectedStatus` | lambda_functions/stop_server_lambda.py:148 | players back at the final check answers 200 |
| `StopServerProperties.StillOccupiedStatus` | lambda_functions/stop_server_lambda.py:148 | players still online after a departure answers 200 |
| `StopServerProperties.ArmedStatus` | lambda_functions/stop_server_lambda.py:148 | an armed schedule answers 200 |
| `StopServerProperties.ScheduleFailureStatus` | lambda_functions/stop_server_lambda.py:148 | a failed schedule create or conflict delete answers 200 |
| `StopServerProperties.StopFailureStatus` | lambda_functions/stop_server_lambda.py:148 | a failed stop answers 500, or 200 when the exception text contains "agendamento" |
| `StopServerProperties.InstanceGuard` | lambda_functions/stop_server_lambda.py:106-120 | a describe failure answers 500, a missing instance 404, and a state other than running 200; in each case nothing changes (no query, no schedule create or delete, no stop) |
| `StopServerProperties.UnknownCountNeverActs` | lambda_functions/stop_server_lambda.py:132-146 | an unknown count changes nothing on either path and answers 200 |
| `StopServerProperties.FinalCheckStops` | lambda_functions/stop_server_lambda.py:123-128 | a final check that counts 0 issues exactly one stop and leaves the schedule alone; an accepted stop leaves the instance stopping and answers 200 |
| `StopServerProperties.FinalCheckAborts` | lambda_functions/stop_server_lambda.py:129-131 | a final check that counts players changes nothing and answers 200 with the count |
| `StopServerProperties.OnlyFinalCheckStops` | lambda_functions/stop_server_lambda.py:123 | an event whose source is not exactly `self-scheduled-check` never stops the instance |
| `StopServerProperties.DepartureArms` | lambda_functions/stop_server_lambda.py:77-91 | a departure that counts 0 with no schedule creates exactly one schedule: `VorticeFinalCheckSchedule`, firing at now + 300 s, input `{"source": "self-scheduled-check"}`, deleted after completion; nothing else changes and the answer is 200 |
| `StopServerProperties.DepartureConflict` | lambda_functions/stop_server_lambda.py:92-97 | a departure that counts 0 while the schedule exists, whose create conflicts, deletes it, creates none, leaves the instance alone and asks for the event again, answering 200 |
| `StopServerProperties.DepartureScheduleFailure` | lambda_functions/stop_server_lambda.py:98-103 | a failed create or conflict delete changes nothing and answers 200 |
| `StopServerProperties.DepartureCreateFailure` | lambda_functions/stop_server_lambda.py:101-103 | a create failing other than by a conflict answers `Erro ao criar agendamento: <text>` with 200 and keeps any existing schedule |
| `StopServerProperties.OccupiedDepartureIdempotent` | lambda_functions/stop_server_lambda.py:141-143 | a departure with players online changes nothing, so delivering it again gives the same result |
| `StopServerProperties.HandlerStatus` | lambda_functions/stop_server_lambda.py:106-149 | 404 exactly for a missing instance; 500 exactly for a describe failure or a stop failure whose text lacks "agendamento"; 200 otherwise |
| `StopServerProperties.ArmedScheduleFires` | lambda_functions/stop_server_lambda.py:80-90 | the armed schedule, firing at or after its time, delivers the final-check event and is gone |
| `StopServerProperties.ShutdownCycle` | lambda_functions/stop_server_lambda.py:106-149 | departure on an empty server arms the schedule; when it fires and the server is still empty one stop is issued; the same event again finds the instance not running and changes nothing |

## Left out

- The AWS clients are not modelled as calls. `describe_instances`, `send_command`,
  `get_command_invocation`, `create_schedule`, `delete_schedule` and `stop_instances` are
  remote; each becomes abstract state plus a caller-supplied outcome in `Services` and
  `Invocation`. The shape of the describe response is reduced to a present or absent
  instance state. A malformed response, like any other exception, is a describe failure.
- Secret retrieval (`get_rcon_password`, lines 18-26) and the console command text (line 30)
  are left out. They are I/O, and the command's result is an input.
- The wait before fetching the command result (line 39) is left out, as is its
  `StandardErrorContent`, which is only printed.
- Wall-clock time is an input `now` in seconds. The fire time is `now + 300`. The
  `at(...)` expression's `%Y-%m-%dT%H:%M:%S` formatting (lines 77-78) is not modelled.
  `Armed` quotes the fire time as decimal seconds instead.
- `print` logging and the `json.dumps` encoding of the body are left out.
- `FlexibleTimeWindow` and the role ARN's meaning are left out. The role ARN is only copied
  into the schedule.
- `isdigit` accepts only ASCII digits in the model. Python also accepts other Unicode
  digits.
- Concurrent invocations are left out. Mutual exclusion rests on the scheduler's
  create-fails-on-duplicate behaviour, modelled as a create that conflicts when the
  schedule exists.
- `lambda_functions/get_status_lambda.py` and `lambda_functions/start_server_lambda.py` are
  not part of this model. They pass requests straight through to EC2 and make no decisions.
