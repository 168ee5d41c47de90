# Exchange-mode decision rules of Mys_Goods_Tool

This project models the decision logic of the tool's exchange mode
(`mys_goods_tool/exchange_mode.py`). Four parts are modelled:

- **Failure-cause selection** (`_on_fail`). An `ExchangeStatus` carries nine
  flags. The reported cause is the first flag that is set, in a fixed order,
  or "unknown" when no flag is set. Module `FailureCauses`, file `on_fail.dfy`.
- **Connection test** (`_get_api_host`, `_connection_test`). An unresolved API
  hostname gives `False` and no ping is sent. Otherwise the ping's answer is
  returned unchanged: timeout, failure or latency. Module `Probe`, file `probe.dfy`.
- **Timetable construction** (`get_scheduler`). The scheduler gets the
  preferred timezone, or the default one. When connection testing is enabled,
  one recurring probe job is added, using the preferred interval or the
  default one. Then one one-shot job is added per plan, in plan order. Each
  is registered with the plan as its argument and the good's sale time (a
  Unix timestamp) as its run date. Module
  `Scheduling`, file `scheduler.dfy`. The scheduler is a class whose `AddJob`
  appends to a `jobs` sequence. `GetScheduler` fills it in a loop whose
  invariant ties the jobs added so far to the `Timetable` specification
  function. Lemmas about `Timetable` state the count, order and content
  properties.
- **Entry guard** (`exchange_mode_simple`). With no plans it returns before
  any scheduler is built. Otherwise it builds the timetable and starts the
  scheduler.

Inputs that come from outside the file are parameters:

- the user's preferences;
- the class defaults of `Preference`, whose values live in `user_data.py`
  (`user_data.py` is not part of this model);
- the plan list;
- the hostname found by the URL parser;
- the ping, as an oracle from hostname to outcome.

Python's `x or default` is modelled by `Scheduling.Or`. An absent value and
the type's false value (`""` for the timezone, `0` for the interval) both
select the default.

## Model

| member | source | states |
|---|---|---|
| FailureCauses.Cause | mys_goods_tool/exchange_mode.py:37-57 | the chosen cause's flag is set (unless the cause is unknown) and every flag tested before it is clear |
| FailureCauses.CauseIsFirstSetFlag | mys_goods_tool/exchange_mode.py:38-57 | the cause equals the cause at the index of the first set flag in the order network_error, missing_stoken, missing_mid, missing_address, missing_game_uid, unsupported_game, failed_getting_game_record, init_required, account_not_found |
| FailureCauses.UnknownIffNoFlag | mys_goods_tool/exchange_mode.py:56-57 | the cause is unknown if and only if no flag is set |
| FailureCauses.SetFlagBoundsCause | mys_goods_tool/exchange_mode.py:38-55 | a set flag beats every flag tested after it: the cause's position is at most that flag's |
| FailureCauses.LaterFlagsIrrelevant | mys_goods_tool/exchange_mode.py:38-55 | two statuses that agree on every flag up to and including the chosen cause's get the same cause; later flags never decide |
| FailureCauses.ReasonInjective | mys_goods_tool/exchange_mode.py:38-57 | distinct causes are logged with distinct reason texts |
| FailureCauses.FirstSetIsFirst | mys_goods_tool/exchange_mode.py:38-57 | the reference definition of "first set flag" finds a set flag, and all flags before it are clear |
| Probe.ApiHost | mys_goods_tool/exchange_mode.py:62-67 | a hostname is returned exactly when the parser found a non-empty one, and it is that hostname; otherwise none |
| Probe.ConnectionTest | mys_goods_tool/exchange_mode.py:70-85 | without a hostname: result is failure and nothing is pinged; with one: exactly that host is pinged and its answer is returned unchanged |
| Probe.OracleConsultedOnlyAtHost | mys_goods_tool/exchange_mode.py:74-85 | the ping is consulted only at the resolved host and not at all without one: two ping oracles that agree at that host yield the same result and trace |
| Probe.FailedIff | mys_goods_tool/exchange_mode.py:74-85 | the result is failure if and only if the host is unresolved or the ping failed |
| Probe.TimeoutOrLatencyComesFromPing | mys_goods_tool/exchange_mode.py:78-85 | a timeout or latency result implies a resolved host, and it is that host's ping answer |
| Scheduling.Or | mys_goods_tool/exchange_mode.py:93-96 | Python `or`: a truthy preference value is used as is, otherwise the class default (timezone and interval) |
| Scheduling.DateJobsAt | mys_goods_tool/exchange_mode.py:99-104 | one one-shot job per plan; the i-th has `plans[i]` as argument and `plans[i].good.time` as run time |
| Scheduling.TimetableLength | mys_goods_tool/exchange_mode.py:95-104 | the job count is the plan count, plus one exactly when connection testing is enabled |
| Scheduling.TimetableProbe | mys_goods_tool/exchange_mode.py:95-97 | a job is a recurring job exactly when testing is enabled and it is job 0, so it precedes all plan jobs; when disabled, every job is a one-shot job; the interval is the preference's when truthy, else the default |
| Scheduling.TimetablePlanJob | mys_goods_tool/exchange_mode.py:99-104 | job i (offset by one when the probe is enabled) is the one-shot job for `plans[i]` at its good's time |
| Scheduling.DateJobsCarryPlans | mys_goods_tool/exchange_mode.py:99-104 | the plans read back from the one-shot jobs are exactly the input plans, in order |
| Scheduling.TimetableCarriesPlans | mys_goods_tool/exchange_mode.py:95-104 | the plans read back from the whole timetable are exactly the input plans: none dropped, duplicated or reordered, and the probe job carries none |
| Scheduling.Scheduler.constructor | mys_goods_tool/exchange_mode.py:92 | a new scheduler has the library's default timezone, no jobs and is not started |
| Scheduling.Scheduler.Configure | mys_goods_tool/exchange_mode.py:93 | sets the timezone and leaves the jobs and the running flag unchanged |
| Scheduling.Scheduler.AddJob | mys_goods_tool/exchange_mode.py:97-104 | appends the job to the job list; nothing else changes |
| Scheduling.Scheduler.Start | mys_goods_tool/exchange_mode.py:150 | marks the scheduler started; the jobs and timezone are unchanged |
| Scheduling.GetScheduler | mys_goods_tool/exchange_mode.py:88-106 | returns a new, unstarted scheduler whose timezone is the effective one and whose jobs are exactly `Timetable(pref, defaults, plans)` |
| Scheduling.ExchangeModeSimple | mys_goods_tool/exchange_mode.py:124-152 | no scheduler is built if and only if there are no plans; otherwise a new scheduler with the full timetable and effective timezone is started |

Also modelled, by functions whose properties are stated by the members above:

- `FailureCauses.Reason`: the reason texts of `mys_goods_tool/exchange_mode.py:38-57`.
- `Scheduling.EffectiveTimezone`: the timezone fallback of `mys_goods_tool/exchange_mode.py:93`.
- `Scheduling.EffectiveInterval`: the interval fallback of `mys_goods_tool/exchange_mode.py:96`.
- `Scheduling.PlanJob`: the one-shot job of `mys_goods_tool/exchange_mode.py:100-104`.
- `Scheduling.Timetable`: the whole job list of `mys_goods_tool/exchange_mode.py:95-104`.

## Left out

- When and how the scheduler library fires jobs is not modelled: how the library treats run dates that are already past when it starts, job removal after firing, `shutdown` on keyboard interrupt (lines 153-155) and `run_forever` (line 152). This is library behaviour.
- The schedulers built at class-definition time for the widgets (lines 225 and 353) are left out. They are UI wiring.
- `exchange_begin` (lines 109-121) is left out. It uses `random.uniform` jitter over floats, `asyncio.sleep`, and the foreign network call `good_exchange`.
- `ping3.ping` is an abstract oracle. The two-decimal rounding in the probe's log line is floating point and not modelled.
- `urlparse` is a foreign library. Its parsed hostname is an input of `Probe.ApiHost`.
- Logging is left out: the log lines of `_on_fail` and `_connection_test`, and the `on_executed` and `update_ping` listeners (lines 136-147, 323-339, 358-363). The reason strings of `_on_fail` are kept only as `FailureCauses.Reason`.
- `_on_fail` formats `result.plan` even though `result` is optional. With no result, the real function raises before logging. The model covers only the cause selection, which does not depend on `result`.
- The failure branch of the `on_executed` listeners (lines 146-147, 336) dereferences a result that is `None` on that branch. These listeners are observer glue and are not modelled.
- The Textual UI classes (lines 158-363) are left out. They are presentation only.
- `datetime.fromtimestamp` is left out: a run date is kept as the good's Unix timestamp. The source converts it to a naive local time of the process (line 103) and hands it to a scheduler configured with the preferred or default timezone (line 93). The instant actually scheduled equals the good's timestamp only when the process timezone matches the configured one. The model does not capture this.
- `_connection_test` returns the ping latency unrounded (line 85). `round(result, 2)` appears only in the log line (line 84).
- `get_scheduler` raises no error of its own for a timezone that cannot be resolved. Any such error comes from the scheduler library, which is not modelled.
