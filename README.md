# Authorisation and time normalisation of the execution engine's method runner

This project models, in Dafny, the self-contained logic of `SDKMethodRunner`, the
object through which the execution engine's API reaches its job subsystems:

- the three job permission levels (`JobPermissions`: READ, WRITE, NONE);
- the administrator check `get_admin_permission`, which reads the caller's level
  from the job permission cache under the caller's user id;
- the permission decorators `allow_job_read` / `allow_job_write` and the admin
  gate at the start of `check_job_canceled`;
- the timestamp normaliser `_check_and_convert_time` (numeric strings in seconds
  or milliseconds, date strings, integer milliseconds, `datetime` values, with a
  default-to-now or raise policy on failure);
- the flag decoder `parse_bool_from_string`;
- the runner object itself: what `__init__` stores and builds, and the eight lazy
  getters that build a client handle on first use and hand back the same handle
  afterwards.

Files, one module each: `wrappers.dfy` (Option, Result), `pyvalues.dfy` (the
Python values the entry points receive, `dict.get`), `permissions.dfy`,
`admin.dfy`, `gates.dfy`, `digits.dfy` (ASCII digit strings, `int`, `str`,
`replace(".", "", 1)`), `timestamps.dfy` and `time_properties.dfy`,
`boolparse.dfy`, `runner.dfy` (the class).

Behaviour of the code worth noting:

- A `bool` timestamp is not rejected: `bool` is a subclass of `int`, so `True`
  and `False` take the integer branch and become 0.001 and 0 seconds
  (`TimeProperties.BooleansAreMilliseconds`).
- The admin check does not consult a role service or a roles cache. It reads
  `job_permission_cache` under the user id alone. For an uncached user a READ or
  WRITE request raises, because the local `permission` is never bound
  (`Admin.PermissionUnbound`). A NONE request still runs the lookup but raises
  "Programming Error" without comparing the cached level.
- The decorators have no `as_admin` path. They take `job_id` from the keyword
  arguments only, so a positional or explicit-`None` job id is rejected as
  missing. They ignore what the permission test returns: only its raising stops
  the call.
- `check_job_canceled` asks for admin READ, not WRITE, and only when `as_admin`
  is the value `True` itself (`as_admin is True`). Any other truthy value skips
  the check.

Collaborators the code calls but that are not part of this model are
parameters: the permission test `_test_job_permission_with_cache`, the date
parser, the validity test of `datetime.fromtimestamp`, the clock, and the
subsystem call made by `check_job_canceled`.

## Model

| member | source | states |
|---|---|---|
| `Permissions.FromCode` | lib/execution_engine2/SDKMethodRunner.py:36-39 | looking a level up by its value succeeds exactly for "r", "w", "n", and the member found has that value |
| `Permissions.CodeRoundTrip` | lib/execution_engine2/SDKMethodRunner.py:36-39 | every level is found again from its own value |
| `Permissions.SatisfiesLevels` | lib/execution_engine2/SDKMethodRunner.py:332-337 | under the order NONE < READ < WRITE, READ is satisfied by anything but NONE and WRITE only by WRITE |
| `Admin.GetAdminPermission` | lib/execution_engine2/SDKMethodRunner.py:327-339 | a NONE request raises "Programming Error" whatever the cache holds; a READ or WRITE request for an uncached user raises (unbound level) and never answers; otherwise the answer is whether the cached level satisfies the request under the level order |
| `Admin.AdminHierarchy` | lib/execution_engine2/SDKMethodRunner.py:332-337 | a WRITE holder passes both checks, a READ holder passes READ and fails WRITE, a NONE holder fails both; a granted WRITE implies a granted READ |
| `Admin.UncachedNeverAnswers` | lib/execution_engine2/SDKMethodRunner.py:329-339 | for a user missing from the cache every request ends in an error, never in True or False |
| `Admin.OnlyOwnEntryMatters` | lib/execution_engine2/SDKMethodRunner.py:329-330 | the answer depends on the cache only through the caller's own entry |
| `Gates.AllowJob` | lib/execution_engine2/SDKMethodRunner.py:169-189 | a missing or `None` keyword `job_id` is rejected with no permission test run; otherwise exactly one test on that job and the gate's level is run, and the wrapped operation runs, on the unchanged arguments, exactly when that test passed |
| `Gates.AllowJobRead` | lib/execution_engine2/SDKMethodRunner.py:169-178 | only READ is asked for, and the call goes through exactly when a job id is given and the READ test passes for it |
| `Gates.AllowJobWrite` | lib/execution_engine2/SDKMethodRunner.py:180-189 | only WRITE is asked for, and the call goes through exactly when a job id is given and the WRITE test passes for it |
| `Gates.WriteGateImpliesReadGate` | lib/execution_engine2/SDKMethodRunner.py:169-189 | when the test respects the level order, a call the write gate lets through is let through by the read gate with the same result |
| `Gates.CancelCheckGate` | lib/execution_engine2/SDKMethodRunner.py:309-316 | with `as_admin` other than `True` the gate always passes; with `True` it passes exactly when the caller is cached with READ or WRITE, raises the admin check's error for an uncached caller, and raises "not permitted ... READ" for a NONE holder |
| `Gates.ReadOnlyAdminPassesCancelCheck` | lib/execution_engine2/SDKMethodRunner.py:312-316 | a READ-only administrator passes the cancellation-check gate although the same caller fails an admin WRITE check |
| `Gates.NonTrueAsAdminIgnoresCache` | lib/execution_engine2/SDKMethodRunner.py:312 | an `as_admin` that is not `True` passes whatever the cache holds |
| `Digits.DigitsRoundTrip` | lib/execution_engine2/SDKMethodRunner.py:372 | `int` reads back any number written by `str` |
| `Digits.DigitsConcat` | lib/execution_engine2/SDKMethodRunner.py:370-372 | the value of the digits `a + b` is value(a) times 10^len(b) plus value(b) |
| `Digits.RemoveFirstDot` | lib/execution_engine2/SDKMethodRunner.py:366-367 | `replace(".", "", 1)` leaves a dot-free string unchanged, and otherwise shortens it by exactly one character |
| `Digits.RemoveFirstDotKeepsOthers` | lib/execution_engine2/SDKMethodRunner.py:366-367 | `replace(".", "", 1)` removes exactly one dot when there is one and keeps every other character |
| `Digits.RemoveFirstDotSplit` | lib/execution_engine2/SDKMethodRunner.py:366-367 | the dot removed is the first one: `a + "." + b` with a dot-free `a` becomes `a + b` |
| `Digits.NumericStringShape` | lib/execution_engine2/SDKMethodRunner.py:366-368 | a string passes the numeric test exactly when it holds at most one dot, at least one digit, and only digits besides the dot |
| `Timestamps.Classify` | lib/execution_engine2/SDKMethodRunner.py:365-381 | strings go to the seconds, milliseconds or date branch as the numeric test and the presence of a dot say; every non-string goes to a non-string branch |
| `Timestamps.DecimalValueSplit` | lib/execution_engine2/SDKMethodRunner.py:370-371 | `float("a.b")` is `a` plus `b` over 10^len(b), with the split taken at the first dot |
| `Timestamps.Conversion` | lib/execution_engine2/SDKMethodRunner.py:365-381 | the conversion step fails exactly for a non-numeric string the date parser refuses and for a value that is neither a string, a number nor a `datetime`, and then names the input; a float and a `datetime` keep their seconds |
| `Timestamps.Converted` | lib/execution_engine2/SDKMethodRunner.py:364-383 | the `try` block succeeds exactly when the conversion step does and `datetime.fromtimestamp` accepts its value, and then returns that value; a conversion failure keeps its error, and a refused value is named as the float it became |
| `Timestamps.CheckAndConvertTime` | lib/execution_engine2/SDKMethodRunner.py:358-395 | a successful conversion is returned unchanged; on failure the current time is returned when the default is asked for, and otherwise `ValueError` names the value that failed; so every result is a valid time or the current time, and errors happen only without the default |
| `TimeProperties.StringRouting` | lib/execution_engine2/SDKMethodRunner.py:365-375 | an all-digit dot-free string is read as milliseconds, a one-dot string with digits elsewhere as seconds, and a string with two or more dots, nothing but dots, or no digit at all goes to the date parser |
| `TimeProperties.MillisecondsStringValue` | lib/execution_engine2/SDKMethodRunner.py:372 | an all-digit dot-free string converts to its integer value divided by 1000 |
| `TimeProperties.SecondsStringValue` | lib/execution_engine2/SDKMethodRunner.py:370-371 | a string `a.b` converts to its decimal value unchanged |
| `TimeProperties.PointValueShift` | lib/execution_engine2/SDKMethodRunner.py:370-371 | the decimal value of `a.b` equals the digits `ab` over 10^len(b) |
| `TimeProperties.IntegerValue` | lib/execution_engine2/SDKMethodRunner.py:376-379 | an integer converts to its value divided by 1000 |
| `TimeProperties.EncodingsAgree` | lib/execution_engine2/SDKMethodRunner.py:365-379 | `a000`, `a.0`, `a.` and the integer a*1000 give the same result under either flag |
| `TimeProperties.RenderedMillisecondsAgree` | lib/execution_engine2/SDKMethodRunner.py:365-379 | the decimal string of a millisecond count converts exactly like the count itself |
| `TimeProperties.DateStringsGoToParser` | lib/execution_engine2/SDKMethodRunner.py:374-375 | a non-numeric string fails naming itself when the parser fails, and otherwise gives the parsed instant if valid or fails naming it |
| `TimeProperties.BooleansAreMilliseconds` | lib/execution_engine2/SDKMethodRunner.py:376-379 | `True` and `False` convert like the integers 1 and 0 |
| `TimeProperties.DefaultOnlyReplacesFailures` | lib/execution_engine2/SDKMethodRunner.py:384-393 | with the default flag set the result equals the strict result where that succeeds, and is the current time where it raises |
| `TimeProperties.ConvertedValueReturned` | lib/execution_engine2/SDKMethodRunner.py:364-395 | an input that converts to a valid instant yields it under either flag; one that converts to a refused instant yields the current time with the default and otherwise an error naming that instant as a float |
| `TimeProperties.SameConversionSameResult` | lib/execution_engine2/SDKMethodRunner.py:383-395 | two inputs that convert to the same value give the same result under either flag |
| `BoolParse.ParseBoolFromString` | lib/execution_engine2/SDKMethodRunner.py:345-356 | a bool and an int come back unchanged; a string is accepted exactly when, lower-cased, it is a JSON `true` or `false`, giving that boolean; anything else fails |
| `BoolParse.StripPadded` | lib/execution_engine2/SDKMethodRunner.py:353 | the JSON decoder skips exactly the whitespace around the value |
| `BoolParse.StripIsPaddedInfix` | lib/execution_engine2/SDKMethodRunner.py:353 | what the JSON decoder sees is a contiguous part of the text, and everything cut off around it is JSON whitespace |
| `BoolParse.AcceptedTextIsPaddedBoolean` | lib/execution_engine2/SDKMethodRunner.py:353-356 | every accepted string is text that lower-cases to `true` or `false` with JSON whitespace around it, and parses to the boolean that text names (the converse of `PaddedBooleanText`) |
| `BoolParse.PaddedBooleanText` | lib/execution_engine2/SDKMethodRunner.py:353-354 | any text that lower-cases to `true` or `false`, with any JSON whitespace around it, parses to that boolean |
| `BoolParse.CaseInsensitive` | lib/execution_engine2/SDKMethodRunner.py:353 | a string and its lower-cased form are accepted alike and give the same boolean |
| `BoolParse.BooleanTextRoundTrip` | lib/execution_engine2/SDKMethodRunner.py:353-354 | `True`/`False`, `true`/`false` and `TRUE`/`FALSE`, with any JSON whitespace around them, parse back to that boolean |
| `BoolParse.RejectsOtherText` | lib/execution_engine2/SDKMethodRunner.py:353-356 | "1", "yes" and "" are rejected as not boolean, and `None` fails for lack of `lower` |
| `Runner.MethodRunner.constructor` | lib/execution_engine2/SDKMethodRunner.py:55-99 | the settings are stored, the admin roles default to the two role names, the catalog, auth, Kafka and Slack clients are built fresh, `debug` is the parsed flag, and every lazy handle starts as `None` |
| `Runner.MethodRunner.New` | lib/execution_engine2/SDKMethodRunner.py:77 | construction fails with the parser's error when the `debug` setting does not parse (a missing one included), and otherwise yields a fresh runner holding everything the constructor stores (settings, role names, URLs, the eager clients' kinds, the caches, `is_admin` false) with no lazy handle built |
| `Runner.MethodRunner.GetJobsStatusRange` | lib/execution_engine2/SDKMethodRunner.py:106-109 | builds the date-range handle for this runner on the first call and returns the stored one afterwards; no other field changes |
| `Runner.MethodRunner.GetJobLogs` | lib/execution_engine2/SDKMethodRunner.py:111-114 | as above, for the job log handle |
| `Runner.MethodRunner.GetRunJob` | lib/execution_engine2/SDKMethodRunner.py:116-119 | as above, for the job submission handle |
| `Runner.MethodRunner.GetJobsStatus` | lib/execution_engine2/SDKMethodRunner.py:121-124 | as above, for the job status handle |
| `Runner.MethodRunner.GetWorkspaceAuth` | lib/execution_engine2/SDKMethodRunner.py:126-131 | as above, for the workspace authorisation client built from the token, user id and workspace URL |
| `Runner.MethodRunner.GetMongoUtil` | lib/execution_engine2/SDKMethodRunner.py:133-136 | as above, for the database client built from the configuration |
| `Runner.MethodRunner.GetCondor` | lib/execution_engine2/SDKMethodRunner.py:138-141 | as above, for the scheduler client built from the deployment configuration path |
| `Runner.MethodRunner.GetWorkspace` | lib/execution_engine2/SDKMethodRunner.py:143-146 | as above, for the workspace client built from the token and workspace URL |
| `Runner.MethodRunner.CheckJobCanceled` | lib/execution_engine2/SDKMethodRunner.py:309-320 | when the admin gate fails the call raises its error and no handle is built; otherwise the status handle is built or reused and its answer for the job and `as_admin` is returned |

## Left out

- The TTL/LRU cache behind `ee2_cache.get_cache` is not part of this model. Each check sees the cache as a finite map from user id to level. An entry that expires between the `in` test and the `get` (line 329-330) is not modelled. The size and lifetime (lines 50-51) appear only as constants. How `get_cache` creates a cache when given `None` is not modelled.
- `_test_job_permission_with_cache` and `ee2_cache._get_job_with_permission` are not defined in the modelled file. The first is a boolean parameter: false means it raised. `_get_job_with_permission` (lines 322-325) is left out.
- The delegating endpoints (`run_job`, `get_job_params`, `add_job_logs`, `view_job_logs`, `cancel_job`, `start_job`, `finish_job`, `check_job`, `get_job_status_field`, `check_jobs`, `check_jobs_date_range_for_user`, `update_job_status`, lines 195-305) only forward to subsystems that are not part of this model. `check_job_canceled` is kept for its admin gate; its subsystem call is a parameter.
- The clients (`KBaseAuth`, `Workspace`, `WorkspaceAuth`, `MongoUtil`, `Condor`, `KafkaClient`, `SlackClient`, `CatalogUtils` and the `ee2_*` classes) are opaque handles. Each handle records only what it was built from.
- Floating point: seconds are exact reals. Rounding, an `int` too large to convert to a float, and `inf` from a very long string are not modelled. Those cases reach the validity parameter instead.
- `dateutil.parser.parse`, `datetime.timestamp`, `datetime.fromtimestamp` and `time.time` are parameters. The `datetime` input is represented by its timestamp.
- Python's Unicode `isdigit` and `lower` are modelled for ASCII only. A non-ASCII digit such as `²` passes `isdigit` and then fails in `int`; that path is not modelled.
- BoolParse.ParseBoolFromString: a string that is not JSON at all raises the JSON decoder's error, and a string that is JSON but not a boolean raises "Not a boolean value". The model reports both as `NotABooleanValue`, because it has no JSON grammar.
- Logging is not modelled: `_set_log_level` (lines 148-163), the `logger` field, and the log line written on the default path.
- Reading `KB_DEPLOYMENT_CONFIG` from the environment (line 64) is a constructor parameter. A missing variable is not modelled.
- Positional arguments of decorated calls are not modelled. Only keyword arguments are.
- Concurrency: the shared caches and parallel callers are not modelled.
- `lib/execution_engine2/db/models/transfer/check_jobs_for_finish_times.py` is a one-off migration script over a live database cursor. It is not part of this model.
