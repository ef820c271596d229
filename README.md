# A Dafny model of the data-product service's job path and connection settings

The service accepts a JSON payload over HTTP, queues a background job for it,
and has a worker process the job. The worker records the job's progress in a
Redis hash `job:{id}` and stores its result as an object `results/{id}.json`
in an S3 bucket. The service builds its Redis, Celery and PostgreSQL
connection URLs from a settings record.

The project models three parts of this:

- `worker.dfy` (module `Worker`) models `process_data_task` and its Celery
  wrapper.
  - The Redis key space is a map from key to hash, and the bucket is a map
    from key to body. The class `Backends` holds both maps.
  - `Backends.ProcessDataTask` writes the maps step by step, as the task does.
    It is proved equal to the specification function `RunTask`.
  - Whether a step raises, and with which message, is the explicit parameter
    `fault`. So is whether the failure handler's own write raises.
  - The lemmas state what a run promises: the final record, the stored
    object, the returned result, the failure path, the order of the writes,
    which keys a run may touch, and an invariant over all job records.
- `api.dfy` (module `Api`) models three things:
  - the request model's priority default;
  - `process_data`, as the method `ProcessData`, which appends to a
    `BackgroundTasks` queue and is proved equal to the function `Submit`;
  - the stub `get_job_status`.
  The clock readings are opaque strings. Which statement raises is the
  explicit parameter `fault`.
- `config.dfy` (module `Config`, over the helper modules `Text` and
  `Wrappers`) models the `Settings` defaults and the four URL properties.
  - The URLs are read back by a reader modelled on `urllib.parse.urlsplit`.
    It first deletes tabs, carriage returns and line feeds. It refuses an
    authority with one square bracket but not the other. It then splits the
    URL into scheme, user information, host, port, and the rest. Where it
    differs from `urlsplit` is listed under "## Left out".
  - `RedisView` takes what redis-py's `from_url` takes from a "redis://" URL:
    - the password, percent-decoded;
    - the host, lower-cased up to its first '%' and then percent-decoded, or
      "localhost" when empty;
    - the port, or 6379 when it is absent or 0;
    - the database number from the path.
  - `PostgresView` takes the user, password and database name, each
    percent-decoded, and the host and port as written.
  - The round-trip lemmas use these views to state what each URL carries.

## Model

| member | source | states |
|---|---|---|
| `Worker.Backends.ProcessDataTask` | src/worker.py:32-86 | The state of both stores after the task, and its return or raise, are exactly `RunTask` of the stores before it. The task keeps `Consistent`. |
| `Worker.Backends.ProcessDataCelery` | src/worker.py:88-91 | The Celery task has the same effect and outcome as `process_data_task` with the same arguments. |
| `Worker.Backends.WriteHash` | src/worker.py:41-85 | `hset` with a mapping merges the fields into the hash at the key and changes nothing else. |
| `Worker.Backends.PutObject` | src/worker.py:58-62 | `put_object` sets one object of the bucket and leaves the records alone. |
| `Worker.HSet` | src/worker.py:41-85 | A hash write adds the key if it is missing. It sets the given fields, keeps every other field of that hash, and keeps every other key. |
| `Worker.ResultOf` | src/worker.py:51-55 | The result reports success, the job id, and the length of the payload's text form. |
| `Worker.RunTask` | src/worker.py:32-86 | A run returns exactly when no step raises, and then returns `ResultOf`. When a step raises, the run raises that exception, or the handler's own exception if recording the failure raises. |
| `Worker.CompletedRun` | src/worker.py:51-75 | With no fault, the task returns processed=true, the job id and the size of the payload's text. The record holds status "completed", progress "1.0", result_path "results/{id}.json" and the started_at written earlier. That key holds the serialised result. |
| `Worker.CompletedRunMerges` | src/worker.py:41-72 | After a successful run, the record's fields are its old fields plus status, progress, started_at and result_path. Every other field keeps its old value, so nothing is deleted. |
| `Worker.HSetTwice` | src/worker.py:41-72 | Two writes to one hash leave the union of the old fields and both writes' fields. Fields in neither write are unchanged. |
| `Worker.FailedRun` | src/worker.py:77-86 | When any step raises and the handler's write succeeds, the record gets status "failed" with the message as error, and the same exception propagates. |
| `Worker.FailureBeforeStoreLeavesNoResult` | src/worker.py:41-72 | When building or storing the result raises, the bucket is unchanged and progress is "0.0". result_path is what it was before the run, and the status is not "completed". |
| `Worker.FailureAtCompletedWrite` | src/worker.py:58-86 | When the completed write raises, the object is already stored, progress stays "0.0", and the status is "failed". If the handler's write raises too, the status stays "processing". |
| `Worker.TerminalStatus` | src/worker.py:37-86 | If the handler's write succeeds, a run ends "completed" or "failed". If the handler's write fails after the processing write, the record stays "processing". |
| `Worker.RunTouchesOnlyItsKeys` | src/worker.py:41-85 | A run changes only `job:{id}` and `results/{id}.json`, and deletes no key and no field. |
| `Worker.RunPreservesConsistency` | src/worker.py:41-86 | If every completed record names a stored result and every failed record carries an error before a run, the same holds after it, whichever step raises. |
| `Worker.OwnRecordConsistent` | src/worker.py:41-86 | A run that starts from stores satisfying that invariant leaves its own record satisfying it. |
| `Worker.RerunKeepsStaleError` | src/worker.py:65-83 | After a failed run, a successful rerun leaves a "completed" record that still carries the earlier error. |
| `Worker.JobKeyInjective` | src/worker.py:42 | Distinct job ids have distinct record keys. |
| `Worker.ResultKeyInjective` | src/worker.py:60 | Distinct job ids have distinct result objects. |
| `Api.NewDataRequest` | src/api.py:36-39 | An omitted priority becomes "normal", an explicit null stays null, and a given string is kept. The data is kept. |
| `Api.JobId` | src/api.py:88 | The job id is "job_" followed by the timestamp's text, and nothing else. |
| `Api.JobIdInjective` | src/api.py:88 | Distinct timestamps give distinct job ids. |
| `Api.Submit` | src/api.py:86-109 | An error reply is always HTTP 500. The queue keeps its earlier tasks and gains at most one. An accepted reply names the job id of the task it added. |
| `Api.SubmitQueuesOne` | src/api.py:86-105 | A call that raises nothing appends exactly one task. The task carries the returned job id and the request's data and priority. The reply is "queued" with "Job queued for processing". |
| `Api.SubmitFailure` | src/api.py:86-109 | Any exception becomes HTTP 500 with the message as detail. The queue keeps its earlier tasks and gains at most one. It gains one exactly when the exception came after `add_task`. |
| `Api.AcceptedIffNoFault` | src/api.py:86-109 | The handler answers with a response exactly when nothing raises. |
| `Api.Dispatched` | src/api.py:81-109 | The framework runs the collected tasks only when the handler returned a response, and none when it raised. |
| `Api.DispatchedIffNoFault` | src/api.py:86-109 | A request runs its one task exactly when nothing raises. A task queued before a later exception is never run. |
| `Api.BackgroundTasks.AddTask` | src/api.py:91-96 | `add_task` appends one task to the queue. |
| `Api.ProcessData` | src/api.py:81-109 | The queue after the call, and the reply, are exactly `Submit` of the queue before it. |
| `Api.GetJobStatus` | src/api.py:111-123 | Every id, submitted or not, is echoed back with status "processing" and progress 0.0. |
| `Api.SubmittedJobCompletes` | src/api.py:86-105 | When the worker runs the dispatched task without a fault, the record under the job id the client received becomes "completed". The worker's result names that id. |
| `Api.StatusIgnoresCompletedRecord` | src/api.py:111-123 | After a successful run the record says "completed" with progress "1.0", yet the status route still reports "processing" and 0.0. |
| `Config.Defaults` | src/config.py:20-65 | The default settings: no Redis password, Redis database 0 on port 6379, PostgreSQL on port 5432, and the "data-platform" bucket. |
| `Config.DatabaseUrl` | src/config.py:41-44 | DATABASE_URL is scheme "postgresql", user information user:password, the host, the port's decimal text, and "/" with the database name. Every piece is inserted unescaped. |
| `Config.RedisUrl` | src/config.py:52-57 | REDIS_URL is scheme "redis", user information ":" and the password only when the password is not empty, the host, the port's decimal text, and "/" with the database number. |
| `Config.CeleryBrokerUrl` | src/config.py:68-73 | The broker URL is REDIS_URL for database 1. |
| `Config.CeleryResultBackend` | src/config.py:75-80 | The result-backend URL is REDIS_URL for database 2. |
| `Config.RedisUrlRoundTrip` | src/config.py:52-57 | REDIS_URL gives a Redis client the settings' password, host, port and database. This holds when the password is ASCII and has no URL delimiter, '%', '[', ']', tab, CR or LF; the host is non-empty, ASCII, lower-case and has none of those characters nor '@' or ':'; and the port is 1..65535. The URL has user information exactly when the password is not empty. |
| `Config.RedisUrlDecodesPassword` | src/config.py:52-57 | For any password without '/', '?' or '#': the URL is refused exactly when the password holds one square bracket but not the other. Otherwise the client receives the password with tab, CR and LF deleted and then percent-decoded, and host, port and database come back as set. The host and port conditions are those of `Config.RedisUrlRoundTrip`. |
| `Config.RedisUrlsShareBase` | src/config.py:52-80 | REDIS_URL, the broker URL and the result-backend URL agree up to their last '/'. After it they hold REDIS_DB, "1" and "2". |
| `Config.CeleryUrlsRoundTrip` | src/config.py:68-80 | A Redis client reads database 1 from the broker URL and database 2 from the backend URL, whatever REDIS_DB is. Password, host and port come back as set. The conditions are those of `Config.RedisUrlRoundTrip`. |
| `Config.CeleryUrlEqualsRedisUrlIff` | src/config.py:52-80 | The broker URL equals REDIS_URL exactly when REDIS_DB is 1, and the backend URL exactly when it is 2. The two Celery URLs always differ. |
| `Config.DatabaseUrlRoundTrip` | src/config.py:41-44 | DATABASE_URL gives a PostgreSQL client the settings' user, password, host, port and database. This holds when the user has no ':'; the credentials are ASCII and have no '@', URL delimiter, '%', '[', ']', tab, CR or LF; the database name has no '?', '#', '%', tab, CR or LF; the host is as in `Config.RedisUrlRoundTrip`; and the port is 0..65535. The first '@' of the URL is then the one after the password, so a client that ends the user information at the first '@' splits the URL the same way. |
| `Config.DatabaseUrlAtInCredentials` | src/config.py:44 | As written, an '@' in the user or password puts the first '@' of DATABASE_URL inside the credentials. A client that ends the user information at the first '@' then reads another password and host. |
| `Config.DefaultRedisUrl` | src/config.py:47-57 | With default settings, REDIS_URL is "redis://redis.databases.svc.cluster.local:6379/0". |
| `Config.DefaultCeleryBrokerUrl` | src/config.py:47-73 | With default settings, the broker URL is "redis://redis.databases.svc.cluster.local:6379/1". |
| `Config.DefaultCeleryResultBackend` | src/config.py:47-80 | With default settings, the result-backend URL is "redis://redis.databases.svc.cluster.local:6379/2". |
| `Config.DefaultDatabaseUrl` | src/config.py:35-44 | The default DATABASE_URL reaches database "data-product" at postgresql.databases.svc.cluster.local:5432, as user "postgres" with password "changeme". |
| `Config.RedisUrlMisreadsPassword` | src/config.py:55-56 | If the password contains '/', '?' or '#', a Redis client refuses REDIS_URL or reads a different password. |
| `Config.RedisUrlDecodesPercent` | src/config.py:55-56 | As written, the password "a%41" reaches a Redis client as "aA", for any safe host and port 1..65535. |
| `Config.RedisUrlEscaped` | src/config.py:52-57 | The corrected REDIS_URL is REDIS_URL built from the password with each reserved character replaced by its %XX escape. |
| `Config.RedisUrlEscapedRoundTrip` | src/config.py:52-57 | With the password escaped, every password comes back as set, with host, port and database. The host and port conditions are those of `Config.RedisUrlRoundTrip`. |
| `Text.IntToString` | src/config.py:56 | The decimal text of an integer is non-empty. It is all digits exactly when the integer is not negative, and starts with '-' exactly when it is negative. |
| `Text.ParseIntRoundTrip` | src/config.py:56 | Reading back the decimal text of an integer, as an f-string writes it, gives the integer. |
| `Text.IntToStringInjective` | src/config.py:56 | Distinct integers have distinct decimal texts. |
| `Text.Escape` | src/config.py:55-56 | The escaped text contains none of '/', '?', '#', '@', ':', '[', ']', tab, CR or LF. |
| `Text.UnescapeEscape` | src/config.py:55-56 | Percent-decoding undoes the escaping, for every string. |

## Left out

- HTTP wiring is not modelled: the FastAPI app, the CORS middleware, and the `/`, `/health`, `/ready` and `/metrics` routes (src/api.py:20-79, 124-135). They only return constants and the current time.
- The Celery application and the Redis and boto3 clients are not modelled (src/worker.py:17-30). They are network clients. The two stores are plain maps, and the bucket name is not part of an object's key.
- Loading settings from the environment and from `.env`, and the `settings` singleton, are not modelled. Settings are a plain record of the application, API, PostgreSQL, Redis and S3 fields. Only the PostgreSQL and Redis fields feed a modelled operation. The metrics, logging, payment, rate-limit and feature-flag settings are left out, because the core does not use them.
- Timestamps are opaque text: the float in the job id and in `created_at`. Floating point and the clock are not modelled, so the model says nothing about two requests in the same clock tick getting the same id.
- The exact output of `json.dumps` and `str` is not modelled. These are the function fields of `Worker.Renderer`, and the model states results in terms of them. The payload keeps what that output depends on: object members in insertion order, and integers apart from floats. Nothing constrains how the renderer formats a float, NaN or infinity, or repeated keys.
- Logging calls are assumed not to raise, so a failing log line is not modelled. In particular, a failure of the "Completed job" log line would let the failure handler overwrite a completed record.
- Scheduling of background tasks is not modelled, nor are concurrent jobs. FastAPI runs the collected tasks after a returned response and drops them when the handler raises. `Api.Dispatched` states that rule, and a dispatched task is run by calling `RunTask` on it.
- The code does not have several behaviours, and the contracts do not claim them: NotFound for unknown ids, an idempotent rerun, a retry of the final write, and any effect of priority on order. `Api.GetJobStatus` is modelled as the stub it is, and `Worker.RerunKeepsStaleError` shows a rerun keeping an old error field.
- One might expect a completed record to carry a result path and never an error. The code keeps only the first half, as `Worker.RerunKeepsStaleError` shows. The invariant `Consistent` states only what the code keeps.
- The URL reader is not the whole of `urlsplit`. It does not look at the query string. Ports outside 0..65535 and non-decimal ports are refused, as Python refuses them.
- The reader refuses every host that opens with '[', so it refuses a bracketed IPv6 host that Python accepts.
- The reader works on ASCII only. It does not model Python's check that refuses a non-ASCII authority whose NFKC form adds '/', '?', '#', '@' or ':'. `Text.Lower` lower-cases only ASCII letters, whereas Python's `hostname` lower-cases every letter. The round-trip lemmas require ASCII hosts and credentials, so they do not depend on either.
- `RedisView` reads the database number with a decimal reader of an optional '-' and digits. Python's `int()` also accepts surrounding spaces, '+', and '_' between digits, and redis-py reads a `db` from the query string. Neither is modelled.
- `PostgresView` is a reading of the URL in the same terms, not libpq's own parser. It ends the user information at the last '@', as `urlsplit` does, whereas libpq and SQLAlchemy end it at the first. `Config.DatabaseUrlRoundTrip` therefore excludes '@' from the credentials, and `Config.DatabaseUrlAtInCredentials` shows where the first '@' falls otherwise. libpq's query parameters and multiple hosts are not modelled.
- Config.RedisUrlRoundTrip: stated only for ASCII passwords without '/', '?', '#', '%', '[', ']', tab, CR or LF, for non-empty ASCII lower-case hosts without those characters, '@' or ':', and for ports 1..65535. `Config.RedisUrlMisreadsPassword` covers passwords with a delimiter, and `Config.RedisUrlDecodesPassword` those with '%' or control characters. An empty host is read as "localhost" and port 0 as 6379, so those settings do not come back as set.
- Config.CeleryUrlsRoundTrip: stated only under the conditions of `Config.RedisUrlRoundTrip`, for the same reasons.
- Config.RedisUrlDecodesPassword: `Text.Unescape` decodes only escapes below %80. Python's `unquote` decodes %80 to %FF as UTF-8 and replaces an invalid sequence with U+FFFD, so for such escapes the client gets other text than the lemma states. The lemma also does not model the NFKC check on a non-ASCII password.
- Config.RedisUrlEscapedRoundTrip: stated only for hosts and ports as in `Config.RedisUrlRoundTrip`. The escaping covers the password and nothing else. Non-ASCII characters stay unescaped, so the lemma does not cover the NFKC check on them: Python refuses a password holding, for example, U+FF0F.
- Config.DatabaseUrlRoundTrip: stated only for users without ':', for ASCII credentials without '@', '/', '?', '#', '%', '[', ']', tab, CR or LF, for database names without '?', '#', '%', tab, CR or LF, and for hosts as in `Config.RedisUrlRoundTrip`. An '@' in the credentials is excluded because libpq and SQLAlchemy end the user information at the first '@', and the lemma no longer promises a round trip for such credentials. For other credentials, DATABASE_URL has the same unescaped-credential problem as the REDIS_URL findings below.
- Text.Escape: escapes only the characters the URL gives a meaning to, the square brackets, and the ones the reader deletes. Unlike `urllib.parse.quote`, it leaves every other character as it is.

## Findings

| source | as written | input that shows it | evidently intended | confidence | as-written member | corrected member |
|---|---|---|---|---|---|---|
| src/config.py:55-56 | The password is put into REDIS_URL (and the two Celery URLs) without percent-escaping. A '/', '?' or '#' in it ends the URL's authority early. | REDIS_PASSWORD = "a/b" gives "redis://:a/b@host:6379/0". The authority is then ":a", the rest is taken as the path, and the URL is refused. | Every password reaches the client unchanged, because the password is escaped before it is inserted. | not executed | `Config.RedisUrlMisreadsPassword` | `Config.RedisUrlEscapedRoundTrip` |
| src/config.py:55-56 | The password is put into REDIS_URL without percent-escaping, and the Redis client percent-decodes it. | REDIS_PASSWORD = "a%41" reaches the client as "aA". | Every password reaches the client unchanged, because the password is escaped before it is inserted. | not executed | `Config.RedisUrlDecodesPercent` | `Config.RedisUrlEscapedRoundTrip` |
