# Job brokers: a Dafny model

This project models the core of a pluggable job-queue broker runtime. Jobs
arrive from a backend and are handed to handler workers. The runtime then
applies each backend's acknowledgment and retry protocol. Five parts are
modelled:

- **Events** (`events.dfy`, module `Events`): the numbered job/pipeline
  event codes, and the event and error values that brokers report.
- **Beanstalk configuration** (`beanstalk_config.dfy`, module `Beanstalk`):
  the defaults, the timeout as a 64-bit nanosecond duration, and the
  splitting of the socket DSN (`tcp://:6001`, `unix://rpc.sock`) into a
  network and an address.
- **Local broker** (`local_broker.dfy`, module `LocalBroker`): an
  in-process, unbuffered job channel served by a fixed number of listener
  loops. A failed job is re-enqueued or reported to the failure callback.
  Every channel that `Init` makes has an identity, and each listener ranges
  over the channel it found when it started: the nil channel before any
  `Init`, or an older channel after a second `Init`.
- **SQS broker** (`sqs_broker.dfy`, module `SqsBroker`):
  - one queue per pipeline;
  - queues created and resolved to URLs when serving;
  - a polling listener per queue, borrowing handlers from an execution pool;
  - the delete / change-visibility / report protocol that completes each message;
  - Push and Stat.
- **AMQP channel pool** (`amqp_pool.dfy`, module `AmqpPool`):
  - one connection and its named channels;
  - allocation of channels with publish confirmation;
  - the watchdog that broadcasts a connection failure to every channel,
    tears the pool down and installs a redialed connection;
  - the graceful close.

`common.dfy` (module `Common`) holds the shared values:
- `Option` and `Result`;
- Go errors, with `Panic` for the points where the Go code crashes instead
  of returning;
- `Enumerates`, the unspecified order of Go's `range` over a map.

### How the Go program is represented

- **Goroutines become sequential steps.** Each method is one step of the
  program's state:
  - `Local.Listen` runs one listener loop;
  - `Broker.Listener` runs the SQS listen loop of one queue;
  - `ChanPool.Disconnect`, `Redial`, `GiveUp` and `WatchStop` are the
    watchdog's transitions.
- **Every call into a library is recorded as an effect** in a `trace`
  field, in order. Its answer is a parameter:
  - the AWS SDK, the AMQP client, `json.Marshal`/`Unmarshal`;
  - the dialer, `NewQueue`, `strconv.Atoi`;
  - the handler's result and `CanRetry`.
- **Map iteration order is an input.** Where the code ranges over a map,
  the method takes `order` with `Enumerates(order, keys)`, or picks keys
  one at a time from a shrinking set.
- **Loops are proved against specification functions.** Each loop method
  is tied to a recursive function that says what the loop computes:

  | loop method | specification function |
  |---|---|
  | `RunListener` | `ListenRun` |
  | `Broker.Listener` | `ListenSteps` |
  | `StartQueues` | `ServeSteps` |
  | `Broker.Listen` | `Register` |

  The properties of the protocol are lemmas about those functions.

### Where the code and the design description differ (the model follows the code)

- **SQS status after `Init`.** The described lifecycle goes Inactive to
  Registered after `Init`. SQS `Init` only stores the configuration and
  leaves the status alone.
- **SQS `Serve` stops at the first failing queue.** It returns that error,
  as described. However, the listeners already started for earlier queues
  keep running: `ServeAborts` shows the failing queue's block, with every
  earlier queue's calls before it.
- **Channel allocation after the watchdog gives up.** The description says
  a waiting caller fails with a connection-dead error. The code fails with
  "connection has been closed", because the connected signal gets closed
  while the connection stays absent.
- **The local broker re-enqueues a retried job at once.** It applies no
  retry delay.
- **closeChan signals nil.** The design has a channel's close signal carry
  the closing error. The code sends nil on the signal and only returns the
  error to its caller.
- **The beanstalk timeout default.** The field's comment says 5, but
  `InitDefaults` sets 10.

## Model

| member | source | states |
|---|---|---|
| Events.EventNumbering | event.go:5-34 | the ten event codes are 1500..1509 in declaration order, so no two share a code |
| Events.JobEventElapsed | event.go:59-62 | a job event's Elapsed is the duration it was built with |
| Events.JobErrorElapsed | event.go:80-83 | a job error's Elapsed is the duration it was built with |
| Events.JobErrorMessage | event.go:85-88 | a job error reads as its cause's message, whatever the job, id and timings |
| Events.PipelineErrorMessage | event.go:99-102 | a pipeline error reads as its cause's message |
| Beanstalk.Config.constructor | broker/beanstalk/config.go:12-18 | a configuration holds the given address and timeout |
| Beanstalk.Config.InitDefaults | broker/beanstalk/config.go:21-25 | the timeout becomes 10 and no error is returned |
| Beanstalk.WrapInt64 | broker/beanstalk/config.go:34 | two's-complement wrap into the 64-bit range: congruent to its input modulo 2^64, and the identity on in-range values |
| Beanstalk.Config.TimeoutDuration | broker/beanstalk/config.go:33-35 | the timeout in nanoseconds; exact when it fits in 64 bits, otherwise wrapped modulo 2^64 |
| Beanstalk.Split | broker/beanstalk/config.go:39 | `strings.Split` with a non-empty separator: at least one part, re-joining the parts gives the input back, and no part contains the separator |
| Beanstalk.ParseDsn | broker/beanstalk/config.go:39-42 | the DSN is rejected with the "invalid socket DSN" error exactly when splitting at "://" does not give two parts; otherwise the two parts, free of "://", joined by it, are the address |
| Beanstalk.Config.NewConn | broker/beanstalk/config.go:38-49 | the dial target: the error when the DSN does not split in two, otherwise the network and address that re-join to the configured address, with TimeoutDuration as the timeout |
| Beanstalk.DsnRoundTrip | broker/beanstalk/config.go:39-42 | a network and an address free of "://", joined by it, parse back to that exact pair |
| Beanstalk.ParseDsnAccepts | broker/beanstalk/config.go:39-42 | a DSN is accepted if and only if it is some "://"-free network and address joined by "://" |
| LocalBroker.Local.constructor | broker/local.go:11-18 | a fresh broker: the nil channel, no channels made, no threads, no handlers, no listeners |
| LocalBroker.Local.Handle | broker/local.go:22-41 | no pipeline: nothing changes; more than one: the "exactly one pipeline" error; one: threads come from its "threads" option, 1 when the option is absent; the handlers are stored exactly when threads >= 1, otherwise the "1 or higher" error |
| LocalBroker.Local.Init | broker/local.go:44-51 | a fresh channel, distinct from every earlier one, with no waiting sends, becomes `l.jobs`; an earlier channel keeps its sends; the result is (true, nil) |
| LocalBroker.Local.Push | broker/local.go:54-58 | the job's send waits at the back of the current channel; on the nil channel it waits forever and changes nothing; never an error |
| LocalBroker.Local.Serve | broker/local.go:61-69 | exactly max(threads, 0) listener loops are started, numbered 0.. in order, each ranging over the channel `l.jobs` holds |
| LocalBroker.Local.Stop | broker/local.go:72-80 | the current channel is closed once and `l.jobs` becomes nil, so a second Stop does nothing; blocked senders panic exactly when sends were waiting on the closed channel |
| LocalBroker.JobEffectsCount | broker/local.go:89-100 | one received job: exactly one execution; a success neither re-enqueues nor fails; a failure with CanRetry false reaches the failure callback only; a retryable failure is sent to `l.jobs`, or blocks when that is the nil channel; the execution carries the handler's result, the callback gets the job and the handler's error, and the send carries the job |
| LocalBroker.ListenRunEndings | broker/local.go:84-101 | over a whole listener run: every execution ends in exactly one of success, re-enqueue, failure callback or blocked send; at most one execution per handler outcome; retries block exactly when `l.jobs` is the nil channel and are never re-enqueued there |
| LocalBroker.ListenRunConserves | broker/local.go:84-101 | over a whole listener run no job is lost or duplicated: every job that was waiting is still waiting, completed, failed, blocked, or re-enqueued onto another channel |
| LocalBroker.RequeuesCount | broker/local.go:95-96 | the jobs a listener hands to another channel are exactly its re-enqueues, one job each |
| LocalBroker.RunListener | broker/local.go:82-101 | the listener loop computes exactly the run ListenRun specifies, including the nil-job exit and the blocked retry |
| LocalBroker.Local.Listen | broker/local.go:82-102 | a listener on the nil channel blocks and changes nothing; one on a closed channel exits at once; otherwise its status, the sends left on its channel and its effects are those of ListenRun, with retries going to `l.jobs` as read at retry time (back of its own channel, blocked on nil, or appended to the newer channel); a loop that exited, or is stuck for ever on a nil-channel send, leaves the listener set and never receives again |
| LocalBroker.Local.Settle | broker/local.go:84-101 | after a run on an open channel: its effects join the trace, what it left unreceived stays on its channel, jobs it re-enqueued onto a newer channel are appended there, the listener is gone exactly when the run exited or got stuck on the nil channel, and the channel bookkeeping stays consistent |
| SqsBroker.RegisterStaysFailed | ____OLD/sqs/broker.go:35-39 | once a pipeline fails to register, later pipelines change nothing |
| SqsBroker.RegisterEntries | ____OLD/sqs/broker.go:34-39 | every entry of the queue map is a listed pipeline holding exactly the queue NewQueue made from it |
| SqsBroker.RegisterSucceeds | ____OLD/sqs/broker.go:33-44 | Listen succeeds if and only if every pipeline yields a queue, and then every pipeline has its entry |
| SqsBroker.RegisterFails | ____OLD/sqs/broker.go:35-39 | a failure is the error of the first failing pipeline, and the map holds exactly what the pipelines before it registered |
| SqsBroker.Broker.constructor | ____OLD/sqs/broker.go:14-24 | a fresh broker is Inactive, with no client, stop signal, queues, pool or error callback |
| SqsBroker.Broker.Init | ____OLD/sqs/broker.go:47-50 | the configuration is stored and the result is (true, nil) |
| SqsBroker.Broker.Listen | ____OLD/sqs/broker.go:33-44 | the queue map and the error are those of Register; the pool and the error callback are stored only on success |
| SqsBroker.ServeQueue | ____OLD/sqs/broker.go:64-80 | one queue: create it if asked (an error aborts), look up its URL (an error aborts), start its listener if asked; a URL is returned if and only if there is no error |
| SqsBroker.StartQueues | ____OLD/sqs/broker.go:63-81 | the startup loop makes exactly ServeSteps' calls, stores exactly its resolved URLs into the queue map and returns its first error |
| SqsBroker.ServeUrls | ____OLD/sqs/broker.go:70-75 | only queues that were processed get a URL, and it is the one GetQueueUrl returned for the queue's name |
| SqsBroker.ServeSucceeds | ____OLD/sqs/broker.go:63-81 | startup succeeds if and only if every queue's creation (when asked) and URL lookup succeed |
| SqsBroker.ServeResolvesAll | ____OLD/sqs/broker.go:63-84 | after a successful startup every queue has its URL |
| SqsBroker.ServeListeners | ____OLD/sqs/broker.go:77-80 | a listener is started for a queue if and only if it is marked to listen and its URL was resolved |
| SqsBroker.ServeCreatesBeforeResolving | ____OLD/sqs/broker.go:64-70 | every URL lookup is for the queue's own name and, when the queue is to be created, directly follows its creation |
| SqsBroker.ServeAborts | ____OLD/sqs/broker.go:63-73 | an error aborts startup at some queue: all earlier queues succeeded, and the calls end with the failing queue's, which start no listener |
| SqsBroker.Broker.Serve | ____OLD/sqs/broker.go:53-84 | the client is stored, nil when connecting failed; a connect error is returned with nothing else changed; otherwise a fresh open stop signal, the ServeSteps calls and URLs in map order, and the status Ready exactly when no error occurred |
| SqsBroker.Broker.Stop | ____OLD/sqs/broker.go:93-102 | the status becomes Registered; a made stop signal is closed; it panics exactly when the signal was already closed |
| SqsBroker.Broker.Push | ____OLD/sqs/broker.go:105-122 | a marshal error returns "" and it; a pipeline without a queue, or a client not yet connected, panics; otherwise one send with the job's delay, the body and the queue's URL, returning the message id or "" and the send error |
| SqsBroker.Broker.Stat | ____OLD/sqs/broker.go:125-158 | the three counters come from the three named attributes (0 when missing or unparsable), under the queue's name; a pipeline without a queue, or a client not yet connected, panics |
| SqsBroker.Completion | ____OLD/sqs/broker.go:221-247 | success: one delete; failure that may not retry: a report with the message id, job and error, then a delete; retryable failure: only a visibility change with the job's retry delay |
| SqsBroker.CompletionCounts | ____OLD/sqs/broker.go:221-247 | per message: exactly one delete or visibility change; a report exactly when the failure may not be retried |
| SqsBroker.ListenKeepsPool | ____OLD/sqs/broker.go:216-219 | every borrowed handler is given back: the pool's multiset of handlers is unchanged by a run |
| SqsBroker.ListenAccounts | ____OLD/sqs/broker.go:186-250 | over a run of the loop, deletes plus visibility changes equal handler invocations, and reports never outnumber deletes |
| SqsBroker.ReportThenDelete | ____OLD/sqs/broker.go:229-239 | every report to the error callback is immediately followed by the message's deletion |
| SqsBroker.Broker.Listener | ____OLD/sqs/broker.go:182-251 | with the stop signal already closed it returns at once and changes nothing; otherwise halt, pool and calls are exactly ListenSteps over the queue: each receive carries the queue's URL, visibility timeout and wait time, and receive errors, empty receives and undecodable bodies start the next pass |
| AmqpPool.Without | broker/amqp/conn.go:215-219 | a name stays if and only if it did not point at the channel, and keeps its entry |
| AmqpPool.WithoutAbsent | broker/amqp/conn.go:215-219 | removing a channel that no name points at changes nothing, and removing twice is removing once |
| AmqpPool.BroadcastOnce | broker/amqp/conn.go:104-107 | on a disconnect every registered channel receives the error exactly once, and nothing else is sent |
| AmqpPool.CloseEffects | broker/amqp/conn.go:62-69 | two calls per registered channel |
| AmqpPool.CloseReachesAll | broker/amqp/conn.go:60-69 | Close gives every registered channel its nil signal and closes its AMQP channel, and makes no other call |
| AmqpPool.ChanPool.constructor | broker/amqp/conn.go:38-45 | a pool with the connection, an empty channel map, the connected signal closed, and the watchdog watching |
| AmqpPool.ChanPool.NewConn | broker/amqp/conn.go:32-49 | a failed dial returns its error and no pool; otherwise a fresh valid pool, connected, with no channels |
| AmqpPool.ChanPool.Channel | broker/amqp/conn.go:157-203 | dead with the connected signal open: "connection is dead"; dead after it closed: "connection has been closed"; a known name: its entry; otherwise open's error, or the confirm-mode error after the channel was opened, or a new entry registered under the name with an identity no other entry has |
| AmqpPool.ChanPool.CloseChan | broker/amqp/conn.go:206-222 | the channel gets a nil signal and is closed; every name pointing at it is removed; err is returned |
| AmqpPool.ChanPool.Disconnect | broker/amqp/conn.go:100-112 | a fresh open connected signal; the error sent to every registered channel in map order; then connection and channels both absent |
| AmqpPool.ChanPool.Redial | broker/amqp/conn.go:119-139 | a failed dial changes nothing; a successful one installs the connection with an empty channel map and closes the connected signal |
| AmqpPool.ChanPool.GiveUp | broker/amqp/conn.go:142-150 | the connected signal is closed with the connection still absent, and the watchdog ends |
| AmqpPool.ChanPool.WatchStop | broker/amqp/conn.go:96-99 | the watchdog ends on the closed wait signal |
| AmqpPool.ChanPool.CloseChannels | broker/amqp/conn.go:60-72 | closeChan on every registered channel, leaving the channel map empty |
| AmqpPool.ChanPool.Close | broker/amqp/conn.go:52-82 | a second Close panics; otherwise wait is closed; no channel map is "connection is dead"; else every channel is closed, the map emptied, then the connection is closed and its result returned |

Every `ChanPool` method also preserves the pool invariant `Valid`:
- the connection and the channel map are absent together;
- a live connection means the connected signal is closed;
- the watchdog is redialing exactly when the connection is absent and the
  signal open;
- no two names share an entry.

## Left out

- Concurrency itself is not modelled: goroutines, the mutexes, wait groups,
  and the blocking of `Serve` until the listeners end. Interleavings are
  not modelled either: for example, the AMQP watchdog running while
  `Close` waits for its channel goroutines.
- Deadlocks are left out:
  - `Close` returns "connection is dead" with the pool lock still held.
  - The local broker's retry sends to an unbuffered channel from inside the
    listener itself. With one thread this blocks. The model instead queues
    the job at the back of the channel.
  - After a second `Init`, a retry goes to the newer unbuffered channel and
    blocks until some listener receives on it. No listener of an earlier
    Serve does, so it may block for ever. The model instead appends the job
    to that channel's sends (`Requeues`), and the retrying listener goes on.
  - Only a retry to the nil channel is modelled as blocking for ever
    (status `Stuck`); such a listener leaves the listener set.
- Time is not modelled:
  - the exponential backoff becomes repeated `Redial` steps and a final
    `GiveUp`;
  - `Channel`'s bounded wait for reconnection is modelled only as timing
    out while the connected signal is open, since no watchdog step can
    happen during a sequential call;
  - the local broker's delay sleep is a `Slept` effect;
  - event start times are plain integers.
- The client libraries are oracles, so their semantics and errors are
  inputs:
  - the AWS SDK and the AMQP client;
  - JSON encoding and decoding, and `strconv.Atoi`.
- SQS JSON decoding: the decoded job is part of each `Received` poll, so
  the round trip of the job serialization is not modelled.
- `Options.Integer` is not part of this model: `LocalBroker.Integer`
  reads it as a plain lookup with a default, and the pipeline's options are
  already integers. `NewQueue`, `CanRetry` and `Queue.CreateAttributes` are
  not part of this model either. Their results are parameters.
- `SqsBroker.Broker.Status`: a plain read of the status field, with no
  contract of its own.
- `SqsBroker.Broker.Stat`: the error of the attribute request is discarded
  by the code. The attribute map it would have returned is the input, so an
  empty map stands for a failed request.
- `SqsBroker.Broker.Stat` and `SqsBroker.Broker.Push`: `int64` conversions
  of the counters and of the delay are taken as exact.
- `AmqpPool.ChanPool.Close`: the AMQP connection's own close result is the
  input `connClose`. After a graceful close the library closes its
  notification channel. Such a nil notification reaching the watchdog is
  the `Disconnect` step with an absent error, and that step is not forced
  to happen.
- `AmqpPool.ChanPool.Channel`: when confirm mode fails, the opened channel
  is neither registered nor closed, which is a leak in the code. The model
  records it only as the `Opened` effect.
- `waitConnected` is a locked read of the field `connectedEpoch` and
  `connectedClosed` models. The fmt printing in the watchdog is left out.
- `syscall.Unlink` of a unix socket path before dialing, and the beanstalk
  connection itself (`newConn` on the network and address), are left out.
  The model stops at the dial target.
- `Hydrate` (configuration loading) and the `reset` command under
  `cmd/rr-jobs` are outside the modelled core.
- `LocalBroker.Local.Stop`: after a Stop that panics, the Go process ends.
  The model drops the waiting sends with the closed channel and goes on.
- `LocalBroker.Local.Serve`: a listener goroutine reads `l.jobs` when it
  first runs, which may be after Serve returns. The model reads it when
  Serve starts the listener.
- The SQS broker and the local broker key pipelines by value, while the Go
  code keys its queue map by pipeline pointer. Two equal pipelines are one
  entry here.
- `Events.JobError.Error`, `Events.PipelineError.Error`: Go panics when
  `Caused` is nil. The model's cause is always an error value.
- `SqsBroker.Broker.Serve`: a nil configuration (Serve before Init) and
  what `Config.SQS` does are not part of this model. The connect outcome is
  the input.
