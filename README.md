# SQS listener: polling loop and per-message processing

A Dafny model of `SqsMessageListener`, the Spring service that polls an SQS queue,
forwards each message body to a downstream HTTP API, deletes the message after a 2xx
response, and posts Slack alerts for some server-error statuses. The model covers the
body of the `while (true)` polling loop in `startPolling` and `processMessage`. It also
covers the two parts of `SlackServiceImpl` that the listener relies on: the default
channel, and the fact that a Slack call can throw.

- `slack.dfy` (module `Slack`): the alert sink. A null channel becomes `queue-monitoring`.
- `classifier.dfy` (module `Classifier`): the status-code handler for
  `HttpServerErrorException`, written as its four `if` statements. It is proved equal to
  a lookup table (504, 500, 400, 401/403), so at most one alert text comes out.
- `listener_spec.dfy` (module `ListenerSpec`): the listener's state as a value. It holds
  the queue's receipt handles, the submitted tasks, logs of the receive, post, delete and
  Slack calls, the sleeps and the interrupt flag. Step functions model one loop iteration,
  one message and one executor task. Lemmas cover runs of many iterations and many tasks.
- `listener.dfy` (module `Listener`): class `SqsMessageListener`. Its fields are updated
  in place by methods. Each method is proved to produce exactly the state that the
  matching `ListenerSpec` function gives.

The collaborators are inputs:
- a `Fetch` says what `receiveMessage` returned: a batch, or an exception;
- a `Round` adds whether the thread is interrupted while it sleeps. This counts only when
  the batch is empty: an interrupt during the receive or the submit loop shows only as
  the `interrupt` of the next empty round;
- a `Reaction` says what `callRestAPI` ended with (`Response(status)`,
  `ServerError(status, trace)` for an `HttpServerErrorException`, or `OtherError`), and
  whether `deleteMessage` and the Slack call throw.

Behaviour of the code the model keeps:
- A failed receive is logged, and the next iteration starts at once, with no backoff.
- A failing Slack call inside the server-error handler is not swallowed. It escapes
  `processMessage`, and the task ends `Escaped`.
- An interruption never stops the loop. The catch block re-sets the interrupt flag. From
  then on every idle `Thread.sleep` throws at once, so the backoff no longer waits
  (`InterruptIsSticky`).
- 400, 401 and 403 are classified only when they arrive inside an
  `HttpServerErrorException`. Any other exception, including a client-error exception,
  is an `OtherError`: it is logged only.

## Model

| member | source | states |
|---|---|---|
| Slack.ResolveChannel | src/main/java/com/collective/listener/sqs/SlackServiceImpl.java:26-29 | a notification goes to the requested channel, or to `queue-monitoring` when the channel is null |
| Slack.Notify | src/main/java/com/collective/listener/sqs/SlackServiceImpl.java:28-33 | a working Slack call delivers exactly one alert, on the resolved channel; a failing one delivers nothing and reports the throw |
| Classifier.Classify | src/main/java/com/collective/listener/sqs/SqsMessageListener.java:100-115 | a status has an alert category iff it is 400, 401, 403, 500 or 504 |
| Classifier.AlertText | src/main/java/com/collective/listener/sqs/SqsMessageListener.java:102-114 | every alert text starts with its category's fixed prefix; the 504 text is the fixed "unresponsive for the queue" sentence; the other texts carry the message's rendering right after the prefix and end with the fixed "with exception" separator followed by the stack trace |
| Classifier.Notifications | src/main/java/com/collective/listener/sqs/SqsMessageListener.java:99-115 | the four independent `if`s post at most one text, and they post one iff the status is 400, 401, 403, 500 or 504 |
| Classifier.NotificationsFollowTable | src/main/java/com/collective/listener/sqs/SqsMessageListener.java:99-115 | the `if` chain as written agrees with the lookup table: a classified status posts exactly its category's text, and any other status posts nothing |
| Classifier.TextIdentifiesCategory | src/main/java/com/collective/listener/sqs/SqsMessageListener.java:102-114 | two equal alert texts have the same category, so an operator can read the category off the text |
| ListenerSpec.Init | src/main/java/com/collective/listener/sqs/SqsMessageListener.java:51-59 | start-up fixes the queue URL and the API URL; the pool and the receive, post, delete, alert and sleep logs are empty; the flag is clear |
| ListenerSpec.SendAll | src/main/java/com/collective/listener/sqs/SqsMessageListener.java:99-115 | posting the handler's texts with a null channel delivers each of them on `queue-monitoring`, in order, when Slack works; when Slack throws, nothing is delivered and the handler is left |
| ListenerSpec.HandleServerError | src/main/java/com/collective/listener/sqs/SqsMessageListener.java:99-115 | a server error adds at most one alert; it adds one iff the status is classified and Slack works; the alert has the classified text; an exception escapes iff the status is classified and Slack throws |
| ListenerSpec.ProcessMessage | src/main/java/com/collective/listener/sqs/SqsMessageListener.java:91-120 | the body is posted unchanged to the API URL; deleteMessage is called iff the response is 2xx, once, with this message's receipt handle and the fixed queue URL; the queue loses the message iff the response is 2xx and the delete works; every other outcome leaves the queue unchanged; at most one alert, only for a classified server error; only a failing Slack call escapes; the loop's state is untouched |
| ListenerSpec.PollStep | src/main/java/com/collective/listener/sqs/SqsMessageListener.java:62-87 | every iteration sends one receive for at most 10 messages with a 5 s wait, interrupted or not; an empty batch gives exactly one 1000 ms sleep and no task; a non-empty batch gives no sleep and one task per message, in batch order; a failed receive gives neither; an interruption only sets the flag; queue, deletes and alerts are unchanged |
| ListenerSpec.RunTask | src/main/java/com/collective/listener/sqs/SqsMessageListener.java:74-77 | running a submitted task removes exactly that task from the pool; it deletes its message only on a 2xx response with a working delete; it escapes only on a failing Slack call |
| ListenerSpec.Drain | src/main/java/com/collective/listener/sqs/SqsMessageListener.java:74-77 | running the first n tasks in submission order leaves the remaining tasks in order and keeps the queue URL |
| ListenerSpec.PollsOnlySubmit | src/main/java/com/collective/listener/sqs/SqsMessageListener.java:62-87 | after n iterations, the pool holds every fetched message in fetch order; there were n receives and one sleep per empty batch; the queue, deletes, posts and alerts are unchanged |
| ListenerSpec.InterruptIsSticky | src/main/java/com/collective/listener/sqs/SqsMessageListener.java:62-86 | once interrupted, the flag stays set and the loop still receives once per iteration; every later sleep ends early |
| ListenerSpec.ProcessKeepsConsistent | src/main/java/com/collective/listener/sqs/SqsMessageListener.java:94-115 | processing keeps every post on the API URL, every delete on the queue URL and every alert on `queue-monitoring` |
| ListenerSpec.DrainLast | src/main/java/com/collective/listener/sqs/SqsMessageListener.java:74-77 | the k-th task run in submission order processes the k-th submitted message |
| ListenerSpec.DrainRemovesOnlyAcknowledged | src/main/java/com/collective/listener/sqs/SqsMessageListener.java:94-119 | over any run of tasks, the queue loses exactly the handles of messages that got a 2xx response and a working delete |
| ListenerSpec.DrainDeletesOncePerSuccess | src/main/java/com/collective/listener/sqs/SqsMessageListener.java:59-97 | over any run of tasks, deleteMessage is called once per 2xx response, in task order, with that message's handle and the queue URL fixed at start-up |
| ListenerSpec.DrainAlertsOncePerClassifiedError | src/main/java/com/collective/listener/sqs/SqsMessageListener.java:99-115 | over any run of tasks, the alert log grows by exactly one alert per classified server error whose Slack call works, in task order, each on `queue-monitoring` with its category's text about that task's message; no receive is made |
| ListenerSpec.DrainKeepsConsistent | src/main/java/com/collective/listener/sqs/SqsMessageListener.java:91-120 | running tasks keeps every call on the fixed URLs and every alert on the default channel |
| ListenerSpec.ExampleDeletes | src/main/java/com/collective/listener/sqs/SqsMessageListener.java:94-98 | when A is answered by 200 and B by a server error 500, only A leaves the queue, through a single delete call |
| ListenerSpec.ExampleAlerts | src/main/java/com/collective/listener/sqs/SqsMessageListener.java:99-107 | in the same run, exactly one alert is delivered: the internal-error text naming B, on `queue-monitoring` |
| ListenerSpec.ExampleRun | src/main/java/com/collective/listener/sqs/SqsMessageListener.java:62-120 | with A answered by 200 and B by a server error 500, only A is deleted, with one delete call, and one internal-error alert naming B lands on `queue-monitoring` |
| Listener.SqsMessageListener.constructor | src/main/java/com/collective/listener/sqs/SqsMessageListener.java:51-59 | the object starts in the initial state, with the queue URL read once |
| Listener.SqsMessageListener.PollStep | src/main/java/com/collective/listener/sqs/SqsMessageListener.java:63-86 | the fields change exactly as `ListenerSpec.PollStep` says; the submission loop appends the batch in order |
| Listener.SqsMessageListener.Poll | src/main/java/com/collective/listener/sqs/SqsMessageListener.java:62-87 | n iterations of the loop change the fields exactly as `ListenerSpec.RunPolls` says, and keep the object consistent |
| Listener.SqsMessageListener.ProcessMessage | src/main/java/com/collective/listener/sqs/SqsMessageListener.java:91-120 | the fields and the task's ending are exactly those `ListenerSpec.ProcessMessage` gives, so every property above holds of the object |
| Listener.SqsMessageListener.RunTask | src/main/java/com/collective/listener/sqs/SqsMessageListener.java:74-77 | running the k-th pending task changes the fields exactly as `ListenerSpec.RunTask` says |

## Left out

- Concurrency. The cached thread pool and task interleaving are not modelled. A
  submission appends to the pending sequence. Tasks run one at a time: `RunTask` takes
  any pending task, and `Drain` runs them oldest first.
- The executor's `Future`. An exception that escapes a task is recorded only as the
  `Escaped` ending. The `Future` that holds it is not modelled, and nothing else
  changes.
- `callRestAPI`. The Accept header, the `HttpEntity` and `RestTemplate.postForEntity`
  are not modelled; the model records only a post of the body to the API URL. Which
  exception class Spring raises for which status lives in library code that is not part
  of this model, so the outcome is an input.
- The SQS client. `receiveMessage` is an input batch or a failure. `deleteMessage`
  removes a handle from a set, which is idempotent, or fails because of an input flag.
  Visibility timeouts and redelivery are not modelled, and the size of a fetched batch
  is not limited to 10: that limit belongs to SQS, not to the listener.
- `AwsConfig`. Secrets Manager, the SQS client builders and the lazy cache are not
  modelled. The queue URL and the API URL are constructor parameters.
- The HubSpot Slack client and its token supplier. Only the default channel and the
  possibility of a throw are modelled.
- Logging. Log calls are not modelled. Stack traces and `Message.toString()` are opaque
  strings (`trace`, `rendering`).
- Real time. A sleep is a `Nap` event that records the requested 1000 ms and whether it
  ended early. How long it actually lasted is not modelled.
- The infinite loop. `while (true)` has no exit, so it is modelled as its first n
  iterations (`Poll`, `RunPolls`).
