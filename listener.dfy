/** SqsMessageListener as an object: its fields are the listener's state and what its
    collaborators (SQS, the downstream API, Slack, the executor, the polling thread)
    have seen of it; each method is proved to do what ListenerSpec says. */
module Listener {

  import opened Slack
  import opened ListenerSpec
  import Classifier

  class SqsMessageListener {
    /** The downstream endpoint, injected from `api.url`. */
    const apiUrl: string
    /** Read once from the secrets before the polling loop starts. */
    var queueUrl: string
    /** Receipt handles of the messages still in the queue. */
    var queue: set<string>
    var receives: seq<ReceiveRequest>
    /** Tasks submitted to the executor and not yet run. */
    var pending: seq<Message>
    var posts: seq<Post>
    var deletes: seq<DeleteCall>
    var alerts: seq<Alert>
    var sleeps: seq<Nap>
    /** The polling thread's interrupt flag. */
    var interrupted: bool

    ghost function State(): ListenerState
      reads this
    {
      ListenerState(apiUrl, queueUrl, queue, receives, pending, posts, deletes, alerts, sleeps, interrupted)
    }

    ghost predicate Valid()
      reads this
    {
      Consistent(State())
    }

    /** init() and startPolling() up to the loop: an empty executor and the queue URL
        taken from the secrets. */
    constructor (apiUrl: string, secretQueueUrl: string, queue: set<string>)
      ensures Valid()
      ensures State() == Init(apiUrl, secretQueueUrl, queue)
    {
      this.apiUrl := apiUrl;
      this.queueUrl := secretQueueUrl;
      this.queue := queue;
      receives := [];
      pending := [];
      posts := [];
      deletes := [];
      alerts := [];
      sleeps := [];
      interrupted := false;
    }

    /** One iteration of the polling loop: receive a batch; sleep when it is empty;
        submit one task per message, in order. A failed receive is only logged, and an
        interrupted sleep only re-sets the interrupt flag. */
    method PollStep(round: Round)
      requires Valid()
      modifies this
      ensures Valid()
      ensures State() == ListenerSpec.PollStep(old(State()), round)
    {
      receives := receives + [ReceiveRequest(queueUrl, MAX_MESSAGES, WAIT_SECONDS)];
      match round.fetch
      case FetchFailed(_) =>
      case Batch(messages) =>
        if |messages| == 0 {
          // Thread.sleep throws at once when the flag is set; the catch sets it again
          var cut := interrupted || round.interrupt;
          sleeps := sleeps + [Nap(SLEEP_MILLIS, cut)];
          interrupted := cut;
        }
        ghost var fetched := State();
        for i := 0 to |messages|
          invariant State() == fetched.(pending := fetched.pending + messages[..i])
        {
          pending := pending + [messages[i]];
        }
    }

    /** The first |rounds| iterations of the `while (true)` loop. */
    method Poll(rounds: seq<Round>)
      requires Valid()
      modifies this
      ensures Valid()
      ensures State() == RunPolls(old(State()), rounds)
    {
      for i := 0 to |rounds|
        invariant Valid()
        invariant State() == RunPolls(old(State()), rounds[..i])
      {
        assert rounds[..i + 1][..i] == rounds[..i];
        PollStep(rounds[i]);
      }
      assert rounds[..|rounds|] == rounds;
    }

    /** processMessage: call the API with the body; delete after a 2xx response; alert on
        a classified server error; an exception of the Slack call escapes. */
    method ProcessMessage(m: Message, reaction: Reaction) returns (end: TaskEnd)
      requires Valid()
      modifies this
      ensures Valid()
      ensures (State(), end) == ListenerSpec.ProcessMessage(old(State()), m, reaction)
    {
      end := Returned;
      posts := posts + [Post(apiUrl, m.body)];
      match reaction.outcome {
        case Response(status) =>
          if Is2xx(status) {
            deletes := deletes + [DeleteCall(queueUrl, m.receiptHandle)];
            if !reaction.deleteFails {
              queue := queue - {m.receiptHandle};
            }
          }
        case ServerError(status, trace) =>
          ghost var handled := HandleServerError(alerts, m.rendering, status, trace, reaction.sinkFails);
          var texts := Classifier.Notifications(status, m.rendering, trace);
          if texts != [] {
            if reaction.sinkFails {
              end := Escaped;
            } else {
              assert handled.0 == alerts + [handled.0[|alerts|]];
              alerts := alerts + [Alert(ResolveChannel(None), texts[0])];
            }
          }
          assert (alerts, end) == handled;
        case OtherError(_) =>
      }
      ProcessKeepsConsistent(old(State()), m, reaction);
    }

    /** The executor runs the `k`th submitted task. */
    method RunTask(k: nat, reaction: Reaction) returns (end: TaskEnd)
      requires Valid() && k < |pending|
      modifies this
      ensures Valid()
      ensures (State(), end) == ListenerSpec.RunTask(old(State()), k, reaction)
    {
      var m := pending[k];
      pending := pending[..k] + pending[k + 1..];
      end := ProcessMessage(m, reaction);
    }
  }
}
