/** The alert sink of SlackServiceImpl: posts a text to a channel, falling back to
    the monitoring channel when the caller passes no channel (null). */
module Slack {

  /** Stands for a Java reference that may be null. */
  datatype Option<+T> = None | Some(value: T)

  /** The channel every notification without an explicit channel lands on. */
  const DEFAULT_CHANNEL: string := "queue-monitoring"

  /** One notification the sink delivered. */
  datatype Alert = Alert(channel: string, text: string)

  /** The channel a notification is posted to: the requested one, or the default for null. */
  function ResolveChannel(requested: Option<string>): (channel: string)
    ensures requested.Some? ==> channel == requested.value
    ensures requested.None? ==> channel == DEFAULT_CHANNEL
  {
    match requested
    case Some(c) => c
    case None => DEFAULT_CHANNEL
  }

  /** One call of slackNotification on a delivery log. When the Slack client fails
      (`fails`), the call throws: nothing is delivered and `delivered` is false. */
  function Notify(log: seq<Alert>, text: string, channel: Option<string>, fails: bool): (r: (seq<Alert>, bool))
    ensures r.1 <==> !fails
    ensures r.1 ==> r.0 == log + [Alert(ResolveChannel(channel), text)]
    ensures !r.1 ==> r.0 == log
  {
    if fails then (log, false) else (log + [Alert(ResolveChannel(channel), text)], true)
  }
}
