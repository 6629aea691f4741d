/** The status-code classification done by the HttpServerErrorException handler of
    SqsMessageListener.processMessage. */
module Classifier {

  import opened Slack

  /** The four alert categories the handler distinguishes. */
  datatype Category = GatewayTimeout | InternalError | BadRequest | Unauthorized

  /** The whole text of the gateway-timeout alert; it carries neither payload nor trace. */
  // Written as two literals: the verifier could not index into the literal when it was
  // one piece, which the first-letter lemma below needs.
  const UNRESPONSIVE_TEXT: string := "Data Engineering Machine " + "is unresponsive for the queue"
  const INTERNAL_PREFIX: string := "Internal Server error for payload | "
  const BAD_REQUEST_PREFIX: string := "Bad Request for payload | "
  const UNAUTHORIZED_PREFIX: string := "UnAuthorized for payload | "
  const TRACE_SEPARATOR: string := " | with exception "

  /** The classification as a lookup table from status code to category. */
  const TABLE: map<int, Category> :=
    map[504 := GatewayTimeout, 500 := InternalError, 400 := BadRequest, 401 := Unauthorized, 403 := Unauthorized]

  /** The category of a server-error status, or None for a status no alert is sent for. */
  function Classify(status: int): (c: Option<Category>)
    ensures c.Some? <==> status in {400, 401, 403, 500, 504}
  {
    if status in TABLE then Some(TABLE[status]) else None
  }

  /** The fixed start of every alert text of a category. */
  function Prefix(c: Category): string
  {
    match c
    case GatewayTimeout => UNRESPONSIVE_TEXT
    case InternalError => INTERNAL_PREFIX
    case BadRequest => BAD_REQUEST_PREFIX
    case Unauthorized => UNAUTHORIZED_PREFIX
  }

  /** The alert text of a category for a message rendered as `payload` and an exception
      whose stack trace is `trace`. */
  function AlertText(c: Category, payload: string, trace: string): (text: string)
    ensures Prefix(c) <= text
    ensures c == GatewayTimeout ==> text == UNRESPONSIVE_TEXT
    ensures c != GatewayTimeout ==>
              |Prefix(c)| + |payload| <= |text| && text[|Prefix(c)|..|Prefix(c)| + |payload|] == payload
    ensures c != GatewayTimeout ==>
              |text| == |Prefix(c)| + |payload| + |TRACE_SEPARATOR| + |trace|
              && text[|text| - |trace| - |TRACE_SEPARATOR|..|text| - |trace|] == TRACE_SEPARATOR
              && text[|text| - |trace|..] == trace
  {
    if c == GatewayTimeout then UNRESPONSIVE_TEXT
    else
      var head := Prefix(c) + payload;
      var tail := TRACE_SEPARATOR + trace;
      assert head[|Prefix(c)|..] == payload;
      assert tail[..|TRACE_SEPARATOR|] == TRACE_SEPARATOR && tail[|TRACE_SEPARATOR|..] == trace;
      var text := head + tail;
      assert text[..|head|] == head && text[|head|..] == tail;
      assert text[|Prefix(c)|..|head|] == head[|Prefix(c)|..];
      assert text[|head|..|head| + |TRACE_SEPARATOR|] == tail[..|TRACE_SEPARATOR|];
      assert text[|head| + |TRACE_SEPARATOR|..] == tail[|TRACE_SEPARATOR|..];
      text
  }

  /** The texts the handler posts for a status, as written: four independent `if`
      statements tried in order 504, 500, 400, 403-or-401. */
  function Notifications(status: int, payload: string, trace: string): (texts: seq<string>)
    ensures |texts| <= 1
    ensures |texts| == 1 <==> status in {400, 401, 403, 500, 504}
  {
    (if status == 504 then [AlertText(GatewayTimeout, payload, trace)] else [])
    + (if status == 500 then [AlertText(InternalError, payload, trace)] else [])
    + (if status == 400 then [AlertText(BadRequest, payload, trace)] else [])
    + (if status == 403 || status == 401 then [AlertText(Unauthorized, payload, trace)] else [])
  }

  /** The `if` chain as written agrees with the lookup table: a classified status posts
      the text of its category, any other status posts nothing. */
  lemma NotificationsFollowTable(status: int, payload: string, trace: string)
    ensures Notifications(status, payload, trace) == match Classify(status)
                                                     case None => []
                                                     case Some(c) => [AlertText(c, payload, trace)]
  {
    if status !in {400, 401, 403, 500, 504} {
      assert Classify(status) == None;
    }
  }

  /** An alert text tells its category: the four prefixes already differ in their first letter. */
  lemma TextIdentifiesCategory(c1: Category, p1: string, t1: string, c2: Category, p2: string, t2: string)
    requires AlertText(c1, p1, t1) == AlertText(c2, p2, t2)
    ensures c1 == c2
  {
    var text := AlertText(c1, p1, t1);
    FirstLetter(c1);
    FirstLetter(c2);
    assert Prefix(c1)[0] == text[0] == Prefix(c2)[0];
  }

  /** The first letters of the four prefixes: D, I, B and U. */
  lemma FirstLetter(c: Category)
    ensures |Prefix(c)| > 0
    ensures Prefix(c)[0] == match c
                            case GatewayTimeout => 'D'
                            case InternalError => 'I'
                            case BadRequest => 'B'
                            case Unauthorized => 'U'
  {
  }
}
