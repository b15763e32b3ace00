/**
 command-message-headers.ts, correlate-message-headers.ts and the headers that a saga's
 command and its reply carry, so that a reply finds the saga that sent the command.
 */
module MessageHeaders {
  import opened Options

  type Headers = map<string, string>

  const COMMAND_HEADER_PREFIX := "command_"
  const COMMAND_REPLY_PREFIX := "commandreply_"
  const COMMAND_TYPE := COMMAND_HEADER_PREFIX + "type"
  const RESOURCE := COMMAND_HEADER_PREFIX + "resource"
  const DESTINATION := COMMAND_HEADER_PREFIX + "_destination"
  const REPLY_TO := COMMAND_HEADER_PREFIX + "reply_to"
  const SAGA_TYPE := COMMAND_HEADER_PREFIX + "saga_type"
  const SAGA_ID := COMMAND_HEADER_PREFIX + "saga_id"

  const IN_REPLY_TO := "reply_to_message_id"
  const REPLY_TYPE := "reply_type"
  const REPLY_OUTCOME := "reply_outcome"
  const ID := "ID"
  const TYPE := "type"

  predicate HeaderStartsWithCommandPrefix(header: string) {
    COMMAND_HEADER_PREFIX <= header
  }

  /** The name under which a reply carries a command's header; None where the code throws. */
  function InReply(header: string): Option<string> {
    if !HeaderStartsWithCommandPrefix(header) then None
    else Some(COMMAND_REPLY_PREFIX + header[|COMMAND_HEADER_PREFIX|..])
  }

  lemma InReplyIsInjective(a: string, b: string)
    requires InReply(a).Some? && InReply(a) == InReply(b)
    ensures a == b
  {
    var n := |COMMAND_REPLY_PREFIX|;
    assert InReply(a).value[n..] == a[|COMMAND_HEADER_PREFIX|..];
    assert InReply(b).value[n..] == b[|COMMAND_HEADER_PREFIX|..];
    assert a == COMMAND_HEADER_PREFIX + a[|COMMAND_HEADER_PREFIX|..];
    assert b == COMMAND_HEADER_PREFIX + b[|COMMAND_HEADER_PREFIX|..];
  }

  /** No command header collides with a header that a reply has of its own. */
  lemma ReplyNamesAreApart(header: string)
    ensures InReply(header).Some? ==> InReply(header).value !in {IN_REPLY_TO, REPLY_TYPE, REPLY_OUTCOME, TYPE}
  {
    if InReply(header).Some? {
      assert InReply(header).value[0] == 'c';
      assert IN_REPLY_TO[0] == 'r' && REPLY_TYPE[0] == 'r' && REPLY_OUTCOME[0] == 'r' && TYPE[0] == 't';
    }
  }

  /** The header value of a missing id is the text of an undefined value. */
  function IdIn(headers: Headers): string {
    if ID in headers then headers[ID] else "undefined"
  }

  /** `r` holds each command header of `headers` under its reply name, with the id of the message, and no more. */
  ghost predicate Correlates(headers: Headers, r: Headers) {
    && IN_REPLY_TO in r && r[IN_REPLY_TO] == IdIn(headers)
    && (forall key :: key in headers && HeaderStartsWithCommandPrefix(key) ==>
         InReply(key).value in r && r[InReply(key).value] == headers[key])
    && (forall name :: name in r && name != IN_REPLY_TO ==>
         exists key :: key in headers && InReply(key) == Some(name))
  }

  method CorrelateMessageHeaders(headers: Headers) returns (r: Headers)
    ensures Correlates(headers, r)
  {
    r := map[];
    var keys := headers.Keys;
    while keys != {}
      invariant keys <= headers.Keys
      invariant forall key :: key in headers && key !in keys && HeaderStartsWithCommandPrefix(key) ==>
        InReply(key).value in r && r[InReply(key).value] == headers[key]
      invariant forall name :: name in r ==> exists key :: key in headers && InReply(key) == Some(name)
    {
      var key :| key in keys;
      keys := keys - {key};
      if HeaderStartsWithCommandPrefix(key) {
        forall other | other in headers && InReply(other) == InReply(key) ensures other == key {
          InReplyIsInjective(key, other);
        }
        r := r[InReply(key).value := headers[key]];
      }
    }
    forall key | key in headers && HeaderStartsWithCommandPrefix(key) ensures InReply(key).value != IN_REPLY_TO {
      ReplyNamesAreApart(key);
    }
    r := r[IN_REPLY_TO := IdIn(headers)];
  }

  // ---------- commands and replies ----------

  datatype SagaCommand = SagaCommand(
    sagaType: string,
    sagaId: string,
    channel: string,
    commandType: string,
    replyTo: string,
    resource: Option<string>)

  /** The headers that the producers give a saga's command, and the id of the sent message. */
  function CommandHeaders(c: SagaCommand, id: string): Headers {
    var headers := map[TYPE := c.commandType][SAGA_TYPE := c.sagaType][SAGA_ID := c.sagaId]
      [DESTINATION := c.channel][COMMAND_TYPE := c.commandType][REPLY_TO := c.replyTo][ID := id];
    if c.resource.Some? then headers[RESOURCE := c.resource.value] else headers
  }

  /** A reply's own headers; the correlated ones are added over them. */
  function ReplyHeaders(outcome: string, replyType: string, correlated: Headers): Headers {
    map[TYPE := replyType, REPLY_OUTCOME := outcome, REPLY_TYPE := replyType] + correlated
  }

  /**
   A reply to a message with any headers carries each of its command headers, once, under
   the reply's prefix, and nothing else there; it keeps its own outcome and type, and names
   the message that it replies to.
   */
  lemma ReplyCarriesCommandHeaders(
    headers: Headers, correlated: Headers, outcome: string, replyType: string, name: string)
    requires Correlates(headers, correlated)
    ensures var reply := ReplyHeaders(outcome, replyType, correlated);
      && (COMMAND_REPLY_PREFIX + name in reply <==> COMMAND_HEADER_PREFIX + name in headers)
      && (COMMAND_HEADER_PREFIX + name in headers ==>
           reply[COMMAND_REPLY_PREFIX + name] == headers[COMMAND_HEADER_PREFIX + name])
      && REPLY_OUTCOME in reply && reply[REPLY_OUTCOME] == outcome
      && REPLY_TYPE in reply && reply[REPLY_TYPE] == replyType
      && TYPE in reply && reply[TYPE] == replyType
      && IN_REPLY_TO in reply && reply[IN_REPLY_TO] == IdIn(headers)
  {
    var command, replied := COMMAND_HEADER_PREFIX + name, COMMAND_REPLY_PREFIX + name;
    assert command[|COMMAND_HEADER_PREFIX|..] == name;
    assert InReply(command) == Some(replied);
    ReplyNamesAreApart(command);
    if replied in correlated {
      var key :| key in headers && InReply(key) == Some(replied);
      InReplyIsInjective(key, command);
    }
    forall own | own in {REPLY_TYPE, REPLY_OUTCOME, TYPE} ensures own !in correlated {
      if own in correlated {
        var key :| key in headers && InReply(key) == Some(own);
        ReplyNamesAreApart(key);
      }
    }
  }

  lemma CommandHeadersHoldTheSaga(c: SagaCommand, id: string)
    ensures var headers := CommandHeaders(c, id);
      && SAGA_TYPE in headers && headers[SAGA_TYPE] == c.sagaType
      && SAGA_ID in headers && headers[SAGA_ID] == c.sagaId
      && DESTINATION in headers && headers[DESTINATION] == c.channel
      && COMMAND_TYPE in headers && headers[COMMAND_TYPE] == c.commandType
      && REPLY_TO in headers && headers[REPLY_TO] == c.replyTo
      && (RESOURCE in headers <==> c.resource.Some?) && (c.resource.Some? ==> headers[RESOURCE] == c.resource.value)
      && IdIn(headers) == id
  {
    assert |ID| == 2 && |TYPE| == 4 && |SAGA_ID| == 15 && |COMMAND_TYPE| == 12;
    assert |SAGA_TYPE| == 17 && |DESTINATION| == 20 && |REPLY_TO| == 16 && |RESOURCE| == 16;
    assert REPLY_TO[10] == 'p' && RESOURCE[10] == 's';
    assert SAGA_TYPE[13] == 't' && SAGA_ID[13] == 'i' && DESTINATION[8] == '_' && COMMAND_TYPE[8] == 't';
    assert SAGA_TYPE[8] == 's' && SAGA_ID[8] == 's' && REPLY_TO[8] == 'r' && RESOURCE[8] == 'r';
  }

  /** The names as they stand in messages. */
  lemma HeaderNames()
    ensures SAGA_TYPE == "command_saga_type" && SAGA_ID == "command_saga_id" && REPLY_TO == "command_reply_to"
    ensures COMMAND_TYPE == "command_type" && RESOURCE == "command_resource" && DESTINATION == "command__destination"
    ensures InReply(SAGA_ID) == Some("commandreply_saga_id") && InReply(SAGA_TYPE) == Some("commandreply_saga_type")
    ensures IdIn(map[]) == "undefined" && IdIn(map["ID" := "7"]) == "7"
    ensures IN_REPLY_TO == "reply_to_message_id" && REPLY_TYPE == "reply_type" && REPLY_OUTCOME == "reply_outcome"
  {
    assert |COMMAND_HEADER_PREFIX| == 8 && SAGA_ID[..8] == SAGA_TYPE[..8] == COMMAND_HEADER_PREFIX;
    assert SAGA_ID[8..] == "saga_id" && SAGA_TYPE[8..] == "saga_type";
    assert COMMAND_REPLY_PREFIX + "saga_id" == "commandreply_saga_id";
    assert COMMAND_REPLY_PREFIX + "saga_type" == "commandreply_saga_type";
  }

  /** The reply to a saga's command reaches the type and the id of the saga that sent it, whatever the command. */
  lemma ReplyReturnsToItsSaga(c: SagaCommand, id: string, correlated: Headers, outcome: string, replyType: string)
    requires Correlates(CommandHeaders(c, id), correlated)
    ensures var reply := ReplyHeaders(outcome, replyType, correlated);
      var (sagaType, sagaId, destination) := (InReply(SAGA_TYPE), InReply(SAGA_ID), InReply(DESTINATION));
      && sagaType.Some? && sagaType.value in reply && reply[sagaType.value] == c.sagaType
      && sagaId.Some? && sagaId.value in reply && reply[sagaId.value] == c.sagaId
      && destination.Some? && destination.value in reply && reply[destination.value] == c.channel
      && InReply(REPLY_TO).Some? && InReply(REPLY_TO).value in reply && reply[InReply(REPLY_TO).value] == c.replyTo
      && InReply(RESOURCE).Some? && (InReply(RESOURCE).value in reply <==> c.resource.Some?)
      && (c.resource.Some? ==> reply[InReply(RESOURCE).value] == c.resource.value)
      && IN_REPLY_TO in reply && reply[IN_REPLY_TO] == id
      && reply[REPLY_OUTCOME] == outcome && reply[REPLY_TYPE] == replyType
  {
    var headers := CommandHeaders(c, id);
    CommandHeadersHoldTheSaga(c, id);
    hide CommandHeaders;
    ReplyCarriesCommandHeaders(headers, correlated, outcome, replyType, "saga_type");
    ReplyCarriesCommandHeaders(headers, correlated, outcome, replyType, "saga_id");
    ReplyCarriesCommandHeaders(headers, correlated, outcome, replyType, "_destination");
    ReplyCarriesCommandHeaders(headers, correlated, outcome, replyType, "reply_to");
    ReplyCarriesCommandHeaders(headers, correlated, outcome, replyType, "resource");
  }
}
