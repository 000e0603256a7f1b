/**
 * The bridge from the `processing-events` pub/sub channel to the socket rooms: each
 * published message is parsed, and a `recording:completed` envelope becomes one
 * `recording:completed` emit to the room named by the envelope's session id.
 */
module EventBridge {
  import opened Common

  const CompletedEvent := "recording:completed"

  /**
   * What `JSON.parse` makes of a message, as far as the handler looks at it. Fields
   * are the string values found under `event`, `sessionId` and `participantId`.
   */
  datatype Parsed =
    | Unparsable                       // JSON.parse throws
    | Nullish                          // `null`: reading `.event` throws
    | Primitive                        // a number, string or boolean: every field reads as undefined
    | Envelope(event: Option<string>, sessionId: Option<string>, participantId: Option<string>)

  /** The payload of the emitted event. */
  datatype Notice = Notice(message: string, participantId: Option<string>, sessionId: Option<string>)

  /** `io.to(room).emit(event, notice)`; an absent room id addresses no socket. */
  datatype RoomEmit = RoomEmit(room: Option<string>, event: string, notice: Notice)

  /** What the handler does with one message. */
  datatype Outcome = Emitted(emit: RoomEmit) | Ignored | ParseError

  const NoticePrefix := "Recording for participant "
  const NoticeSuffix := " is ready!"

  function NoticeText(participantId: Option<string>): string {
    NoticePrefix + Interpolate(participantId) + NoticeSuffix
  }

  /** The participant id (or `undefined`) can be read back from the notice text. */
  lemma NoticeTextRecoversId(participantId: Option<string>)
    ensures var t := NoticeText(participantId);
            |t| == |NoticePrefix| + |Interpolate(participantId)| + |NoticeSuffix|
            && t[|NoticePrefix|..|t| - |NoticeSuffix|] == Interpolate(participantId)
  {
    var t := NoticeText(participantId);
    assert t[|NoticePrefix|..|t| - |NoticeSuffix|] == Interpolate(participantId);
  }

  /**
   * The message handler. The channel is only logged, so it takes no part in the
   * decision; a parse failure (or a `null` envelope) is caught and logged.
   */
  function HandleMessage(channel: string, parsed: Parsed): (r: Outcome)
    ensures r.Emitted? <==> parsed.Envelope? && parsed.event == Some(CompletedEvent)
    ensures r.Emitted? ==> r.emit.event == CompletedEvent
                           && r.emit.room == parsed.sessionId
                           && r.emit.notice == Notice(NoticeText(parsed.participantId), parsed.participantId, parsed.sessionId)
    ensures r.ParseError? <==> parsed.Unparsable? || parsed.Nullish?
  {
    match parsed
    case Unparsable => ParseError
    case Nullish => ParseError
    case Primitive => Ignored
    case Envelope(event, sessionId, participantId) =>
      if event == Some(CompletedEvent) then
        Emitted(RoomEmit(sessionId, CompletedEvent, Notice(NoticeText(participantId), participantId, sessionId)))
      else Ignored
  }

  /** The outcome does not depend on the channel the message arrived on. */
  lemma ChannelIgnored(c1: string, c2: string, parsed: Parsed)
    ensures HandleMessage(c1, parsed) == HandleMessage(c2, parsed)
  {
  }

  /** The subscriber: every message handled appends at most one room emit. */
  class Bridge {
    /** `JSON.parse`, as the handler sees its result. */
    const parse: string -> Parsed
    var emitted: seq<RoomEmit>
    var errorsLogged: nat

    constructor(parse: string -> Parsed)
      ensures this.parse == parse && emitted == [] && errorsLogged == 0
    {
      this.parse := parse;
      emitted, errorsLogged := [], 0;
    }

    method OnMessage(channel: string, message: string)
      modifies this
      ensures match HandleMessage(channel, parse(message))
              case Emitted(e) => emitted == old(emitted) + [e] && errorsLogged == old(errorsLogged)
              case Ignored => emitted == old(emitted) && errorsLogged == old(errorsLogged)
              case ParseError => emitted == old(emitted) && errorsLogged == old(errorsLogged) + 1
    {
      var outcome := HandleMessage(channel, parse(message));
      match outcome
      case Emitted(e) =>
        emitted := emitted + [e];
      case Ignored =>
      case ParseError =>
        errorsLogged := errorsLogged + 1;
    }
  }
}
