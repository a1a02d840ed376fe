/**
 The bookmark payload serializer, seen from the scheduler: something that
 turns a bookmark's serialized data into the payload record of a given type,
 or fails. How it parses is not modelled; a `Codec` is an arbitrary partial
 decoder per payload type, and the serializer object records every decode
 request it receives so that a caller's use of it can be stated.
 */
module Serialization {
  import opened Wrappers
  import opened Bookmarks

  /** The payload type a decode request asks for. */
  datatype PayloadType = DelayPayloadType | StartAtPayloadType | TimerBookmarkPayloadType

  /** One call to the serializer: the payload type asked for and the data. */
  datatype DecodeRequest = DecodeRequest(payloadType: PayloadType, data: string)

  /** The serializer's decoding, one partial function per payload type.
      `None` stands for data that does not decode into that type (the
      serializer throws, or yields null and the field access then throws). */
  datatype Codec = Codec(
    delay: string -> Option<DelayPayload>,
    startAt: string -> Option<StartAtPayload>,
    timer: string -> Option<TimerBookmarkPayload>)

  /** The payload type the scheduler decodes a bookmark of kind `k` into. */
  function PayloadTypeOf(k: Kind): PayloadType
    requires IsTimeBased(k)
  {
    match k
    case Delay => DelayPayloadType
    case StartAt => StartAtPayloadType
    case Timer => TimerBookmarkPayloadType
  }

  /** The absolute time a time-based bookmark asks to be resumed at: the
      field of its kind's payload that holds it, or `None` when the payload
      does not decode. */
  function ResumeTime(codec: Codec, b: Bookmark): Option<int>
    requires IsTimeBased(b.kind)
  {
    match b.kind
    case Delay =>
      (match codec.delay(b.data) case Some(p) => Some(p.resumeAt) case None => None)
    case StartAt =>
      (match codec.startAt(b.data) case Some(p) => Some(p.executeAt) case None => None)
    case Timer =>
      (match codec.timer(b.data) case Some(p) => Some(p.resumeAt) case None => None)
  }

  /** A serializer with a fixed codec and a log of the requests it served. */
  class PayloadSerializer {
    const codec: Codec
    var log: seq<DecodeRequest>

    constructor (codec: Codec)
      ensures this.codec == codec && log == []
    {
      this.codec := codec;
      log := [];
    }

    method DeserializeDelay(data: string) returns (p: Option<DelayPayload>)
      modifies this
      ensures p == codec.delay(data)
      ensures log == old(log) + [DecodeRequest(DelayPayloadType, data)]
    {
      p := codec.delay(data);
      log := log + [DecodeRequest(DelayPayloadType, data)];
    }

    method DeserializeStartAt(data: string) returns (p: Option<StartAtPayload>)
      modifies this
      ensures p == codec.startAt(data)
      ensures log == old(log) + [DecodeRequest(StartAtPayloadType, data)]
    {
      p := codec.startAt(data);
      log := log + [DecodeRequest(StartAtPayloadType, data)];
    }

    method DeserializeTimer(data: string) returns (p: Option<TimerBookmarkPayload>)
      modifies this
      ensures p == codec.timer(data)
      ensures log == old(log) + [DecodeRequest(TimerBookmarkPayloadType, data)]
    {
      p := codec.timer(data);
      log := log + [DecodeRequest(TimerBookmarkPayloadType, data)];
    }
  }
}
