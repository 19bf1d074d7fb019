/** Encoding and decoding are inverse up to trimming, for all eleven kinds of message. */
module StreamCodecLaws {
  import opened Contracts
  import opened Trimming
  import opened StreamCodec
  import Base64

  function TrimText(t: Option<string>): Option<string> {
    match t
    case None => None
    case Some(s) => Some(Strip(s))
  }

  /** Identifiers and texts without surrounding white space; everything else as it is. */
  function Trim(m: Message): Message {
    match m
    case Hello(client) => Hello(Strip(client))
    case SessionOpen(session) => SessionOpen(Strip(session))
    case AuthorizeMessage(message, session, lease) =>
      AuthorizeMessage(Strip(message), Strip(session), lease.(actionId := TrimText(lease.actionId)))
    case OutputNeutralize(message, session, resource, token) =>
      OutputNeutralize(Strip(message), Strip(session), resource, token)
    case OutputData(session, action, resource, token, sequence, ttl, payload) =>
      OutputData(Strip(session), Strip(action), resource, token, sequence, ttl, payload)
    case Ack(message, accepted, reason) => Ack(Strip(message), accepted, TrimText(reason))
    case OutputCompleted(session, action, resource, token, state, error) =>
      OutputCompleted(Strip(session), Strip(action), resource, token, state, TrimText(error))
    case AudioChunk(session, sequence, captured, pcm) => AudioChunk(Strip(session), sequence, captured, pcm)
    case ScreenshotRequest(request, session) => ScreenshotRequest(Strip(request), Strip(session))
    case ScreenshotResponse(request, session, jpeg, error) =>
      ScreenshotResponse(Strip(request), Strip(session), jpeg, TrimText(error))
    case Heartbeat(session, sender, sequence) => Heartbeat(Strip(session), sender, sequence)
  }

  lemma IdentifierIsStable(s: string)
    ensures Identifier(JString(s)) == Identifier(JString(Strip(s)))
    ensures Identifier(JString(s)).Parsed? ==> Identifier(JString(s)).value == Strip(s)
  {
    StripIsIdempotent(s);
  }

  lemma TextIsStable(t: Option<string>)
    ensures OptionalText(TextJson(t)) == OptionalText(TextJson(TrimText(t)))
    ensures OptionalText(TextJson(t)).Parsed? ==> OptionalText(TextJson(t)).value == TrimText(t)
  {
    if t.Some? { StripIsIdempotent(t.value); }
  }

  lemma ResourceSurvives(r: Resource)
    ensures ResourceOf(JString(ResourceName(r))) == Parsed(r)
  {
    assert ResourceName(VoiceOutput)[0] != ResourceName(FullBodyPose)[0];
  }

  lemma PcmSurvives(pcm: Bytes)
    requires AudioPcm(pcm).Parsed?
    ensures PcmOf(JString(Base64.Encode(pcm))) == Parsed(pcm)
  {
    Base64.DecodeEncode(pcm);
  }

  lemma ImageSurvives(jpeg: Option<Bytes>)
    requires jpeg.Some? ==> Jpeg(jpeg.value).Parsed?
    ensures ImageOf(ImageJson(jpeg)) == Parsed(jpeg) && (ImageJson(jpeg).JNull? <==> jpeg.None?)
  {
    if jpeg.Some? { Base64.DecodeEncode(jpeg.value); }
  }

  // ---- Round trip, kind by kind ----

  /** The eleven type names are distinct. */
  lemma NameSelectsTheKind(k: Kind)
    ensures KindNamed(Name(k)) == Some(k)
  {
    assert "output.authorize"[7] != "output.completed"[7];
    assert "output.data"[0] != "audio.chunk"[0];
    match k
    case _ => assert |Name(k)| in {3, 5, 9, 11, 12, 16, 17, 18, 19};
  }

  lemma WireKeepsFields(name: string, fields: map<Field, Json>)
    requires TypeField !in fields && VersionField !in fields
    ensures Wire(name, fields).fields[TypeField] == JString(name)
    ensures Wire(name, fields).fields[VersionField] == JInt(PROTOCOL_VERSION)
    ensures Exact(Wire(name, fields).fields, fields.Keys)
    ensures forall k | k in fields.Keys :: Wire(name, fields).fields[k] == fields[k]
  {
  }

  /** The fields of the kind of `m`, besides type and version. */
  function FieldsOf(m: Message): set<Field> {
    match m
    case Hello(_) => {ClientInstanceId}
    case SessionOpen(_) => {SessionId}
    case AuthorizeMessage(_, _, _) => {MessageId, SessionId, ResourceField, LeaseToken, ActionId}
    case OutputNeutralize(_, _, _, _) => {MessageId, SessionId, ResourceField, LeaseToken}
    case OutputData(_, _, _, _, _, _, _) =>
      {SessionId, ActionId, ResourceField, LeaseToken, Sequence, TtlMs, PayloadField}
    case Ack(_, _, _) => {MessageId, Accepted, Reason}
    case OutputCompleted(_, _, _, _, _, _) => {SessionId, ActionId, ResourceField, LeaseToken, StateField, ErrorField}
    case AudioChunk(_, _, _, _) => {SessionId, Sequence, CapturedNs, SampleRate, Channels, Encoding, PcmField}
    case ScreenshotRequest(_, _) => {RequestId, SessionId}
    case ScreenshotResponse(_, _, _, _) => {RequestId, SessionId, JpegField, ErrorField}
    case Heartbeat(_, _, _) => {SessionId, Sender, Sequence}
  }

  lemma EncodesItsFields(m: Message)
    requires EncodeFields(m).Parsed?
    ensures EncodeFields(m).value.Keys == FieldsOf(m)
  {
  }

  /** `o` holds exactly what `m` is encoded to. */
  ghost predicate Carries(m: Message, o: map<Field, Json>) {
    var fields := EncodeFields(m);
    && fields.Parsed? && fields.value.Keys == FieldsOf(m) && Exact(o, FieldsOf(m))
    && forall k | k in FieldsOf(m) :: o[k] == fields.value[k]
  }

  /** Decoding `o` as its kind gives the trimmed message. */
  ghost predicate Survives(m: Message, o: map<Field, Json>) {
    DecodeKind(o, KindOf(m)) == Parsed(Trim(m))
  }

  lemma AuthorizeSurvives(m: Message, o: map<Field, Json>)
    requires m.AuthorizeMessage? && Carries(m, o)
    ensures Survives(m, o)
  {
    ResourceSurvives(m.lease.resource);
    IdentifierIsStable(m.messageId);
    IdentifierIsStable(m.sessionId);
    if m.lease.actionId.Some? { IdentifierIsStable(m.lease.actionId.value); }
  }

  lemma NeutralizeSurvives(m: Message, o: map<Field, Json>)
    requires m.OutputNeutralize? && Carries(m, o)
    ensures Survives(m, o)
  {
    ResourceSurvives(m.resource);
    IdentifierIsStable(m.messageId);
    IdentifierIsStable(m.sessionId);
  }

  lemma DataNames(m: Message, o: map<Field, Json>)
    requires m.OutputData? && Carries(m, o)
    ensures Exact(o, {SessionId, ActionId, ResourceField, LeaseToken, Sequence, TtlMs, PayloadField})
    ensures Identifier(o[SessionId]) == Parsed(Strip(m.sessionId))
            && Identifier(o[ActionId]) == Parsed(Strip(m.actionId))
  {
    IdentifierIsStable(m.sessionId);
    IdentifierIsStable(m.actionId);
  }

  lemma DataFields(m: Message, o: map<Field, Json>)
    requires m.OutputData? && Carries(m, o)
    ensures o[ResourceField] == JString(ResourceName(m.resource)) && AtLeast(o[LeaseToken], 1) == Parsed(m.leaseToken)
    ensures AtLeast(o[Sequence], 0) == Parsed(m.sequence) && AtLeast(o[TtlMs], 1) == Parsed(m.ttlMs)
    ensures o[PayloadField] == JObject(m.payload)
  {
  }

  lemma DataDecodes(m: Message, o: map<Field, Json>)
    requires m.OutputData? && Carries(m, o)
    ensures DecodeData(o) == Parsed(OutputData(Strip(m.sessionId), Strip(m.actionId), m.resource, m.leaseToken,
                                               m.sequence, m.ttlMs, m.payload))
  {
    DataNames(m, o);
    DataFields(m, o);
    ResourceSurvives(m.resource);
  }

  lemma DataTrimmed(m: Message, o: map<Field, Json>)
    requires m.OutputData?
    requires DecodeData(o) == Parsed(OutputData(Strip(m.sessionId), Strip(m.actionId), m.resource, m.leaseToken,
                                                m.sequence, m.ttlMs, m.payload))
    ensures Survives(m, o)
  {
  }

  lemma DataSurvives(m: Message, o: map<Field, Json>)
    requires m.OutputData? && Carries(m, o)
    ensures Survives(m, o)
  {
    DataDecodes(m, o);
    DataTrimmed(m, o);
  }

  lemma AckSurvives(m: Message, o: map<Field, Json>)
    requires m.Ack? && Carries(m, o)
    ensures Survives(m, o)
  {
    IdentifierIsStable(m.messageId);
    TextIsStable(m.reason);
  }

  lemma CompletedFields(m: Message, o: map<Field, Json>)
    requires m.OutputCompleted? && Carries(m, o)
    ensures Exact(o, {SessionId, ActionId, ResourceField, LeaseToken, StateField, ErrorField})
    ensures Identifier(o[SessionId]) == Parsed(Strip(m.sessionId))
            && Identifier(o[ActionId]) == Parsed(Strip(m.actionId))
    ensures o[ResourceField] == JString(ResourceName(m.resource)) && AtLeast(o[LeaseToken], 1) == Parsed(m.leaseToken)
    ensures CompletionState(o[StateField]) == Parsed(m.state) && (m.state == "failed" ==> m.error.Some?)
    ensures OptionalText(o[ErrorField]) == Parsed(TrimText(m.error))
  {
    IdentifierIsStable(m.sessionId);
    IdentifierIsStable(m.actionId);
    TextIsStable(m.error);
  }

  lemma CompletedDecodes(m: Message, o: map<Field, Json>)
    requires m.OutputCompleted? && Carries(m, o)
    ensures DecodeCompleted(o) == Parsed(OutputCompleted(
              Strip(m.sessionId), Strip(m.actionId), m.resource, m.leaseToken, m.state, TrimText(m.error)))
  {
    CompletedFields(m, o);
    ResourceSurvives(m.resource);
  }

  lemma CompletedTrimmed(m: Message, o: map<Field, Json>)
    requires m.OutputCompleted?
    requires DecodeCompleted(o) == Parsed(OutputCompleted(
              Strip(m.sessionId), Strip(m.actionId), m.resource, m.leaseToken, m.state, TrimText(m.error)))
    ensures Survives(m, o)
  {
  }

  lemma CompletedSurvives(m: Message, o: map<Field, Json>)
    requires m.OutputCompleted? && Carries(m, o)
    ensures Survives(m, o)
  {
    CompletedDecodes(m, o);
    CompletedTrimmed(m, o);
  }

  lemma AudioFields(m: Message, o: map<Field, Json>)
    requires m.AudioChunk? && Carries(m, o)
    ensures Exact(o, {SessionId, Sequence, CapturedNs, SampleRate, Channels, Encoding, PcmField})
    ensures o[SessionId] == JString(Strip(m.sessionId)) && Identifier(o[SessionId]) == Parsed(Strip(m.sessionId))
    ensures o[Sequence] == JInt(m.sequence) && m.sequence >= 0
    ensures o[CapturedNs] == JInt(m.capturedNs) && m.capturedNs >= 0
    ensures o[SampleRate] == JInt(16000) && o[Channels] == JInt(1) && o[Encoding] == PCM_ENCODING
    ensures o[PcmField] == JString(Base64.Encode(m.pcm)) && AudioPcm(m.pcm) == Parsed(m.pcm)
  {
    IdentifierIsStable(m.sessionId);
  }

  lemma AudioDecodes(o: map<Field, Json>, session: string, sequence: int, captured: int, pcm: Bytes)
    requires Exact(o, {SessionId, Sequence, CapturedNs, SampleRate, Channels, Encoding, PcmField})
    requires o[SampleRate] == JInt(16000) && o[Channels] == JInt(1) && o[Encoding] == PCM_ENCODING
    requires Identifier(o[SessionId]) == Parsed(session) && PcmOf(o[PcmField]) == Parsed(pcm)
    requires AtLeast(o[Sequence], 0) == Parsed(sequence) && AtLeast(o[CapturedNs], 0) == Parsed(captured)
    ensures DecodeAudio(o) == Parsed(AudioChunk(session, sequence, captured, pcm))
  {
  }

  lemma AudioTrimmed(m: Message, o: map<Field, Json>)
    requires m.AudioChunk? && DecodeAudio(o) == Parsed(AudioChunk(Strip(m.sessionId), m.sequence, m.capturedNs, m.pcm))
    ensures Survives(m, o)
  {
  }

  lemma AudioSurvives(m: Message, o: map<Field, Json>)
    requires m.AudioChunk? && Carries(m, o)
    ensures Survives(m, o)
  {
    assert DecodeAudio(o) == Parsed(AudioChunk(Strip(m.sessionId), m.sequence, m.capturedNs, m.pcm)) by {
      AudioFields(m, o);
      PcmSurvives(m.pcm);
      AudioDecodes(o, Strip(m.sessionId), m.sequence, m.capturedNs, m.pcm);
    }
    AudioTrimmed(m, o);
  }

  lemma ScreenshotFields(m: Message)
    requires m.ScreenshotResponse? && EncodeFields(m).Parsed?
    ensures m.jpeg.None? != m.error.None? && (m.jpeg.Some? ==> Jpeg(m.jpeg.value) == Parsed(m.jpeg.value))
    ensures Identifier(JString(Strip(m.requestId))) == Parsed(Strip(m.requestId))
    ensures Identifier(JString(Strip(m.sessionId))) == Parsed(Strip(m.sessionId))
    ensures OptionalText(TextJson(TrimText(m.error))) == Parsed(TrimText(m.error))
    ensures EncodeFields(m).value ==
      map[RequestId := JString(Strip(m.requestId)), SessionId := JString(Strip(m.sessionId)),
          JpegField := ImageJson(m.jpeg),
          ErrorField := TextJson(TrimText(m.error))]
  {
    IdentifierIsStable(m.requestId);
    IdentifierIsStable(m.sessionId);
    TextIsStable(m.error);
  }

  lemma ScreenshotDecodes(
      o: map<Field, Json>, request: string, session: string, jpeg: Option<Bytes>, error: Option<string>)
    requires Exact(o, {RequestId, SessionId, JpegField, ErrorField})
    requires Identifier(o[RequestId]) == Parsed(request) && Identifier(o[SessionId]) == Parsed(session)
    requires ImageOf(o[JpegField]) == Parsed(jpeg) && OptionalText(o[ErrorField]) == Parsed(error)
    requires o[JpegField].JNull? != error.None?
    ensures DecodeScreenshot(o) == Parsed(ScreenshotResponse(request, session, jpeg, error))
  {
  }

  lemma ScreenshotSurvives(m: Message, o: map<Field, Json>)
    requires m.ScreenshotResponse? && Carries(m, o)
    ensures Survives(m, o)
  {
    ScreenshotFields(m);
    ImageSurvives(m.jpeg);
    ScreenshotDecodes(o, Strip(m.requestId), Strip(m.sessionId), m.jpeg, TrimText(m.error));
  }

  lemma HeartbeatSurvives(m: Message, o: map<Field, Json>)
    requires m.Heartbeat? && Carries(m, o)
    ensures Survives(m, o)
  {
    IdentifierIsStable(m.sessionId);
  }

  lemma OpeningSurvives(m: Message, o: map<Field, Json>)
    requires (m.Hello? || m.SessionOpen?) && Carries(m, o)
    ensures Survives(m, o)
  {
    IdentifierIsStable(if m.Hello? then m.clientInstanceId else m.sessionId);
  }

  lemma RequestSurvives(m: Message, o: map<Field, Json>)
    requires m.ScreenshotRequest? && Carries(m, o)
    ensures Survives(m, o)
  {
    IdentifierIsStable(m.requestId);
    IdentifierIsStable(m.sessionId);
  }

  lemma EveryKindSurvives(m: Message, o: map<Field, Json>)
    requires Carries(m, o)
    ensures Survives(m, o)
  {
    match m
    case AuthorizeMessage(_, _, _) => AuthorizeSurvives(m, o);
    case OutputNeutralize(_, _, _, _) => NeutralizeSurvives(m, o);
    case OutputData(_, _, _, _, _, _, _) => DataSurvives(m, o);
    case Ack(_, _, _) => AckSurvives(m, o);
    case OutputCompleted(_, _, _, _, _, _) => CompletedSurvives(m, o);
    case AudioChunk(_, _, _, _) => AudioSurvives(m, o);
    case ScreenshotResponse(_, _, _, _) => ScreenshotSurvives(m, o);
    case Heartbeat(_, _, _) => HeartbeatSurvives(m, o);
    case ScreenshotRequest(_, _) => RequestSurvives(m, o);
    case _ => OpeningSurvives(m, o);
  }

  // ---- Main results ----

  /** Every message the encoder accepts is decoded to itself, trimmed. */
  lemma DecodeEncode(size: Json -> nat, m: Message)
    requires Encode(size, m).Parsed?
    ensures Decode(size, Encode(size, m).value) == Parsed(Trim(m))
  {
    WireCarries(m);
    NameSelectsTheKind(KindOf(m));
    EveryKindSurvives(m, Wire(Name(KindOf(m)), EncodeFields(m).value).fields);
  }

  lemma WireCarries(m: Message)
    requires EncodeFields(m).Parsed?
    ensures
      var o := Wire(Name(KindOf(m)), EncodeFields(m).value).fields;
      Carries(m, o) && o[TypeField] == JString(Name(KindOf(m))) && o[VersionField] == JInt(PROTOCOL_VERSION)
  {
    EncodesItsFields(m);
    WireKeepsFields(Name(KindOf(m)), EncodeFields(m).value);
  }

  /** The trimmed message is encoded to the very same wire object. */
  lemma TrimEncodesTheSame(size: Json -> nat, m: Message)
    ensures EncodeFields(Trim(m)) == EncodeFields(m)
    ensures Encode(size, Trim(m)) == Encode(size, m)
  {
    TrimKeepsFields(m);
  }

  lemma TrimKeepsAuthorize(m: Message)
    requires m.AuthorizeMessage?
    ensures EncodeCommand(Trim(m)) == EncodeCommand(m)
  {
    IdentifierIsStable(m.sessionId);
    IdentifierIsStable(m.messageId);
    if m.lease.actionId.Some? { IdentifierIsStable(m.lease.actionId.value); }
  }

  lemma TrimKeepsCommand(m: Message)
    requires m.OutputNeutralize? || m.OutputData?
    ensures EncodeCommand(Trim(m)) == EncodeCommand(m)
  {
    IdentifierIsStable(m.sessionId);
    IdentifierIsStable(if m.OutputNeutralize? then m.messageId else m.actionId);
  }

  lemma TrimKeepsReply(m: Message)
    requires m.Ack? || m.Heartbeat?
    ensures EncodeReply(Trim(m)) == EncodeReply(m)
  {
    match m
    case Ack(message, _, reason) =>
      IdentifierIsStable(message);
      TextIsStable(reason);
    case Heartbeat(session, _, _) => IdentifierIsStable(session);
  }

  lemma TrimKeepsCompletion(m: Message)
    requires m.OutputCompleted?
    ensures EncodeReply(Trim(m)) == EncodeReply(m)
  {
    IdentifierIsStable(m.sessionId);
    IdentifierIsStable(m.actionId);
    TextIsStable(m.error);
  }

  lemma TrimKeepsMedia(m: Message)
    requires m.AudioChunk? || m.ScreenshotRequest?
    ensures EncodeMedia(Trim(m)) == EncodeMedia(m)
  {
    IdentifierIsStable(m.sessionId);
    if m.ScreenshotRequest? { IdentifierIsStable(m.requestId); }
  }

  lemma TrimKeepsScreenshot(m: Message)
    requires m.ScreenshotResponse?
    ensures EncodeMedia(Trim(m)) == EncodeMedia(m)
  {
    IdentifierIsStable(m.sessionId);
    IdentifierIsStable(m.requestId);
    TextIsStable(m.error);
  }

  lemma TrimKeepsFields(m: Message)
    ensures EncodeFields(Trim(m)) == EncodeFields(m) && KindOf(Trim(m)) == KindOf(m)
  {
    if m.Hello? {
      IdentifierIsStable(m.clientInstanceId);
    } else if m.SessionOpen? {
      IdentifierIsStable(m.sessionId);
    } else if m.AuthorizeMessage? {
      TrimKeepsAuthorize(m);
    } else if m.OutputNeutralize? || m.OutputData? {
      TrimKeepsCommand(m);
    } else if m.Ack? || m.Heartbeat? {
      TrimKeepsReply(m);
    } else if m.OutputCompleted? {
      TrimKeepsCompletion(m);
    } else if m.ScreenshotResponse? {
      TrimKeepsScreenshot(m);
    } else {
      TrimKeepsMedia(m);
    }
  }

  /**
   For every message the encoder accepts, of any kind: decoding succeeds and gives the message with identifiers and
   texts trimmed; encoding that again gives the same wire object.
   */
  lemma RoundTrip(size: Json -> nat, m: Message)
    requires Encode(size, m).Parsed?
    ensures Decode(size, Encode(size, m).value) == Parsed(Trim(m))
    ensures Encode(size, Decode(size, Encode(size, m).value).value) == Encode(size, m)
  {
    DecodeEncode(size, m);
    TrimEncodesTheSame(size, m);
  }

  /** Two accepted messages share a wire object only if they differ in surrounding white space alone. */
  lemma WireDeterminesTheMessage(size: Json -> nat, m: Message, n: Message)
    requires Encode(size, m).Parsed? && Encode(size, m) == Encode(size, n)
    ensures Trim(m) == Trim(n)
  {
    DecodeEncode(size, m);
    DecodeEncode(size, n);
  }

  // ---- What the decoder accepts ----

  lemma ParsedIdentifier(v: Json)
    requires Identifier(v).Parsed?
    ensures Strip(Identifier(v).value) == Identifier(v).value
            && Identifier(JString(Identifier(v).value)) == Identifier(v)
  {
    StripIsIdempotent(v.s);
  }

  lemma ParsedText(v: Json)
    requires OptionalText(v).Parsed?
    ensures TrimText(OptionalText(v).value) == OptionalText(v).value
    ensures OptionalText(TextJson(OptionalText(v).value)) == OptionalText(v)
  {
    if v.JString? { StripIsIdempotent(v.s); }
  }

  /** A decoded message is already trimmed and would be accepted by the encoder. */
  predicate Canonical(m: Message) {
    Trim(m) == m && EncodeFields(m).Parsed?
  }

  lemma DataIsCanonical(o: map<Field, Json>)
    requires DecodeData(o).Parsed?
    ensures Canonical(DecodeData(o).value)
  {
    ParsedIdentifier(o[SessionId]);
    ParsedIdentifier(o[ActionId]);
  }

  lemma AuthorizeIsCanonical(o: map<Field, Json>)
    requires DecodeAuthorize(o).Parsed?
    ensures Canonical(DecodeAuthorize(o).value)
  {
    ParsedIdentifier(o[SessionId]);
    ParsedIdentifier(o[MessageId]);
    ParsedIdentifier(o[ActionId]);
  }

  lemma NeutralizeIsCanonical(o: map<Field, Json>)
    requires DecodeNeutralize(o).Parsed?
    ensures Canonical(DecodeNeutralize(o).value)
  {
    ParsedIdentifier(o[SessionId]);
    ParsedIdentifier(o[MessageId]);
  }

  lemma ReplyIsCanonical(o: map<Field, Json>, k: Kind)
    requires (k.AckKind? || k.CompletedKind? || k.HeartbeatKind?) && DecodeKind(o, k).Parsed?
    ensures Canonical(DecodeKind(o, k).value)
  {
    if k.AckKind? {
      ParsedIdentifier(o[MessageId]);
      ParsedText(o[Reason]);
    } else {
      ParsedIdentifier(o[SessionId]);
      if k.CompletedKind? {
        ParsedIdentifier(o[ActionId]);
        ParsedText(o[ErrorField]);
      }
    }
  }

  lemma RequestIsCanonical(o: map<Field, Json>, k: Kind)
    requires (k.AudioKind? || k.RequestKind?) && DecodeKind(o, k).Parsed?
    ensures Canonical(DecodeKind(o, k).value)
  {
    ParsedIdentifier(o[SessionId]);
    if k.RequestKind? { ParsedIdentifier(o[RequestId]); }
  }

  lemma ScreenshotIsCanonical(o: map<Field, Json>)
    requires DecodeScreenshot(o).Parsed?
    ensures Canonical(DecodeScreenshot(o).value)
  {
    ParsedIdentifier(o[SessionId]);
    ParsedIdentifier(o[RequestId]);
    ParsedText(o[ErrorField]);
  }

  lemma EveryKindIsCanonical(o: map<Field, Json>, k: Kind)
    requires DecodeKind(o, k).Parsed?
    ensures Canonical(DecodeKind(o, k).value)
  {
    if k.HelloKind? {
      ParsedIdentifier(o[ClientInstanceId]);
    } else if k.OpenKind? {
      ParsedIdentifier(o[SessionId]);
    } else if k.AuthorizeKind? {
      AuthorizeIsCanonical(o);
    } else if k.NeutralizeKind? {
      NeutralizeIsCanonical(o);
    } else if k.DataKind? {
      DataIsCanonical(o);
    } else if k.ResponseKind? {
      ScreenshotIsCanonical(o);
    } else if k.AckKind? || k.CompletedKind? || k.HeartbeatKind? {
      ReplyIsCanonical(o, k);
    } else {
      RequestIsCanonical(o, k);
    }
  }

  /**
   Whatever the decoder accepts, however liberally it was written, is a trimmed message; encoded again, if it fits,
   it decodes to itself.
   */
  lemma DecodedMessageIsStable(size: Json -> nat, wire: Json)
    requires Decode(size, wire).Parsed?
    ensures Canonical(Decode(size, wire).value)
    ensures
      var m := Decode(size, wire).value;
      Encode(size, m).Parsed? ==> Decode(size, Encode(size, m).value) == Parsed(m)
  {
    var m := Decode(size, wire).value;
    EveryKindIsCanonical(wire.fields, KindNamed(wire.fields[TypeField].s).value);
    if Encode(size, m).Parsed? {
      DecodeEncode(size, m);
    }
  }
}
