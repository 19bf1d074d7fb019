/** The names on the wire, and exactly which messages the encoder takes. */
module StreamCodecWire {
  import opened Contracts
  import opened Trimming
  import opened StreamCodec
  import Base64

  /** The eleven types of message, the resources and the states of a completion, by their names. */
  lemma NamesOnTheWire()
    ensures [Name(HelloKind), Name(OpenKind), Name(AuthorizeKind), Name(NeutralizeKind), Name(DataKind), Name(AckKind)]
            == ["hello", "session.open", "output.authorize", "output.neutralize", "output.data", "ack"]
    ensures [Name(CompletedKind), Name(AudioKind), Name(RequestKind), Name(ResponseKind), Name(HeartbeatKind)]
            == ["output.completed", "audio.chunk", "screenshot.request", "screenshot.response", "heartbeat"]
    ensures ResourceName(VoiceOutput) == "VOICE_OUTPUT" && ResourceName(FullBodyPose) == "FULL_BODY_POSE"
  {
  }

  // ---- What is taken ----

  /** Identifiers have 1 to 128 characters once trimmed, and no line break or NUL among them. */
  predicate GoodIdentifier(s: string) {
    1 <= |Strip(s)| <= 128 && forall c :: c in Strip(s) ==> c != '\r' && c != '\n' && c != '\0'
  }

  /** Texts are absent, or have 1 to 1000 characters once trimmed. */
  predicate GoodText(t: Option<string>) {
    t.None? || 1 <= |Strip(t.value)| <= 1000
  }

  predicate GoodPcm(pcm: Bytes) {
    0 < |pcm| <= 131072 && |pcm| % 2 == 0
  }

  /** A JPEG begins and ends with its markers and has at most eight mebibytes. */
  predicate GoodJpeg(jpeg: Bytes) {
    2 <= |jpeg| <= 8388608
    && jpeg[0] == 255 && jpeg[1] == 216 && jpeg[|jpeg| - 2] == 255 && jpeg[|jpeg| - 1] == 217
  }

  predicate GoodOutput(m: Message)
    requires m.AuthorizeMessage? || m.OutputNeutralize? || m.OutputData? || m.OutputCompleted?
  {
    match m
    case AuthorizeMessage(id, session, lease) =>
      GoodIdentifier(id) && GoodIdentifier(session) && lease.token >= 1
      && lease.actionId.Some? && GoodIdentifier(lease.actionId.value)
    case OutputNeutralize(id, session, _, token) => GoodIdentifier(id) && GoodIdentifier(session) && token >= 0
    case OutputData(session, action, _, token, sequence, ttl, _) =>
      GoodIdentifier(session) && GoodIdentifier(action) && token >= 1 && sequence >= 0 && ttl >= 1
    case OutputCompleted(session, action, _, token, state, error) =>
      GoodIdentifier(session) && GoodIdentifier(action) && token >= 1 && GoodText(error)
      && state in {"completed", "cancelled", "failed"} && (state == "failed" ==> error.Some?)
  }

  predicate Good(m: Message) {
    match m
    case Hello(client) => GoodIdentifier(client)
    case SessionOpen(session) => GoodIdentifier(session)
    case Ack(id, _, reason) => GoodIdentifier(id) && GoodText(reason)
    case AudioChunk(session, sequence, captured, pcm) =>
      GoodIdentifier(session) && sequence >= 0 && captured >= 0 && GoodPcm(pcm)
    case ScreenshotRequest(id, session) => GoodIdentifier(id) && GoodIdentifier(session)
    case ScreenshotResponse(id, session, jpeg, error) =>
      && GoodIdentifier(id) && GoodIdentifier(session) && GoodText(error)
      && (jpeg.Some? <==> error.None?) && (jpeg.Some? ==> GoodJpeg(jpeg.value))
    case Heartbeat(session, sender, sequence) =>
      GoodIdentifier(session) && sender in {"mac", "windows"} && sequence >= 0
    case _ => GoodOutput(m)
  }

  lemma IdentifiersAreGood(s: string)
    ensures Identifier(JString(s)).Parsed? <==> GoodIdentifier(s)
  {
  }

  lemma TextsAreGood(t: Option<string>)
    ensures OptionalText(TextJson(t)).Parsed? <==> GoodText(t)
  {
  }

  lemma MediaAreGood(bytes: Bytes)
    ensures AudioPcm(bytes).Parsed? <==> GoodPcm(bytes)
    ensures Jpeg(bytes).Parsed? <==> GoodJpeg(bytes)
  {
    if |bytes| >= 2 {
      assert bytes[..2] == [bytes[0], bytes[1]] && bytes[|bytes| - 2..] == [bytes[|bytes| - 2], bytes[|bytes| - 1]];
    }
  }

  lemma CommandIsTakenIff(m: Message)
    requires m.AuthorizeMessage? || m.OutputNeutralize? || m.OutputData?
    ensures EncodeCommand(m).Parsed? <==> GoodOutput(m)
  {
    match m
    case AuthorizeMessage(id, session, lease) =>
      IdentifiersAreGood(id);
      IdentifiersAreGood(session);
      if lease.actionId.Some? { IdentifiersAreGood(lease.actionId.value); }
    case OutputNeutralize(id, session, _, _) =>
      IdentifiersAreGood(id);
      IdentifiersAreGood(session);
    case OutputData(session, action, _, _, _, _, _) =>
      IdentifiersAreGood(session);
      IdentifiersAreGood(action);
  }

  lemma ReplyIsTakenIff(m: Message)
    requires m.Ack? || m.OutputCompleted? || m.Heartbeat?
    ensures EncodeReply(m).Parsed? <==> Good(m)
  {
    match m
    case Ack(id, _, reason) =>
      IdentifiersAreGood(id);
      TextsAreGood(reason);
    case OutputCompleted(session, action, _, _, _, error) =>
      IdentifiersAreGood(session);
      IdentifiersAreGood(action);
      TextsAreGood(error);
    case Heartbeat(session, _, _) => IdentifiersAreGood(session);
  }

  lemma MediaIsTakenIff(m: Message)
    requires m.AudioChunk? || m.ScreenshotRequest? || m.ScreenshotResponse?
    ensures EncodeMedia(m).Parsed? <==> Good(m)
  {
    match m
    case AudioChunk(session, _, _, pcm) =>
      IdentifiersAreGood(session);
      MediaAreGood(pcm);
    case ScreenshotRequest(id, session) =>
      IdentifiersAreGood(id);
      IdentifiersAreGood(session);
    case ScreenshotResponse(id, session, jpeg, error) =>
      IdentifiersAreGood(id);
      IdentifiersAreGood(session);
      TextsAreGood(error);
      if jpeg.Some? { MediaAreGood(jpeg.value); }
  }

  lemma FieldsAreTakenIff(m: Message)
    ensures EncodeFields(m).Parsed? <==> Good(m)
  {
    match m
    case Hello(client) => IdentifiersAreGood(client);
    case SessionOpen(session) => IdentifiersAreGood(session);
    case AuthorizeMessage(_, _, _) => CommandIsTakenIff(m);
    case OutputNeutralize(_, _, _, _) => CommandIsTakenIff(m);
    case OutputData(_, _, _, _, _, _, _) => CommandIsTakenIff(m);
    case Ack(_, _, _) => ReplyIsTakenIff(m);
    case OutputCompleted(_, _, _, _, _, _) => ReplyIsTakenIff(m);
    case Heartbeat(_, _, _) => ReplyIsTakenIff(m);
    case _ => MediaIsTakenIff(m);
  }

  /** The object a message becomes. */
  function ObjectOf(m: Message): Json {
    var fields := EncodeFields(m);
    if fields.Parsed? then Wire(Name(KindOf(m)), fields.value) else JNull
  }

  /**
   The encoder takes a message exactly when every field is well formed, each limit written out, and the whole object
   has at most sixteen mebibytes; the object names its type and protocol version 2.
   */
  lemma EncodesIff(size: Json -> nat, m: Message)
    ensures Encode(size, m).Parsed? <==> Good(m) && size(ObjectOf(m)) <= 16777216
    ensures Encode(size, m).Parsed? ==>
      && Encode(size, m).value == ObjectOf(m) && ObjectOf(m).JObject?
      && VersionField in ObjectOf(m).fields && ObjectOf(m).fields[VersionField] == JInt(2)
  {
    FieldsAreTakenIff(m);
    SizeDecides(size, KindOf(m), EncodeFields(m), m);
  }

  lemma SizeDecides(size: Json -> nat, k: Kind, fields: Parse<map<Field, Json>>, m: Message)
    requires fields == EncodeFields(m) && k == KindOf(m)
    ensures Encode(size, m) ==
            if fields.Parsed? && size(Wire(Name(k), fields.value)) <= MAX_MESSAGE_BYTES
            then Parsed(Wire(Name(k), fields.value)) else ProtocolError
  {
  }

  // ---- What is written where ----

  function Text(s: string): Json {
    JString(Strip(s))
  }

  function MaybeText(t: Option<string>): Json {
    match t
    case None => JNull
    case Some(s) => Text(s)
  }

  /** Every value goes under its own name, trimmed, in the units of the message. */
  function Written(m: Message): map<Field, Json> {
    match m
    case Hello(client) => map[ClientInstanceId := Text(client)]
    case SessionOpen(session) => map[SessionId := Text(session)]
    case AuthorizeMessage(id, session, lease) =>
      map[MessageId := Text(id), SessionId := Text(session), ResourceField := JString(ResourceName(lease.resource)),
          LeaseToken := JInt(lease.token), ActionId := MaybeText(lease.actionId)]
    case OutputNeutralize(id, session, resource, token) =>
      map[MessageId := Text(id), SessionId := Text(session), ResourceField := JString(ResourceName(resource)),
          LeaseToken := JInt(token)]
    case OutputData(session, action, resource, token, sequence, ttl, payload) =>
      map[SessionId := Text(session), ActionId := Text(action), ResourceField := JString(ResourceName(resource)),
          LeaseToken := JInt(token), Sequence := JInt(sequence), TtlMs := JInt(ttl), PayloadField := JObject(payload)]
    case Ack(id, accepted, reason) =>
      map[MessageId := Text(id), Accepted := JBool(accepted), Reason := MaybeText(reason)]
    case OutputCompleted(session, action, resource, token, state, error) =>
      map[SessionId := Text(session), ActionId := Text(action), ResourceField := JString(ResourceName(resource)),
          LeaseToken := JInt(token), StateField := JString(state), ErrorField := MaybeText(error)]
    case AudioChunk(session, sequence, captured, pcm) =>
      map[SessionId := Text(session), Sequence := JInt(sequence), CapturedNs := JInt(captured),
          SampleRate := JInt(16000), Channels := JInt(1), Encoding := JString("pcm_s16le"),
          PcmField := JString(Base64.Encode(pcm))]
    case ScreenshotRequest(id, session) => map[RequestId := Text(id), SessionId := Text(session)]
    case ScreenshotResponse(id, session, jpeg, error) =>
      map[RequestId := Text(id), SessionId := Text(session),
          JpegField := if jpeg.Some? then JString(Base64.Encode(jpeg.value)) else JNull, ErrorField := MaybeText(error)]
    case Heartbeat(session, sender, sequence) =>
      map[SessionId := Text(session), Sender := JString(sender), Sequence := JInt(sequence)]
  }

  lemma CommandIsWritten(m: Message)
    requires (m.AuthorizeMessage? || m.OutputNeutralize? || m.OutputData?) && EncodeCommand(m).Parsed?
    ensures EncodeCommand(m).value == Written(m)
  {
  }

  lemma ReplyIsWritten(m: Message)
    requires (m.Ack? || m.OutputCompleted? || m.Heartbeat?) && EncodeReply(m).Parsed?
    ensures EncodeReply(m).value == Written(m)
  {
  }

  lemma MediaIsWritten(m: Message)
    requires (m.AudioChunk? || m.ScreenshotRequest? || m.ScreenshotResponse?) && EncodeMedia(m).Parsed?
    ensures EncodeMedia(m).value == Written(m)
  {
  }

  /** Whatever the encoder takes, each value stands in the field of its own name. */
  lemma FieldsOnTheWire(m: Message)
    requires EncodeFields(m).Parsed?
    ensures EncodeFields(m).value == Written(m)
  {
    match m
    case AuthorizeMessage(_, _, _) => CommandIsWritten(m);
    case OutputNeutralize(_, _, _, _) => CommandIsWritten(m);
    case OutputData(_, _, _, _, _, _, _) => CommandIsWritten(m);
    case Ack(_, _, _) => ReplyIsWritten(m);
    case OutputCompleted(_, _, _, _, _, _) => ReplyIsWritten(m);
    case Heartbeat(_, _, _) => ReplyIsWritten(m);
    case Hello(_) =>
    case SessionOpen(_) =>
    case _ => MediaIsWritten(m);
  }
}
