/** Exactly which objects the decoder takes, and what each of them says. */
module StreamCodecGrammar {
  import opened Contracts
  import opened Trimming
  import opened StreamCodec
  import opened StreamCodecWire
  import Base64

  // ---- What one value says ----

  predicate SaysName(v: Json, name: string) {
    v.JString? && name == Strip(v.s) && GoodIdentifier(v.s)
  }

  predicate SaysText(v: Json, text: Option<string>) {
    if v.JNull? then text.None? else v.JString? && text == Some(Strip(v.s)) && 1 <= |Strip(v.s)| <= 1000
  }

  /** Only a JSON integer says a number, not a float and not a boolean. */
  predicate SaysNumber(v: Json, n: int, least: int) {
    v == JInt(n) && n >= least
  }

  predicate SaysResource(v: Json, r: Resource) {
    v == JString(if r.VoiceOutput? then "VOICE_OUTPUT" else "FULL_BODY_POSE")
  }

  predicate SaysBytes(v: Json, bytes: Bytes) {
    v.JString? && v.s != "" && Base64.Decode(v.s) == Some(bytes)
  }

  /** The rate and the channels are compared as numbers. */
  predicate IsNumber(v: Json, n: int) {
    v == JInt(n) || v == JFloat(n as real) || (n == 1 && v == JBool(true)) || (n == 0 && v == JBool(false))
  }

  lemma NamesAreSaid(v: Json, name: string)
    ensures Identifier(v) == Parsed(name) <==> SaysName(v, name)
  {
    if v.JString? { IdentifiersAreGood(v.s); }
  }

  lemma TextsAreSaid(v: Json, text: Option<string>)
    ensures OptionalText(v) == Parsed(text) <==> SaysText(v, text)
  {
  }

  lemma ResourcesAreSaid(v: Json, r: Resource)
    ensures ResourceOf(v) == Parsed(r) <==> SaysResource(v, r)
  {
  }

  predicate SaysState(v: Json, state: string) {
    v == JString(state) && state in {"completed", "cancelled", "failed"}
  }

  lemma StatesAreSaid(v: Json, state: string)
    ensures CompletionState(v) == Parsed(state) <==> SaysState(v, state)
  {
  }

  lemma SamplesAreSaid(v: Json, pcm: Bytes)
    ensures PcmOf(v) == Parsed(pcm) <==> SaysBytes(v, pcm) && GoodPcm(pcm)
  {
  }

  predicate SaysImage(v: Json, jpeg: Option<Bytes>) {
    if v.JNull? then jpeg.None? else jpeg.Some? && SaysBytes(v, jpeg.value) && GoodJpeg(jpeg.value)
  }

  lemma ImagesAreSaid(v: Json, jpeg: Option<Bytes>)
    ensures ImageOf(v) == Parsed(jpeg) <==> SaysImage(v, jpeg)
  {
    if DecodeBase64(v).Parsed? { MediaAreGood(DecodeBase64(v).value); }
  }

  // ---- What an object says ----

  /** The fields of a message besides its type and version; no other field is taken. */
  function FieldsOf(k: Kind): set<Field> {
    match k
    case HelloKind => {ClientInstanceId}
    case OpenKind => {SessionId}
    case AuthorizeKind => {MessageId, SessionId, ResourceField, LeaseToken, ActionId}
    case NeutralizeKind => {MessageId, SessionId, ResourceField, LeaseToken}
    case DataKind => {SessionId, ActionId, ResourceField, LeaseToken, Sequence, TtlMs, PayloadField}
    case AckKind => {MessageId, Accepted, Reason}
    case CompletedKind => {SessionId, ActionId, ResourceField, LeaseToken, StateField, ErrorField}
    case AudioKind => {SessionId, Sequence, CapturedNs, SampleRate, Channels, Encoding, PcmField}
    case RequestKind => {RequestId, SessionId}
    case ResponseKind => {RequestId, SessionId, JpegField, ErrorField}
    case HeartbeatKind => {SessionId, Sender, Sequence}
  }

  predicate SaysLease(o: map<Field, Json>, session: string, r: Resource, token: int, least: int)
    requires {SessionId, ResourceField, LeaseToken} <= o.Keys
  {
    SaysName(o[SessionId], session) && SaysResource(o[ResourceField], r) && SaysNumber(o[LeaseToken], token, least)
  }

  predicate SaysOutput(o: map<Field, Json>, m: Message)
    requires m.AuthorizeMessage? || m.OutputNeutralize? || m.OutputData? || m.OutputCompleted?
    requires FieldsOf(KindOf(m)) <= o.Keys
  {
    match m
    case AuthorizeMessage(id, session, lease) =>
      && SaysName(o[MessageId], id) && SaysLease(o, session, lease.resource, lease.token, 1)
      && lease.actionId.Some? && SaysName(o[ActionId], lease.actionId.value)
    case OutputNeutralize(id, session, r, token) => SaysName(o[MessageId], id) && SaysLease(o, session, r, token, 0)
    case OutputData(session, action, r, token, sequence, ttl, payload) =>
      && SaysLease(o, session, r, token, 1) && SaysName(o[ActionId], action)
      && SaysNumber(o[Sequence], sequence, 0) && SaysNumber(o[TtlMs], ttl, 1) && o[PayloadField] == JObject(payload)
    case OutputCompleted(session, action, r, token, state, error) =>
      && SaysLease(o, session, r, token, 1) && SaysName(o[ActionId], action)
      && SaysState(o[StateField], state) && SaysText(o[ErrorField], error) && (state == "failed" ==> error.Some?)
  }

  predicate Says(o: map<Field, Json>, m: Message)
    requires FieldsOf(KindOf(m)) <= o.Keys
  {
    match m
    case Hello(client) => SaysName(o[ClientInstanceId], client)
    case SessionOpen(session) => SaysName(o[SessionId], session)
    case Ack(id, accepted, reason) =>
      SaysName(o[MessageId], id) && o[Accepted] == JBool(accepted) && SaysText(o[Reason], reason)
    case AudioChunk(session, sequence, captured, pcm) =>
      && SaysName(o[SessionId], session) && SaysNumber(o[Sequence], sequence, 0)
      && SaysNumber(o[CapturedNs], captured, 0) && SaysBytes(o[PcmField], pcm) && GoodPcm(pcm)
      && IsNumber(o[SampleRate], 16000) && IsNumber(o[Channels], 1) && o[Encoding] == JString("pcm_s16le")
    case ScreenshotRequest(id, session) => SaysName(o[RequestId], id) && SaysName(o[SessionId], session)
    case ScreenshotResponse(id, session, jpeg, error) =>
      && SaysName(o[RequestId], id) && SaysName(o[SessionId], session) && SaysImage(o[JpegField], jpeg)
      && SaysText(o[ErrorField], error) && (jpeg.Some? <==> error.None?)
    case Heartbeat(session, sender, sequence) =>
      && SaysName(o[SessionId], session) && SaysNumber(o[Sequence], sequence, 0)
      && o[Sender] == JString(sender) && sender in {"mac", "windows"}
    case _ => SaysOutput(o, m)
  }

  // ---- Kind by kind ----

  /** The decoder of this kind reads exactly what the object says. */
  ghost predicate Reads(o: map<Field, Json>, k: Kind, m: Message) {
    KindOf(m) == k && (DecodeKind(o, k) == Parsed(m) <==> Exact(o, FieldsOf(k)) && Says(o, m))
  }

  lemma AuthorizeParts(o: map<Field, Json>)
    requires Exact(o, FieldsOf(AuthorizeKind))
    ensures
      var id, session, r := Identifier(o[MessageId]), Identifier(o[SessionId]), ResourceOf(o[ResourceField]);
      var token, action := AtLeast(o[LeaseToken], 1), Identifier(o[ActionId]);
      DecodeAuthorize(o) ==
      if id.Parsed? && session.Parsed? && r.Parsed? && token.Parsed? && action.Parsed?
      then Parsed(AuthorizeMessage(id.value, session.value, Lease(r.value, token.value, Some(action.value))))
      else ProtocolError
  {
  }

  lemma AuthorizeReads(o: map<Field, Json>, m: Message)
    requires m.AuthorizeMessage?
    ensures DecodeAuthorize(o) == Parsed(m) <==> Exact(o, FieldsOf(AuthorizeKind)) && SaysOutput(o, m)
  {
    if Exact(o, FieldsOf(AuthorizeKind)) {
      AuthorizeParts(o);
      NamesAreSaid(o[MessageId], m.messageId);
      NamesAreSaid(o[SessionId], m.sessionId);
      ResourcesAreSaid(o[ResourceField], m.lease.resource);
      if m.lease.actionId.Some? { NamesAreSaid(o[ActionId], m.lease.actionId.value); }
    }
  }

  lemma NeutralizeReads(o: map<Field, Json>, m: Message)
    requires m.OutputNeutralize?
    ensures DecodeNeutralize(o) == Parsed(m) <==> Exact(o, FieldsOf(NeutralizeKind)) && SaysOutput(o, m)
  {
    if Exact(o, FieldsOf(NeutralizeKind)) {
      NamesAreSaid(o[MessageId], m.messageId);
      NamesAreSaid(o[SessionId], m.sessionId);
      ResourcesAreSaid(o[ResourceField], m.resource);
    }
  }

  lemma DataParts(o: map<Field, Json>)
    requires Exact(o, FieldsOf(DataKind))
    ensures
      var session, action, r := Identifier(o[SessionId]), Identifier(o[ActionId]), ResourceOf(o[ResourceField]);
      var token, number, ttl := AtLeast(o[LeaseToken], 1), AtLeast(o[Sequence], 0), AtLeast(o[TtlMs], 1);
      DecodeData(o) ==
      if session.Parsed? && action.Parsed? && r.Parsed? && token.Parsed? && number.Parsed? && ttl.Parsed?
         && o[PayloadField].JObject?
      then Parsed(OutputData(session.value, action.value, r.value, token.value, number.value, ttl.value,
                             o[PayloadField].fields))
      else ProtocolError
  {
  }

  lemma DataReads(o: map<Field, Json>, m: Message)
    requires m.OutputData?
    ensures DecodeData(o) == Parsed(m) <==> Exact(o, FieldsOf(DataKind)) && SaysOutput(o, m)
  {
    if Exact(o, FieldsOf(DataKind)) {
      DataParts(o);
      NamesAreSaid(o[SessionId], m.sessionId);
      NamesAreSaid(o[ActionId], m.actionId);
      ResourcesAreSaid(o[ResourceField], m.resource);
    }
  }

  lemma CompletedParts(o: map<Field, Json>)
    requires Exact(o, FieldsOf(CompletedKind))
    ensures
      var state, text, session := CompletionState(o[StateField]), OptionalText(o[ErrorField]), Identifier(o[SessionId]);
      var action, r, token := Identifier(o[ActionId]), ResourceOf(o[ResourceField]), AtLeast(o[LeaseToken], 1);
      DecodeCompleted(o) ==
      if state.Parsed? && text.Parsed? && session.Parsed? && action.Parsed? && r.Parsed? && token.Parsed?
         && (state.value == "failed" ==> text.value.Some?)
      then Parsed(OutputCompleted(session.value, action.value, r.value, token.value, state.value, text.value))
      else ProtocolError
  {
  }

  lemma CompletedReads(o: map<Field, Json>, m: Message)
    requires m.OutputCompleted?
    ensures DecodeCompleted(o) == Parsed(m) <==> Exact(o, FieldsOf(CompletedKind)) && SaysOutput(o, m)
  {
    if Exact(o, FieldsOf(CompletedKind)) {
      CompletedParts(o);
      NamesAreSaid(o[SessionId], m.sessionId);
      NamesAreSaid(o[ActionId], m.actionId);
      ResourcesAreSaid(o[ResourceField], m.resource);
      StatesAreSaid(o[StateField], m.state);
      TextsAreSaid(o[ErrorField], m.error);
    }
  }

  lemma AckReads(o: map<Field, Json>, m: Message)
    requires m.Ack?
    ensures DecodeAck(o) == Parsed(m) <==> Exact(o, FieldsOf(AckKind)) && Says(o, m)
  {
    if Exact(o, FieldsOf(AckKind)) {
      NamesAreSaid(o[MessageId], m.messageId);
      TextsAreSaid(o[Reason], m.reason);
    }
  }

  lemma HeartbeatReads(o: map<Field, Json>, m: Message)
    requires m.Heartbeat?
    ensures DecodeHeartbeat(o) == Parsed(m) <==> Exact(o, FieldsOf(HeartbeatKind)) && Says(o, m)
  {
    if Exact(o, FieldsOf(HeartbeatKind)) { NamesAreSaid(o[SessionId], m.sessionId); }
  }

  lemma MediaRead(o: map<Field, Json>, k: Kind, m: Message)
    requires k.AudioKind? || k.RequestKind? || k.ResponseKind?
    requires KindOf(m) == k
    ensures Reads(o, k, m)
  {
    if Exact(o, FieldsOf(k)) {
      NamesAreSaid(o[SessionId], m.sessionId);
      match m
      case AudioChunk(_, _, _, pcm) => SamplesAreSaid(o[PcmField], pcm);
      case ScreenshotRequest(id, _) => NamesAreSaid(o[RequestId], id);
      case ScreenshotResponse(id, _, jpeg, error) =>
        NamesAreSaid(o[RequestId], id);
        ImagesAreSaid(o[JpegField], jpeg);
        TextsAreSaid(o[ErrorField], error);
    }
  }

  lemma CommandKindIsRead(o: map<Field, Json>, k: Kind)
    requires k.AuthorizeKind? || k.NeutralizeKind? || k.DataKind?
    requires DecodeKind(o, k).Parsed?
    ensures KindOf(DecodeKind(o, k).value) == k
  {
  }

  lemma ReplyKindIsRead(o: map<Field, Json>, k: Kind)
    requires k.AckKind? || k.CompletedKind? || k.HeartbeatKind?
    requires DecodeKind(o, k).Parsed?
    ensures KindOf(DecodeKind(o, k).value) == k
  {
  }

  lemma MediaKindIsRead(o: map<Field, Json>, k: Kind)
    requires k.AudioKind? || k.RequestKind? || k.ResponseKind?
    requires DecodeKind(o, k).Parsed?
    ensures KindOf(DecodeKind(o, k).value) == k
  {
  }

  lemma KindIsRead(o: map<Field, Json>, k: Kind)
    requires DecodeKind(o, k).Parsed?
    ensures KindOf(DecodeKind(o, k).value) == k
  {
    if k.AuthorizeKind? || k.NeutralizeKind? || k.DataKind? {
      CommandKindIsRead(o, k);
    } else if k.AckKind? || k.CompletedKind? || k.HeartbeatKind? {
      ReplyKindIsRead(o, k);
    } else if !k.HelloKind? && !k.OpenKind? {
      MediaKindIsRead(o, k);
    }
  }

  lemma EveryKindReads(o: map<Field, Json>, m: Message)
    ensures Reads(o, KindOf(m), m)
  {
    match m
    case Hello(client) => if Exact(o, FieldsOf(HelloKind)) { NamesAreSaid(o[ClientInstanceId], client); }
    case SessionOpen(session) => if Exact(o, FieldsOf(OpenKind)) { NamesAreSaid(o[SessionId], session); }
    case AuthorizeMessage(_, _, _) => AuthorizeReads(o, m);
    case OutputNeutralize(_, _, _, _) => NeutralizeReads(o, m);
    case OutputData(_, _, _, _, _, _, _) => DataReads(o, m);
    case Ack(_, _, _) => AckReads(o, m);
    case OutputCompleted(_, _, _, _, _, _) => CompletedReads(o, m);
    case Heartbeat(_, _, _) => HeartbeatReads(o, m);
    case _ => MediaRead(o, KindOf(m), m);
  }

  lemma NameIsTheKind(name: string, k: Kind)
    ensures KindNamed(name) == Some(k) <==> name == Name(k)
  {
  }

  /** An object of protocol version 2, with the type and the fields of this message and no others, that says it. */
  predicate IsMessage(wire: Json, m: Message) {
    && wire.JObject?
    && wire.fields.Keys == FieldsOf(KindOf(m)) + {TypeField, VersionField}
    && wire.fields[VersionField] == JInt(2)
    && wire.fields[TypeField] == JString(Name(KindOf(m)))
    && Says(wire.fields, m)
  }

  /** The decoder takes exactly the objects of the protocol, up to sixteen mebibytes, and reads what they say. */
  lemma DecodesIff(size: Json -> nat, wire: Json, m: Message)
    ensures Decode(size, wire) == Parsed(m) <==> size(wire) <= 16777216 && IsMessage(wire, m)
  {
    if wire.JObject? && TypeField in wire.fields && wire.fields[TypeField].JString? {
      var name := wire.fields[TypeField].s;
      NameIsTheKind(name, KindOf(m));
      EveryKindReads(wire.fields, m);
      if KindNamed(name).Some? && Decode(size, wire) == Parsed(m) { KindIsRead(wire.fields, KindNamed(name).value); }
    }
  }
}
