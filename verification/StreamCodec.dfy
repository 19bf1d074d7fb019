/**
 The bridge messages and their wire form, at the level of JSON objects. Field names are symbols; a field of
 another name is `Other`. The byte size of a serialized object is a parameter.
 */
module StreamCodec {
  import opened Contracts
  import opened Trimming
  import Base64

  type Bytes = seq<Base64.Byte>

  /** The names that have a symbol of their own. */
  const KNOWN_NAMES := {
    "type", "version", "client_instance_id", "session_id", "message_id", "request_id", "action_id",
    "resource", "lease_token", "sequence", "ttl_ms", "payload", "accepted", "reason", "state", "error",
    "captured_monotonic_ns", "sample_rate", "channels", "encoding", "pcm", "jpeg", "sender"}

  type OtherName = name: string | name !in KNOWN_NAMES witness ""

  datatype Field =
    | TypeField | VersionField | ClientInstanceId | SessionId | MessageId | RequestId | ActionId
    | ResourceField | LeaseToken | Sequence | TtlMs | PayloadField | Accepted | Reason | StateField | ErrorField
    | CapturedNs | SampleRate | Channels | Encoding | PcmField | JpegField | Sender
    | Other(name: OtherName)

  datatype Json =
    | JNull
    | JBool(b: bool)
    | JInt(i: int)
    | JFloat(r: real)
    | JString(s: string)
    | JArray(items: seq<Json>)
    | JObject(fields: map<Field, Json>)

  datatype Message =
    | Hello(clientInstanceId: string)
    | SessionOpen(sessionId: string)
    | AuthorizeMessage(messageId: string, sessionId: string, lease: Lease)
    | OutputNeutralize(messageId: string, sessionId: string, resource: Resource, leaseToken: int)
    | OutputData(sessionId: string, actionId: string, resource: Resource, leaseToken: int,
                 sequence: int, ttlMs: int, payload: map<Field, Json>)
    | Ack(messageId: string, accepted: bool, reason: Option<string>)
    | OutputCompleted(sessionId: string, actionId: string, resource: Resource, leaseToken: int,
                      state: string, error: Option<string>)
    | AudioChunk(sessionId: string, sequence: int, capturedNs: int, pcm: Bytes)
    | ScreenshotRequest(requestId: string, sessionId: string)
    | ScreenshotResponse(requestId: string, sessionId: string, jpeg: Option<Bytes>, error: Option<string>)
    | Heartbeat(sessionId: string, sender: string, sequence: int)

  const PROTOCOL_VERSION := 2

  const MAX_MESSAGE_BYTES := 16 * 1024 * 1024

  const MAX_AUDIO_CHUNK_BYTES := 128 * 1024

  const MAX_SCREENSHOT_BYTES := 8 * 1024 * 1024

  const PCM_ENCODING := JString("pcm_s16le")

  /** Every violation of the wire contract is one error. */
  datatype Parse<+T> = Parsed(value: T) | ProtocolError {
    predicate IsFailure() {
      ProtocolError?
    }

    function PropagateFailure<U>(): Parse<U>
      requires ProtocolError?
    {
      ProtocolError
    }

    function Extract(): T
      requires Parsed?
    {
      value
    }
  }

  function Require(ok: bool): Parse<bool> {
    if ok then Parsed(true) else ProtocolError
  }

  // ---- Field validators ----

  predicate Plain(s: string) {
    '\r' !in s && '\n' !in s && '\0' !in s
  }

  function Identifier(v: Json): Parse<string> {
    if !v.JString? || Strip(v.s) == "" || |Strip(v.s)| > 128 || !Plain(Strip(v.s)) then ProtocolError
    else Parsed(Strip(v.s))
  }

  function OptionalText(v: Json): Parse<Option<string>> {
    if v.JNull? then Parsed(None)
    else if !v.JString? || Strip(v.s) == "" || |Strip(v.s)| > 1000 then ProtocolError
    else Parsed(Some(Strip(v.s)))
  }

  /** A boolean is not an integer here, and neither is a float. */
  function AtLeast(v: Json, least: int): Parse<int> {
    if v.JInt? && v.i >= least then Parsed(v.i) else ProtocolError
  }

  function ResourceName(r: Resource): string {
    match r
    case VoiceOutput => "VOICE_OUTPUT"
    case FullBodyPose => "FULL_BODY_POSE"
  }

  function ResourceOf(v: Json): Parse<Resource> {
    if v == JString(ResourceName(VoiceOutput)) then Parsed(VoiceOutput)
    else if v == JString(ResourceName(FullBodyPose)) then Parsed(FullBodyPose)
    else ProtocolError
  }

  predicate IsCompletionState(s: string) {
    s == "completed" || s == "cancelled" || s == "failed"
  }

  function CompletionState(v: Json): Parse<string> {
    if v.JString? && IsCompletionState(v.s) then Parsed(v.s) else ProtocolError
  }

  function SenderOf(v: Json): Parse<string> {
    if v == JString("mac") || v == JString("windows") then Parsed(v.s) else ProtocolError
  }

  /** Equality with a whole number compares numbers, so a float of that value and `true` for 1 also pass. */
  predicate Equals(v: Json, n: int) {
    match v
    case JInt(i) => i == n
    case JFloat(r) => r == n as real
    case JBool(b) => n == if b then 1 else 0
    case _ => false
  }

  function AudioPcm(pcm: Bytes): Parse<Bytes> {
    if pcm == [] || |pcm| > MAX_AUDIO_CHUNK_BYTES || |pcm| % 2 != 0 then ProtocolError else Parsed(pcm)
  }

  function Jpeg(jpeg: Bytes): Parse<Bytes> {
    if jpeg == [] || |jpeg| > MAX_SCREENSHOT_BYTES then ProtocolError
    else if |jpeg| < 2 || jpeg[..2] != [0xff, 0xd8] || jpeg[|jpeg| - 2..] != [0xff, 0xd9] then ProtocolError
    else Parsed(jpeg)
  }

  function DecodeBase64(v: Json): Parse<Bytes> {
    if !v.JString? || v.s == "" || Base64.Decode(v.s).None? then ProtocolError else Parsed(Base64.Decode(v.s).value)
  }

  function PcmOf(v: Json): Parse<Bytes> {
    var bytes :- DecodeBase64(v);
    AudioPcm(bytes)
  }

  function ImageOf(v: Json): Parse<Option<Bytes>> {
    if v.JNull? then Parsed(None)
    else
      var bytes :- DecodeBase64(v);
      var image :- Jpeg(bytes);
      Parsed(Some(image))
  }

  function ImageJson(jpeg: Option<Bytes>): Json {
    match jpeg
    case None => JNull
    case Some(bytes) => JString(Base64.Encode(bytes))
  }

  function TextJson(t: Option<string>): Json {
    match t
    case None => JNull
    case Some(s) => JString(s)
  }

  // ---- Encoding ----

  datatype Kind =
    | HelloKind | OpenKind | AuthorizeKind | NeutralizeKind | DataKind | AckKind | CompletedKind
    | AudioKind | RequestKind | ResponseKind | HeartbeatKind

  function KindOf(m: Message): Kind {
    match m
    case Hello(_) => HelloKind
    case SessionOpen(_) => OpenKind
    case AuthorizeMessage(_, _, _) => AuthorizeKind
    case OutputNeutralize(_, _, _, _) => NeutralizeKind
    case OutputData(_, _, _, _, _, _, _) => DataKind
    case Ack(_, _, _) => AckKind
    case OutputCompleted(_, _, _, _, _, _) => CompletedKind
    case AudioChunk(_, _, _, _) => AudioKind
    case ScreenshotRequest(_, _) => RequestKind
    case ScreenshotResponse(_, _, _, _) => ResponseKind
    case Heartbeat(_, _, _) => HeartbeatKind
  }

  function Name(k: Kind): string {
    match k
    case HelloKind => "hello"
    case OpenKind => "session.open"
    case AuthorizeKind => "output.authorize"
    case NeutralizeKind => "output.neutralize"
    case DataKind => "output.data"
    case AckKind => "ack"
    case CompletedKind => "output.completed"
    case AudioKind => "audio.chunk"
    case RequestKind => "screenshot.request"
    case ResponseKind => "screenshot.response"
    case HeartbeatKind => "heartbeat"
  }

  function EncodeCommand(m: Message): Parse<map<Field, Json>>
    requires m.AuthorizeMessage? || m.OutputNeutralize? || m.OutputData?
  {
    match m
    case AuthorizeMessage(messageId, sessionId, lease) =>
      var token :- AtLeast(JInt(lease.token), 1);
      var action :- Identifier(TextJson(lease.actionId));
      var message :- Identifier(JString(messageId));
      var session :- Identifier(JString(sessionId));
      Parsed(map[MessageId := JString(message), SessionId := JString(session),
                 ResourceField := JString(ResourceName(lease.resource)),
                 LeaseToken := JInt(token), ActionId := JString(action)])
    case OutputNeutralize(messageId, sessionId, resource, leaseToken) =>
      var token :- AtLeast(JInt(leaseToken), 0);
      var message :- Identifier(JString(messageId));
      var session :- Identifier(JString(sessionId));
      Parsed(map[MessageId := JString(message), SessionId := JString(session),
                 ResourceField := JString(ResourceName(resource)), LeaseToken := JInt(token)])
    case OutputData(sessionId, actionId, resource, leaseToken, sequence, ttlMs, payload) =>
      var token :- AtLeast(JInt(leaseToken), 1);
      var number :- AtLeast(JInt(sequence), 0);
      var ttl :- AtLeast(JInt(ttlMs), 1);
      var session :- Identifier(JString(sessionId));
      var action :- Identifier(JString(actionId));
      Parsed(map[SessionId := JString(session), ActionId := JString(action),
                 ResourceField := JString(ResourceName(resource)), LeaseToken := JInt(token),
                 Sequence := JInt(number), TtlMs := JInt(ttl), PayloadField := JObject(payload)])
  }

  function EncodeReply(m: Message): Parse<map<Field, Json>>
    requires m.Ack? || m.OutputCompleted? || m.Heartbeat?
  {
    match m
    case Ack(messageId, accepted, reason) =>
      var message :- Identifier(JString(messageId));
      var text :- OptionalText(TextJson(reason));
      Parsed(map[MessageId := JString(message), Accepted := JBool(accepted), Reason := TextJson(text)])
    case OutputCompleted(sessionId, actionId, resource, leaseToken, state, error) =>
      var outcome :- CompletionState(JString(state));
      var text :- OptionalText(TextJson(error));
      var _ :- Require(outcome == "failed" ==> text.Some?);
      var token :- AtLeast(JInt(leaseToken), 1);
      var session :- Identifier(JString(sessionId));
      var action :- Identifier(JString(actionId));
      Parsed(map[SessionId := JString(session), ActionId := JString(action),
                 ResourceField := JString(ResourceName(resource)), LeaseToken := JInt(token),
                 StateField := JString(outcome), ErrorField := TextJson(text)])
    case Heartbeat(sessionId, sender, sequence) =>
      var from :- SenderOf(JString(sender));
      var session :- Identifier(JString(sessionId));
      var number :- AtLeast(JInt(sequence), 0);
      Parsed(map[SessionId := JString(session), Sender := JString(from), Sequence := JInt(number)])
  }

  function EncodeMedia(m: Message): Parse<map<Field, Json>>
    requires m.AudioChunk? || m.ScreenshotRequest? || m.ScreenshotResponse?
  {
    match m
    case AudioChunk(sessionId, sequence, capturedNs, pcm) =>
      var samples :- AudioPcm(pcm);
      var session :- Identifier(JString(sessionId));
      var number :- AtLeast(JInt(sequence), 0);
      var captured :- AtLeast(JInt(capturedNs), 0);
      Parsed(map[SessionId := JString(session), Sequence := JInt(number), CapturedNs := JInt(captured),
                 SampleRate := JInt(16000), Channels := JInt(1), Encoding := PCM_ENCODING,
                 PcmField := JString(Base64.Encode(samples))])
    case ScreenshotRequest(requestId, sessionId) =>
      var request :- Identifier(JString(requestId));
      var session :- Identifier(JString(sessionId));
      Parsed(map[RequestId := JString(request), SessionId := JString(session)])
    case ScreenshotResponse(requestId, sessionId, jpeg, error) =>
      var text :- OptionalText(TextJson(error));
      var _ :- Require(jpeg.None? != text.None?);
      var _ :- Require(jpeg.Some? ==> Jpeg(jpeg.value).Parsed?);
      var request :- Identifier(JString(requestId));
      var session :- Identifier(JString(sessionId));
      Parsed(map[RequestId := JString(request), SessionId := JString(session),
                 JpegField := ImageJson(jpeg),
                 ErrorField := TextJson(text)])
  }

  /** The fields that belong to a message besides its type and version. */
  function EncodeFields(m: Message): Parse<map<Field, Json>> {
    match m
    case Hello(clientInstanceId) =>
      var client :- Identifier(JString(clientInstanceId));
      Parsed(map[ClientInstanceId := JString(client)])
    case SessionOpen(sessionId) =>
      var session :- Identifier(JString(sessionId));
      Parsed(map[SessionId := JString(session)])
    case AuthorizeMessage(_, _, _) => EncodeCommand(m)
    case OutputNeutralize(_, _, _, _) => EncodeCommand(m)
    case OutputData(_, _, _, _, _, _, _) => EncodeCommand(m)
    case Ack(_, _, _) => EncodeReply(m)
    case OutputCompleted(_, _, _, _, _, _) => EncodeReply(m)
    case Heartbeat(_, _, _) => EncodeReply(m)
    case AudioChunk(_, _, _, _) => EncodeMedia(m)
    case ScreenshotRequest(_, _) => EncodeMedia(m)
    case ScreenshotResponse(_, _, _, _) => EncodeMedia(m)
  }

  function Wire(name: string, fields: map<Field, Json>): Json {
    JObject(fields[TypeField := JString(name)][VersionField := JInt(PROTOCOL_VERSION)])
  }

  function Encode(size: Json -> nat, m: Message): Parse<Json> {
    var fields :- EncodeFields(m);
    if size(Wire(Name(KindOf(m)), fields)) > MAX_MESSAGE_BYTES then ProtocolError
    else Parsed(Wire(Name(KindOf(m)), fields))
  }

  // ---- Decoding ----

  /** Exactly these fields, besides type and version. */
  predicate Exact(o: map<Field, Json>, fields: set<Field>) {
    o.Keys == fields + {TypeField, VersionField}
  }

  function DecodeAuthorize(o: map<Field, Json>): Parse<Message> {
    if !Exact(o, {MessageId, SessionId, ResourceField, LeaseToken, ActionId}) then ProtocolError
    else
      var message :- Identifier(o[MessageId]);
      var session :- Identifier(o[SessionId]);
      var resource :- ResourceOf(o[ResourceField]);
      var token :- AtLeast(o[LeaseToken], 1);
      var action :- Identifier(o[ActionId]);
      Parsed(AuthorizeMessage(message, session, Lease(resource, token, Some(action))))
  }

  function DecodeNeutralize(o: map<Field, Json>): Parse<Message> {
    if !Exact(o, {MessageId, SessionId, ResourceField, LeaseToken}) then ProtocolError
    else
      var message :- Identifier(o[MessageId]);
      var session :- Identifier(o[SessionId]);
      var resource :- ResourceOf(o[ResourceField]);
      var token :- AtLeast(o[LeaseToken], 0);
      Parsed(OutputNeutralize(message, session, resource, token))
  }

  function DecodeData(o: map<Field, Json>): Parse<Message> {
    if !Exact(o, {SessionId, ActionId, ResourceField, LeaseToken, Sequence, TtlMs, PayloadField}) then ProtocolError
    else
      var session :- Identifier(o[SessionId]);
      var action :- Identifier(o[ActionId]);
      var resource :- ResourceOf(o[ResourceField]);
      var token :- AtLeast(o[LeaseToken], 1);
      var number :- AtLeast(o[Sequence], 0);
      var ttl :- AtLeast(o[TtlMs], 1);
      if !o[PayloadField].JObject? then ProtocolError
      else Parsed(OutputData(session, action, resource, token, number, ttl, o[PayloadField].fields))
  }

  function DecodeAck(o: map<Field, Json>): Parse<Message> {
    if !Exact(o, {MessageId, Accepted, Reason}) || !o[Accepted].JBool? then ProtocolError
    else
      var message :- Identifier(o[MessageId]);
      var text :- OptionalText(o[Reason]);
      Parsed(Ack(message, o[Accepted].b, text))
  }

  function DecodeCompleted(o: map<Field, Json>): Parse<Message> {
    if !Exact(o, {SessionId, ActionId, ResourceField, LeaseToken, StateField, ErrorField}) then ProtocolError
    else
      var outcome :- CompletionState(o[StateField]);
      var text :- OptionalText(o[ErrorField]);
      var _ :- Require(outcome == "failed" ==> text.Some?);
      var session :- Identifier(o[SessionId]);
      var action :- Identifier(o[ActionId]);
      var resource :- ResourceOf(o[ResourceField]);
      var token :- AtLeast(o[LeaseToken], 1);
      Parsed(OutputCompleted(session, action, resource, token, outcome, text))
  }

  function DecodeAudio(o: map<Field, Json>): Parse<Message> {
    if !Exact(o, {SessionId, Sequence, CapturedNs, SampleRate, Channels, Encoding, PcmField}) then ProtocolError
    else if !Equals(o[SampleRate], 16000) || !Equals(o[Channels], 1) || o[Encoding] != PCM_ENCODING then ProtocolError
    else
      var session :- Identifier(o[SessionId]);
      var number :- AtLeast(o[Sequence], 0);
      var captured :- AtLeast(o[CapturedNs], 0);
      var samples :- PcmOf(o[PcmField]);
      Parsed(AudioChunk(session, number, captured, samples))
  }

  function DecodeScreenshot(o: map<Field, Json>): Parse<Message> {
    if !Exact(o, {RequestId, SessionId, JpegField, ErrorField}) then ProtocolError
    else
      var text :- OptionalText(o[ErrorField]);
      var _ :- Require(o[JpegField].JNull? != text.None?);
      var jpeg :- ImageOf(o[JpegField]);
      var request :- Identifier(o[RequestId]);
      var session :- Identifier(o[SessionId]);
      Parsed(ScreenshotResponse(request, session, jpeg, text))
  }

  function DecodeHeartbeat(o: map<Field, Json>): Parse<Message> {
    if !Exact(o, {SessionId, Sender, Sequence}) then ProtocolError
    else
      var from :- SenderOf(o[Sender]);
      var session :- Identifier(o[SessionId]);
      var number :- AtLeast(o[Sequence], 0);
      Parsed(Heartbeat(session, from, number))
  }

  function DecodeHello(o: map<Field, Json>): Parse<Message> {
    if !Exact(o, {ClientInstanceId}) then ProtocolError
    else
      var client :- Identifier(o[ClientInstanceId]);
      Parsed(Hello(client))
  }

  function DecodeOpen(o: map<Field, Json>): Parse<Message> {
    if !Exact(o, {SessionId}) then ProtocolError
    else
      var session :- Identifier(o[SessionId]);
      Parsed(SessionOpen(session))
  }

  function DecodeRequest(o: map<Field, Json>): Parse<Message> {
    if !Exact(o, {RequestId, SessionId}) then ProtocolError
    else
      var request :- Identifier(o[RequestId]);
      var session :- Identifier(o[SessionId]);
      Parsed(ScreenshotRequest(request, session))
  }

  function KindNamed(name: string): Option<Kind> {
    if name == Name(HelloKind) then Some(HelloKind)
    else if name == Name(OpenKind) then Some(OpenKind)
    else if name == Name(AuthorizeKind) then Some(AuthorizeKind)
    else if name == Name(NeutralizeKind) then Some(NeutralizeKind)
    else if name == Name(DataKind) then Some(DataKind)
    else if name == Name(AckKind) then Some(AckKind)
    else if name == Name(CompletedKind) then Some(CompletedKind)
    else if name == Name(AudioKind) then Some(AudioKind)
    else if name == Name(RequestKind) then Some(RequestKind)
    else if name == Name(ResponseKind) then Some(ResponseKind)
    else if name == Name(HeartbeatKind) then Some(HeartbeatKind)
    else None
  }

  function DecodeKind(o: map<Field, Json>, k: Kind): Parse<Message> {
    match k
    case HelloKind => DecodeHello(o)
    case OpenKind => DecodeOpen(o)
    case AuthorizeKind => DecodeAuthorize(o)
    case NeutralizeKind => DecodeNeutralize(o)
    case DataKind => DecodeData(o)
    case AckKind => DecodeAck(o)
    case CompletedKind => DecodeCompleted(o)
    case AudioKind => DecodeAudio(o)
    case RequestKind => DecodeRequest(o)
    case ResponseKind => DecodeScreenshot(o)
    case HeartbeatKind => DecodeHeartbeat(o)
  }

  function Decode(size: Json -> nat, wire: Json): Parse<Message> {
    if size(wire) > MAX_MESSAGE_BYTES || !wire.JObject? then ProtocolError
    else
      var o := wire.fields;
      if VersionField !in o || o[VersionField] != JInt(PROTOCOL_VERSION) then ProtocolError
      else if TypeField !in o || !o[TypeField].JString? then ProtocolError
      else if KindNamed(o[TypeField].s).None? then ProtocolError
      else DecodeKind(o, KindNamed(o[TypeField].s).value)
  }
}
