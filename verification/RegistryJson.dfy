/** The persisted form of a camera record (tools/camera-server.ts): `persistDevice`
    and the validators that `loadState` runs on what it reads back. JSON texts are
    taken as the values they denote. */
module RegistryJson {
  import opened Basics

  /** The property names the hub looks at, and any other. */
  datatype Key =
    | KType | KProtocol | KDeviceId | KName | KModel | KFirmware | KCapabilities
    | KCamera | KFormat | KWidth | KHeight | KFps
    | KHello | KConnectedAt | KDisconnectedAt | KLastSeenAt | KFrameCount | KLastFrameAt | KLastFrameBytes
    | KCommands | KCommandId | KCommand | KSource | KStatus | KSentAt | KAcknowledgedAt
    | KResult | KError | KMessage | KVersion | KDevices
    | KOther(name: string)

  datatype Json =
    | JNull
    | JBool(flag: bool)
    | JInt(number: int)
    | JFraction(text: string)
    | JString(text: string)
    | JArray(items: seq<Json>)
    | JObject(fields: map<Key, Json>)

  datatype CommandName = StreamSet | Identify | Speak | Move

  datatype Source = ViewerSource | ApiSource

  datatype Status = PendingAck | Acked | Refused

  datatype Command = Command(
    commandId: string, name: CommandName, source: Source, status: Status,
    sentAt: string, acknowledgedAt: Option<string>, result: Option<Json>, error: Option<Json>)

  datatype Device = Device(
    deviceId: string, hello: Json, connectedAt: Option<string>, disconnectedAt: Option<string>,
    lastSeenAt: string, frameCount: int, lastFrameAt: Option<string>, lastFrameBytes: int,
    commands: seq<Command>)

  /** Which texts `Date.parse` understands. */
  type Dates = string -> bool

  // ---------------------------------------------------------------- validators

  function Field(json: Json, name: Key): Option<Json> {
    if json.JObject? && name in json.fields then Some(json.fields[name]) else None
  }

  function Text(json: Option<Json>): Option<string> {
    if json.Some? && json.value.JString? then Some(json.value.text) else None
  }

  predicate ShortText(json: Option<Json>, limit: nat) {
    Text(json).Some? && |Text(json).value| <= limit
  }

  predicate PositiveInteger(json: Option<Json>) {
    json.Some? && json.value.JInt? && json.value.number > 0
  }

  predicate IdChar(c: char) {
    'a' <= c <= 'z' || '0' <= c <= '9'
  }

  predicate ValidId(id: string) {
    && 3 <= |id| <= 64 && IdChar(id[0])
    && forall i | 1 <= i < |id| :: IdChar(id[i]) || id[i] == '-'
  }

  /** `parseDeviceHello`; a valid hello is kept as it came. */
  predicate ValidHello(hello: Json) {
    && hello.JObject?
    && Field(hello, KType) == Some(JString("device.hello"))
    && Field(hello, KProtocol) == Some(JInt(1))
    && Text(Field(hello, KDeviceId)).Some? && ValidId(Text(Field(hello, KDeviceId)).value)
    && ShortText(Field(hello, KName), 64) && ShortText(Field(hello, KModel), 64)
    && ShortText(Field(hello, KFirmware), 32)
    && Field(hello, KCapabilities).Some? && ValidCapabilities(Field(hello, KCapabilities).value)
    && Field(hello, KCamera).Some? && ValidCamera(Field(hello, KCamera).value)
  }

  predicate ValidCapabilities(json: Json) {
    json.JArray? && forall i | 0 <= i < |json.items| :: json.items[i].JString? && |json.items[i].text| <= 32
  }

  predicate ValidCamera(json: Json) {
    && json.JObject? && Field(json, KFormat) == Some(JString("jpeg"))
    && PositiveInteger(Field(json, KWidth)) && PositiveInteger(Field(json, KHeight))
    && PositiveInteger(Field(json, KFps)) && Field(json, KFps).value.number <= 30
  }

  predicate ValidTimestamp(json: Option<Json>, dates: Dates) {
    Text(json).Some? && dates(Text(json).value)
  }

  predicate NullableTimestamp(json: Option<Json>, dates: Dates) {
    json == Some(JNull) || ValidTimestamp(json, dates)
  }

  predicate NonNegativeInteger(json: Option<Json>) {
    json.Some? && json.value.JInt? && json.value.number >= 0
  }

  // --------------------------------------------------------------- persistence

  function NullableText(text: Option<string>): Json {
    if text.Some? then JString(text.value) else JNull
  }

  function SourceText(source: Source): string {
    if source.ViewerSource? then "viewer" else "api"
  }

  function NameText(name: CommandName): string {
    match name
    case StreamSet => "stream.set"
    case Identify => "device.identify"
    case Speak => "tts.speak"
    case Move => "panTilt.move"
  }

  function StatusText(status: Status): string {
    match status
    case PendingAck => "pending"
    case Acked => "ok"
    case Refused => "error"
  }

  /** An undefined property does not reach the text. */
  function Optional(name: Key, json: Option<Json>): map<Key, Json> {
    if json.Some? then map[name := json.value] else map[]
  }

  function CommandJson(c: Command): Json {
    JObject(map[
      KCommandId := JString(c.commandId), KCommand := JString(NameText(c.name)),
      KSource := JString(SourceText(c.source)), KStatus := JString(StatusText(c.status)),
      KSentAt := JString(c.sentAt), KAcknowledgedAt := NullableText(c.acknowledgedAt)]
      + Optional(KResult, c.result) + Optional(KError, c.error))
  }

  function CommandsJson(commands: seq<Command>): seq<Json> {
    if commands == [] then []
    else CommandsJson(commands[..|commands| - 1]) + [CommandJson(commands[|commands| - 1])]
  }

  /** `persistDevice`. */
  function DeviceJson(d: Device): Json {
    JObject(map[
      KDeviceId := JString(d.deviceId), KHello := d.hello,
      KConnectedAt := NullableText(d.connectedAt), KDisconnectedAt := NullableText(d.disconnectedAt),
      KLastSeenAt := JString(d.lastSeenAt), KFrameCount := JInt(d.frameCount),
      KLastFrameAt := NullableText(d.lastFrameAt), KLastFrameBytes := JInt(d.lastFrameBytes),
      KCommands := JArray(CommandsJson(d.commands))])
  }

  function ParseSource(json: Option<Json>): Option<Source> {
    if json == Some(JString("viewer")) then Some(ViewerSource)
    else if json == Some(JString("api")) then Some(ApiSource)
    else None
  }

  function ParseName(json: Option<Json>): Option<CommandName> {
    if json == Some(JString("stream.set")) then Some(StreamSet)
    else if json == Some(JString("device.identify")) then Some(Identify)
    else if json == Some(JString("tts.speak")) then Some(Speak)
    else if json == Some(JString("panTilt.move")) then Some(Move)
    else None
  }

  function ParseStatus(json: Option<Json>): Option<Status> {
    if json == Some(JString("pending")) then Some(PendingAck)
    else if json == Some(JString("ok")) then Some(Acked)
    else if json == Some(JString("error")) then Some(Refused)
    else None
  }

  predicate ValidError(error: Option<Json>) {
    error.Some? ==> error.value.JObject? && Text(Field(error.value, KMessage)).Some?
  }

  /** `parseCommandHistory`. */
  function ParseCommand(json: Json, dates: Dates): Option<Command> {
    var name := ParseName(Field(json, KCommand));
    var source := ParseSource(Field(json, KSource));
    var status := ParseStatus(Field(json, KStatus));
    if !json.JObject? || Text(Field(json, KCommandId)).None?
      || name.None? || source.None? || status.None?
      || !ValidTimestamp(Field(json, KSentAt), dates) || !NullableTimestamp(Field(json, KAcknowledgedAt), dates)
      || !ValidError(Field(json, KError))
    then None
    else
      Some(Command(Text(Field(json, KCommandId)).value, name.value, source.value, status.value,
        Text(Field(json, KSentAt)).value, Text(Field(json, KAcknowledgedAt)),
        Field(json, KResult), Field(json, KError)))
  }

  /** The loop over the persisted commands: invalid ones are dropped. */
  function ParseCommands(items: seq<Json>, dates: Dates): seq<Command> {
    if items == [] then []
    else
      ParseCommands(items[..|items| - 1], dates)
      + match ParseCommand(items[|items| - 1], dates) { case None => [] case Some(command) => [command] }
  }

  /** `parsePersistedDevice`. */
  function ParseDevice(json: Json, dates: Dates): Option<Device> {
    var hello := Field(json, KHello);
    var commands := Field(json, KCommands);
    if !json.JObject? || hello.None? || !ValidHello(hello.value)
      || Field(json, KDeviceId) != Field(hello.value, KDeviceId)
      || !NullableTimestamp(Field(json, KConnectedAt), dates)
      || !NullableTimestamp(Field(json, KDisconnectedAt), dates)
      || !ValidTimestamp(Field(json, KLastSeenAt), dates)
      || !NonNegativeInteger(Field(json, KFrameCount))
      || !NullableTimestamp(Field(json, KLastFrameAt), dates)
      || !NonNegativeInteger(Field(json, KLastFrameBytes))
      || commands.None? || !commands.value.JArray?
    then None
    else
      Some(Device(Text(Field(hello.value, KDeviceId)).value, hello.value,
        Text(Field(json, KConnectedAt)), Text(Field(json, KDisconnectedAt)),
        Text(Field(json, KLastSeenAt)).value, Field(json, KFrameCount).value.number,
        Text(Field(json, KLastFrameAt)), Field(json, KLastFrameBytes).value.number,
        ParseCommands(commands.value.items, dates)))
  }

  // ---------------------------------------------------------------- round trip

  predicate ParsedDate(text: Option<string>, dates: Dates) {
    text.Some? ==> dates(text.value)
  }

  /** A command as the hub makes and acknowledges it. */
  predicate WellFormed(c: Command, dates: Dates) {
    dates(c.sentAt) && ParsedDate(c.acknowledgedAt, dates) && ValidError(c.error)
  }

  /** A record as the hub keeps it. */
  predicate Persistable(d: Device, dates: Dates) {
    && ValidHello(d.hello) && Field(d.hello, KDeviceId) == Some(JString(d.deviceId))
    && ParsedDate(d.connectedAt, dates) && ParsedDate(d.disconnectedAt, dates) && dates(d.lastSeenAt)
    && ParsedDate(d.lastFrameAt, dates) && d.frameCount >= 0 && d.lastFrameBytes >= 0
    && forall i | 0 <= i < |d.commands| :: WellFormed(d.commands[i], dates)
  }

  ghost predicate HasCommandFields(json: Json, c: Command) {
    && json.JObject?
    && Field(json, KCommandId) == Some(JString(c.commandId)) && Field(json, KCommand) == Some(JString(NameText(c.name)))
    && Field(json, KSource) == Some(JString(SourceText(c.source)))
    && Field(json, KStatus) == Some(JString(StatusText(c.status)))
    && Field(json, KSentAt) == Some(JString(c.sentAt))
    && Field(json, KAcknowledgedAt) == Some(NullableText(c.acknowledgedAt))
    && Field(json, KResult) == c.result && Field(json, KError) == c.error
  }

  lemma CommandHasFields(c: Command)
    ensures HasCommandFields(CommandJson(c), c)
  {
  }

  lemma NullableRoundTrip(text: Option<string>, dates: Dates)
    requires ParsedDate(text, dates)
    ensures NullableTimestamp(Some(NullableText(text)), dates) && Text(Some(NullableText(text))) == text
  {
  }

  lemma ParseCommandFromFields(json: Json, c: Command, dates: Dates)
    requires HasCommandFields(json, c) && WellFormed(c, dates)
    ensures ParseCommand(json, dates) == Some(c)
  {
    NullableRoundTrip(c.acknowledgedAt, dates);
    assert ParseName(Some(JString(NameText(c.name)))) == Some(c.name);
    assert ParseSource(Some(JString(SourceText(c.source)))) == Some(c.source);
    assert ParseStatus(Some(JString(StatusText(c.status)))) == Some(c.status);
  }

  lemma CommandRoundTrip(c: Command, dates: Dates)
    requires WellFormed(c, dates)
    ensures ParseCommand(CommandJson(c), dates) == Some(c)
  {
    CommandHasFields(c);
    ParseCommandFromFields(CommandJson(c), c, dates);
  }

  lemma ParseCommandsOne(items: seq<Json>, last: Json, c: Command, dates: Dates)
    requires ParseCommand(last, dates) == Some(c)
    ensures ParseCommands(items + [last], dates) == ParseCommands(items, dates) + [c]
  {
    assert (items + [last])[..|items|] == items;
  }

  lemma OneMoreCommand(commands: seq<Command>, c: Command, dates: Dates)
    requires ParseCommands(CommandsJson(commands), dates) == commands && WellFormed(c, dates)
    ensures ParseCommands(CommandsJson(commands + [c]), dates) == commands + [c]
  {
    assert (commands + [c])[..|commands|] == commands;
    CommandRoundTrip(c, dates);
    ParseCommandsOne(CommandsJson(commands), CommandJson(c), c, dates);
  }

  lemma {:induction false} CommandsRoundTrip(commands: seq<Command>, dates: Dates)
    requires forall i | 0 <= i < |commands| :: WellFormed(commands[i], dates)
    ensures ParseCommands(CommandsJson(commands), dates) == commands
    decreases |commands|
  {
    if commands != [] {
      var n := |commands| - 1;
      var init, last := commands[..n], commands[n];
      assert commands == init + [last];
      CommandsRoundTrip(init, dates);
      OneMoreCommand(init, last, dates);
    }
  }

  /** The fields of a persisted record. */
  ghost predicate HasFields(json: Json, d: Device) {
    && json.JObject?
    && Field(json, KDeviceId) == Some(JString(d.deviceId)) && Field(json, KHello) == Some(d.hello)
    && Field(json, KConnectedAt) == Some(NullableText(d.connectedAt))
    && Field(json, KDisconnectedAt) == Some(NullableText(d.disconnectedAt))
    && Field(json, KLastSeenAt) == Some(JString(d.lastSeenAt))
    && Field(json, KFrameCount) == Some(JInt(d.frameCount))
    && Field(json, KLastFrameAt) == Some(NullableText(d.lastFrameAt))
    && Field(json, KLastFrameBytes) == Some(JInt(d.lastFrameBytes))
    && Field(json, KCommands) == Some(JArray(CommandsJson(d.commands)))
  }

  lemma DeviceHasFields(d: Device)
    ensures HasFields(DeviceJson(d), d)
  {
  }

  lemma ParseFromFields(json: Json, d: Device, dates: Dates)
    requires HasFields(json, d) && Persistable(d, dates)
    requires ParseCommands(CommandsJson(d.commands), dates) == d.commands
    ensures ParseDevice(json, dates) == Some(d)
  {
    NullableRoundTrip(d.connectedAt, dates);
    NullableRoundTrip(d.disconnectedAt, dates);
    NullableRoundTrip(d.lastFrameAt, dates);
  }

  /** Whatever the hub persists of its records passes the validators of the next
      start, with no field changed and no command dropped. */
  lemma DeviceRoundTrip(d: Device, dates: Dates)
    requires Persistable(d, dates)
    ensures ParseDevice(DeviceJson(d), dates) == Some(d)
  {
    DeviceHasFields(d);
    CommandsRoundTrip(d.commands, dates);
    ParseFromFields(DeviceJson(d), d, dates);
  }
}
