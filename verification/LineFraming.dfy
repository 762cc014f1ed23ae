/** Newline framing of the provisioning protocol: the device's `feed`
    (examples/cores3-websocket/provisioning-protocol.js) and the page's `acceptChunk`
    (tools/camera-server.ts), under arbitrary chunking. */
module LineFraming {
  import opened Basics

  const MAX_LINE_BYTES: nat := 1400
  const NOTIFY_CHUNK: nat := 60
  const PREFIX := "@stackchan "

  // ------------------------------------------------------------------- strings

  /** The characters that `trim` removes. */
  predicate IsSpace(c: char) {
    || c == ' ' || '\U{0009}' <= c <= '\U{000D}' || c == '\U{00A0}' || c == '\U{FEFF}'
    || c == '\U{1680}' || '\U{2000}' <= c <= '\U{200A}' || c == '\U{2028}' || c == '\U{2029}'
    || c == '\U{202F}' || c == '\U{205F}' || c == '\U{3000}'
  }

  function TrimStart(s: string): string {
    if s != "" && IsSpace(s[0]) then TrimStart(s[1..]) else s
  }

  function TrimEnd(s: string): string {
    if s != "" && IsSpace(s[|s| - 1]) then TrimEnd(s[..|s| - 1]) else s
  }

  function Trim(s: string): string {
    TrimEnd(TrimStart(s))
  }

  predicate StartsWith(s: string, prefix: string) {
    |prefix| <= |s| && s[..|prefix|] == prefix
  }

  predicate OccursAt(s: string, pattern: string, i: nat) {
    i + |pattern| <= |s| && s[i..i + |pattern|] == pattern
  }

  /** `indexOf(pattern)` looking from `i` on: the first occurrence, or none. */
  function IndexFrom(s: string, pattern: string, i: nat): (at: Option<nat>)
    ensures at.Some? ==> i <= at.value && OccursAt(s, pattern, at.value)
    ensures at.Some? ==> forall k | i <= k < at.value :: !OccursAt(s, pattern, k)
    ensures at.None? ==> forall k | i <= k :: !OccursAt(s, pattern, k)
    decreases |s| - i
  {
    if i + |pattern| > |s| then None
    else if OccursAt(s, pattern, i) then Some(i)
    else IndexFrom(s, pattern, i + 1)
  }

  function IndexOf(s: string, pattern: string): Option<nat> {
    IndexFrom(s, pattern, 0)
  }

  // -------------------------------------------------------------- lines of a text

  /** Everything after the last newline, and the newline-free lines before it. */
  function Residue(s: string): string {
    if s == "" then ""
    else if s[|s| - 1] == '\n' then ""
    else Residue(s[..|s| - 1]) + [s[|s| - 1]]
  }

  function Lines(s: string): seq<string> {
    if s == "" then []
    else if s[|s| - 1] == '\n' then Lines(s[..|s| - 1]) + [Residue(s[..|s| - 1])]
    else Lines(s[..|s| - 1])
  }

  predicate NoNewline(s: string) {
    '\n' !in s
  }

  lemma {:induction false} ResidueHasNoNewline(s: string)
    ensures NoNewline(Residue(s))
    decreases |s|
  {
    if s != "" {
      ResidueHasNoNewline(s[..|s| - 1]);
    }
  }

  /** A text can be cut anywhere: what the first part leaves over begins the second. */
  lemma {:induction false} LinesConcat(a: string, b: string)
    ensures Lines(a + b) == Lines(a) + Lines(Residue(a) + b)
    ensures Residue(a + b) == Residue(Residue(a) + b)
    decreases |b|
  {
    if b == "" {
      assert a + b == a && Residue(a) + b == Residue(a);
      ResidueHasNoNewline(a);
      NoNewlineIsResidue(Residue(a));
    } else {
      var n := |b| - 1;
      LinesConcat(a, b[..n]);
      assert (a + b)[..|a + b| - 1] == a + b[..n];
      assert (Residue(a) + b)[..|Residue(a) + b| - 1] == Residue(a) + b[..n];
    }
  }

  lemma {:induction false} NoNewlineIsResidue(s: string)
    requires NoNewline(s)
    ensures Residue(s) == s && Lines(s) == []
    decreases |s|
  {
    if s != "" {
      NoNewlineIsResidue(s[..|s| - 1]);
      assert s == s[..|s| - 1] + [s[|s| - 1]];
    }
  }

  lemma OneLine(head: string)
    requires head != "" && head[|head| - 1] == '\n' && NoNewline(head[..|head| - 1])
    ensures Lines(head) == [head[..|head| - 1]] && Residue(head) == ""
  {
    NoNewlineIsResidue(head[..|head| - 1]);
  }

  lemma AfterOneLine(head: string, tail: string)
    requires Residue(head) == ""
    ensures Lines(head + tail) == Lines(head) + Lines(tail) && Residue(head + tail) == Residue(tail)
  {
    LinesConcat(head, tail);
    assert Residue(head) + tail == tail;
  }

  /** The loop's way to cut: at the first newline. */
  lemma FirstLine(s: string, end: nat)
    requires end < |s| && s[end] == '\n' && NoNewline(s[..end])
    ensures Lines(s) == [s[..end]] + Lines(s[end + 1..]) && Residue(s) == Residue(s[end + 1..])
  {
    var head, tail := s[..end + 1], s[end + 1..];
    assert s == head + tail;
    LineBefore(head, tail, s[..end]);
  }

  lemma LineBefore(head: string, tail: string, line: string)
    requires head == line + "\n" && NoNewline(line)
    ensures Lines(head + tail) == [line] + Lines(tail) && Residue(head + tail) == Residue(tail)
  {
    assert head[..|head| - 1] == line;
    OneLine(head);
    AfterOneLine(head, tail);
  }

  function Concat(chunks: seq<string>): string {
    if chunks == [] then "" else Concat(chunks[..|chunks| - 1]) + chunks[|chunks| - 1]
  }

  // ---------------------------------------------------------------- the device

  /** The request in a line, if it holds one. */
  function RequestIn(line: string): Option<string> {
    var trimmed := Trim(line);
    var request := if StartsWith(trimmed, PREFIX) then trimmed[|PREFIX|..] else trimmed;
    if request == "" then None else Some(request)
  }

  /** The response in a line, for the page. */
  function ResponseIn(line: string): Option<string> {
    var trimmed := Trim(line);
    var marker := IndexOf(trimmed, PREFIX);
    var response :=
      if marker.Some? then Trim(trimmed[marker.value + |PREFIX|..])
      else if StartsWith(trimmed, "{") then trimmed
      else "";
    if response == "" then None else Some(response)
  }

  function ToSeq(found: Option<string>): seq<string> {
    match found
    case None => []
    case Some(value) => [value]
  }

  /** The requests in some lines, in order. */
  function Requests(lines: seq<string>): seq<string> {
    if lines == [] then [] else ToSeq(RequestIn(lines[0])) + Requests(lines[1..])
  }

  function Responses(lines: seq<string>): seq<string> {
    if lines == [] then [] else ToSeq(ResponseIn(lines[0])) + Responses(lines[1..])
  }

  lemma RequestsFirst(line: string, rest: seq<string>)
    ensures Requests([line] + rest) == ToSeq(RequestIn(line)) + Requests(rest)
  {
    assert ([line] + rest)[1..] == rest;
  }

  lemma ResponsesFirst(line: string, rest: seq<string>)
    ensures Responses([line] + rest) == ToSeq(ResponseIn(line)) + Responses(rest)
  {
    assert ([line] + rest)[1..] == rest;
  }

  lemma {:induction false} RequestsConcat(a: seq<string>, b: seq<string>)
    ensures Requests(a + b) == Requests(a) + Requests(b)
  {
    if a == [] {
      assert a + b == b;
    } else {
      assert (a + b)[1..] == a[1..] + b;
      RequestsConcat(a[1..], b);
    }
  }

  lemma {:induction false} ResponsesConcat(a: seq<string>, b: seq<string>)
    ensures Responses(a + b) == Responses(a) + Responses(b)
  {
    if a == [] {
      assert a + b == b;
    } else {
      assert (a + b)[1..] == a[1..] + b;
      ResponsesConcat(a[1..], b);
    }
  }

  lemma OneMoreRequest(handled: seq<string>, line: string, rest: seq<string>)
    ensures handled + Requests([line] + rest) == handled + ToSeq(RequestIn(line)) + Requests(rest)
  {
    RequestsFirst(line, rest);
  }

  lemma OneMoreResponse(accepted: seq<string>, line: string, rest: seq<string>)
    ensures accepted + Responses([line] + rest) == accepted + ToSeq(ResponseIn(line)) + Responses(rest)
  {
    ResponsesFirst(line, rest);
  }

  /** The search for a newline and the two slices of either loop. */
  method NextLine(buffer: string) returns (line: Option<string>, rest: string)
    ensures line.None? ==> rest == buffer && Lines(buffer) == [] && Residue(buffer) == buffer
    ensures line.Some? ==>
      |rest| < |buffer| && Lines(buffer) == [line.value] + Lines(rest) && Residue(buffer) == Residue(rest)
  {
    var end := IndexOf(buffer, "\n");
    if end.None? {
      NoOccurrence(buffer);
      NoNewlineIsResidue(buffer);
      return None, buffer;
    }
    FirstOccurrence(buffer, end.value);
    FirstLine(buffer, end.value);
    line, rest := Some(buffer[..end.value]), buffer[end.value + 1..];
  }

  /** The device between `feed` calls: buffer, requests handled, refusals. */
  datatype Fed = Fed(buffer: string, handled: seq<string>, refusals: nat)

  function FeedOne(f: Fed, chunk: string): Fed {
    var text := f.buffer + chunk;
    if |text| > MAX_LINE_BYTES then f.(buffer := "", refusals := f.refusals + 1)
    else Fed(Residue(text), f.handled + Requests(Lines(text)), f.refusals)
  }

  class ProvisioningProtocol {
    var buffer: string
    var handled: seq<string>
    var refusals: nat

    ghost function View(): Fed
      reads this
    {
      Fed(buffer, handled, refusals)
    }

    constructor ()
      ensures View() == Fed("", [], 0)
    {
      buffer, handled, refusals := "", [], 0;
    }

    method Feed(chunk: string)
      modifies this
      ensures View() == FeedOne(old(View()), chunk)
    {
      buffer := buffer + chunk;
      if |buffer| > MAX_LINE_BYTES {
        buffer, refusals := "", refusals + 1;
        return;
      }
      ghost var residue, goal := Residue(buffer), handled + Requests(Lines(buffer));
      while true
        invariant Residue(buffer) == residue
        invariant handled + Requests(Lines(buffer)) == goal
        invariant refusals == old(refusals)
        decreases |buffer|
      {
        var line, rest := NextLine(buffer);
        if line.None? {
          break;
        }
        var request := RequestIn(line.value);
        OneMoreRequest(handled, line.value, Lines(rest));
        buffer := rest;
        handled := handled + ToSeq(request);
      }
    }
  }

  class ResponseParser {
    var buffer: string
    var accepted: seq<string>

    constructor ()
      ensures buffer == "" && accepted == []
    {
      buffer, accepted := "", [];
    }

    /** `acceptChunk`, up to the parsing of each response. */
    method AcceptChunk(chunk: string)
      modifies this
      ensures buffer == Residue(old(buffer) + chunk)
      ensures accepted == old(accepted) + Responses(Lines(old(buffer) + chunk))
    {
      buffer := buffer + chunk;
      ghost var residue, goal := Residue(buffer), accepted + Responses(Lines(buffer));
      while true
        invariant Residue(buffer) == residue
        invariant accepted + Responses(Lines(buffer)) == goal
        decreases |buffer|
      {
        var line, rest := NextLine(buffer);
        if line.None? {
          break;
        }
        var response := ResponseIn(line.value);
        OneMoreResponse(accepted, line.value, Lines(rest));
        buffer := rest;
        accepted := accepted + ToSeq(response);
      }
    }
  }

  lemma NoOccurrence(s: string)
    requires forall k: nat :: !OccursAt(s, "\n", k)
    ensures NoNewline(s)
  {
    forall i | 0 <= i < |s|
      ensures s[i] != '\n'
    {
      assert !OccursAt(s, "\n", i);
      assert s[i..i + 1] == [s[i]];
    }
  }

  lemma FirstOccurrence(s: string, end: nat)
    requires OccursAt(s, "\n", end)
    requires forall k | 0 <= k < end :: !OccursAt(s, "\n", k)
    ensures end < |s| && s[end] == '\n' && NoNewline(s[..end])
  {
    assert s[end..end + 1] == [s[end]];
    forall i | 0 <= i < end
      ensures s[..end][i] != '\n'
    {
      assert !OccursAt(s, "\n", i);
      assert s[i..i + 1] == [s[i]];
    }
  }

  // ------------------------------------------------------------ any chunking at all

  function FeedAll(chunks: seq<string>): Fed {
    if chunks == [] then Fed("", [], 0) else FeedOne(FeedAll(chunks[..|chunks| - 1]), chunks[|chunks| - 1])
  }

  /** No call trips the limit: the residue of what came before and the chunk fit. */
  ghost predicate NeverTrips(chunks: seq<string>) {
    forall k | 0 <= k < |chunks| :: |Residue(Concat(chunks[..k]))| + |chunks[k]| <= MAX_LINE_BYTES
  }

  lemma NeverTripsOne(before: seq<string>, last: string)
    ensures NeverTrips(before + [last]) <==>
      NeverTrips(before) && |Residue(Concat(before))| + |last| <= MAX_LINE_BYTES
  {
    var chunks := before + [last];
    assert forall k | 0 <= k <= |before| :: chunks[..k] == before[..k];
    assert before[..|before|] == before;
    if NeverTrips(chunks) {
      assert chunks[|before|] == last && chunks[..|before|] == before;
      forall k | 0 <= k < |before|
        ensures |Residue(Concat(before[..k]))| + |before[k]| <= MAX_LINE_BYTES
      {
        assert chunks[k] == before[k];
      }
    }
  }

  /** One more chunk, after chunks that were all taken. */
  lemma FeedOneMore(before: seq<string>, last: string)
    requires FeedAll(before) == Fed(Residue(Concat(before)), Requests(Lines(Concat(before))), 0)
    requires |Residue(Concat(before))| + |last| <= MAX_LINE_BYTES
    ensures var text := Concat(before + [last]);
      FeedAll(before + [last]) == Fed(Residue(text), Requests(Lines(text)), 0)
  {
    assert (before + [last])[..|before|] == before;
    LinesConcat(Concat(before), last);
    RequestsConcat(Lines(Concat(before)), Lines(Residue(Concat(before)) + last));
  }

  lemma FeedOneRefused(before: seq<string>, last: string)
    ensures FeedAll(before + [last]).refusals == FeedAll(before).refusals
      + (if |FeedAll(before).buffer| + |last| > MAX_LINE_BYTES then 1 else 0)
  {
    assert (before + [last])[..|before|] == before;
  }

  /** Without a refusal the outcome depends on the text alone, not on how it was cut;
      and there is no refusal exactly when no residue and chunk exceed the limit. */
  lemma {:induction false} FeedIsChunkingFree(chunks: seq<string>)
    ensures NeverTrips(chunks) <==> FeedAll(chunks).refusals == 0
    ensures NeverTrips(chunks) ==>
      FeedAll(chunks) == Fed(Residue(Concat(chunks)), Requests(Lines(Concat(chunks))), 0)
    decreases |chunks|
  {
    if chunks != [] {
      var before, last := chunks[..|chunks| - 1], chunks[|chunks| - 1];
      assert chunks == before + [last];
      FeedIsChunkingFree(before);
      NeverTripsOne(before, last);
      FeedOneRefused(before, last);
      if NeverTrips(chunks) {
        FeedOneMore(before, last);
      }
    }
  }

  /** Any two splits of the same input that never trip the limit make the device
      handle the same requests and keep the same newline-free residue. */
  lemma SplitsAgree(a: seq<string>, b: seq<string>)
    requires Concat(a) == Concat(b) && FeedAll(a).refusals == 0 && FeedAll(b).refusals == 0
    ensures FeedAll(a) == FeedAll(b) && NoNewline(FeedAll(a).buffer)
  {
    FeedIsChunkingFree(a);
    FeedIsChunkingFree(b);
    ResidueHasNoNewline(Concat(a));
  }

  /** The page after a sequence of `acceptChunk` calls. */
  function AcceptAll(chunks: seq<string>): (string, seq<string>) {
    if chunks == [] then ("", [])
    else
      var (buffer, accepted) := AcceptAll(chunks[..|chunks| - 1]);
      var text := buffer + chunks[|chunks| - 1];
      (Residue(text), accepted + Responses(Lines(text)))
  }

  lemma {:induction false} AcceptIsChunkingFree(chunks: seq<string>)
    ensures AcceptAll(chunks) == (Residue(Concat(chunks)), Responses(Lines(Concat(chunks))))
    decreases |chunks|
  {
    if chunks != [] {
      var before, last := chunks[..|chunks| - 1], chunks[|chunks| - 1];
      AcceptIsChunkingFree(before);
      LinesConcat(Concat(before), last);
      ResponsesConcat(Lines(Concat(before)), Lines(Residue(Concat(before)) + last));
    }
  }

  // ------------------------------------------------------------------ round trips

  /** What `JSON.stringify` of an object gives, as far as framing is concerned. */
  predicate IsObjectText(json: string) {
    |json| >= 2 && json[0] == '{' && json[|json| - 1] == '}' && NoNewline(json)
  }

  /** What the device sends for its responses, over USB or over BLE. */
  function Framed(messages: seq<string>, usb: bool): string {
    if messages == [] then ""
    else Prefix(usb) + messages[0] + "\n" + Framed(messages[1..], usb)
  }

  lemma TrimKeeps(s: string)
    requires s != "" && !IsSpace(s[0]) && !IsSpace(s[|s| - 1])
    ensures Trim(s) == s
  {
  }

  /** A response over USB is found whatever it contains; one over BLE exactly when the
      prefix does not occur in it. */
  lemma ResponseIsRecovered(json: string)
    requires IsObjectText(json)
    ensures ResponseIn(PREFIX + json) == Some(json)
    ensures ResponseIn(json) == Some(json) <==> IndexOf(json, PREFIX).None?
  {
    TrimKeeps(json);
    var usb := PREFIX + json;
    TrimKeeps(usb);
    assert usb[..|PREFIX|] == PREFIX && usb[|PREFIX|..] == json;
    assert OccursAt(usb, PREFIX, 0);
    if IndexOf(json, PREFIX).Some? {
      var rest := json[IndexOf(json, PREFIX).value + |PREFIX|..];
      TrimShrinks(rest);
      assert |Trim(rest)| < |json|;
    } else {
      assert json[..1] == "{";
    }
  }

  /** The answer to a request of an unknown type repeats the type: the one to
      `{"type":"@stackchan "}` is cut over BLE. */
  const ECHO := BEFORE_ECHO + PREFIX + AFTER_ECHO + ECHO_ERROR
  const BEFORE_ECHO := "{\"type\":\"provision.ack\",\"command\":\""
  const AFTER_ECHO := "\",\"ok\":false,\"error\":"
  const ECHO_ERROR := "\"unknown provisioning command\"}"

  lemma PiecesOfEcho()
    ensures |BEFORE_ECHO| == 35 && BEFORE_ECHO[0] == '{' && NoNewline(BEFORE_ECHO)
    ensures NoNewline(AFTER_ECHO)
    ensures |ECHO_ERROR| == 31 && ECHO_ERROR[30] == '}' && NoNewline(ECHO_ERROR)
  {
  }

  lemma BleResponseIsCut()
    ensures IsObjectText(ECHO) && ResponseIn(ECHO) != Some(ECHO)
  {
    PiecesOfEcho();
    assert ECHO[35..46] == PREFIX;
    assert OccursAt(ECHO, PREFIX, 35);
    ResponseIsRecovered(ECHO);
  }

  lemma {:induction false} TrimStartShrinks(s: string)
    ensures |TrimStart(s)| <= |s|
  {
    if s != "" {
      TrimStartShrinks(s[1..]);
    }
  }

  lemma {:induction false} TrimEndShrinks(s: string)
    ensures |TrimEnd(s)| <= |s|
    decreases |s|
  {
    if s != "" {
      TrimEndShrinks(s[..|s| - 1]);
    }
  }

  lemma TrimShrinks(s: string)
    ensures |Trim(s)| <= |s|
  {
    TrimStartShrinks(s);
    TrimEndShrinks(TrimStart(s));
  }

  function Prefix(usb: bool): string {
    if usb then PREFIX else ""
  }

  lemma FirstFramed(json: string, rest: string, usb: bool)
    requires IsObjectText(json)
    ensures var text := Prefix(usb) + json + "\n" + rest;
      Lines(text) == [Prefix(usb) + json] + Lines(rest) && Residue(text) == Residue(rest)
  {
    var line := Prefix(usb) + json;
    var text := line + "\n" + rest;
    assert text[..|line|] == line && text[|line|] == '\n' && text[|line| + 1..] == rest;
    assert forall i | 0 <= i < |PREFIX| :: PREFIX[i] != '\n';
    assert NoNewline(line);
    FirstLine(text, |line|);
  }

  lemma {:induction false} FramedLines(messages: seq<string>, usb: bool)
    requires forall json | json in messages :: IsObjectText(json)
    requires !usb ==> forall json | json in messages :: IndexOf(json, PREFIX).None?
    ensures Responses(Lines(Framed(messages, usb))) == messages
    ensures Residue(Framed(messages, usb)) == ""
  {
    if messages != [] {
      var json, rest := messages[0], Framed(messages[1..], usb);
      FramedLines(messages[1..], usb);
      FirstFramed(json, rest, usb);
      assert Prefix(usb) + json == if usb then PREFIX + json else json;
      ResponseIsRecovered(json);
      ResponsesFirst(Prefix(usb) + json, Lines(rest));
      assert messages == [json] + messages[1..];
    }
  }

  /** Framed responses re-split in any way are recovered exactly: over USB always,
      over BLE when no response contains the prefix. */
  lemma ResponsesSurviveResplitting(messages: seq<string>, usb: bool, chunks: seq<string>)
    requires forall json | json in messages :: IsObjectText(json)
    requires !usb ==> forall json | json in messages :: IndexOf(json, PREFIX).None?
    requires Concat(chunks) == Framed(messages, usb)
    ensures AcceptAll(chunks) == ("", messages)
  {
    AcceptIsChunkingFree(chunks);
    FramedLines(messages, usb);
  }

  /** A request reaches the device with or without the prefix. */
  lemma RequestIsRecovered(json: string)
    requires IsObjectText(json)
    ensures RequestIn(PREFIX + json) == Some(json) && RequestIn(json) == Some(json)
  {
    TrimKeeps(json);
    TrimKeeps(PREFIX + json);
    assert (PREFIX + json)[..|PREFIX|] == PREFIX && (PREFIX + json)[|PREFIX|..] == json;
    assert json[0] != PREFIX[0];
  }

  /** The BLE notifications of one response: 60 code units at a time. */
  function Notifications(value: string): seq<string>
    decreases |value|
  {
    if |value| == 0 then []
    else if |value| <= NOTIFY_CHUNK then [value]
    else [value[..NOTIFY_CHUNK]] + Notifications(value[NOTIFY_CHUNK..])
  }

  /** They are a re-split of the response, each within the characteristic. */
  lemma {:induction false} NotificationsResplit(value: string)
    ensures Concat(Notifications(value)) == value
    ensures forall chunk | chunk in Notifications(value) :: 0 < |chunk| <= NOTIFY_CHUNK
    decreases |value|
  {
    if |value| > NOTIFY_CHUNK {
      NotificationsResplit(value[NOTIFY_CHUNK..]);
      ConcatFirst(value[..NOTIFY_CHUNK], Notifications(value[NOTIFY_CHUNK..]));
    } else if value != "" {
      assert [value][..0] == [];
    }
  }

  lemma {:induction false} ConcatFirst(first: string, rest: seq<string>)
    ensures Concat([first] + rest) == first + Concat(rest)
    decreases |rest|
  {
    if rest == [] {
      assert [first] + rest == [first] && [first][..0] == [];
    } else {
      assert ([first] + rest)[..|rest|] == [first] + rest[..|rest| - 1];
      ConcatFirst(first, rest[..|rest| - 1]);
    }
  }
}
