/**
 * Node configurations: what validateConfig accepts, and what the engine reads back from the same
 * document when it reaches the node.
 */
module Configs {
  import opened Prelude
  import opened Graphs
  import opened Waits

  /**
   * A configuration document after lexing. Keys are already folded to lower case and the last of
   * several equal keys has won, which is how the decoder matches field names. `Bad` is text that is
   * empty or not exactly one document; `Other` is an array or a number that is not an integer.
   */
  datatype Json =
    | Bad
    | Null
    | Other
    | Bool(flag: bool)
    | Int(number: int)
    | Str(text: string)
    | Obj(fields: map<string, Json>)

  datatype Kind = Trigger | SendEmail | Wait | Condition | AddTag | RemoveTag | Exit | UnknownKind(name: string)

  datatype Node = Node(id: Id, kind: Kind, name: string, config: Json)

  datatype Graph = Graph(nodes: seq<Node>, edges: seq<Edge>)

  /** Facts supplied by libraries: named time zones with a fixed offset, and well-formed web addresses. */
  datatype Library = Library(zones: map<string, int>, webAddresses: set<string>)

  /** The records visible to validation, by UUID value; None skips that class of reference. */
  datatype References = References(lists: Option<set<string>>, templates: Option<set<string>>)

  predicate IdChar(c: char) { 'a' <= c <= 'z' || '0' <= c <= '9' || c == '_' || c == '-' }

  /** ^[a-z0-9_-]{1,64}$ */
  predicate IdOk(id: Id) { 1 <= |id.text| <= 64 && forall i :: 0 <= i < |id.text| ==> IdChar(id.text[i]) }

  predicate Blank(c: char) { c == ' ' || c == '\t' || c == '\n' || c == '\r' }

  /** strings.TrimSpace. */
  function Trim(s: string): (t: string) {
    if s == [] then s
    else if Blank(s[0]) then Trim(s[1..])
    else if Blank(Last(s)) then Trim(s[..|s| - 1])
    else s
  }

  predicate LabelOk(s: string, max: nat) { Trim(s) != [] && |Trim(s)| <= max }

  predicate HexDigit(c: char) { '0' <= c <= '9' || 'a' <= c <= 'f' || 'A' <= c <= 'F' }

  function Lower(c: char): char { if 'A' <= c <= 'Z' then c - 'A' + 'a' else c }

  predicate EqualFold(a: string, b: string) { |a| == |b| && forall i :: 0 <= i < |a| ==> Lower(a[i]) == Lower(b[i]) }

  const URN: string := "urn:uuid:"

  predicate IsHex(s: string) { forall i :: 0 <= i < |s| ==> HexDigit(s[i]) }

  function Lowered(s: string): (t: string) { seq(|s|, i requires 0 <= i < |s| => Lower(s[i])) }

  /**
   * What is left of a UUID text without its prefix or braces; the characters in place of the braces are not
   * looked at.
   */
  function Unwrapped(s: string): string {
    if |s| == 45 && EqualFold(s[..9], URN) then s[9..] else if |s| == 38 then s[1..37] else s
  }

  function Undashed(s: string): string {
    if |s| == 36 && s[8] == s[13] == s[18] == s[23] == '-'
    then s[..8] + s[9..13] + s[14..18] + s[19..23] + s[24..] else s
  }

  /** The value of a UUID text, as its 32 digits in lower case. */
  function UuidValue(s: string): Option<string> {
    var digits := Undashed(Unwrapped(s));
    if |digits| == 32 && IsHex(digits) then Some(Lowered(digits)) else None
  }

  function Dashed(digits: string): (s: string)
    requires |digits| == 32
  {
    digits[..8] + "-" + digits[8..12] + "-" + digits[12..16] + "-" + digits[16..20] + "-" + digits[20..]
  }

  lemma UndashedDashed(digits: string)
    requires |digits| == 32
    ensures |Dashed(digits)| == 36 && Undashed(Dashed(digits)) == digits
  {
    var s := Dashed(digits);
    assert s[8] == s[13] == s[18] == s[23] == '-';
    assert s[..8] == digits[..8] && s[9..13] == digits[8..12] && s[14..18] == digits[12..16];
    assert s[19..23] == digits[16..20] && s[24..] == digits[20..];
  }

  /** All spellings of a UUID, in either case, have its value. */
  lemma SpellingsAgree(digits: string)
    requires |digits| == 32 && IsHex(digits)
    ensures var value := Some(Lowered(digits));
            && UuidValue(digits) == value && UuidValue(Dashed(digits)) == value
            && UuidValue("{" + Dashed(digits) + "}") == value && UuidValue(URN + Dashed(digits)) == value
            && UuidValue(Lowered(digits)) == value
  {
    UndashedDashed(digits);
    var d := Dashed(digits);
    assert ("{" + d + "}")[1..37] == d;
    assert (URN + d)[..9] == URN && (URN + d)[9..] == d;
    assert Lowered(Lowered(digits)) == Lowered(digits);
  }

  const NIL: string := "00000000000000000000000000000000"

  // ---- Decoding ----

  /** decodeConfig: exactly one object, and no field outside `known`. */
  function Strict(raw: Json, known: set<string>): Option<map<string, Json>> {
    if raw.Obj? && raw.fields.Keys <= known then Some(raw.fields) else None
  }

  /** A plain Unmarshal into a struct: unknown fields pass and null leaves the struct empty. */
  function Lax(raw: Json): Option<map<string, Json>> {
    match raw
    case Obj(fields) => Some(fields)
    case Null => Some(map[])
    case _ => None
  }

  /** A string field: absent and null both leave it empty, any other type fails the decode. */
  function Text(fields: map<string, Json>, key: string): Option<string> {
    if key !in fields || fields[key].Null? then Some("")
    else if fields[key].Str? then Some(fields[key].text) else None
  }

  function OptionalText(fields: map<string, Json>, key: string): Option<Option<string>> {
    if key !in fields || fields[key].Null? then Some(None)
    else if fields[key].Str? then Some(Some(fields[key].text)) else None
  }

  /** A UUID field; absent and null both leave it nil. */
  function Uuid(fields: map<string, Json>, key: string): Option<string> {
    if key !in fields || fields[key].Null? then Some(NIL)
    else if fields[key].Str? then UuidValue(fields[key].text) else None
  }

  function OptionalInt(fields: map<string, Json>, key: string): Option<Option<int>> {
    if key !in fields || fields[key].Null? then Some(None)
    else if fields[key].Int? && -0x8000_0000_0000_0000 <= fields[key].number < 0x8000_0000_0000_0000
    then Some(Some(fields[key].number)) else None
  }

  function OptionalBool(fields: map<string, Json>, key: string): Option<Option<bool>> {
    if key !in fields || fields[key].Null? then Some(None)
    else if fields[key].Bool? then Some(Some(fields[key].flag)) else None
  }

  datatype TriggerConfig = TriggerConfig(typ: string, list: string, tag: string, name: string)

  function DecodeTrigger(raw: Json): Option<TriggerConfig> {
    match Strict(raw, {"type", "list_id", "tag", "name"})
    case None => None
    case Some(f) =>
      match (Text(f, "type"), Uuid(f, "list_id"), Text(f, "tag"), Text(f, "name"))
      case (Some(typ), Some(list), Some(tag), Some(name)) => Some(TriggerConfig(typ, list, tag, name))
      case _ => None
  }

  datatype SendConfig = SendConfig(template: string, opens: Option<bool>, clicks: Option<bool>)

  function DecodeSend(raw: Json): Option<SendConfig> {
    match Strict(raw, {"template_id", "track_opens", "track_clicks"})
    case None => None
    case Some(f) =>
      match (Uuid(f, "template_id"), OptionalBool(f, "track_opens"), OptionalBool(f, "track_clicks"))
      case (Some(template), Some(opens), Some(clicks)) => Some(SendConfig(template, opens, clicks))
      case _ => None
  }

  datatype WaitConfig = WaitConfig(mode: string, seconds: Option<int>, weekday: Option<int>, time: string, zone: string)

  function DecodeWait(raw: Json): Option<WaitConfig> {
    match Strict(raw, {"mode", "seconds", "weekday", "time", "timezone"})
    case None => None
    case Some(f) =>
      match (Text(f, "mode"), OptionalInt(f, "seconds"), OptionalInt(f, "weekday"), Text(f, "time"),
             Text(f, "timezone"))
      case (Some(mode), Some(seconds), Some(weekday), Some(time), Some(zone)) =>
        Some(WaitConfig(mode, seconds, weekday, time, zone))
      case _ => None
  }

  /** The predicate document of a condition; absent is empty text. */
  function DecodeCondition(raw: Json): Option<Json> {
    match Strict(raw, {"predicate"})
    case None => None
    case Some(f) => Some(if "predicate" in f then f["predicate"] else Bad)
  }

  function PredicateType(predicate_: Json): Option<string> {
    match Lax(predicate_)
    case None => None
    case Some(f) => Text(f, "type")
  }

  function DecodeTag(raw: Json): Option<string> {
    match Strict(raw, {"tag"})
    case None => None
    case Some(f) => Text(f, "tag")
  }

  /** A predicate that names a node; `withUrl` says whether a url field is known. */
  datatype Engagement = Engagement(node: Id, url: Option<string>)

  function DecodeEngagement(raw: Json, withUrl: bool): Option<Engagement> {
    match Strict(raw, if withUrl then {"type", "node_id", "url"} else {"type", "node_id"})
    case None => None
    case Some(f) =>
      match (Text(f, "type"), Text(f, "node_id"), if withUrl then OptionalText(f, "url") else Some(None))
      case (Some(_), Some(node), Some(url)) => Some(Engagement(Id(node), url))
      case _ => None
  }

  function DecodeHasTag(raw: Json): Option<string> {
    match Strict(raw, {"type", "tag"})
    case None => None
    case Some(f) =>
      match (Text(f, "type"), Text(f, "tag"))
      case (Some(_), Some(tag)) => Some(tag)
      case _ => None
  }

  function DecodeOnList(raw: Json): Option<string> {
    match Strict(raw, {"type", "list_id"})
    case None => None
    case Some(f) =>
      match (Text(f, "type"), Uuid(f, "list_id"))
      case (Some(_), Some(list)) => Some(list)
      case _ => None
  }

  datatype EventPredicate = EventPredicate(name: string, within: Option<int>)

  function DecodeEvent(raw: Json): Option<EventPredicate> {
    match Strict(raw, {"type", "name", "within_seconds"})
    case None => None
    case Some(f) =>
      match (Text(f, "type"), Text(f, "name"), OptionalInt(f, "within_seconds"))
      case (Some(_), Some(name), Some(within)) => Some(EventPredicate(name, within))
      case _ => None
  }

  // ---- What validation accepts ----

  datatype Check =
    | Fine
    | Refers(send: Id)
    | InvalidConfig
    | ListNotFound
    | TemplateNotFound
    | UnknownNodeKind

  predicate Listed(lists: Option<set<string>>, id: string) { lists.Some? ==> id in lists.value }

  function CheckTrigger(raw: Json, refs: References): Check {
    match DecodeTrigger(raw)
    case None => InvalidConfig
    case Some(c) =>
      if c.list == NIL then InvalidConfig
      else if !(|| (c.typ == "list_joined" && c.tag == "" && c.name == "")
                || (c.typ == "tag_added" && LabelOk(c.tag, 64) && c.name == "")
                || (c.typ == "event" && LabelOk(c.name, 128) && c.tag == "")) then InvalidConfig
      else if Listed(refs.lists, c.list) then Fine else ListNotFound
  }

  function CheckSend(raw: Json, refs: References): Check {
    match DecodeSend(raw)
    case None => InvalidConfig
    case Some(c) =>
      if c.template == NIL || c.opens.None? || c.clicks.None? then InvalidConfig
      else if Listed(refs.templates, c.template) then Fine else TemplateNotFound
  }

  predicate DurationOk(c: WaitConfig) {
    && c.seconds.Some? && MIN_WAIT <= c.seconds.value <= MAX_WAIT
    && c.weekday.None? && c.time == "" && c.zone == ""
  }

  function CheckWait(raw: Json, lib: Library): Check {
    match DecodeWait(raw)
    case None => InvalidConfig
    case Some(c) =>
      if c.mode == "duration" then
        if DurationOk(c) then Fine else InvalidConfig
      else if c.mode == "until" then
        if c.seconds.Some? || (c.weekday.Some? && !(1 <= c.weekday.value <= 7)) || !ValidClock(c.time)
        then InvalidConfig
        else if c.zone in lib.zones then Fine else InvalidConfig
      else InvalidConfig
  }

  function CheckCondition(raw: Json, refs: References, lib: Library): Check {
    match DecodeCondition(raw)
    case None => InvalidConfig
    case Some(p) =>
      match PredicateType(p)
      case None => InvalidConfig
      case Some(typ) =>
        if typ == "opened_email" then
          match DecodeEngagement(p, false)
          case Some(e) => if IdOk(e.node) then Refers(e.node) else InvalidConfig
          case None => InvalidConfig
        else if typ == "clicked_link" then
          match DecodeEngagement(p, true)
          case Some(e) =>
            if IdOk(e.node) && (e.url.Some? ==> e.url.value in lib.webAddresses) then Refers(e.node) else InvalidConfig
          case None => InvalidConfig
        else if typ == "has_tag" then
          match DecodeHasTag(p)
          case Some(tag) => if LabelOk(tag, 64) then Fine else InvalidConfig
          case None => InvalidConfig
        else if typ == "on_list" then
          match DecodeOnList(p)
          case Some(list) =>
            if list == NIL then InvalidConfig else if Listed(refs.lists, list) then Fine else ListNotFound
          case None => InvalidConfig
        else if typ == "event_received" then
          match DecodeEvent(p)
          case Some(e) =>
            if LabelOk(e.name, 128) && (e.within.Some? ==> 1 <= e.within.value <= MAX_WAIT) then Fine else InvalidConfig
          case None => InvalidConfig
        else InvalidConfig
  }

  function CheckTag(raw: Json): Check {
    match DecodeTag(raw)
    case Some(tag) => if LabelOk(tag, 64) then Fine else InvalidConfig
    case None => InvalidConfig
  }

  /** validateConfig. */
  function CheckConfig(node: Node, refs: References, lib: Library): (check: Check)
    ensures check.Refers? ==> node.kind == Condition
  {
    match node.kind
    case Trigger => CheckTrigger(node.config, refs)
    case SendEmail => CheckSend(node.config, refs)
    case Wait => CheckWait(node.config, lib)
    case Condition => CheckCondition(node.config, refs, lib)
    case AddTag => CheckTag(node.config)
    case RemoveTag => CheckTag(node.config)
    case Exit => if Strict(node.config, {}).Some? then Fine else InvalidConfig
    case UnknownKind(_) => UnknownNodeKind
  }

  // ---- What the engine reads ----

  /** send_email: a template and both tracking flags, or nothing. */
  function ReadSend(raw: Json): Option<SendConfig> {
    match DecodeSend(raw)
    case Some(c) => if c.template == NIL || c.opens.None? || c.clicks.None? then None else Some(c)
    case None => None
  }

  /** add_tag and remove_tag: a tag that is not blank. */
  function ReadTag(raw: Json): Option<string> {
    match DecodeTag(raw)
    case Some(tag) => if Trim(tag) == [] then None else Some(tag)
    case None => None
  }

  datatype Predicate =
    | OpenedEmail(send: Id)
    | ClickedLink(send: Id, url: Option<string>)
    | HasTag(tag: string)
    | OnList(list: string)
    | EventReceived(name: string, within: Option<int>)

  /** evaluateCondition's own decoding; None is an invalid-reference failure. */
  function ReadCondition(raw: Json): Option<Predicate> {
    match DecodeCondition(raw)
    case None => None
    case Some(p) =>
      match PredicateType(p)
      case None => None
      case Some(typ) =>
        if typ == "opened_email" || typ == "clicked_link" then
          match DecodeEngagement(p, true)
          case Some(e) => Some(if typ == "opened_email" then OpenedEmail(e.node) else ClickedLink(e.node, e.url))
          case None => None
        else if typ == "has_tag" then
          match DecodeHasTag(p)
          case Some(tag) => Some(HasTag(tag))
          case None => None
        else if typ == "on_list" then
          match DecodeOnList(p)
          case Some(list) => if list == NIL then None else Some(OnList(list))
          case None => None
        else if typ == "event_received" then
          match DecodeEvent(p)
          case Some(e) => Some(EventReceived(e.name, e.within))
          case None => None
        else None
  }

  /** waitUntil: the instant to wake at, or None when the configuration is rejected. */
  function WakeAt(raw: Json, now: int, lib: Library): Option<int> {
    match DecodeWait(raw)
    case None => None
    case Some(c) =>
      if c.mode == "duration" then
        if DurationOk(c) then Some(now + c.seconds.value * SECOND) else None
      else if c.mode != "until" || c.seconds.Some? || (c.weekday.Some? && !(1 <= c.weekday.value <= 7)) then None
      else
        match ReadClock(c.time)
        case None => None
        case Some(clock) =>
          if c.zone !in lib.zones then None
          else Some(NextOccurrence(now, lib.zones[c.zone] * SECOND, clock, c.weekday))
  }

  /** The engine can act on this node without an invalid-reference failure. */
  predicate Readable(node: Node, lib: Library) {
    match node.kind
    case Trigger => true
    case Exit => true
    case SendEmail => ReadSend(node.config).Some?
    case Wait => DecodeWait(node.config).Some? && WakeAt(node.config, 0, lib).Some?
    case Condition => ReadCondition(node.config).Some?
    case AddTag => ReadTag(node.config).Some?
    case RemoveTag => ReadTag(node.config).Some?
    case UnknownKind(_) => false
  }

  // ---- The two agree ----

  lemma EngagementWidens(raw: Json)
    requires DecodeEngagement(raw, false).Some?
    ensures DecodeEngagement(raw, true) == DecodeEngagement(raw, false)
  {
    assert "url" !in raw.fields;
  }

  /** Every configuration validation lets through, the engine can read at its node. */
  lemma AcceptedIsReadable(node: Node, refs: References, lib: Library)
    requires var check := CheckConfig(node, refs, lib); check.Fine? || check.Refers?
    ensures Readable(node, lib)
    ensures var check := CheckConfig(node, refs, lib);
            check.Refers? ==>
              var read := ReadCondition(node.config).value;
              (read.OpenedEmail? || read.ClickedLink?) && read.send == check.send
  {
    match node.kind
    case Condition =>
      var p := DecodeCondition(node.config).value;
      if PredicateType(p) == Some("opened_email") { EngagementWidens(p); }
    case Wait =>
      var c := DecodeWait(node.config).value;
      if c.mode != "duration" { ValidClockReads(c.time); }
    case _ =>
  }

  /** What validation asks of a condition beyond what the engine needs to evaluate it. */
  predicate ConditionDemands(raw: Json, refs: References, lib: Library)
    requires ReadCondition(raw).Some?
  {
    match ReadCondition(raw).value
    case OpenedEmail(send) => IdOk(send) && "url" !in DecodeCondition(raw).value.fields
    case ClickedLink(send, url) => IdOk(send) && (url.Some? ==> url.value in lib.webAddresses)
    case HasTag(tag) => LabelOk(tag, 64)
    case OnList(list) => Listed(refs.lists, list)
    case EventReceived(name, within) => LabelOk(name, 128) && (within.Some? ==> 1 <= within.value <= MAX_WAIT)
  }

  /** What validation asks of a readable configuration beyond that. */
  predicate Demands(node: Node, refs: References, lib: Library)
    requires Readable(node, lib)
  {
    match node.kind
    case SendEmail => Listed(refs.templates, ReadSend(node.config).value.template)
    case Wait => DecodeWait(node.config).value.mode == "duration" || ValidClock(DecodeWait(node.config).value.time)
    case Condition => ConditionDemands(node.config, refs, lib)
    case AddTag => |Trim(ReadTag(node.config).value)| <= 64
    case RemoveTag => |Trim(ReadTag(node.config).value)| <= 64
    case _ => true
  }

  lemma EngagementNarrows(raw: Json)
    requires DecodeEngagement(raw, true).Some? && "url" !in raw.fields
    ensures DecodeEngagement(raw, false) == DecodeEngagement(raw, true)
  {
    assert raw.fields.Keys <= {"type", "node_id"};
  }

  lemma ConditionsAgree(raw: Json, refs: References, lib: Library)
    ensures var check := CheckCondition(raw, refs, lib);
            check.Fine? || check.Refers? <==> ReadCondition(raw).Some? && ConditionDemands(raw, refs, lib)
  {
    if DecodeCondition(raw).Some? {
      var p := DecodeCondition(raw).value;
      if PredicateType(p) == Some("opened_email") {
        if DecodeEngagement(p, false).Some? {
          EngagementWidens(p);
        } else if DecodeEngagement(p, true).Some? && "url" !in p.fields {
          EngagementNarrows(p);
        }
      }
    }
  }

  lemma WaitsAgree(raw: Json, lib: Library)
    ensures CheckWait(raw, lib).Fine? <==>
              && DecodeWait(raw).Some? && WakeAt(raw, 0, lib).Some?
              && (DecodeWait(raw).value.mode == "duration" || ValidClock(DecodeWait(raw).value.time))
  {
    if DecodeWait(raw).Some? && ValidClock(DecodeWait(raw).value.time) {
      ValidClockReads(DecodeWait(raw).value.time);
    }
  }

  /** Validation accepts exactly what the engine can read and what it demands on top. */
  lemma ValidationIsStricter(node: Node, refs: References, lib: Library)
    requires node.kind in {SendEmail, Wait, Condition, AddTag, RemoveTag}
    ensures var check := CheckConfig(node, refs, lib);
            check.Fine? || check.Refers? <==> Readable(node, lib) && Demands(node, refs, lib)
  {
    match node.kind
    case Condition => ConditionsAgree(node.config, refs, lib);
    case Wait => WaitsAgree(node.config, lib);
    case _ =>
  }

  /** A readable wait always lies ahead: a duration by its length, a clock time by at most a week. */
  lemma WakesLater(raw: Json, now: int, lib: Library)
    ensures var wake := WakeAt(raw, now, lib);
            && wake.Some? == WakeAt(raw, 0, lib).Some?
            && (wake.Some? ==> now < wake.value <= now + MAX_WAIT * SECOND)
            && (wake.Some? && DecodeWait(raw).value.mode == "duration" ==> now + MIN_WAIT * SECOND <= wake.value)
  {
    if WakeAt(raw, now, lib).Some? {
      var c := DecodeWait(raw).value;
      if c.mode != "duration" {
        NextOccurrenceMatches(now, lib.zones[c.zone] * SECOND, ReadClock(c.time).value, c.weekday);
      }
    }
  }

  /** In "until" mode the wake-up is the first instant after now that matches the configuration. */
  lemma WakesFirst(raw: Json, now: int, lib: Library, t: int)
    requires WakeAt(raw, now, lib).Some? && DecodeWait(raw).value.mode != "duration"
    requires var c := DecodeWait(raw).value;
             now < t && Matches(t, lib.zones[c.zone] * SECOND, ReadClock(c.time).value, c.weekday)
    ensures WakeAt(raw, now, lib).value <= t
    ensures var c := DecodeWait(raw).value;
            Matches(WakeAt(raw, now, lib).value, lib.zones[c.zone] * SECOND, ReadClock(c.time).value, c.weekday)
  {
    var c := DecodeWait(raw).value;
    NextOccurrenceMatches(now, lib.zones[c.zone] * SECOND, ReadClock(c.time).value, c.weekday);
    NextOccurrenceIsFirst(now, lib.zones[c.zone] * SECOND, ReadClock(c.time).value, c.weekday, t);
  }
}
