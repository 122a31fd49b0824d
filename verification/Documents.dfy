/**
 * What a node's configuration says, field by field: which documents are sound, which records they name,
 * and what the engine makes of them. Validation's checks and the engine's readings are proved to decide
 * exactly this.
 */
module Documents {
  import opened Prelude
  import opened Graphs
  import opened Waits
  import opened Configs

  // ---- Fields ----

  predicate OnlyKeys(raw: Json, keys: set<string>) { raw.Obj? && raw.fields.Keys <= keys }

  /** Present and not null. */
  predicate Given(f: map<string, Json>, key: string) { key in f && f[key] != Null }

  /** Text, if it is given at all. */
  predicate TextField(f: map<string, Json>, key: string) { Given(f, key) ==> f[key].Str? }

  function Said(f: map<string, Json>, key: string): string {
    if key in f && f[key].Str? then f[key].text else ""
  }

  /** A whole number that fits 64 bits, if it is given at all. */
  predicate IntField(f: map<string, Json>, key: string) {
    Given(f, key) ==> f[key].Int? && -0x8000_0000_0000_0000 <= f[key].number < 0x8000_0000_0000_0000
  }

  predicate IntWithin(f: map<string, Json>, key: string, low: int, high: int) {
    Given(f, key) ==> f[key].Int? && low <= f[key].number <= high
  }

  predicate FlagField(f: map<string, Json>, key: string) { key in f && f[key].Bool? }

  // ---- Labels ----

  predicate AllBlank(s: string) { forall i :: 0 <= i < |s| ==> Blank(s[i]) }

  /** There are only blanks before `i` and from `j` on, and none next to them. */
  ghost predicate CoreAt(s: string, i: int, j: int) {
    && 0 <= i < j <= |s|
    && (forall k :: 0 <= k < |s| && !(i <= k < j) ==> Blank(s[k]))
    && !Blank(s[i]) && !Blank(s[j - 1])
  }

  /** Not blank, and at most `max` characters between the blanks at both ends. */
  ghost predicate Label(s: string, max: nat) { exists i, j :: CoreAt(s, i, j) && j - i <= max }

  lemma {:induction false} TrimIsCore(s: string) returns (i: int, j: int)
    ensures Trim(s) == [] <==> AllBlank(s)
    ensures Trim(s) != [] ==> CoreAt(s, i, j) && Trim(s) == s[i..j]
    decreases |s|
  {
    i, j := 0, |s|;
    if s != [] && Blank(s[0]) {
      var rest := s[1..];
      assert forall k :: 0 <= k < |rest| ==> rest[k] == s[k + 1];
      assert forall k :: 0 < k < |s| ==> s[k] == rest[k - 1];
      i, j := TrimIsCore(rest);
      i, j := i + 1, j + 1;
    } else if s != [] && Blank(Last(s)) {
      var front := s[..|s| - 1];
      assert forall k :: 0 <= k < |front| ==> front[k] == s[k];
      i, j := TrimIsCore(front);
    }
  }

  lemma LabelOkMeans(s: string, max: nat)
    ensures LabelOk(s, max) <==> Label(s, max)
  {
    var i, j := TrimIsCore(s);
    if Label(s, max) {
      var a, b :| CoreAt(s, a, b) && b - a <= max;
      assert !AllBlank(s);
      assert i == a && j == b;
    }
  }

  // ---- Uuids ----

  predicate SpelledAs(s: string, digits: string)
    requires |digits| == 32
  {
    || s == digits
    || s == Dashed(digits)
    || (|s| == 38 && s[1..37] == Dashed(digits))
    || (|s| == 45 && EqualFold(s[..9], "urn:uuid:") && s[9..] == Dashed(digits))
  }

  /** The text is one of the spellings of this uuid, in either case. */
  ghost predicate Spells(s: string, value: string) {
    exists digits :: |digits| == 32 && IsHex(digits) && Lowered(digits) == value && SpelledAs(s, digits)
  }

  lemma DashedUndashed(s: string)
    requires |s| == 36 && s[8] == s[13] == s[18] == s[23] == '-'
    ensures |Undashed(s)| == 32 && Dashed(Undashed(s)) == s
  {
    var d := Undashed(s);
    assert d[..8] == s[..8] && d[8..12] == s[9..13] && d[12..16] == s[14..18];
    assert d[16..20] == s[19..23] && d[20..] == s[24..];
    assert s == s[..8] + [s[8]] + s[9..13] + [s[13]] + s[14..18] + [s[18]] + s[19..23] + [s[23]] + s[24..];
  }

  lemma SpelledIsUnwrapped(s: string, digits: string)
    requires |digits| == 32
    ensures SpelledAs(s, digits) <==> Undashed(Unwrapped(s)) == digits
  {
    UndashedDashed(digits);
    var body := Unwrapped(s);
    if Undashed(body) == digits && body != digits {
      DashedUndashed(body);
    }
  }

  lemma UuidMeans(s: string, value: string)
    ensures UuidValue(s) == Some(value) <==> Spells(s, value)
  {
    var digits := Undashed(Unwrapped(s));
    if |digits| == 32 {
      SpelledIsUnwrapped(s, digits);
    }
    if Spells(s, value) {
      var d :| |d| == 32 && IsHex(d) && Lowered(d) == value && SpelledAs(s, d);
      SpelledIsUnwrapped(s, d);
    }
  }

  /** The field names the record with this uuid. */
  ghost predicate Names(f: map<string, Json>, key: string, value: string) {
    key in f && f[key].Str? && Spells(f[key].text, value) && value != "00000000000000000000000000000000"
  }

  ghost predicate NamesOne(f: map<string, Json>, key: string) { exists value :: Names(f, key, value) }

  /** It names a record that is not among the known ones. */
  ghost predicate NamesMissing(f: map<string, Json>, key: string, known: Option<set<string>>) {
    known.Some? && exists value :: Names(f, key, value) && value !in known.value
  }

  lemma FieldMeans(f: map<string, Json>, key: string)
    ensures var value := Uuid(f, key);
            if value.Some? && value.value != NIL then Names(f, key, value.value) else !NamesOne(f, key)
    ensures forall a, b :: Names(f, key, a) && Names(f, key, b) ==> a == b
  {
    if key in f && f[key].Str? {
      forall value
        ensures UuidValue(f[key].text) == Some(value) <==> Spells(f[key].text, value)
      {
        UuidMeans(f[key].text, value);
      }
    }
  }

  // ---- Sound documents ----

  ghost predicate TriggerSound(raw: Json) {
    && OnlyKeys(raw, {"type", "list_id", "tag", "name"})
    && var f := raw.fields;
       && TextField(f, "type") && TextField(f, "tag") && TextField(f, "name") && NamesOne(f, "list_id")
       && (|| (Said(f, "type") == "list_joined" && Said(f, "tag") == "" && Said(f, "name") == "")
           || (Said(f, "type") == "tag_added" && Label(Said(f, "tag"), 64) && Said(f, "name") == "")
           || (Said(f, "type") == "event" && Said(f, "tag") == "" && Label(Said(f, "name"), 128)))
  }

  ghost predicate SendSound(raw: Json) {
    && OnlyKeys(raw, {"template_id", "track_opens", "track_clicks"})
    && NamesOne(raw.fields, "template_id")
    && FlagField(raw.fields, "track_opens") && FlagField(raw.fields, "track_clicks")
  }

  /** A length between a minute and a year, or a clock time in a known zone, on a weekday if one is given. */
  predicate WaitSound(raw: Json, lib: Library) {
    && OnlyKeys(raw, {"mode", "seconds", "weekday", "time", "timezone"})
    && var f := raw.fields;
       && TextField(f, "mode") && TextField(f, "time") && TextField(f, "timezone")
       && (|| (Said(f, "mode") == "duration" && Given(f, "seconds") && IntWithin(f, "seconds", 60, 31536000)
               && !Given(f, "weekday") && Said(f, "time") == "" && Said(f, "timezone") == "")
           || (Said(f, "mode") == "until" && !Given(f, "seconds") && IntWithin(f, "weekday", 1, 7)
               && ValidClock(Said(f, "time")) && Said(f, "timezone") in lib.zones))
  }

  ghost predicate QuestionSound(f: map<string, Json>, lib: Library) {
    && TextField(f, "type")
    && (|| (Said(f, "type") == "opened_email" && f.Keys <= {"type", "node_id"}
            && TextField(f, "node_id") && IdOk(Id(Said(f, "node_id"))))
        || (Said(f, "type") == "clicked_link" && f.Keys <= {"type", "node_id", "url"}
            && TextField(f, "node_id") && IdOk(Id(Said(f, "node_id")))
            && TextField(f, "url") && (Given(f, "url") ==> Said(f, "url") in lib.webAddresses))
        || (Said(f, "type") == "has_tag" && f.Keys <= {"type", "tag"}
            && TextField(f, "tag") && Label(Said(f, "tag"), 64))
        || (Said(f, "type") == "on_list" && f.Keys <= {"type", "list_id"} && NamesOne(f, "list_id"))
        || (Said(f, "type") == "event_received" && f.Keys <= {"type", "name", "within_seconds"}
            && TextField(f, "name") && Label(Said(f, "name"), 128) && IntWithin(f, "within_seconds", 1, 31536000)))
  }

  /** The document holds a question and nothing else. */
  predicate HasQuestion(raw: Json) {
    OnlyKeys(raw, {"predicate"}) && "predicate" in raw.fields && raw.fields["predicate"].Obj?
  }

  function Question(raw: Json): map<string, Json>
    requires HasQuestion(raw)
  {
    raw.fields["predicate"].fields
  }

  ghost predicate TagSound(raw: Json) {
    OnlyKeys(raw, {"tag"}) && TextField(raw.fields, "tag") && Label(Said(raw.fields, "tag"), 64)
  }

  /** The document fits its node's kind, whatever records exist. */
  ghost predicate Sound(node: Node, lib: Library) {
    match node.kind
    case Trigger => TriggerSound(node.config)
    case SendEmail => SendSound(node.config)
    case Wait => WaitSound(node.config, lib)
    case Condition => HasQuestion(node.config) && QuestionSound(Question(node.config), lib)
    case AddTag => TagSound(node.config)
    case RemoveTag => TagSound(node.config)
    case Exit => node.config == Obj(map[])
    case UnknownKind(_) => false
  }

  ghost predicate Unlisted(node: Node, refs: References) {
    || (node.kind == Trigger && node.config.Obj? && NamesMissing(node.config.fields, "list_id", refs.lists))
    || (node.kind == Condition && HasQuestion(node.config) && Said(Question(node.config), "type") == "on_list"
        && NamesMissing(Question(node.config), "list_id", refs.lists))
  }

  ghost predicate Untemplated(node: Node, refs: References) {
    node.kind == SendEmail && node.config.Obj? && NamesMissing(node.config.fields, "template_id", refs.templates)
  }

  /** The condition asks about the mail of this node. */
  predicate AsksAbout(node: Node, send: Id) {
    && node.kind == Condition && HasQuestion(node.config)
    && Said(Question(node.config), "type") in {"opened_email", "clicked_link"}
    && Id(Said(Question(node.config), "node_id")) == send
  }

  ghost predicate SoundConfig(node: Node, refs: References, lib: Library) {
    Sound(node, lib) && !Unlisted(node, refs) && !Untemplated(node, refs)
  }

  // ---- What validateConfig decides ----

  /** What each verdict of validateConfig means; every node has exactly one. */
  ghost predicate Verdict(node: Node, refs: References, lib: Library, check: Check) {
    match check
    case UnknownNodeKind => node.kind.UnknownKind?
    case InvalidConfig => !node.kind.UnknownKind? && !Sound(node, lib)
    case ListNotFound => Sound(node, lib) && Unlisted(node, refs)
    case TemplateNotFound => Sound(node, lib) && Untemplated(node, refs)
    case Refers(send) => SoundConfig(node, refs, lib) && AsksAbout(node, send)
    case Fine => SoundConfig(node, refs, lib) && forall send :: !AsksAbout(node, send)
  }

  lemma TriggerMeans(node: Node, refs: References, lib: Library)
    requires node.kind == Trigger
    ensures Verdict(node, refs, lib, CheckConfig(node, refs, lib))
  {
    hide LabelOk, Label, Uuid, Spells, UuidValue;
    if node.config.Obj? {
      FieldMeans(node.config.fields, "list_id");
      LabelOkMeans(Said(node.config.fields, "tag"), 64);
      LabelOkMeans(Said(node.config.fields, "name"), 128);
    }
  }

  lemma SendMeans(node: Node, refs: References, lib: Library)
    requires node.kind == SendEmail
    ensures Verdict(node, refs, lib, CheckConfig(node, refs, lib))
  {
    if node.config.Obj? {
      FieldMeans(node.config.fields, "template_id");
    }
  }

  lemma WaitMeans(node: Node, refs: References, lib: Library)
    requires node.kind == Wait
    ensures Verdict(node, refs, lib, CheckConfig(node, refs, lib))
  {
  }

  lemma TagMeans(node: Node, refs: References, lib: Library)
    requires node.kind in {AddTag, RemoveTag}
    ensures Verdict(node, refs, lib, CheckConfig(node, refs, lib))
  {
    if node.config.Obj? {
      LabelOkMeans(Said(node.config.fields, "tag"), 64);
    }
  }

  lemma EngagementMeans(node: Node, refs: References, lib: Library)
    requires node.kind == Condition && HasQuestion(node.config)
    requires Said(Question(node.config), "type") in {"opened_email", "clicked_link"}
    ensures Verdict(node, refs, lib, CheckConfig(node, refs, lib))
  {
    hide LabelOk, Label, NamesOne, Names, Uuid;
  }

  lemma ListMeans(node: Node, refs: References, lib: Library)
    requires node.kind == Condition && HasQuestion(node.config) && Said(Question(node.config), "type") == "on_list"
    ensures Verdict(node, refs, lib, CheckConfig(node, refs, lib))
  {
    hide LabelOk, Label, Uuid, Spells, UuidValue;
    FieldMeans(Question(node.config), "list_id");
  }

  lemma LabelMeans(node: Node, refs: References, lib: Library)
    requires node.kind == Condition && HasQuestion(node.config)
    requires Said(Question(node.config), "type") !in {"opened_email", "clicked_link", "on_list"}
    ensures Verdict(node, refs, lib, CheckConfig(node, refs, lib))
  {
    hide LabelOk, Label, NamesOne, Names, Uuid;
    LabelOkMeans(Said(Question(node.config), "tag"), 64);
    LabelOkMeans(Said(Question(node.config), "name"), 128);
  }

  lemma NoQuestionMeans(node: Node, refs: References, lib: Library)
    requires node.kind == Condition && !HasQuestion(node.config)
    ensures Verdict(node, refs, lib, CheckConfig(node, refs, lib))
  {
  }

  lemma ConditionMeans(node: Node, refs: References, lib: Library)
    requires node.kind == Condition
    ensures Verdict(node, refs, lib, CheckConfig(node, refs, lib))
  {
    hide Verdict, CheckConfig;
    if !HasQuestion(node.config) {
      NoQuestionMeans(node, refs, lib);
    } else if Said(Question(node.config), "type") in {"opened_email", "clicked_link"} {
      EngagementMeans(node, refs, lib);
    } else if Said(Question(node.config), "type") == "on_list" {
      ListMeans(node, refs, lib);
    } else {
      LabelMeans(node, refs, lib);
    }
  }

  /** For every document: validateConfig gives the one verdict that its fields call for. */
  lemma CheckMeans(node: Node, refs: References, lib: Library)
    ensures Verdict(node, refs, lib, CheckConfig(node, refs, lib))
  {
    match node.kind
    case Trigger => TriggerMeans(node, refs, lib);
    case SendEmail => SendMeans(node, refs, lib);
    case Wait => WaitMeans(node, refs, lib);
    case Condition => ConditionMeans(node, refs, lib);
    case AddTag => TagMeans(node, refs, lib);
    case RemoveTag => TagMeans(node, refs, lib);
    case _ =>
  }

  lemma OneVerdict(node: Node, refs: References, lib: Library, a: Check, b: Check)
    requires Verdict(node, refs, lib, a) && Verdict(node, refs, lib, b)
    ensures a == b
  {
  }

  // ---- What the engine reads ----

  /** The engine can read every sound document at its node. */
  lemma SoundIsReadable(node: Node, refs: References, lib: Library)
    requires SoundConfig(node, refs, lib)
    ensures Readable(node, lib)
  {
    hide CheckConfig, Sound, Unlisted, Untemplated, AsksAbout, Readable;
    CheckMeans(node, refs, lib);
    assert !CheckConfig(node, refs, lib).UnknownNodeKind? by {
      UnknownIsUnsound(node, lib);
    }
    AcceptedIsReadable(node, refs, lib);
  }

  lemma UnknownIsUnsound(node: Node, lib: Library)
    requires Sound(node, lib)
    ensures !node.kind.UnknownKind?
  {
  }

  /** send_email: the template it names, and both flags as written. */
  lemma ReadSendMeans(raw: Json, c: SendConfig)
    ensures ReadSend(raw) == Some(c) <==>
              && SendSound(raw) && Names(raw.fields, "template_id", c.template)
              && c.opens == Some(raw.fields["track_opens"].flag) && c.clicks == Some(raw.fields["track_clicks"].flag)
  {
    hide Uuid, Spells, UuidValue;
    if raw.Obj? {
      FieldMeans(raw.fields, "template_id");
    }
  }

  /** add_tag and remove_tag: the tag as written, if it is not blank. */
  lemma ReadTagMeans(raw: Json, tag: string)
    ensures ReadTag(raw) == Some(tag) <==>
              OnlyKeys(raw, {"tag"}) && TextField(raw.fields, "tag") && tag == Said(raw.fields, "tag") && !AllBlank(tag)
  {
    var i, j := TrimIsCore(tag);
  }

  /** What a condition asks, as its document says it. */
  ghost predicate Denotes(raw: Json, p: Predicate) {
    && HasQuestion(raw) && TextField(Question(raw), "type")
    && var f := Question(raw);
       match p
       case OpenedEmail(send) =>
         && Said(f, "type") == "opened_email" && f.Keys <= {"type", "node_id", "url"}
         && TextField(f, "node_id") && TextField(f, "url") && send == Id(Said(f, "node_id"))
       case ClickedLink(send, url) =>
         && Said(f, "type") == "clicked_link" && f.Keys <= {"type", "node_id", "url"}
         && TextField(f, "node_id") && TextField(f, "url") && send == Id(Said(f, "node_id"))
         && url == (if Given(f, "url") then Some(Said(f, "url")) else None)
       case HasTag(tag) =>
         && Said(f, "type") == "has_tag" && f.Keys <= {"type", "tag"} && TextField(f, "tag") && tag == Said(f, "tag")
       case OnList(list) => Said(f, "type") == "on_list" && f.Keys <= {"type", "list_id"} && Names(f, "list_id", list)
       case EventReceived(name, within) =>
         && Said(f, "type") == "event_received" && f.Keys <= {"type", "name", "within_seconds"}
         && TextField(f, "name") && IntField(f, "within_seconds") && name == Said(f, "name")
         && within == (if Given(f, "within_seconds") then Some(f["within_seconds"].number) else None)
  }

  lemma ReadConditionMeans(raw: Json, p: Predicate)
    ensures ReadCondition(raw) == Some(p) <==> Denotes(raw, p)
  {
    hide Uuid, Spells, UuidValue;
    if HasQuestion(raw) {
      FieldMeans(Question(raw), "list_id");
    }
  }

  // ---- When a wait ends ----

  /** The text is a decimal number, with or without a sign. */
  ghost predicate Writes(s: string, n: int) {
    || (s != [] && AllDigits(s) && n == DigitsValue(s))
    || (|s| > 1 && s[0] == '+' && AllDigits(s[1..]) && n == DigitsValue(s[1..]))
    || (|s| > 1 && s[0] == '-' && AllDigits(s[1..]) && n == -(DigitsValue(s[1..]) as int))
  }

  /** Hours, one colon, minutes. */
  ghost predicate ClockReads(s: string, c: Clock) {
    && InDay(c)
    && exists k :: 0 <= k < |s| && s[k] == ':' && ':' !in s[..k] && ':' !in s[k + 1..]
                   && Writes(s[..k], c.hour) && Writes(s[k + 1..], c.minute)
  }

  lemma AtoiMeans(s: string, n: int)
    requires 0 <= n <= 59
    ensures Atoi(s) == Some(n) <==> Writes(s, n)
  {
    if s != [] && (s[0] == '-' || s[0] == '+') {
      assert !IsDigit(s[0]);
    }
  }

  lemma FirstColon(s: string, k: int)
    requires 0 <= k < |s| && s[k] == ':' && ':' !in s[..k]
    ensures IndexOf(s, ':') == k
  {
    forall j | 0 <= j < k
      ensures s[j] != ':'
    {
      assert s[..k][j] == s[j];
    }
  }

  lemma ReadClockMeans(s: string, c: Clock)
    ensures ReadClock(s) == Some(c) <==> ClockReads(s, c)
  {
    var colon := IndexOf(s, ':');
    if InDay(c) {
      if colon < |s| {
        AtoiMeans(s[..colon], c.hour);
        AtoiMeans(s[colon + 1..], c.minute);
      }
      if ClockReads(s, c) {
        var k :| 0 <= k < |s| && s[k] == ':' && ':' !in s[..k] && ':' !in s[k + 1..]
                 && Writes(s[..k], c.hour) && Writes(s[k + 1..], c.minute);
        FirstColon(s, k);
      }
    }
  }

  /** No earlier instant after now shows the clock time on the weekday. */
  ghost predicate FirstMatch(now: int, offset: int, clock: Clock, weekday: Option<int>, t: int) {
    now < t && Matches(t, offset, clock, weekday) && forall u :: now < u < t ==> !Matches(u, offset, clock, weekday)
  }

  /** The wait ends at this instant: after the length it gives, or at the first instant its clock time names. */
  ghost predicate Wakes(raw: Json, now: int, lib: Library, t: int) {
    && OnlyKeys(raw, {"mode", "seconds", "weekday", "time", "timezone"})
    && var f := raw.fields;
       && TextField(f, "mode") && TextField(f, "time") && TextField(f, "timezone")
       && (|| (Said(f, "mode") == "duration" && Given(f, "seconds") && IntWithin(f, "seconds", 60, 31536000)
               && !Given(f, "weekday") && Said(f, "time") == "" && Said(f, "timezone") == ""
               && t == now + f["seconds"].number * 1_000_000_000)
           || (Said(f, "mode") == "until" && !Given(f, "seconds") && IntWithin(f, "weekday", 1, 7)
               && Said(f, "timezone") in lib.zones
               && exists clock :: ClockReads(Said(f, "time"), clock)
                    && FirstMatch(now, lib.zones[Said(f, "timezone")] * SECOND, clock,
                                  if Given(f, "weekday") then Some(f["weekday"].number) else None, t)))
  }

  lemma NextIsFirst(now: int, offset: int, clock: Clock, weekday: Option<int>, t: int)
    requires InDay(clock)
    ensures t == NextOccurrence(now, offset, clock, weekday) <==> FirstMatch(now, offset, clock, weekday, t)
  {
    var next := NextOccurrence(now, offset, clock, weekday);
    NextOccurrenceMatches(now, offset, clock, weekday);
    forall u | now < u && Matches(u, offset, clock, weekday)
      ensures next <= u
    {
      NextOccurrenceIsFirst(now, offset, clock, weekday, u);
    }
  }

  /** For every document and every instant: the engine wakes then if and only if the document says so. */
  lemma WakeMeans(raw: Json, now: int, lib: Library, t: int)
    ensures WakeAt(raw, now, lib) == Some(t) <==> Wakes(raw, now, lib, t)
  {
    hide FirstMatch, NextOccurrence, ClockReads, ReadClock;
    if raw.Obj? {
      var f := raw.fields;
      forall clock
        ensures ReadClock(Said(f, "time")) == Some(clock) <==> ClockReads(Said(f, "time"), clock)
      {
        ReadClockMeans(Said(f, "time"), clock);
      }
      var read, zone := ReadClock(Said(f, "time")), Said(f, "timezone");
      if read.Some? && zone in lib.zones {
        NextIsFirst(now, lib.zones[zone] * SECOND, read.value,
                    if Given(f, "weekday") && f["weekday"].Int? then Some(f["weekday"].number) else None, t);
      }
    }
  }
}
