/** `CalendarFormatAdapter`: turns a generated calendar into the app's
    import formats. Field extraction is a chain of fall-backs over the
    event's keys; the two transformations and the validator walk the event
    list. Python's `isalnum`, `lower` and `capitalize` are taken on ASCII. */
module FormatAdapter {
  import opened Wrappers
  import opened JsonValue
  import Text
  import OrderedMap
  import Dates

  // ---------------------------------------------------------------------------
  // Constants

  const EmailEmoji: string := "\U{2709}\U{FE0F}"
  const SmsEmoji: string := "\U{1F4AC}"
  const PushEmoji: string := "\U{1F4F1}"

  const MaxTitle := 100
  const MaxDescription := 500
  const MaxDate := 10
  const MaxSlug := 50
  const DefaultTime := "10:00"
  const DefaultAudienceSize := 10000

  /** The keys tried for each field, in priority order. */
  const DateKeys: seq<string> := ["send_date", "date", "event_date", "planned_send_date"]
  const TitleKeys: seq<string> := ["hero_h1", "name", "title"]
  const DescriptionKeys: seq<string> := ["preview_text", "sub_headline", "description", "content_theme"]

  /** `s[:n]` */
  function Take(s: string, n: nat): (r: string)
    ensures |r| <= n && r <= s
    ensures |s| <= n ==> r == s
  {
    if |s| <= n then s else s[..n]
  }

  // ---------------------------------------------------------------------------
  // Field look-up

  /** The first key, in the order given, that the event has with a value
      passing `ok`; -1 when there is none. */
  function FirstKey(event: Value, keys: seq<string>, ok: Value -> bool): (r: int)
    requires event.Obj?
    ensures -1 <= r < |keys|
    ensures r == -1 <==> forall i :: 0 <= i < |keys| ==> !(Has(event, keys[i]) && ok(Lookup(event, keys[i], Null)))
    ensures r != -1 ==> Has(event, keys[r]) && ok(Lookup(event, keys[r], Null))
    ensures r != -1 ==> forall i :: 0 <= i < r ==> !(Has(event, keys[i]) && ok(Lookup(event, keys[i], Null)))
  {
    if keys == [] then -1
    else if Has(event, keys[0]) && ok(Lookup(event, keys[0], Null)) then 0
    else
      var j := FirstKey(event, keys[1..], ok);
      assert forall i :: 1 <= i < |keys| ==> keys[1..][i - 1] == keys[i];
      if j == -1 then -1 else j + 1
  }

  /** The value of the first of `keys` that the event has with a value passing
      `ok`. */
  function FirstValue(event: Value, keys: seq<string>, ok: Value -> bool): Option<Value>
    requires event.Obj?
  {
    var i := FirstKey(event, keys, ok);
    if i == -1 then None else Some(Lookup(event, keys[i], Null))
  }

  predicate IsString(v: Value) { v.Str? }

  /** `_extract_date`: on a dict, the first of the date keys holding a string,
      cut to ten characters. On a list or string, `in` tests membership and
      the subscript that follows a hit raises; other values raise at once. */
  function ExtractDate(event: Value): (r: Result<Option<string>, PyExc>)
    ensures r.Ok? && r.value.Some? ==> event.Obj? && |r.value.value| <= MaxDate
    ensures event.Obj? ==> r.Ok?
  {
    if event.Obj? then
      match FirstValue(event, DateKeys, IsString)
      case None => Ok(None)
      case Some(v) => Ok(Some(Take(v.s, MaxDate)))
    else if !(event.Arr? || event.Str?) then Err(TypeError)
    else if exists k :: k in DateKeys && In(k, event) == Ok(true) then Err(TypeError)
    else Ok(None)
  }

  /** The date comes from the first date key holding a string, and only keys
      holding strings are used. */
  lemma DatePriority(event: Value, i: int)
    requires event.Obj? && 0 <= i < |DateKeys|
    requires Has(event, DateKeys[i]) && Lookup(event, DateKeys[i], Null).Str?
    requires forall j :: 0 <= j < i ==> !(Has(event, DateKeys[j]) && Lookup(event, DateKeys[j], Null).Str?)
    ensures ExtractDate(event) == Ok(Some(Take(Lookup(event, DateKeys[i], Null).s, MaxDate)))
  {
  }

  /** The value `_extract_title` reads: `subject_lines.variant_a` when
      `subject_lines` is a dict holding it, else the first of `hero_h1`,
      `name`, `title` present. */
  function TitleSource(event: Value): Option<Value>
    requires event.Obj?
  {
    var lines := Lookup(event, "subject_lines", Null);
    if Has(event, "subject_lines") && lines.Obj? && Has(lines, "variant_a") then
      Some(Lookup(lines, "variant_a", Null))
    else FirstValue(event, TitleKeys, _ => true)
  }

  /** `_extract_title`: `str` of the source, cut to 100 characters. */
  function ExtractTitle(event: Value): (r: Option<string>)
    requires event.Obj?
    ensures r.Some? <==> TitleSource(event).Some?
    ensures r.Some? ==> |r.value| <= MaxTitle && r.value <= PyStr(TitleSource(event).value)
  {
    match TitleSource(event)
    case None => None
    case Some(v) => Some(Take(PyStr(v), MaxTitle))
  }

  /** `variant_a` wins over every other source; otherwise the first present
      of `hero_h1`, `name`, `title` is used, whatever its value. */
  lemma TitlePriority(event: Value)
    requires event.Obj?
    ensures var lines := Lookup(event, "subject_lines", Null);
            Has(event, "subject_lines") && lines.Obj? && Has(lines, "variant_a") ==>
              TitleSource(event) == Some(Lookup(lines, "variant_a", Null))
    ensures forall i :: 0 <= i < |TitleKeys| && Has(event, TitleKeys[i])
                        && (forall j :: 0 <= j < i ==> !Has(event, TitleKeys[j]))
                        && !(Has(event, "subject_lines") && Lookup(event, "subject_lines", Null).Obj?
                             && Has(Lookup(event, "subject_lines", Null), "variant_a")) ==>
              TitleSource(event) == Some(Lookup(event, TitleKeys[i], Null))
    ensures TitleSource(event).None? <==>
              !(Has(event, "subject_lines") && Lookup(event, "subject_lines", Null).Obj?
                && Has(Lookup(event, "subject_lines", Null), "variant_a"))
              && !Has(event, "hero_h1") && !Has(event, "name") && !Has(event, "title")
  {
    assert TitleKeys[0] == "hero_h1" && TitleKeys[1] == "name" && TitleKeys[2] == "title";
    if !Has(event, "hero_h1") && !Has(event, "name") && !Has(event, "title") {
      forall i | 0 <= i < |TitleKeys|
        ensures !Has(event, TitleKeys[i])
      {
        assert i == 0 || i == 1 || i == 2;
      }
    }
  }

  /** `_extract_channel`; a channel that is not a string raises. */
  function ExtractChannel(event: Value): (r: Result<string, PyExc>)
    requires event.Obj?
    ensures r.Ok? ==> Text.NoUpper(r.value)
  {
    var c := Lookup(event, "channel", Str("email"));
    if c.Str? then Ok(Text.Lower(c.s)) else Err(AttributeError)
  }

  /** The channel is "email" when the event names none, the lower-cased
      `channel` when it is a string, and raises exactly when `channel` holds
      something other than a string. */
  lemma ChannelChoice(event: Value)
    requires event.Obj?
    ensures !Has(event, "channel") ==> ExtractChannel(event) == Ok("email")
    ensures Has(event, "channel") && Lookup(event, "channel", Null).Str? ==>
              ExtractChannel(event) == Ok(Text.Lower(Lookup(event, "channel", Null).s))
    ensures ExtractChannel(event).Err? <==> Has(event, "channel") && !Lookup(event, "channel", Null).Str?
    ensures ExtractChannel(event).Err? ==> ExtractChannel(event).error == AttributeError
  {
    if !Has(event, "channel") {
      Text.LowerFixed("email");
    }
  }

  /** The emoji `CHANNEL_EMOJIS` gives a channel, e-mail's for any other. */
  function EmojiFor(channel: string): string {
    if channel == "sms" then SmsEmoji
    else if channel == "push" || channel == "mobile_push" then PushEmoji
    else EmailEmoji
  }

  predicate HasEmoji(title: string) {
    Text.Contains(title, EmailEmoji) || Text.Contains(title, SmsEmoji) || Text.Contains(title, PushEmoji)
  }

  /** `_add_emoji_prefix`: a title already carrying a channel emoji is kept;
      otherwise the channel's emoji and a space go in front. */
  function AddEmojiPrefix(title: string, channel: string): (r: string)
    ensures HasEmoji(r)
    ensures Text.EndsWith(r, title)
    ensures r == title <==> HasEmoji(title)
    ensures !HasEmoji(title) ==> Text.StartsWith(r, EmojiFor(channel) + " ")
    ensures |r| <= |title| + 3
  {
    if HasEmoji(title) then title
    else
      var r := EmojiFor(channel) + " " + title;
      assert r[..|EmojiFor(channel)|] == EmojiFor(channel);
      Text.StartsWithContains(r, EmojiFor(channel));
      assert r[|r| - |title|..] == title;
      r
  }

  /** Prefixing twice, with any channels, is prefixing once. */
  lemma EmojiIdempotent(title: string, channel: string, channel': string)
    ensures AddEmojiPrefix(AddEmojiPrefix(title, channel), channel') == AddEmojiPrefix(title, channel)
  {
  }

  /** `_extract_type`: `campaign_type`, else `type`, else "email", lower-cased
      and then mapped through `TYPE_MAPPING`; a type that is not a string
      raises. */
  function ExtractType(event: Value): (r: Result<string, PyExc>)
    requires event.Obj?
    ensures r.Ok? ==> Text.NoUpper(r.value)
  {
    var t := Lookup(event, "campaign_type", Lookup(event, "type", Str("email")));
    if !t.Str? then Err(AttributeError)
    else
      Ok(MapType(Text.Lower(t.s)))
  }

  /** `TYPE_MAPPING.get(k, k)`: product_spotlight and resend map to
      promotional, educational to content, lifecycle, win_back and nurture to
      engagement; promotional and seasonal map to themselves, like every type
      the mapping does not name. */
  function MapType(k: string): (r: string)
    ensures r == k || r == "promotional" || r == "content" || r == "engagement"
    ensures Text.NoUpper(k) ==> Text.NoUpper(r)
  {
    if k == "product_spotlight" || k == "resend" then "promotional"
    else if k == "educational" then "content"
    else if k == "lifecycle" || k == "win_back" || k == "nurture" then "engagement"
    else k
  }

  /** The type read is `campaign_type` when present, else `type` when
      present, else "email"; it raises exactly when the value read is not a
      string, and a string is lower-cased and then mapped by `MapType`. */
  lemma TypeChoice(event: Value)
    requires event.Obj?
    ensures var t := if Has(event, "campaign_type") then Lookup(event, "campaign_type", Null)
                     else if Has(event, "type") then Lookup(event, "type", Null)
                     else Str("email");
            && (ExtractType(event).Err? <==> !t.Str?)
            && (ExtractType(event).Err? ==> ExtractType(event).error == AttributeError)
            && (t.Str? ==> ExtractType(event) == Ok(MapType(Text.Lower(t.s))))
    ensures !Has(event, "campaign_type") && !Has(event, "type") ==> ExtractType(event) == Ok("email")
  {
    Text.LowerFixed("email");
  }

  /** `_extract_description`: `str` of the first truthy of `preview_text`,
      `sub_headline`, `description`, `content_theme`, cut to 500 characters. */
  function ExtractDescription(event: Value): (r: Option<string>)
    requires event.Obj?
    ensures r.Some? ==> |r.value| <= MaxDescription
    ensures r.None? <==> forall i :: 0 <= i < |DescriptionKeys| ==> !Truthy(Lookup(event, DescriptionKeys[i], Null))
  {
    var i := FirstKey(event, DescriptionKeys, Truthy);
    assert forall j :: 0 <= j < |DescriptionKeys| && !Has(event, DescriptionKeys[j]) ==>
             Lookup(event, DescriptionKeys[j], Null) == Null;
    if i == -1 then None else Some(Take(PyStr(Lookup(event, DescriptionKeys[i], Null)), MaxDescription))
  }

  /** The description is the first truthy of the four keys, in their order,
      as a string cut to 500 characters. */
  lemma DescriptionPriority(event: Value, i: int)
    requires event.Obj? && 0 <= i < |DescriptionKeys|
    requires Truthy(Lookup(event, DescriptionKeys[i], Null))
    requires forall j :: 0 <= j < i ==> !Truthy(Lookup(event, DescriptionKeys[j], Null))
    ensures ExtractDescription(event) == Some(Take(PyStr(Lookup(event, DescriptionKeys[i], Null)), MaxDescription))
  {
    var k := FirstKey(event, DescriptionKeys, Truthy);
    assert Has(event, DescriptionKeys[i]);
    assert k != -1 && k <= i;
  }

  /** `_extract_segment`: `segments.primary`, else `segment`, else the
      audience's `segment_id` or `name`, or the audience itself when it is a
      string. */
  function ExtractSegment(event: Value): Option<string>
    requires event.Obj?
  {
    var segments := Lookup(event, "segments", Null);
    var audience := Lookup(event, "audience", Null);
    if Has(event, "segments") && segments.Obj? && Has(segments, "primary") then
      Some(PyStr(Lookup(segments, "primary", Null)))
    else if Has(event, "segment") then Some(PyStr(Lookup(event, "segment", Null)))
    else if !Has(event, "audience") then None
    else if audience.Obj? then
      if Has(audience, "segment_id") then Some(PyStr(Lookup(audience, "segment_id", Null)))
      else if Has(audience, "name") then Some(PyStr(Lookup(audience, "name", Null)))
      else None
    else if audience.Str? then Some(audience.s)
    else None
  }

  /** A segment is found exactly when one of the places it is looked for is
      filled. */
  lemma SegmentFound(event: Value)
    requires event.Obj?
    ensures var segments := Lookup(event, "segments", Null);
            var audience := Lookup(event, "audience", Null);
            ExtractSegment(event).Some? <==>
              (Has(event, "segments") && segments.Obj? && Has(segments, "primary"))
              || Has(event, "segment")
              || (Has(event, "audience") && audience.Obj? && (Has(audience, "segment_id") || Has(audience, "name")))
              || (Has(event, "audience") && audience.Str?)
  {
  }

  /** Where the segment comes from, in the order it is looked for:
      `segments.primary`, then `segment`, then the audience dict's
      `segment_id`, then its `name`, then a string audience; each but the last
      is passed through `str`. */
  lemma SegmentPriority(event: Value)
    requires event.Obj?
    ensures var segments := Lookup(event, "segments", Null);
            var audience := Lookup(event, "audience", Null);
            var nested := Has(event, "segments") && segments.Obj? && Has(segments, "primary");
            && (nested ==> ExtractSegment(event) == Some(PyStr(Lookup(segments, "primary", Null))))
            && (!nested && Has(event, "segment") ==> ExtractSegment(event) == Some(PyStr(Lookup(event, "segment", Null))))
            && (!nested && !Has(event, "segment") && Has(event, "audience") && audience.Obj? ==>
                  ExtractSegment(event) ==
                    if Has(audience, "segment_id") then Some(PyStr(Lookup(audience, "segment_id", Null)))
                    else if Has(audience, "name") then Some(PyStr(Lookup(audience, "name", Null)))
                    else None)
            && (!nested && !Has(event, "segment") && Has(event, "audience") && audience.Str? ==>
                  ExtractSegment(event) == Some(audience.s))
  {
  }

  // ---------------------------------------------------------------------------
  // Send time

  /** "HH:MM" for an hour and a minute. */
  function Clock(hour: nat, minute: nat): (r: string)
    requires hour < 24 && minute < 60
    ensures |r| == 5 && r[2] == ':'
    ensures Text.AllDigits(r[..2]) && Text.AllDigits(r[3..])
  {
    Text.Pad(hour, 2) + ":" + Text.Pad(minute, 2)
  }

  /** The send time with the meridiem markers removed, as the four
      `replace` calls leave it. */
  function NoMeridiem(s: string): string {
    Text.Replace(Text.Replace(Text.Replace(Text.Replace(s, " AM", ""), " PM", ""), "AM", ""), "PM", "")
  }

  /** "HH:MM" from an hour and a minute that were read and are in range. */
  function ClockFrom(hour: Option<int>, minute: Option<int>): (r: Option<string>)
    ensures r.Some? ==> exists h: nat, m: nat :: h < 24 && m < 60 && r.value == Clock(h, m)
  {
    if hour.None? || minute.None? then None
    else if 0 <= hour.value <= 23 && 0 <= minute.value <= 59 then
      var h: nat := hour.value;
      var m: nat := minute.value;
      Some(Clock(h, m))
    else None
  }

  /** "HH:MM" from a string of two `int`-readable parts in range. */
  function ClockOf(t: string): (r: Option<string>)
    ensures r.Some? ==> exists h: nat, m: nat :: h < 24 && m < 60 && r.value == Clock(h, m)
  {
    if !Text.Contains(t, ":") then None
    else
      var parts := Text.SplitOn(t, ':');
      if |parts| != 2 then None
      else ClockFrom(Text.ParseInt(parts[0]), Text.ParseInt(parts[1]))
  }

  /** `_extract_send_time`: a falsy send time gives `None`; otherwise the
      stripped `str` of it, with "AM"/"PM" removed and no 12-hour
      conversion, must read as hour and minute in range. */
  function ExtractSendTime(event: Value): (r: Option<string>)
    requires event.Obj?
    ensures r.Some? ==> exists h: nat, m: nat :: h < 24 && m < 60 && r.value == Clock(h, m)
    ensures !Truthy(Lookup(event, "send_time", Null)) ==> r.None?
  {
    var v := Lookup(event, "send_time", Null);
    if !Truthy(v) then None else ClockOf(NoMeridiem(Text.Strip(PyStr(v))))
  }

  /** No occurrence of a pattern one of whose characters the string lacks. */
  lemma AbsentChar(s: string, pat: string, j: int)
    requires 0 <= j < |pat| && pat[j] !in s
    ensures !Text.Contains(s, pat)
  {
    forall i | 0 <= i <= |s| - |pat|
      ensures !Text.OccursAt(s, pat, i)
    {
    }
  }

  /** Splitting "HH:MM" at the colon gives the two numbers. */
  lemma ClockParts(h: nat, m: nat)
    requires h < 24 && m < 60
    ensures Text.SplitOn(Clock(h, m), ':') == [Text.Pad(h, 2), Text.Pad(m, 2)]
  {
    var c := Clock(h, m);
    assert c[..2] == Text.Pad(h, 2);
    assert Text.CharIndex(c, ':') == 2 by {
      assert c[0] != ':' && c[1] != ':';
      assert ':' !in c[..2];
    }
    var rest := c[3..];
    assert rest == Text.Pad(m, 2);
    assert ':' !in rest;
    assert Text.CharIndex(rest, ':') == -1;
  }

  /** A digit-and-colon string has no meridiem marker to remove. */
  lemma ClockMeridiemFree(h: nat, m: nat)
    requires h < 24 && m < 60
    ensures NoMeridiem(Clock(h, m)) == Clock(h, m)
    ensures Text.Replace(Clock(h, m), "AM", "") == Clock(h, m)
    ensures Text.Replace(Clock(h, m), "PM", "") == Clock(h, m)
  {
    var c := Clock(h, m);
    assert 'A' !in c && 'P' !in c by {
      assert forall i :: 0 <= i < 5 ==> c[i] == ':' || Text.IsDigit(c[i]);
    }
    AbsentChar(c, " AM", 1);
    Text.ReplaceAbsent(c, " AM", "");
    AbsentChar(c, " PM", 1);
    Text.ReplaceAbsent(c, " PM", "");
    AbsentChar(c, "AM", 0);
    Text.ReplaceAbsent(c, "AM", "");
    AbsentChar(c, "PM", 0);
    Text.ReplaceAbsent(c, "PM", "");
  }

  /** "HH:MM" reads back as itself. */
  lemma ClockRoundTrip(h: nat, m: nat)
    requires h < 24 && m < 60
    ensures ClockOf(Clock(h, m)) == Some(Clock(h, m))
  {
    var c := Clock(h, m);
    assert Text.Contains(c, ":") by {
      assert c[2..3] == ":";
      assert Text.OccursAt(c, ":", 2);
    }
    ClockParts(h, m);
    var parts := Text.SplitOn(c, ':');
    assert |parts| == 2;
    Text.ParsePad(h, 2);
    Text.ParsePad(m, 2);
    assert ClockOf(c) == ClockFrom(Text.ParseInt(parts[0]), Text.ParseInt(parts[1]));
  }

  /** A send time already in "HH:MM" form comes back unchanged. */
  lemma SendTimeKept(event: Value, h: nat, m: nat)
    requires event.Obj? && h < 24 && m < 60
    requires Lookup(event, "send_time", Null) == Str(Clock(h, m))
    ensures ExtractSendTime(event) == Some(Clock(h, m))
  {
    var c := Clock(h, m);
    assert Text.IsDigit(c[0]) && Text.IsDigit(c[4]);
    Text.StripUnchanged(c);
    ClockMeridiemFree(h, m);
    ClockRoundTrip(h, m);
  }

  /** " PM" after "HH:MM" is the only marker there, and it goes. */
  lemma PmRemoved(h: nat, m: nat)
    requires h < 24 && m < 60
    ensures NoMeridiem(Clock(h, m) + " PM") == Clock(h, m)
  {
    var c := Clock(h, m);
    var s := c + " PM";
    assert forall i :: 0 <= i < 5 ==> s[i] == ':' || Text.IsDigit(s[i]);
    AbsentChar(s, " AM", 1);
    Text.ReplaceAbsent(s, " AM", "");
    assert s[5] == ' ';
    forall i | 0 <= i < |c|
      ensures !Text.OccursAt(s, " PM", i)
    {
    }
    Text.ReplaceSuffix(c, " PM", "");
    assert c + "" == c;
    ClockMeridiemFree(h, m);
  }

  /** An afternoon time keeps its hour: " PM" is dropped, not converted. */
  lemma AfternoonNotConverted(event: Value, h: nat, m: nat)
    requires event.Obj? && h < 24 && m < 60
    requires Lookup(event, "send_time", Null) == Str(Clock(h, m) + " PM")
    ensures ExtractSendTime(event) == Some(Clock(h, m))
  {
    var s := Clock(h, m) + " PM";
    assert Text.IsDigit(s[0]) && s[|s| - 1] == 'M';
    Text.StripUnchanged(s);
    PmRemoved(h, m);
    ClockRoundTrip(h, m);
  }

  // ---------------------------------------------------------------------------
  // Identifiers and names

  predicate SlugChar(c: char) { Text.IsLower(c) || Text.IsDigit(c) || c == '-' }

  /** The characters of a string that are alphanumeric or a space. */
  function KeepAlnumSpace(s: string): (r: string)
    ensures forall i :: 0 <= i < |r| ==> Text.IsAlnum(r[i]) || r[i] == ' '
    ensures forall i :: 0 <= i < |r| ==> r[i] in s
  {
    if s == [] then []
    else
      var rest := KeepAlnumSpace(s[1..]);
      (if Text.IsAlnum(s[0]) || s[0] == ' ' then [s[0]] else []) + rest
  }

  /** The slug of `_generate_event_id`: lower-cased, apostrophes dropped,
      only letters, digits and spaces kept, words joined by "-", cut to 50. */
  function Slug(title: string): (r: string)
    ensures |r| <= MaxSlug
    ensures forall i :: 0 <= i < |r| ==> SlugChar(r[i])
  {
    var lower := Text.Lower(title);
    var kept := KeepAlnumSpace(Text.Replace(lower, "'", ""));
    var words := Text.SplitWhitespace(kept);
    SlugWords(lower, kept);
    var joined := Text.Join("-", words);
    Text.JoinChars("-", words, SlugChar);
    Take(joined, MaxSlug)
  }

  /** The words of the kept characters are made of slug characters. */
  lemma SlugWords(lower: string, kept: string)
    requires Text.NoUpper(lower)
    requires kept == KeepAlnumSpace(Text.Replace(lower, "'", ""))
    ensures forall k, j :: 0 <= k < |Text.SplitWhitespace(kept)| && 0 <= j < |Text.SplitWhitespace(kept)[k]| ==>
              SlugChar(Text.SplitWhitespace(kept)[k][j])
  {
    var unquoted := Text.Replace(lower, "'", "");
    Text.ReplaceDelete(lower, '\'');
    assert "'" == ['\''];
    forall j | 0 <= j < |kept|
      ensures SlugChar(kept[j]) || kept[j] == ' '
    {
      assert kept[j] in unquoted;
      assert kept[j] in lower;
    }
    Text.SplitWhitespaceChars(kept, c => SlugChar(c) || c == ' ');
    var words := Text.SplitWhitespace(kept);
    forall k, j | 0 <= k < |words| && 0 <= j < |words[k]|
      ensures SlugChar(words[k][j])
    {
      assert Text.NoSpace(words[k]);
    }
  }

  /** `_generate_event_id` */
  function GenerateEventId(clientId: string, date: string, title: string): (r: string)
    ensures Text.StartsWith(r, clientId + "-" + date + "-")
    ensures r[|clientId| + |date| + 2..] == Slug(title)
    ensures |r| <= |clientId| + |date| + 2 + MaxSlug
    ensures forall i :: |clientId| + |date| + 2 <= i < |r| ==> SlugChar(r[i])
  {
    var head := clientId + "-" + date + "-";
    var r := head + Slug(title);
    assert r[..|head|] == head;
    r
  }

  /** `_to_iso8601_datetime`: the date, "T", the time (10:00 when there is
      none) and ":00.000Z". */
  function ToIso8601(date: string, time: Option<string>): (r: string)
    ensures var t := if time.None? || time.value == [] then DefaultTime else time.value;
            |r| == |date| + |t| + 9
            && r[..|date|] == date && r[|date|] == 'T'
            && r[|date| + 1..|date| + 1 + |t|] == t && r[|r| - 8..] == ":00.000Z"
  {
    var t := if time.None? || time.value == [] then DefaultTime else time.value;
    date + "T" + t + ":00.000Z"
  }

  /** A timestamp made from a formatted date and an optional formatted time
      reads back: its first ten characters parse as that date and the five
      after the "T" as that time, or as 10:00 when there was none. */
  lemma IsoReadsBack(d: Dates.Date, t: Option<Dates.Time>)
    requires Dates.ValidDate(d) && (t.Some? ==> Dates.ValidTime(t.value))
    ensures var r := ToIso8601(Dates.FormatDate(d), if t.None? then None else Some(Dates.FormatTime(t.value)));
            |r| == 24 && Dates.ParseDate(r[..10]) == Some(d)
            && Dates.ParseTime24(r[11..16]) == Some(if t.None? then Dates.Time(10, 0) else t.value)
  {
    var date := Dates.FormatDate(d);
    Dates.ParseFormatDate(d);
    var time := if t.None? then Dates.Time(10, 0) else t.value;
    Dates.ParseFormatTime(time);
    if t.None? {
      Dates.TenOClock();
      assert ToIso8601(date, None) == ToIso8601(date, Some(DefaultTime));
    }
    IsoParts(date, Dates.FormatTime(time));
  }

  /** Where the date and the time sit in a timestamp. */
  lemma IsoParts(date: string, time: string)
    requires |date| == 10 && |time| == 5
    ensures var r := ToIso8601(date, Some(time));
            |r| == 24 && r[..10] == date && r[11..16] == time
  {
  }

  /** `_format_client_name`: "-" and "_" both separate words, and each word
      is capitalised; the name keeps the identifier's length. */
  function FormatClientName(clientId: string): (r: string)
    ensures |r| == |clientId|
    ensures '-' !in r && '_' !in r
    ensures forall k :: 0 <= k < |clientId| ==> r[k] == NameChar(clientId, k)
  {
    var dashed := Text.Replace(clientId, "_", "-");
    var words := Text.SplitOn(dashed, '-');
    var names := Capitals(words);
    CapitalsAt(words);
    ClientNameShape(clientId, dashed, words, names);
    ClientNameChars(clientId, dashed);
    Text.Join(" ", names)
  }

  /** `word.capitalize()` for every word. */
  function Capitals(words: seq<string>): seq<string> {
    if words == [] then [] else [Text.Capitalize(words[0])] + Capitals(words[1..])
  }

  /** `Capitals` capitalises each word in its place. */
  lemma {:induction false} CapitalsAt(words: seq<string>)
    ensures |Capitals(words)| == |words|
    ensures forall k :: 0 <= k < |words| ==> Capitals(words)[k] == Text.Capitalize(words[k])
  {
    if words != [] {
      CapitalsAt(words[1..]);
      assert forall k :: 1 <= k < |words| ==> words[1..][k - 1] == words[k];
    }
  }

  /** What the formatted name holds at position `k` of the identifier: a
      space for a separator, the upper-case form of a character that opens a
      word, and the lower-case form of any other. */
  function NameChar(clientId: string, k: int): char
    requires 0 <= k < |clientId|
  {
    if clientId[k] == '-' || clientId[k] == '_' then ' '
    else if k == 0 || clientId[k - 1] == '-' || clientId[k - 1] == '_' then Text.UpperChar(clientId[k])
    else Text.LowerChar(clientId[k])
  }

  /** The same for a string split on the one separator `c`. */
  function WordChar(s: string, c: char, k: int): char
    requires 0 <= k < |s|
  {
    if s[k] == c then ' '
    else if k == 0 || s[k - 1] == c then Text.UpperChar(s[k])
    else Text.LowerChar(s[k])
  }

  /** The dashed identifier's characters are those of the name. */
  lemma ClientNameChars(clientId: string, dashed: string)
    requires dashed == Text.Replace(clientId, "_", "-")
    ensures var r := Text.Join(" ", Capitals(Text.SplitOn(dashed, '-')));
            |r| == |clientId| && forall k :: 0 <= k < |clientId| ==> r[k] == NameChar(clientId, k)
  {
    assert "_" == ['_'] && "-" == ['-'];
    Text.ReplaceChar(clientId, '_', '-');
    CapitalizedSplit(dashed, '-');
    var r := Text.Join(" ", Capitals(Text.SplitOn(dashed, '-')));
    forall k | 0 <= k < |clientId|
      ensures r[k] == NameChar(clientId, k)
    {
      assert r[k] == WordChar(dashed, '-', k);
      if k > 0 {
        assert dashed[k - 1] == '-' <==> clientId[k - 1] == '-' || clientId[k - 1] == '_';
      }
    }
  }

  /** Joining the capitalised pieces of a split with spaces turns each
      separator into a space, upper-cases the first character of each piece
      and lower-cases the rest. */
  lemma {:induction false} CapitalizedSplit(s: string, c: char)
    ensures var r := Text.Join(" ", Capitals(Text.SplitOn(s, c)));
            |r| == |s| && forall k :: 0 <= k < |s| ==> r[k] == WordChar(s, c, k)
    decreases |s|
  {
    var i := Text.CharIndex(s, c);
    if i == -1 {
      SplitName(s, c);
      CapitalizedWord(s, c);
    } else {
      CapitalizedSplit(s[i + 1..], c);
      SplitName(s, c);
      CapitalizedCons(s, c, i, Text.Join(" ", Capitals(Text.SplitOn(s[i + 1..], c))));
    }
  }

  /** The name of a split: the first piece capitalised, then, when the
      separator occurs, a space and the name of what follows it. */
  lemma SplitName(s: string, c: char)
    ensures var i := Text.CharIndex(s, c);
            Text.Join(" ", Capitals(Text.SplitOn(s, c)))
            == if i == -1 then Text.Capitalize(s)
               else Text.Capitalize(s[..i]) + " " + Text.Join(" ", Capitals(Text.SplitOn(s[i + 1..], c)))
  {
    var i := Text.CharIndex(s, c);
    if i == -1 {
      assert Text.SplitOn(s, c) == [s];
      assert [s][1..] == [];
      assert Capitals([s]) == [Text.Capitalize(s)];
    } else {
      var head, restWords := s[..i], Text.SplitOn(s[i + 1..], c);
      assert Text.SplitOn(s, c) == [head] + restWords;
      var caps := Capitals(restWords);
      assert ([head] + restWords)[1..] == restWords;
      assert Capitals([head] + restWords) == [Text.Capitalize(head)] + caps;
      Text.JoinCons(" ", Text.Capitalize(head), caps);
    }
  }

  /** A piece without the separator, capitalised. */
  lemma CapitalizedWord(w: string, c: char)
    requires c !in w
    ensures forall k :: 0 <= k < |w| ==> Text.Capitalize(w)[k] == WordChar(w, c, k)
  {
    forall k | 0 <= k < |w|
      ensures Text.Capitalize(w)[k] == WordChar(w, c, k)
    {
      if k > 0 {
        assert Text.Capitalize(w)[k] == Text.Lower(w[1..])[k - 1];
        assert w[k - 1] in w;
      }
    }
  }

  /** The first piece, capitalised, a space and the rest's name make the name
      of the whole. */
  lemma CapitalizedCons(s: string, c: char, i: int, tail: string)
    requires i == Text.CharIndex(s, c) && i != -1
    requires |tail| == |s| - i - 1 && forall k :: 0 <= k < |tail| ==> tail[k] == WordChar(s[i + 1..], c, k)
    ensures var r := Text.Capitalize(s[..i]) + " " + tail;
            |r| == |s| && forall k :: 0 <= k < |s| ==> r[k] == WordChar(s, c, k)
  {
    var head, rest := s[..i], s[i + 1..];
    CapitalizedWord(head, c);
    var front := Text.Capitalize(head);
    var r := front + " " + tail;
    forall k | 0 <= k < |s|
      ensures r[k] == WordChar(s, c, k)
    {
      if k < i {
        assert r[k] == front[k] && s[k] == head[k];
        if k > 0 {
          assert s[k - 1] == head[k - 1];
        }
      } else if k == i {
        assert r[k] == ' ';
      } else {
        assert r[k] == tail[k - i - 1] && s[k] == rest[k - i - 1];
        if k - i - 1 > 0 {
          assert s[k - 1] == rest[k - i - 2];
        }
      }
    }
  }

  lemma ClientNameShape(clientId: string, dashed: string, words: seq<string>, names: seq<string>)
    requires dashed == Text.Replace(clientId, "_", "-")
    requires words == Text.SplitOn(dashed, '-')
    requires |names| == |words| && forall k :: 0 <= k < |words| ==> names[k] == Text.Capitalize(words[k])
    ensures |Text.Join(" ", names)| == |clientId|
    ensures '-' !in Text.Join(" ", names) && '_' !in Text.Join(" ", names)
  {
    assert "_" == ['_'];
    Text.ReplaceChar(clientId, '_', '-');
    Text.JoinSplitOn(dashed, '-');
    JoinLength(" ", names, "-", words);
    NamesSeparatorFree(dashed, words, names);
    Text.JoinChars(" ", names, c => c != '-' && c != '_');
  }

  /** No capitalised word holds a separator. */
  lemma NamesSeparatorFree(dashed: string, words: seq<string>, names: seq<string>)
    requires '_' !in dashed
    requires words == Text.SplitOn(dashed, '-')
    requires |names| == |words| && forall k :: 0 <= k < |words| ==> names[k] == Text.Capitalize(words[k])
    ensures forall k, j :: 0 <= k < |names| && 0 <= j < |names[k]| ==> names[k][j] != '-' && names[k][j] != '_'
  {
    forall k, j | 0 <= k < |names| && 0 <= j < |names[k]|
      ensures names[k][j] != '-' && names[k][j] != '_'
    {
      var w := words[k];
      WordFromSplit(dashed, '-', k);
      assert w[j] != '_' && w[j] != '-';
      if j > 0 {
        assert names[k][j] == Text.Lower(w[1..])[j - 1];
      }
    }
  }

  /** Every character of a piece of `split` comes from the string. */
  lemma {:induction false} WordFromSplit(s: string, c: char, k: int)
    requires 0 <= k < |Text.SplitOn(s, c)|
    ensures forall x :: x in Text.SplitOn(s, c)[k] ==> x in s
    decreases |s|
  {
    var i := Text.CharIndex(s, c);
    if i != -1 && k > 0 {
      WordFromSplit(s[i + 1..], c, k - 1);
    }
  }

  /** Joining parts of the same lengths with separators of the same length
      gives strings of the same length. */
  lemma {:induction false} JoinLength(sep: string, parts: seq<string>, sep': string, parts': seq<string>)
    requires |sep| == |sep'| && |parts| == |parts'|
    requires forall k :: 0 <= k < |parts| ==> |parts[k]| == |parts'[k]|
    ensures |Text.Join(sep, parts)| == |Text.Join(sep', parts')|
  {
    if |parts| > 1 {
      JoinLength(sep, parts[1..], sep', parts'[1..]);
    }
  }

  // ---------------------------------------------------------------------------
  // Content, audience, custom fields and tags

  /** A `(name, str(value))` pair when the event has `key`, else nothing. */
  function TextPair(event: Value, key: string, name: string): seq<(string, Value)>
    requires event.Obj?
  {
    if Has(event, key) then [(name, Str(PyStr(Lookup(event, key, Null))))] else []
  }

  /** A `(key, value)` pair for a truthy value that is there, else nothing. */
  function ValuePair(key: string, v: Option<Value>): seq<(string, Value)> {
    if v.Some? && Truthy(v.value) then [(key, v.value)] else []
  }

  /** A `(key, text)` pair for a non-empty text that is there, else nothing. */
  function TextOf(key: string, v: Option<string>): (r: seq<(string, Value)>)
    ensures |r| <= 1 && forall k :: 0 <= k < |r| ==> r[k].0 == key
  {
    if v.Some? && v.value != [] then [(key, Str(v.value))] else []
  }

  /** The subject line `_build_content_object` reads: `variant_a` when
      `subject_lines` is a dict (and nothing when that dict lacks it, whatever
      `hero_h1` holds), else `hero_h1`. */
  function SubjectLine(event: Value): Option<Value>
    requires event.Obj?
  {
    var lines := Lookup(event, "subject_lines", Null);
    if Has(event, "subject_lines") && lines.Obj? then
      if Has(lines, "variant_a") then Some(Lookup(lines, "variant_a", Null)) else None
    else if Has(event, "hero_h1") then Some(Lookup(event, "hero_h1", Null))
    else None
  }

  /** The call to action: `cta_copy or cta_text` as its text and `cta_url`
      as its url, each only when truthy; nothing when neither is. */
  function CallToAction(event: Value): (r: Option<Value>)
    requires event.Obj?
    ensures r.Some? ==> r.value.Obj? && 1 <= |r.value.fields| <= 2
  {
    var copy := Lookup(event, "cta_copy", Null);
    var text := if Truthy(copy) then copy else Lookup(event, "cta_text", Null);
    var url := Lookup(event, "cta_url", Null);
    if !Truthy(text) && !Truthy(url) then None
    else Some(Obj((if Truthy(text) then [("text", Str(PyStr(text)))] else [])
                  + (if Truthy(url) then [("url", Str(PyStr(url)))] else [])))
  }

  /** `_build_content_object`: subject line, preview text and call to action,
      each when there is one; `None` for an empty dict. */
  function BuildContent(event: Value): (r: Option<Value>)
    requires event.Obj?
    ensures r.Some? ==> r.value.Obj? && r.value.fields != []
    ensures r.None? <==> SubjectLine(event).None? && !Has(event, "preview_text") && CallToAction(event).None?
  {
    var fields := (match SubjectLine(event) case Some(v) => [("subject_line", Str(PyStr(v)))] case None => [])
                  + TextPair(event, "preview_text", "preview_text")
                  + (match CallToAction(event) case Some(c) => [("call_to_action", c)] case None => []);
    if fields == [] then None else Some(Obj(fields))
  }

  /** Where `subject_lines` is a dict without `variant_a`, the event's name
      comes from `hero_h1` but its content has no subject line: the two
      readers of the subject disagree. */
  lemma ContentIgnoresHero(event: Value)
    requires event.Obj?
    requires Has(event, "subject_lines") && Lookup(event, "subject_lines", Null).Obj?
    requires !Has(Lookup(event, "subject_lines", Null), "variant_a")
    requires Has(event, "hero_h1")
    ensures ExtractTitle(event) == Some(Take(PyStr(Lookup(event, "hero_h1", Null)), MaxTitle))
    ensures SubjectLine(event).None?
    ensures BuildContent(event).Some? ==>
              forall k :: 0 <= k < |BuildContent(event).value.fields| ==> BuildContent(event).value.fields[k].0 != "subject_line"
  {
    TitlePriority(event);
    assert TitleKeys[0] == "hero_h1";
  }

  /** `_build_audience_segments`: one segment named after the event's
      segment, sized by `int(audience_size)` or 10000; `None` without a
      segment name. `int` may raise. */
  function BuildAudienceSegments(event: Value): (r: Result<Option<Value>, PyExc>)
    requires event.Obj?
    ensures r == Ok(None) <==> ExtractSegment(event).None? || ExtractSegment(event).value == []
    ensures r.Err? ==> Has(event, "audience_size") && PyInt(Lookup(event, "audience_size", Null)).Err?
    ensures r.Ok? && r.value.Some? ==>
              r.value.value.Arr? && |r.value.value.items| == 1 && r.value.value.items[0].Obj?
              && Lookup(r.value.value.items[0], "name", Null) == Str(ExtractSegment(event).value)
              && Lookup(r.value.value.items[0], "size", Null).Int?
  {
    match ExtractSegment(event)
    case None => Ok(None)
    case Some(name) =>
      if name == [] then Ok(None)
      else
        var size :- if Has(event, "audience_size") then PyInt(Lookup(event, "audience_size", Null))
                    else Ok(DefaultAudienceSize);
        var pairs := [("name", Str(name)), ("size", Int(size))];
        assert Find(pairs[1..], "size") == Some(Int(size));
        Ok(Some(Arr([Obj(pairs)])))
  }

  /** Without `audience_size` a segment has the default size. */
  lemma DefaultSegmentSize(event: Value)
    requires event.Obj? && !Has(event, "audience_size")
    requires ExtractSegment(event).Some? && ExtractSegment(event).value != []
    ensures BuildAudienceSegments(event).Ok?
    ensures Lookup(BuildAudienceSegments(event).value.value.items[0], "size", Null) == Int(DefaultAudienceSize)
  {
    var pairs := [("name", Str(ExtractSegment(event).value)), ("size", Int(DefaultAudienceSize))];
    assert Find(pairs[1..], "size") == Some(Int(DefaultAudienceSize));
    assert BuildAudienceSegments(event) == Ok(Some(Arr([Obj(pairs)])));
  }

  /** The `week_number` custom field; `int` may raise. */
  function WeekPair(event: Value): (r: Result<seq<(string, Value)>, PyExc>)
    requires event.Obj?
  {
    if Has(event, "week_number") then
      var w :- PyInt(Lookup(event, "week_number", Null));
      Ok([("week_number", Int(w))])
    else Ok([])
  }

  /** The names `_build_custom_fields` may write. */
  const CustomNames: seq<string> := ["subject_line_b", "offer_details", "week_number", "secondary_message", "ab_test_idea"]

  /** `_build_custom_fields`: `variant_b`, `offer`, `week_number`,
      `secondary_message` and `ab_test_idea` under their custom names, each
      when present; `None` for an empty dict. */
  function BuildCustomFields(event: Value): (r: Result<Option<Value>, PyExc>)
    requires event.Obj?
    ensures r.Err? <==> Has(event, "week_number") && PyInt(Lookup(event, "week_number", Null)).Err?
    ensures r.Ok? && r.value.Some? ==>
              r.value.value.Obj? && r.value.value.fields != []
              && forall k :: 0 <= k < |r.value.value.fields| ==> r.value.value.fields[k].0 in CustomNames
    ensures r.Ok? ==> (r.value.None? <==>
              !Has(event, "offer") && !Has(event, "week_number") && !Has(event, "secondary_message")
              && !Has(event, "ab_test_idea")
              && !(Has(event, "subject_lines") && Lookup(event, "subject_lines", Null).Obj?
                   && Has(Lookup(event, "subject_lines", Null), "variant_b")))
  {
    var lines := Lookup(event, "subject_lines", Null);
    var variantB := if Has(event, "subject_lines") && lines.Obj? then TextPair(lines, "variant_b", "subject_line_b") else [];
    var week :- WeekPair(event);
    var offer := TextPair(event, "offer", "offer_details");
    var secondary := TextPair(event, "secondary_message", "secondary_message");
    var idea := TextPair(event, "ab_test_idea", "ab_test_idea");
    var fields := variantB + offer + week + secondary + idea;
    CustomNamed(variantB, offer, week, secondary, idea);
    if fields == [] then Ok(None) else Ok(Some(Obj(fields)))
  }

  /** Fields each named from `CustomNames` stay so when joined. */
  lemma CustomNamed(a: seq<(string, Value)>, b: seq<(string, Value)>, c: seq<(string, Value)>,
                    d: seq<(string, Value)>, e: seq<(string, Value)>)
    requires forall k :: 0 <= k < |a| ==> a[k].0 in CustomNames
    requires forall k :: 0 <= k < |b| ==> b[k].0 in CustomNames
    requires forall k :: 0 <= k < |c| ==> c[k].0 in CustomNames
    requires forall k :: 0 <= k < |d| ==> d[k].0 in CustomNames
    requires forall k :: 0 <= k < |e| ==> e[k].0 in CustomNames
    ensures forall k :: 0 <= k < |a + b + c + d + e| ==> (a + b + c + d + e)[k].0 in CustomNames
  {
  }

  /** The stripped, non-empty pieces of a comma-separated string, in order. */
  function CommaTags(parts: seq<string>): (r: seq<string>)
    ensures |r| <= |parts|
    ensures forall k :: 0 <= k < |r| ==> r[k] != []
  {
    if parts == [] then []
    else
      var init := CommaTags(parts[..|parts| - 1]);
      var t := Text.Strip(parts[|parts| - 1]);
      if t != [] then init + [t] else init
  }

  function Strs(ts: seq<string>): (r: seq<Value>)
    ensures |r| == |ts| && forall k :: 0 <= k < |ts| ==> r[k] == Str(ts[k])
  {
    seq(|ts|, k requires 0 <= k < |ts| => Str(ts[k]))
  }

  /** `_extract_tags`: `str` of each element of a list; the stripped
      non-empty pieces of a comma-separated string; otherwise the event type
      alone, when it is not empty. */
  function ExtractTags(event: Value): (r: Result<Option<seq<string>>, PyExc>)
    requires event.Obj?
    ensures r.Err? ==> ExtractType(event).Err? && r.error == ExtractType(event).error
    ensures var tags := Lookup(event, "tags", Null);
            Has(event, "tags") && tags.Arr? ==> r.Ok? && r.value.Some? && |r.value.value| == |tags.items|
    ensures var tags := Lookup(event, "tags", Null);
            Has(event, "tags") && tags.Str? ==>
              r.Ok? && r.value.Some? && forall k :: 0 <= k < |r.value.value| ==> r.value.value[k] != [] && ',' !in r.value.value[k]
  {
    var tags := Lookup(event, "tags", Null);
    if Has(event, "tags") && tags.Arr? then
      Ok(Some(seq(|tags.items|, k requires 0 <= k < |tags.items| => PyStr(tags.items[k]))))
    else if Has(event, "tags") && tags.Str? then
      var parts := Text.SplitOn(tags.s, ',');
      CommaTagsNoComma(parts);
      Ok(Some(CommaTags(parts)))
    else
      var kind :- ExtractType(event);
      if kind != [] then Ok(Some([kind])) else Ok(None)
  }

  /** Every comma tag is the strip of one of the pieces. */
  lemma {:induction false} CommaTagsFrom(parts: seq<string>)
    ensures forall k :: 0 <= k < |CommaTags(parts)| ==> exists i :: 0 <= i < |parts| && CommaTags(parts)[k] == Text.Strip(parts[i])
  {
    if parts != [] {
      var init := parts[..|parts| - 1];
      CommaTagsFrom(init);
      forall k | 0 <= k < |CommaTags(parts)|
        ensures exists i :: 0 <= i < |parts| && CommaTags(parts)[k] == Text.Strip(parts[i])
      {
        var i := |parts| - 1;
        if k < |CommaTags(init)| {
          i :| 0 <= i < |init| && CommaTags(init)[k] == Text.Strip(init[i]);
          assert init[i] == parts[i];
        }
        assert 0 <= i < |parts| && CommaTags(parts)[k] == Text.Strip(parts[i]);
      }
    } else {
      assert CommaTags(parts) == [];
    }
  }

  /** Stripping takes characters away and adds none. */
  lemma StripFrom(s: string)
    ensures forall c :: c in Text.Strip(s) ==> c in s
  {
    var x := Text.LStrip(s);
    assert Text.Strip(s) == x[..|Text.Strip(s)|];
    assert x == s[|s| - |x|..];
  }

  /** Comma tags of comma-free pieces are comma-free. */
  lemma CommaTagsNoComma(parts: seq<string>)
    requires forall i :: 0 <= i < |parts| ==> ',' !in parts[i]
    ensures forall k :: 0 <= k < |CommaTags(parts)| ==> ',' !in CommaTags(parts)[k]
  {
    CommaTagsFrom(parts);
    forall k | 0 <= k < |CommaTags(parts)|
      ensures ',' !in CommaTags(parts)[k]
    {
      var i :| 0 <= i < |parts| && CommaTags(parts)[k] == Text.Strip(parts[i]);
      StripFrom(parts[i]);
    }
  }

  /** A tag that survives being written comma-separated and read back. */
  predicate CleanTag(t: string) {
    t != [] && ',' !in t && !Text.IsSpace(t[0]) && !Text.IsSpace(t[|t| - 1])
  }

  /** Clean tags are their own comma tags. */
  lemma {:induction false} CommaTagsKeep(ts: seq<string>)
    requires forall k :: 0 <= k < |ts| ==> CleanTag(ts[k])
    ensures CommaTags(ts) == ts
  {
    if ts != [] {
      var init := ts[..|ts| - 1];
      CommaTagsKeep(init);
      Text.StripUnchanged(ts[|ts| - 1]);
      assert init + [ts[|ts| - 1]] == ts;
    }
  }

  /** Clean tags joined with commas are read back as the same list. */
  lemma TagsRoundTrip(event: Value, ts: seq<string>)
    requires event.Obj? && ts != []
    requires forall k :: 0 <= k < |ts| ==> CleanTag(ts[k])
    requires Has(event, "tags") && Lookup(event, "tags", Null) == Str(Text.Join(",", ts))
    ensures ExtractTags(event) == Ok(Some(ts))
  {
    TagsOfString(event, Text.Join(",", ts));
    CommaRoundTrip(ts);
  }

  lemma CommaRoundTrip(ts: seq<string>)
    requires ts != [] && forall k :: 0 <= k < |ts| ==> CleanTag(ts[k])
    ensures CommaTags(Text.SplitOn(Text.Join(",", ts), ',')) == ts
  {
    assert "," == [','];
    Text.SplitOnJoin(ts, ',');
    CommaTagsKeep(ts);
  }

  lemma TagsOfString(event: Value, text: string)
    requires event.Obj? && Has(event, "tags") && Lookup(event, "tags", Null) == Str(text)
    ensures ExtractTags(event) == Ok(Some(CommaTags(Text.SplitOn(text, ','))))
  {
  }

  // ---------------------------------------------------------------------------
  // The event list of a generated calendar

  /** The events of the first calendar variant, when `calendar_variants` is a
      non-empty list whose first element has `events`. */
  function VariantEvents(v4: Value): Result<Option<Value>, PyExc> {
    var variants :- GetItem(v4, "calendar_variants");
    if variants.Arr? && variants.items != [] then
      var first := variants.items[0];
      var has :- In("events", first);
      if has then
        var events :- GetItem(first, "events");
        Ok(Some(events))
      else Ok(None)
    else Ok(None)
  }

  /** `_extract_events_from_v4`: the first variant's events, else `events`,
      else `campaigns`, else an empty list. */
  function EventsOf(v4: Value): Result<Value, PyExc> {
    var hasVariants :- In("calendar_variants", v4);
    if hasVariants then
      var fromVariant :- VariantEvents(v4);
      if fromVariant.Some? then Ok(fromVariant.value) else FallbackEvents(v4)
    else FallbackEvents(v4)
  }

  /** `events`, else `campaigns`, else an empty list. */
  function FallbackEvents(v4: Value): Result<Value, PyExc> {
    var hasEvents :- In("events", v4);
    if hasEvents then GetItem(v4, "events")
    else
      match In("campaigns", v4)
      case Ok(true) => GetItem(v4, "campaigns")
      case _ => Ok(Arr([]))
  }

  /** On a dict, the first variant's events win; without a usable variant
      list the fall-backs are taken in order; and the look-up cannot fail
      unless the first variant is neither a dict, a list nor a string. */
  lemma EventsPriority(v4: Value)
    requires v4.Obj?
    ensures var vs := Field(v4, "calendar_variants");
            vs.Some? && vs.value.Arr? && vs.value.items != [] && HasField(vs.value.items[0], "events") ==>
              EventsOf(v4) == Ok(Field(vs.value.items[0], "events").value)
    ensures var vs := Field(v4, "calendar_variants");
            vs.None? || !vs.value.Arr? || vs.value.items == [] ==>
              EventsOf(v4) == if HasField(v4, "events") then Ok(Field(v4, "events").value)
                              else if HasField(v4, "campaigns") then Ok(Field(v4, "campaigns").value)
                              else Ok(Arr([]))
    ensures var vs := Field(v4, "calendar_variants");
            EventsOf(v4).Err? ==>
              vs.Some? && vs.value.Arr? && vs.value.items != [] && !vs.value.items[0].Obj?
  {
  }

  // ---------------------------------------------------------------------------
  // App format

  /** The date an event carries, empty when it has none. */
  function DateText(event: Value): string
    requires event.Obj?
  {
    match ExtractDate(event) case Ok(Some(d)) => d case _ => []
  }

  /** An app event: date, title and type first, as strings, with a date of
      at most ten characters, a title carrying a channel emoji and at most
      three characters over the title limit, and a lower-case type. */
  predicate AppShaped(a: Value) {
    a.Obj? && |a.fields| >= 3
    && a.fields[0].0 == "date" && a.fields[1].0 == "title" && a.fields[2].0 == "type"
    && a.fields[0].1.Str? && 0 < |a.fields[0].1.s| <= MaxDate
    && a.fields[1].1.Str? && HasEmoji(a.fields[1].1.s) && |a.fields[1].1.s| <= MaxTitle + 3
    && a.fields[2].1.Str? && Text.NoUpper(a.fields[2].1.s)
  }

  /** `_transform_event`: `None` for an event without a date or title, and
      for one where reading a field raises (every exception is caught). */
  function AppEvent(event: Value): (r: Option<Value>)
    ensures r.Some? ==> event.Obj? && AppShaped(r.value)
  {
    match ExtractDate(event)
    case Err(_) => None
    case Ok(date) =>
      if date.None? || date.value == [] then None
      else
        match ExtractTitle(event)
        case None => None
        case Some(title) =>
          if title == [] then None
          else
            match (ExtractChannel(event), ExtractType(event))
            case (Ok(channel), Ok(kind)) => Some(AppRecord(date.value, AddEmojiPrefix(title, channel), kind, AppOptional(event)))
            case _ => None
  }

  /** An event is kept exactly when it is a dict with a non-empty date and
      title whose channel and type can be read. */
  lemma AppEventKept(event: Value)
    ensures AppEvent(event).Some? <==>
              (event.Obj? && DateText(event) != []
               && ExtractTitle(event).Some? && ExtractTitle(event).value != []
               && ExtractChannel(event).Ok? && ExtractType(event).Ok?)
  {
  }

  /** The app event built from fields already read. */
  function AppRecord(date: string, title: string, kind: string, optional: seq<(string, Value)>): (r: Value)
    requires 0 < |date| <= MaxDate
    requires HasEmoji(title) && |title| <= MaxTitle + 3 && Text.NoUpper(kind)
    ensures AppShaped(r)
    ensures r.fields[0] == ("date", Str(date)) && r.fields[1] == ("title", Str(title))
    ensures r.fields[2] == ("type", Str(kind))
  {
    var head := [("date", Str(date)), ("title", Str(title)), ("type", Str(kind))];
    assert (head + optional)[..3] == head;
    Obj(head + optional)
  }

  /** The optional app fields: description, segment and send time, each
      when there is a non-empty one. */
  function AppOptional(event: Value): seq<(string, Value)>
    requires event.Obj?
  {
    TextOf("description", ExtractDescription(event))
    + TextOf("segment", ExtractSegment(event))
    + TextOf("send_time", ExtractSendTime(event))
  }

  /** `[f(x) for x in items if f(x)]`: the results `f` gives, in order. */
  function Collect<T, U>(items: seq<T>, f: T -> Option<U>): (r: seq<U>)
    ensures |r| <= |items|
  {
    if items == [] then []
    else
      var init := Collect(items[..|items| - 1], f);
      match f(items[|items| - 1])
      case Some(e) => init + [e]
      case None => init
  }

  /** The collected results are those of the items that give one, in item
      order, and no such item is skipped. */
  lemma {:induction false} CollectOrder<T, U>(items: seq<T>, f: T -> Option<U>) returns (pos: seq<nat>)
    ensures |pos| == |Collect(items, f)|
    ensures forall k :: 0 <= k < |pos| ==> pos[k] < |items| && f(items[pos[k]]) == Some(Collect(items, f)[k])
    ensures forall k, l :: 0 <= k < l < |pos| ==> pos[k] < pos[l]
    ensures forall i :: 0 <= i < |items| && f(items[i]).Some? ==> i in pos
  {
    if items == [] {
      return [];
    }
    var n := |items| - 1;
    var init := items[..n];
    var prev := CollectOrder(init, f);
    assert forall i :: 0 <= i < n ==> init[i] == items[i];
    var last := f(items[n]);
    if last.Some? {
      assert Collect(items, f) == Collect(init, f) + [last.value];
      pos := prev + [n];
    } else {
      assert Collect(items, f) == Collect(init, f);
      pos := prev;
    }
  }

  /** Every collected result is one `f` gives. */
  lemma CollectFrom<T, U>(items: seq<T>, f: T -> Option<U>, P: U -> bool)
    requires forall x :: f(x).Some? ==> P(f(x).value)
    ensures forall k :: 0 <= k < |Collect(items, f)| ==> P(Collect(items, f)[k])
  {
    var pos := CollectOrder(items, f);
  }

  /** The transformed events, in order, dropping the ones that give `None`. */
  function AppEvents(items: seq<Value>): (r: seq<Value>)
    ensures |r| <= |items|
    ensures forall k :: 0 <= k < |r| ==> AppShaped(r[k])
  {
    CollectFrom(items, AppEvent, AppShaped);
    Collect(items, AppEvent)
  }

  /** `{"events": ..., "client_id": ...}`, the client only when given and
      not empty. */
  function AppCalendar(events: seq<Value>, clientId: Option<string>): (r: Value)
    ensures r.Obj? && r.fields != [] && r.fields[0] == ("events", Arr(events))
    ensures HasField(r, "client_id") <==> clientId.Some? && clientId.value != []
  {
    var fields := [("events", Arr(events))] + TextOf("client_id", clientId);
    assert OrderedMap.Keys(fields) == if |fields| == 1 then ["events"] else ["events", "client_id"];
    Obj(fields)
  }

  /** `transform_to_app_format`: raises when the event list cannot be read
      or iterated. */
  function AppFormat(v4: Value, clientId: Option<string>): (r: Result<Value, PyExc>)
    ensures r.Err? <==> EventsOf(v4).Err? || Iterate(EventsOf(v4).value).None?
    ensures r.Ok? ==> r.value.Obj? && r.value.fields != [] && r.value.fields[0].0 == "events"
    ensures r.Ok? ==> (HasField(r.value, "client_id") <==> clientId.Some? && clientId.value != [])
  {
    var events :- EventsOf(v4);
    match Iterate(events)
    case None => Err(TypeError)
    case Some(items) => Ok(AppCalendar(AppEvents(items), clientId))
  }

  method TransformToAppFormat(v4: Value, clientId: Option<string>) returns (r: Result<Value, PyExc>)
    ensures r == AppFormat(v4, clientId)
  {
    var events := EventsOf(v4);
    if events.Err? {
      return Err(events.error);
    }
    var items := Iterate(events.value);
    if items.None? {
      return Err(TypeError);
    }
    var app: seq<Value> := [];
    for i := 0 to |items.value|
      invariant app == Collect(items.value[..i], AppEvent)
    {
      assert items.value[..i + 1][..i] == items.value[..i];
      var e := AppEvent(items.value[i]);
      if e.Some? {
        app := app + [e.value];
      }
    }
    assert items.value[..|items.value|] == items.value;
    r := Ok(AppCalendar(app, clientId));
  }

  // ---------------------------------------------------------------------------
  // Import-specification format

  /** The import record built from fields already read. */
  function ImportRecord(id: string, name: string, when: string, channel: string, kind: string,
                        sendTime: Option<string>, rest: seq<(string, Value)>): (r: Value)
    ensures r.Obj? && |r.fields| >= 6
    ensures r.fields[0] == ("id", Str(id))
    ensures r.fields[1] == ("name", Str(name))
    ensures r.fields[2] == ("date", Str(when))
    ensures r.fields[3] == ("channel", Str(channel))
    ensures r.fields[4] == ("type", Str(kind))
    ensures r.fields[5] == ("status", Str("draft"))
  {
    var head := [("id", Str(id)), ("name", Str(name)), ("date", Str(when)),
                 ("channel", Str(channel)), ("type", Str(kind)), ("status", Str("draft"))];
    var tail := TextOf("time", sendTime) + rest;
    assert (head + tail)[..6] == head;
    Obj(head + tail)
  }

  /** The fields after the fixed head and the time: description, client,
      content, audience, custom fields and tags, each when there is one. */
  function ImportOptional(event: Value, clientId: string, audience: Option<Value>, custom: Option<Value>,
                          tags: Option<seq<string>>): seq<(string, Value)>
    requires event.Obj?
  {
    TextOf("description", ExtractDescription(event))
    + [("client_id", Str(clientId)), ("client_name", Str(FormatClientName(clientId)))]
    + ValuePair("content", BuildContent(event))
    + ValuePair("audience_segments", audience)
    + ValuePair("custom_fields", custom)
    + (if tags.Some? && tags.value != [] then [("tags", Arr(Strs(tags.value)))] else [])
  }

  /** `_transform_event_to_import_spec`: `None` without a date or name, and
      where reading a field raises (every exception is caught). */
  function ImportEvent(event: Value, clientId: string): Option<Value> {
    match ExtractDate(event)
    case Err(_) => None
    case Ok(date) =>
      if date.None? || date.value == [] then None
      else
        match ExtractTitle(event)
        case None => None
        case Some(name) =>
          if name == [] then None
          else
            match (ExtractChannel(event), ExtractType(event), BuildAudienceSegments(event),
                   BuildCustomFields(event), ExtractTags(event))
            case (Ok(channel), Ok(kind), Ok(audience), Ok(custom), Ok(tags)) =>
              var sendTime := ExtractSendTime(event);
              Some(ImportRecord(GenerateEventId(clientId, date.value, name), name,
                                ToIso8601(date.value, sendTime), channel, kind, sendTime,
                                ImportOptional(event, clientId, audience, custom, tags)))
            case _ => None
  }

  /** An event that makes an import record also makes an app event, with the
      same date, type and title, the app title carrying the channel emoji and
      the import name not. The import date is that date with the send time,
      or ten o'clock, in ISO 8601. */
  lemma ImportMatchesApp(event: Value, clientId: string)
    requires ImportEvent(event, clientId).Some?
    ensures AppEvent(event).Some?
    ensures var i, a := ImportEvent(event, clientId).value, AppEvent(event).value;
            a.fields[1].1 == Str(AddEmojiPrefix(i.fields[1].1.s, i.fields[3].1.s))
            && a.fields[2].1 == i.fields[4].1
            && i.fields[2].1 == Str(ToIso8601(a.fields[0].1.s, ExtractSendTime(event)))
  {
    var date := ExtractDate(event).value.value;
    var name := ExtractTitle(event).value;
    var channel := ExtractChannel(event).value;
    var kind := ExtractType(event).value;
    assert AppEvent(event) == Some(AppRecord(date, AddEmojiPrefix(name, channel), kind, AppOptional(event)));
    var audience, custom, tags := BuildAudienceSegments(event).value, BuildCustomFields(event).value, ExtractTags(event).value;
    var sendTime := ExtractSendTime(event);
    assert ImportEvent(event, clientId) == Some(ImportRecord(GenerateEventId(clientId, date, name), name,
             ToIso8601(date, sendTime), channel, kind, sendTime, ImportOptional(event, clientId, audience, custom, tags)));
  }

  /** The `metadata` block; `generatedAt` is `datetime.utcnow().isoformat()`. */
  function ImportMetadata(clientId: string, workflowId: string, generatedAt: string): Value {
    Obj([("source", Str("emailpilot-simple")),
         ("version", Str("1.0")),
         ("generated_at", Str(generatedAt + "Z")),
         ("client_id", Str(clientId)),
         ("import_mode", Str("merge")),
         ("enriched_context_available", Bool(true)),
         ("enriched_context_key", Str(workflowId))])
  }

  /** The import record of one event for a client. */
  function ImportEventFor(clientId: string): Value -> Option<Value> {
    e => ImportEvent(e, clientId)
  }

  /** `transform_to_import_spec_format`: raises when the event list cannot
      be read or iterated. */
  function ImportSpec(v4: Value, clientId: string, workflowId: string, generatedAt: string): (r: Result<Value, PyExc>)
    ensures r.Err? <==> EventsOf(v4).Err? || Iterate(EventsOf(v4).value).None?
    ensures r.Ok? ==> r.value.Obj? && |r.value.fields| == 2
                      && r.value.fields[0] == ("metadata", ImportMetadata(clientId, workflowId, generatedAt))
                      && r.value.fields[1].0 == "events" && r.value.fields[1].1.Arr?
                      && |r.value.fields[1].1.items| <= Len(EventsOf(v4).value).value
  {
    var events :- EventsOf(v4);
    match Iterate(events)
    case None => Err(TypeError)
    case Some(items) =>
      Ok(Obj([("metadata", ImportMetadata(clientId, workflowId, generatedAt)),
              ("events", Arr(Collect(items, ImportEventFor(clientId))))]))
  }

  method TransformToImportSpec(v4: Value, clientId: string, workflowId: string, generatedAt: string)
    returns (r: Result<Value, PyExc>)
    ensures r == ImportSpec(v4, clientId, workflowId, generatedAt)
  {
    var events := EventsOf(v4);
    if events.Err? {
      return Err(events.error);
    }
    var items := Iterate(events.value);
    if items.None? {
      return Err(TypeError);
    }
    var metadata := ImportMetadata(clientId, workflowId, generatedAt);
    var transform := ImportEventFor(clientId);
    var records: seq<Value> := [];
    for i := 0 to |items.value|
      invariant records == Collect(items.value[..i], transform)
    {
      assert items.value[..i + 1][..i] == items.value[..i];
      var e := transform(items.value[i]);
      if e.Some? {
        records := records + [e.value];
      }
    }
    assert items.value[..|items.value|] == items.value;
    r := Ok(Obj([("metadata", metadata), ("events", Arr(records))]));
  }

  // ---------------------------------------------------------------------------
  // App-format validation

  /** The problems `validate_app_format` reports; `AppErrorMessage` gives
      the text. */
  datatype AppError =
    | MissingEvents
    | EventsNotList
    | MissingField(index: nat, field: string)
    | BadDate(index: nat)
    | LongTitle(index: nat)
    | UpperType(index: nat)

  function AppErrorMessage(e: AppError): string {
    match e
    case MissingEvents => "Missing required field: events"
    case EventsNotList => "Field 'events' must be an array"
    case MissingField(i, f) => "Event " + Text.NatToString(i) + ": Missing required field '" + f + "'"
    case BadDate(i) => "Event " + Text.NatToString(i) + ": Invalid date format (expected YYYY-MM-DD)"
    case LongTitle(i) => "Event " + Text.NatToString(i) + ": Title exceeds 100 characters"
    case UpperType(i) => "Event " + Text.NatToString(i) + ": Type must be lowercase"
  }

  const RequiredFields: seq<string> := ["date", "title", "type"]

  /** One error per field that `in` does not find, in field order; `in`
      raises on a value that is not a container. */
  function Missing(event: Value, index: nat, fields: seq<string>): (r: Result<seq<AppError>, PyExc>)
    ensures r.Err? <==> fields != [] && !(event.Obj? || event.Arr? || event.Str?)
    ensures r.Err? ==> r.error == TypeError
    ensures r == Ok([]) <==> forall k :: 0 <= k < |fields| ==> In(fields[k], event) == Ok(true)
  {
    if fields == [] then Ok([])
    else
      var n := |fields| - 1;
      assert forall k :: 0 <= k < n ==> fields[..n][k] == fields[k];
      var init :- Missing(event, index, fields[..n]);
      var present :- In(fields[n], event);
      Ok(if present then init else init + [MissingField(index, fields[n])])
  }

  /** The date must be a string of at least ten characters. */
  function DateCheck(event: Value, index: nat): Result<seq<AppError>, PyExc> {
    var has :- In("date", event);
    if !has then Ok([])
    else
      var date :- GetItem(event, "date");
      Ok(if !date.Str? || |date.s| < 10 then [BadDate(index)] else [])
  }

  /** The title must be at most 100 long; `len` raises on an unsized value. */
  function TitleCheck(event: Value, index: nat): Result<seq<AppError>, PyExc> {
    var has :- In("title", event);
    if !has then Ok([])
    else
      var title :- GetItem(event, "title");
      match Len(title)
      case None => Err(TypeError)
      case Some(n) => Ok(if n > MaxTitle then [LongTitle(index)] else [])
  }

  /** The type must equal its lower-case form; `lower` raises on a
      non-string. */
  function TypeCheck(event: Value, index: nat): Result<seq<AppError>, PyExc> {
    var has :- In("type", event);
    if !has then Ok([])
    else
      var kind :- GetItem(event, "type");
      if !kind.Str? then Err(AttributeError)
      else Ok(if kind.s != Text.Lower(kind.s) then [UpperType(index)] else [])
  }

  /** `_validate_app_event` */
  function AppEventErrors(event: Value, index: nat): Result<seq<AppError>, PyExc> {
    var missing :- Missing(event, index, RequiredFields);
    var date :- DateCheck(event, index);
    var title :- TitleCheck(event, index);
    var kind :- TypeCheck(event, index);
    Ok(missing + date + title + kind)
  }

  method ValidateAppEvent(event: Value, index: nat) returns (r: Result<seq<AppError>, PyExc>)
    ensures r == AppEventErrors(event, index)
  {
    var errors: seq<AppError> := [];
    for i := 0 to |RequiredFields|
      invariant Missing(event, index, RequiredFields[..i]) == Ok(errors)
    {
      var field := RequiredFields[i];
      assert RequiredFields[..i + 1][..i] == RequiredFields[..i];
      var present := In(field, event);
      if present.Err? {
        return Err(TypeError);
      }
      if !present.value {
        errors := errors + [MissingField(index, field)];
      }
    }
    assert RequiredFields[..|RequiredFields|] == RequiredFields;
    var date := DateCheck(event, index);
    if date.Err? {
      return Err(date.error);
    }
    var title := TitleCheck(event, index);
    if title.Err? {
      return Err(title.error);
    }
    var kind := TypeCheck(event, index);
    if kind.Err? {
      return Err(kind.error);
    }
    r := Ok(errors + date.value + title.value + kind.value);
  }

  /** An event that passes: a dict with a date string of at least ten
      characters, a sized title of at most 100 and a type string with no
      upper-case letter. */
  predicate GoodAppEvent(event: Value) {
    event.Obj? && HasField(event, "date") && HasField(event, "title") && HasField(event, "type")
    && Field(event, "date").value.Str? && |Field(event, "date").value.s| >= 10
    && Len(Field(event, "title").value).Some? && Len(Field(event, "title").value).value <= MaxTitle
    && Field(event, "type").value.Str? && Text.NoUpper(Field(event, "type").value.s)
  }

  /** An event draws no error exactly when it is good. */
  lemma AppEventClean(event: Value, index: nat)
    ensures AppEventErrors(event, index) == Ok([]) <==> GoodAppEvent(event)
  {
    if GoodAppEvent(event) {
      GoodIsClean(event, index);
    }
    if AppEventErrors(event, index) == Ok([]) {
      CleanIsGood(event, index);
    }
  }

  /** No field is missing exactly when `in` finds each of the three. */
  lemma RequiredPresent(event: Value, index: nat)
    ensures Missing(event, index, RequiredFields) == Ok([])
            <==> In("date", event) == Ok(true) && In("title", event) == Ok(true) && In("type", event) == Ok(true)
  {
    assert RequiredFields[0] == "date" && RequiredFields[1] == "title" && RequiredFields[2] == "type";
    if In("date", event) == Ok(true) && In("title", event) == Ok(true) && In("type", event) == Ok(true) {
      forall k | 0 <= k < |RequiredFields|
        ensures In(RequiredFields[k], event) == Ok(true)
      {
        assert k == 0 || k == 1 || k == 2;
      }
    }
  }

  /** A good event passes every check. */
  lemma GoodIsClean(event: Value, index: nat)
    requires GoodAppEvent(event)
    ensures AppEventErrors(event, index) == Ok([])
  {
    RequiredPresent(event, index);
    assert In("date", event) == Ok(true) && In("title", event) == Ok(true) && In("type", event) == Ok(true);
    var none: seq<AppError> := [];
    assert Missing(event, index, RequiredFields) == Ok(none);
    Text.LowerFixed(Field(event, "type").value.s);
    assert DateCheck(event, index) == Ok([]);
    assert TitleCheck(event, index) == Ok([]);
    assert TypeCheck(event, index) == Ok([]);
    assert none + none + none + none == none;
  }

  /** An event that passes every check is good. */
  lemma CleanIsGood(event: Value, index: nat)
    requires AppEventErrors(event, index) == Ok([])
    ensures GoodAppEvent(event)
  {
    var missing := Missing(event, index, RequiredFields).value;
    var date := DateCheck(event, index).value;
    var title := TitleCheck(event, index).value;
    var kind := TypeCheck(event, index).value;
    assert missing + date + title + kind == [];
    assert missing == [] && date == [] && title == [] && kind == [];
    RequiredPresent(event, index);
    assert event.Obj?;
    Text.LowerFixed(Field(event, "type").value.s);
  }

  /** The errors `check` finds in every item, each item given its position;
      the first exception ends the walk. */
  function AllErrors<T>(items: seq<T>, check: (T, nat) -> Result<seq<AppError>, PyExc>): (r: Result<seq<AppError>, PyExc>)
    ensures r == Ok([]) <==> forall i :: 0 <= i < |items| ==> check(items[i], i) == Ok([])
  {
    if items == [] then Ok([])
    else
      var n := |items| - 1;
      assert forall i :: 0 <= i < n ==> items[..n][i] == items[i];
      var init :- AllErrors(items[..n], check);
      var last :- check(items[n], n);
      Ok(init + last)
  }

  /** The errors of every event, each tagged with its position. */
  function EventsErrors(events: seq<Value>): (r: Result<seq<AppError>, PyExc>)
    ensures r == Ok([]) <==> forall i :: 0 <= i < |events| ==> AppEventErrors(events[i], i) == Ok([])
  {
    AllErrors(events, AppEventErrors)
  }

  /** `validate_app_format`: the verdict and the errors. */
  function AppValidation(calendar: Value): (r: Result<(bool, seq<AppError>), PyExc>)
    ensures r.Ok? ==> (r.value.0 <==> r.value.1 == [])
  {
    var has :- In("events", calendar);
    if !has then Ok((false, [MissingEvents]))
    else
      var events :- GetItem(calendar, "events");
      if !events.Arr? then Ok((false, [EventsNotList]))
      else
        var errors :- EventsErrors(events.items);
        Ok((errors == [], errors))
  }

  method ValidateAppFormat(calendar: Value) returns (r: Result<(bool, seq<AppError>), PyExc>)
    ensures r == AppValidation(calendar)
  {
    var has := In("events", calendar);
    if has.Err? {
      return Err(has.error);
    }
    if !has.value {
      return Ok((false, [MissingEvents]));
    }
    var events := GetItem(calendar, "events");
    if events.Err? {
      return Err(events.error);
    }
    if !events.value.Arr? {
      return Ok((false, [EventsNotList]));
    }
    var errors := CheckEvents(events.value.items);
    if errors.Err? {
      return Err(errors.error);
    }
    r := Ok((errors.value == [], errors.value));
  }

  /** The loop of `validate_app_format` over the events. */
  method CheckEvents(items: seq<Value>) returns (r: Result<seq<AppError>, PyExc>)
    ensures r == EventsErrors(items)
  {
    var errors: seq<AppError> := [];
    for i := 0 to |items|
      invariant EventsErrors(items[..i]) == Ok(errors)
    {
      var eventErrors := ValidateAppEvent(items[i], i);
      if eventErrors.Err? {
        EventsErrorsFail(items, i);
        EventsErrorsStop(items, i + 1);
        return Err(eventErrors.error);
      }
      EventsErrorsStep(items, i, errors, eventErrors.value);
      errors := errors + eventErrors.value;
    }
    assert items[..|items|] == items;
    return Ok(errors);
  }

  /** One more event that draws no exception adds its errors at the end. */
  lemma EventsErrorsStep(events: seq<Value>, n: nat, init: seq<AppError>, last: seq<AppError>)
    requires n < |events|
    requires EventsErrors(events[..n]) == Ok(init)
    requires AppEventErrors(events[n], n) == Ok(last)
    ensures EventsErrors(events[..n + 1]) == Ok(init + last)
  {
    assert events[..n + 1][..n] == events[..n];
  }

  /** An event that raises makes the list up to it raise. */
  lemma EventsErrorsFail(events: seq<Value>, n: nat)
    requires n < |events|
    requires EventsErrors(events[..n]).Ok?
    requires AppEventErrors(events[n], n).Err?
    ensures EventsErrors(events[..n + 1]) == Err(AppEventErrors(events[n], n).error)
  {
    assert events[..n + 1][..n] == events[..n];
  }

  /** Once an event raises, the whole validation raises with it. */
  lemma {:induction false} EventsErrorsStop(events: seq<Value>, n: nat)
    requires 0 < n <= |events| && EventsErrors(events[..n]).Err?
    ensures EventsErrors(events) == EventsErrors(events[..n])
    decreases |events| - n
  {
    if n < |events| {
      assert events[..n + 1][..n] == events[..n];
      EventsErrorsStop(events, n + 1);
    } else {
      assert events[..n] == events;
    }
  }

  /** A calendar passes exactly when it is a dict whose `events` is a list of
      good events; a calendar without `events`, or with one that is not a
      list, draws that one error. */
  lemma ValidationVerdict(calendar: Value)
    ensures In("events", calendar) == Ok(false) ==> AppValidation(calendar) == Ok((false, [MissingEvents]))
    ensures calendar.Obj? && HasField(calendar, "events") && !Field(calendar, "events").value.Arr? ==>
              AppValidation(calendar) == Ok((false, [EventsNotList]))
    ensures AppValidation(calendar) == Ok((true, [])) <==>
              calendar.Obj? && HasField(calendar, "events") && Field(calendar, "events").value.Arr?
              && forall i :: 0 <= i < |Field(calendar, "events").value.items| ==>
                   GoodAppEvent(Field(calendar, "events").value.items[i])
  {
    if calendar.Obj? && HasField(calendar, "events") && Field(calendar, "events").value.Arr? {
      var items := Field(calendar, "events").value.items;
      forall i | 0 <= i < |items|
        ensures AppEventErrors(items[i], i) == Ok([]) <==> GoodAppEvent(items[i])
      {
        AppEventClean(items[i], i);
      }
    }
  }

  /** An app-shaped event has all three fields and a lower-case type, so it
      draws an error only for a date under ten characters or a title over
      100. */
  lemma ShapedErrors(a: Value, index: nat)
    requires AppShaped(a)
    ensures AppEventErrors(a, index) ==
              Ok((if |a.fields[0].1.s| < 10 then [BadDate(index)] else [])
                 + (if |a.fields[1].1.s| > MaxTitle then [LongTitle(index)] else []))
  {
    ShapedPresent(a, index);
    ShapedChecks(a, index);
    var date: seq<AppError> := if |a.fields[0].1.s| < 10 then [BadDate(index)] else [];
    var title: seq<AppError> := if |a.fields[1].1.s| > MaxTitle then [LongTitle(index)] else [];
    var none: seq<AppError> := [];
    assert none + date + title + none == date + title;
  }

  /** The date, title and type checks on an app-shaped event. */
  lemma ShapedChecks(a: Value, index: nat)
    requires AppShaped(a)
    ensures DateCheck(a, index) == Ok(if |a.fields[0].1.s| < 10 then [BadDate(index)] else [])
    ensures TitleCheck(a, index) == Ok(if |a.fields[1].1.s| > MaxTitle then [LongTitle(index)] else [])
    ensures TypeCheck(a, index) == Ok([])
  {
    ShapedFields(a);
    Text.LowerFixed(a.fields[2].1.s);
  }

  /** The three leading pairs of an app-shaped event are its fields. */
  lemma ShapedFields(a: Value)
    requires AppShaped(a)
    ensures Field(a, "date") == Some(a.fields[0].1) && HasField(a, "date")
    ensures Field(a, "title") == Some(a.fields[1].1) && HasField(a, "title")
    ensures Field(a, "type") == Some(a.fields[2].1) && HasField(a, "type")
  {
    OrderedMap.GetAt(a.fields, 0, "date");
    OrderedMap.GetAt(a.fields, 1, "title");
    OrderedMap.GetAt(a.fields, 2, "type");
  }

  /** No required field is missing from an app-shaped event. */
  lemma ShapedPresent(a: Value, index: nat)
    requires AppShaped(a)
    ensures Missing(a, index, RequiredFields) == Ok([])
  {
    ShapedFields(a);
    assert RequiredFields[0] == "date" && RequiredFields[1] == "title" && RequiredFields[2] == "type";
    forall k | 0 <= k < |RequiredFields|
      ensures In(RequiredFields[k], a) == Ok(true)
    {
      assert k == 0 || k == 1 || k == 2;
    }
  }

  /** Only the two errors an app-shaped event can draw. */
  predicate ShapeErrorsOnly(es: seq<AppError>) {
    forall k :: 0 <= k < |es| ==> es[k].BadDate? || es[k].LongTitle?
  }

  /** Errors of app-shaped events are only short dates and long titles. */
  lemma ShapedEventsErrors(events: seq<Value>)
    requires forall i :: 0 <= i < |events| ==> AppShaped(events[i])
    ensures EventsErrors(events).Ok?
    ensures forall k :: 0 <= k < |EventsErrors(events).value| ==>
              EventsErrors(events).value[k].BadDate? || EventsErrors(events).value[k].LongTitle?
  {
    ShapedPrefixErrors(events, |events|);
    assert events[..|events|] == events;
  }

  /** The first `n` app-shaped events raise nothing and draw only short-date
      and long-title errors. */
  lemma {:induction false} ShapedPrefixErrors(events: seq<Value>, n: nat)
    requires n <= |events|
    requires forall i :: 0 <= i < |events| ==> AppShaped(events[i])
    ensures EventsErrors(events[..n]).Ok? && ShapeErrorsOnly(EventsErrors(events[..n]).value)
    decreases n
  {
    if n == 0 {
      assert events[..0] == [];
    } else {
      ShapedPrefixErrors(events, n - 1);
      ShapedEventErrors(events[n - 1], n - 1);
      var init, last := EventsErrors(events[..n - 1]).value, AppEventErrors(events[n - 1], n - 1).value;
      EventsErrorsStep(events, n - 1, init, last);
      ShapeErrorsConcat(init, last);
    }
  }

  /** An app-shaped event raises nothing and draws only the two errors. */
  lemma ShapedEventErrors(a: Value, index: nat)
    requires AppShaped(a)
    ensures AppEventErrors(a, index).Ok? && ShapeErrorsOnly(AppEventErrors(a, index).value)
  {
    ShapedErrors(a, index);
    var date: seq<AppError> := if |a.fields[0].1.s| < 10 then [BadDate(index)] else [];
    var title: seq<AppError> := if |a.fields[1].1.s| > MaxTitle then [LongTitle(index)] else [];
    ShapeErrorsConcat(date, title);
  }

  /** The two errors stay the only ones when two lists are joined. */
  lemma ShapeErrorsConcat(es: seq<AppError>, es': seq<AppError>)
    requires ShapeErrorsOnly(es) && ShapeErrorsOnly(es')
    ensures ShapeErrorsOnly(es + es')
  {
    forall k | 0 <= k < |es + es'|
      ensures (es + es')[k].BadDate? || (es + es')[k].LongTitle?
    {
      if k >= |es| {
        assert (es + es')[k] == es'[k - |es|];
      }
    }
  }

  /** Validating what `transform_to_app_format` produced raises nothing and
      reports only dates shorter than ten characters and titles the emoji
      pushed past 100. */
  lemma AppFormatValidation(v4: Value, clientId: Option<string>)
    requires AppFormat(v4, clientId).Ok?
    ensures var v := AppValidation(AppFormat(v4, clientId).value);
            v.Ok? && forall k :: 0 <= k < |v.value.1| ==> v.value.1[k].BadDate? || v.value.1[k].LongTitle?
  {
    var items := Iterate(EventsOf(v4).value).value;
    var events := AppEvents(items);
    var calendar := AppCalendar(events, clientId);
    assert AppFormat(v4, clientId).value == calendar;
    OrderedMap.GetAt(calendar.fields, 0, "events");
    ShapedEventsErrors(events);
  }

  /** A 100-character title without an emoji comes out longer than 100, and
      validation reports it: the transformation's output can fail the
      app-format check. */
  lemma OverlongTitle(event: Value, index: nat)
    requires event.Obj? && AppEvent(event).Some?
    requires ExtractTitle(event).Some? && |ExtractTitle(event).value| == MaxTitle
    requires !HasEmoji(ExtractTitle(event).value)
    ensures |AppEvent(event).value.fields[1].1.s| > MaxTitle
    ensures AppEventErrors(AppEvent(event).value, index).Ok?
            && LongTitle(index) in AppEventErrors(AppEvent(event).value, index).value
  {
    var a := AppEvent(event).value;
    var title := ExtractTitle(event).value;
    var channel := ExtractChannel(event).value;
    assert a.fields[1].1.s == AddEmojiPrefix(title, channel);
    ShapedErrors(a, index);
  }
}
