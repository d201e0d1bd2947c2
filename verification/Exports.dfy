/** Subtitle files: rendering a time, rendering the cues, and reading both back. */
module Exports {
  import opened Models
  import opened Text
  import SpeakerMatching
  import SpeakerProfiles

  // ----- times -----

  /** Python's `round`: ties go to the even neighbour. */
  function RoundHalfEven(x: real): int {
    var floor := x.Floor;
    var rest := x - floor as real;
    if rest < 0.5 || (rest == 0.5 && floor % 2 == 0) then floor else floor + 1
  }

  function Seconds(value: Option<real>): real {
    if value.Some? && value.value > 0.0 then value.value else 0.0
  }

  function Milliseconds(value: Option<real>): nat {
    RoundHalfEven(Seconds(value) * 1000.0)
  }

  /** Hours, minutes, seconds and milliseconds. */
  datatype Fields = Fields(hours: nat, minutes: nat, seconds: nat, milliseconds: nat)

  function FieldsOf(total: nat): Fields {
    var remainder := total % 3_600_000;
    Fields(total / 3_600_000, remainder / 60_000, remainder % 60_000 / 1000, remainder % 60_000 % 1000)
  }

  function Separated(hours: string, minutes: string, seconds: string, milliseconds: string, separator: char): string {
    hours + [':'] + minutes + [':'] + seconds + [separator] + milliseconds
  }

  function TimestampText(total: nat, separator: char): string {
    var f := FieldsOf(total);
    Separated(Padded(f.hours, 2), Padded(f.minutes, 2), Padded(f.seconds, 2), Padded(f.milliseconds, 3), separator)
  }

  /** `_timestamp`, with its three divisions. */
  method Timestamp(value: Option<real>, separator: char) returns (text: string)
    ensures text == TimestampText(Milliseconds(value), separator)
  {
    var total := Milliseconds(value);
    var hours, remainder := total / 3_600_000, total % 3_600_000;
    var minutes, rest := remainder / 60_000, remainder % 60_000;
    var seconds, milliseconds := rest / 1000, rest % 1000;
    text := Separated(Padded(hours, 2), Padded(minutes, 2), Padded(seconds, 2), Padded(milliseconds, 3), separator);
  }

  /** The fields are in range and add up. */
  lemma FieldsInRange(total: nat)
    ensures var f := FieldsOf(total);
      && f.minutes < 60 && f.seconds < 60 && f.milliseconds < 1000
      && total == f.hours * 3_600_000 + f.minutes * 60_000 + f.seconds * 1000 + f.milliseconds
  {
  }

  /** The rendered time is the nearest number of milliseconds, and the even one of two; no time and a
      negative one are shown as zero. */
  lemma NearestMillisecond(value: Option<real>)
    ensures var exact, shown := if value.Some? && value.value > 0.0 then value.value * 1000.0 else 0.0, Milliseconds(value) as real;
      && -0.5 <= shown - exact <= 0.5
      && (shown - exact == 0.5 || shown - exact == -0.5 ==> Milliseconds(value) % 2 == 0)
  {
  }

  /** Later times are never rendered earlier. */
  lemma MillisecondsMonotone(a: Option<real>, b: Option<real>)
    requires Seconds(a) <= Seconds(b)
    ensures Milliseconds(a) <= Milliseconds(b)
  {
    var x, y := Seconds(a) * 1000.0, Seconds(b) * 1000.0;
    assert x <= y && x.Floor <= y.Floor;
  }

  function Denoted(hours: string, minutes: string, seconds: string, milliseconds: string): Option<nat> {
    if !AllDigits(hours) || !AllDigits(minutes) || !AllDigits(seconds) || !AllDigits(milliseconds) then None
    else Some(Text.Number(hours) * 3_600_000 + Text.Number(minutes) * 60_000 + Text.Number(seconds) * 1000 + Text.Number(milliseconds))
  }

  /** Reads back what `TimestampText` writes: the hours may take more than two digits. */
  function ParseTimestamp(t: string, separator: char): Option<nat> {
    var n := |t|;
    if n < 12 || t[n - 10] != ':' || t[n - 7] != ':' || t[n - 4] != separator then None
    else Denoted(t[..n - 10], t[n - 9..n - 7], t[n - 6..n - 4], t[n - 3..])
  }

  lemma TwoDigits(n: nat)
    requires n < 60
    ensures |Padded(n, 2)| == 2
  {
    assert Pow10(1) == 10 && Pow10(2) == 100;
    PaddedLength(n, 2);
  }

  lemma ThreeDigits(n: nat)
    requires n < 1000
    ensures |Padded(n, 3)| == 3
  {
    assert Pow10(1) == 10 && Pow10(2) == 100 && Pow10(3) == 1000;
    PaddedLength(n, 3);
  }

  lemma SeparatedTail(hours: string, minutes: string, seconds: string, milliseconds: string, separator: char)
    requires |minutes| == |seconds| == 2 && |milliseconds| == 3
    ensures Separated(hours, minutes, seconds, milliseconds, separator)
         == hours + [':', minutes[0], minutes[1], ':', seconds[0], seconds[1], separator,
                     milliseconds[0], milliseconds[1], milliseconds[2]]
  {
  }

  lemma ParseTail(hours: string, tail: string, separator: char)
    requires |hours| >= 2 && |tail| == 10 && tail[0] == tail[3] == ':' && tail[6] == separator
    ensures ParseTimestamp(hours + tail, separator) == Denoted(hours, tail[1..3], tail[4..6], tail[7..])
  {
    TailParts(hours, tail, hours + tail);
  }

  lemma ParseFields(hours: string, minutes: string, seconds: string, milliseconds: string, separator: char)
    requires |hours| >= 2 && |minutes| == |seconds| == 2 && |milliseconds| == 3
    ensures ParseTimestamp(Separated(hours, minutes, seconds, milliseconds, separator), separator)
         == Denoted(hours, minutes, seconds, milliseconds)
  {
    var tail := [':', minutes[0], minutes[1], ':', seconds[0], seconds[1], separator,
                 milliseconds[0], milliseconds[1], milliseconds[2]];
    SeparatedTail(hours, minutes, seconds, milliseconds, separator);
    assert tail[1..3] == minutes && tail[4..6] == seconds && tail[7..] == milliseconds;
    ParseTail(hours, tail, separator);
  }

  lemma TailParts(head: string, tail: string, t: string)
    requires |tail| == 10 && t == head + tail
    ensures var n := |t|;
      && n == |head| + 10 && t[n - 10] == tail[0] && t[n - 7] == tail[3] && t[n - 4] == tail[6] && t[..n - 10] == head
      && t[n - 9..n - 7] == tail[1..3] && t[n - 6..n - 4] == tail[4..6] && t[n - 3..] == tail[7..]
  {
  }

  lemma DenotedFields(f: Fields)
    requires f.minutes < 60 && f.seconds < 60 && f.milliseconds < 1000
    ensures Denoted(Padded(f.hours, 2), Padded(f.minutes, 2), Padded(f.seconds, 2), Padded(f.milliseconds, 3))
         == Some(f.hours * 3_600_000 + f.minutes * 60_000 + f.seconds * 1000 + f.milliseconds)
  {
    NumberPadded(f.hours, 2);
    NumberPadded(f.minutes, 2);
    NumberPadded(f.seconds, 2);
    NumberPadded(f.milliseconds, 3);
  }

  /** A rendered time denotes its milliseconds. */
  lemma TimestampRoundTrip(total: nat, separator: char)
    ensures ParseTimestamp(TimestampText(total, separator), separator) == Some(total)
  {
    var f := FieldsOf(total);
    FieldsInRange(total);
    DenotedFields(f);
    PaddedAtLeast(f.hours, 2);
    TwoDigits(f.minutes);
    TwoDigits(f.seconds);
    ThreeDigits(f.milliseconds);
    ParseFields(Padded(f.hours, 2), Padded(f.minutes, 2), Padded(f.seconds, 2), Padded(f.milliseconds, 3), separator);
  }

  // ----- cues -----

  const UNKNOWN_SPEAKER := "SPEAKER_UNKNOWN"

  const ARROW := " --> "

  predicate Given(name: Option<string>) { name.Some? && name.value != "" }

  function SpeakerName(s: Segment): string {
    if Given(s.identity) then s.identity.value
    else if Given(s.speaker) then s.speaker.value
    else UNKNOWN_SPEAKER
  }

  /** A subtitle shows the name of the matched profile, never the raw label under it; a segment
      without a match keeps its label. */
  lemma MatchedNameIsShown(s: Segment, matches: map<string, SpeakerProfiles.Match>)
    requires s.identity == None
    ensures var shown := SpeakerName(SpeakerMatching.Identified(s, matches));
      && (Given(s.speaker) && s.speaker.value in matches && matches[s.speaker.value].displayName != "" ==>
            shown == matches[s.speaker.value].displayName)
      && (Given(s.speaker) && s.speaker.value !in matches ==> shown == s.speaker.value)
      && shown != ""
  {
    assert UNKNOWN_SPEAKER[0] == 'S';
  }

  function Payload(s: Segment): string { SpeakerName(s) + ": " + s.text }

  function TimesText(start: nat, end: nat, separator: char): string {
    TimestampText(start, separator) + ARROW + TimestampText(end, separator)
  }

  function TimesLine(s: Segment, separator: char): string {
    TimesText(Milliseconds(s.start), Milliseconds(s.end), separator)
  }

  datatype Cue = Cue(start: nat, end: nat, payload: string)

  /** What a subtitle file is meant to convey. */
  function CueOf(s: Segment): Cue {
    var name := if s.identity.Some? && s.identity.value != "" then s.identity.value
                else if s.speaker.Some? && s.speaker.value != "" then s.speaker.value
                else "SPEAKER_UNKNOWN";
    Cue(Milliseconds(s.start), Milliseconds(s.end), name + ": " + s.text)
  }

  function CuesOf(segments: seq<Segment>): seq<Cue> {
    seq(|segments|, i requires 0 <= i < |segments| => CueOf(segments[i]))
  }

  /** The two lines that show a cue. */
  datatype Shown = Shown(times: string, payload: string)

  function ShownAs(s: Segment, separator: char): Shown { Shown(TimesLine(s, separator), Payload(s)) }

  function AllShown(segments: seq<Segment>, separator: char): seq<Shown> {
    seq(|segments|, i requires 0 <= i < |segments| => ShownAs(segments[i], separator))
  }

  /** An SRT file, line by line: four lines a cue. */
  function SrtLines(cues: seq<Shown>, number: nat): seq<string> {
    if cues == [] then []
    else [Decimal(number), cues[0].times, cues[0].payload, ""] + SrtLines(cues[1..], number + 1)
  }

  function SrtText(segments: seq<Segment>): string { JoinWith("\n", SrtLines(AllShown(segments, ','), 1)) }

  /** A VTT file, line by line: a header, then three lines a cue. */
  function VttLines(cues: seq<Shown>): seq<string> {
    if cues == [] then [] else [cues[0].times, cues[0].payload, ""] + VttLines(cues[1..])
  }

  const VTT_HEADER: seq<string> := ["WEBVTT", ""]

  function VttText(segments: seq<Segment>): string { JoinWith("\n", VTT_HEADER + VttLines(AllShown(segments, '.'))) }

  /** `_render_srt` */
  method RenderSrt(segments: seq<Segment>) returns (text: string)
    ensures text == SrtText(segments)
  {
    var cues := AllShown(segments, ',');
    var blocks := SrtBlocks(cues);
    BlocksAsLines(cues, 1);
    text := JoinWith("\n\n", blocks) + if blocks != [] then "\n" else "";
  }

  method SrtBlocks(cues: seq<Shown>) returns (blocks: seq<string>)
    ensures blocks == Blocks(cues, 1)
  {
    blocks := [];
    for i := 0 to |cues|
      invariant blocks == Blocks(cues[..i], 1)
    {
      BlocksAppend(cues[..i], cues[i], 1);
      assert cues[..i] + [cues[i]] == cues[..i + 1];
      blocks := blocks + [Block(cues[i], i + 1)];
    }
    assert cues[..|cues|] == cues;
  }

  function Block(c: Shown, number: nat): string {
    Decimal(number) + "\n" + c.times + "\n" + c.payload
  }

  function Blocks(cues: seq<Shown>, number: nat): seq<string> {
    if cues == [] then [] else [Block(cues[0], number)] + Blocks(cues[1..], number + 1)
  }

  lemma {:induction false} BlocksAppend(cues: seq<Shown>, c: Shown, number: nat)
    ensures Blocks(cues + [c], number) == Blocks(cues, number) + [Block(c, number + |cues|)]
  {
    if cues != [] {
      assert (cues + [c])[1..] == cues[1..] + [c];
      BlocksAppend(cues[1..], c, number + 1);
    } else {
      assert (cues + [c])[1..] == [];
    }
  }

  lemma FourLines(a: string, b: string, c: string)
    ensures JoinWith("\n", [a, b, c, ""]) == a + "\n" + b + "\n" + c + "\n"
  {
    assert [a, b, c, ""][1..] == [b, c, ""] && [b, c, ""][1..] == [c, ""] && [c, ""][1..] == [""];
    var tail := [""];
    assert JoinWith("\n", tail) == "" && JoinWith("\n", [c, ""]) == c + "\n";
  }

  /** Blocks joined by blank lines, with a last newline, are the lines joined by newlines. */
  lemma {:induction false} BlocksAsLines(cues: seq<Shown>, number: nat)
    ensures JoinWith("\n\n", Blocks(cues, number)) + (if cues != [] then "\n" else "")
         == JoinWith("\n", SrtLines(cues, number))
    ensures cues == [] <==> Blocks(cues, number) == []
  {
    if cues != [] {
      var c, rest := cues[0], cues[1..];
      var lines := [Decimal(number), c.times, c.payload, ""];
      FourLines(Decimal(number), c.times, c.payload);
      BlocksAsLines(rest, number + 1);
      if rest == [] {
        assert SrtLines(cues, number) == lines;
      } else {
        assert Blocks(cues, number)[1..] == Blocks(rest, number + 1);
        JoinAppend("\n", lines, SrtLines(rest, number + 1));
        TwoNewlines(Block(c, number), JoinWith("\n\n", Blocks(rest, number + 1)));
      }
    }
  }

  lemma TwoNewlines(a: string, b: string)
    ensures a + "\n\n" + b + "\n" == (a + "\n") + "\n" + (b + "\n")
  {
  }

  /** `_render_vtt` */
  method RenderVtt(segments: seq<Segment>) returns (text: string)
    ensures text == VttText(segments)
  {
    var lines := VttFile(AllShown(segments, '.'));
    text := JoinWith("\n", lines);
  }

  method VttFile(cues: seq<Shown>) returns (lines: seq<string>)
    ensures lines == VTT_HEADER + VttLines(cues)
  {
    lines := VTT_HEADER;
    for i := 0 to |cues|
      invariant lines == VTT_HEADER + VttLines(cues[..i])
    {
      VttAppend(cues[..i], cues[i]);
      assert cues[..i] + [cues[i]] == cues[..i + 1];
      lines := lines + [cues[i].times, cues[i].payload, ""];
    }
    assert cues[..|cues|] == cues;
  }

  lemma {:induction false} VttAppend(cues: seq<Shown>, c: Shown)
    ensures VttLines(cues + [c]) == VttLines(cues) + [c.times, c.payload, ""]
  {
    if cues != [] {
      assert (cues + [c])[1..] == cues[1..] + [c];
      VttAppend(cues[1..], c);
    } else {
      assert (cues + [c])[1..] == [];
    }
  }

  // ----- reading subtitles back -----

  function UpToSpace(s: string): (n: nat)
    ensures n <= |s|
  {
    if s == "" || s[0] == ' ' then 0 else 1 + UpToSpace(s[1..])
  }

  lemma {:induction false} FirstSpace(a: string, b: string)
    requires ' ' !in a && b != "" && b[0] == ' '
    ensures UpToSpace(a + b) == |a|
  {
    if a == "" {
      assert a + b == b;
    } else {
      assert (a + b)[1..] == a[1..] + b;
      FirstSpace(a[1..], b);
    }
  }

  function ParseTimes(line: string, separator: char): Option<(nat, nat)> {
    var i := UpToSpace(line);
    if |line| < i + 5 || line[i..i + 5] != ARROW then None
    else
      var start, end := ParseTimestamp(line[..i], separator), ParseTimestamp(line[i + 5..], separator);
      if start.None? || end.None? then None else Some((start.value, end.value))
  }

  lemma OnlyDigitsAnd(hours: string, minutes: string, seconds: string, milliseconds: string, separator: char, c: char)
    requires AllDigits(hours) && AllDigits(minutes) && AllDigits(seconds) && AllDigits(milliseconds)
    requires !IsDigit(c) && c != ':' && c != separator
    ensures c !in Separated(hours, minutes, seconds, milliseconds, separator)
  {
    assert c !in hours && c !in minutes && c !in seconds && c !in milliseconds;
  }

  lemma TimestampAvoids(total: nat, separator: char, c: char)
    requires !IsDigit(c) && c != ':' && c != separator
    ensures c !in TimestampText(total, separator)
  {
    var f := FieldsOf(total);
    OnlyDigitsAnd(Padded(f.hours, 2), Padded(f.minutes, 2), Padded(f.seconds, 2), Padded(f.milliseconds, 3), separator, c);
  }

  lemma SplitAtArrow(a: string, b: string, separator: char)
    requires ' ' !in a
    ensures ParseTimes(a + ARROW + b, separator)
         == var start, end := ParseTimestamp(a, separator), ParseTimestamp(b, separator);
            if start.None? || end.None? then None else Some((start.value, end.value))
  {
    var line := a + ARROW + b;
    assert line == a + (ARROW + b);
    FirstSpace(a, ARROW + b);
    assert line[..|a|] == a && line[|a|..|a| + 5] == ARROW && line[|a| + 5..] == b;
  }

  lemma ArrowOneLine(a: string, b: string)
    requires OneLine(a) && OneLine(b)
    ensures OneLine(a + ARROW + b)
  {
    assert OneLine(ARROW);
  }

  lemma TimesOneLine(start: nat, end: nat, separator: char)
    requires separator in {',', '.'}
    ensures OneLine(TimesText(start, end, separator))
  {
    TimestampAvoids(start, separator, '\n');
    TimestampAvoids(end, separator, '\n');
    ArrowOneLine(TimestampText(start, separator), TimestampText(end, separator));
  }

  lemma TimesRoundTrip(start: nat, end: nat, separator: char)
    requires separator in {',', '.'}
    ensures ParseTimes(TimesText(start, end, separator), separator) == Some((start, end))
  {
    TimestampAvoids(start, separator, ' ');
    SplitAtArrow(TimestampText(start, separator), TimestampText(end, separator), separator);
    TimestampRoundTrip(start, separator);
    TimestampRoundTrip(end, separator);
  }

  function ParseSrt(lines: seq<string>, number: nat): Option<seq<Cue>> {
    if lines == [] then Some([])
    else if |lines| < 4 || lines[0] != Decimal(number) || lines[3] != "" then None
    else
      var times, rest := ParseTimes(lines[1], ','), ParseSrt(lines[4..], number + 1);
      if times.None? || rest.None? then None
      else Some([Cue(times.value.0, times.value.1, lines[2])] + rest.value)
  }

  function DecodeSrt(text: string): Option<seq<Cue>> {
    if text == "" then Some([]) else ParseSrt(SplitLines(text), 1)
  }

  function ParseVtt(lines: seq<string>): Option<seq<Cue>> {
    if lines == [] then Some([])
    else if |lines| < 3 || lines[2] != "" then None
    else
      var times, rest := ParseTimes(lines[0], '.'), ParseVtt(lines[3..]);
      if times.None? || rest.None? then None
      else Some([Cue(times.value.0, times.value.1, lines[1])] + rest.value)
  }

  function DecodeVtt(text: string): Option<seq<Cue>> {
    var lines := SplitLines(text);
    if |lines| < 2 || lines[..2] != VTT_HEADER then None else ParseVtt(lines[2..])
  }

  /** These two lines convey that cue. */
  predicate Conveys(s: Shown, c: Cue, separator: char) {
    ParseTimes(s.times, separator) == Some((c.start, c.end)) && s.payload == c.payload
  }

  predicate AllConvey(shown: seq<Shown>, cues: seq<Cue>, separator: char) {
    |shown| == |cues| && forall i :: 0 <= i < |shown| ==> Conveys(shown[i], cues[i], separator)
  }

  lemma SrtStep(s: Shown, c: Cue, number: nat, lines: seq<string>, cues: seq<Cue>)
    requires Conveys(s, c, ',') && ParseSrt(lines, number + 1) == Some(cues)
    ensures ParseSrt([Decimal(number), s.times, s.payload, ""] + lines, number) == Some([c] + cues)
  {
    var all := [Decimal(number), s.times, s.payload, ""] + lines;
    assert all[4..] == lines && all[0] == Decimal(number) && all[1] == s.times && all[2] == s.payload && all[3] == "";
  }

  lemma VttStep(s: Shown, c: Cue, lines: seq<string>, cues: seq<Cue>)
    requires Conveys(s, c, '.') && ParseVtt(lines) == Some(cues)
    ensures ParseVtt([s.times, s.payload, ""] + lines) == Some([c] + cues)
  {
    var all := [s.times, s.payload, ""] + lines;
    assert all[3..] == lines && all[0] == s.times && all[1] == s.payload && all[2] == "";
  }

  lemma ConveyRest(shown: seq<Shown>, cues: seq<Cue>, separator: char)
    requires AllConvey(shown, cues, separator) && shown != []
    ensures Conveys(shown[0], cues[0], separator) && AllConvey(shown[1..], cues[1..], separator)
  {
    forall i | 0 <= i < |shown[1..]| ensures Conveys(shown[1..][i], cues[1..][i], separator) {
      assert Conveys(shown[i + 1], cues[i + 1], separator);
    }
  }

  lemma {:induction false} SrtLinesParse(shown: seq<Shown>, cues: seq<Cue>, number: nat)
    requires AllConvey(shown, cues, ',')
    ensures ParseSrt(SrtLines(shown, number), number) == Some(cues)
  {
    if shown != [] {
      ConveyRest(shown, cues, ',');
      SrtLinesParse(shown[1..], cues[1..], number + 1);
      SrtStep(shown[0], cues[0], number, SrtLines(shown[1..], number + 1), cues[1..]);
      assert cues == [cues[0]] + cues[1..];
    } else {
      assert cues == [];
    }
  }

  lemma {:induction false} VttLinesParse(shown: seq<Shown>, cues: seq<Cue>)
    requires AllConvey(shown, cues, '.')
    ensures ParseVtt(VttLines(shown)) == Some(cues)
  {
    if shown != [] {
      ConveyRest(shown, cues, '.');
      VttLinesParse(shown[1..], cues[1..]);
      VttStep(shown[0], cues[0], VttLines(shown[1..]), cues[1..]);
      assert cues == [cues[0]] + cues[1..];
    } else {
      assert cues == [];
    }
  }

  predicate AllOneLine(lines: seq<string>) { forall i :: 0 <= i < |lines| ==> OneLine(lines[i]) }

  predicate ShownOneLine(shown: seq<Shown>) {
    forall i :: 0 <= i < |shown| ==> OneLine(shown[i].times) && OneLine(shown[i].payload)
  }

  lemma {:induction false} LinesAreSingle(shown: seq<Shown>, number: nat)
    requires ShownOneLine(shown)
    ensures AllOneLine(SrtLines(shown, number)) && AllOneLine(VttLines(shown))
  {
    if shown != [] {
      LinesAreSingle(shown[1..], number + 1);
      assert OneLine(Decimal(number)) && OneLine("");
    }
  }

  /** No speaker name or text contains a newline. */
  predicate SingleLines(segments: seq<Segment>) {
    forall i :: 0 <= i < |segments| ==> OneLine(SpeakerName(segments[i])) && OneLine(segments[i].text)
  }

  lemma SegmentsConvey(segments: seq<Segment>, separator: char)
    requires separator in {',', '.'}
    ensures AllConvey(AllShown(segments, separator), CuesOf(segments), separator)
  {
    forall i | 0 <= i < |segments| ensures Conveys(ShownAs(segments[i], separator), CueOf(segments[i]), separator) {
      TimesRoundTrip(Milliseconds(segments[i].start), Milliseconds(segments[i].end), separator);
    }
  }

  lemma SegmentsShownOneLine(segments: seq<Segment>, separator: char)
    requires separator in {',', '.'} && SingleLines(segments)
    ensures ShownOneLine(AllShown(segments, separator))
  {
    forall i | 0 <= i < |segments|
      ensures OneLine(TimesLine(segments[i], separator)) && OneLine(Payload(segments[i])) {
      TimesOneLine(Milliseconds(segments[i].start), Milliseconds(segments[i].end), separator);
    }
  }

  lemma {:induction false} SrtPayloads(lines: seq<string>, number: nat)
    requires AllOneLine(lines) && ParseSrt(lines, number).Some?
    ensures forall i :: 0 <= i < |ParseSrt(lines, number).value| ==> OneLine(ParseSrt(lines, number).value[i].payload)
  {
    if lines != [] { SrtPayloads(lines[4..], number + 1); }
  }

  lemma {:induction false} VttPayloads(lines: seq<string>)
    requires AllOneLine(lines) && ParseVtt(lines).Some?
    ensures forall i :: 0 <= i < |ParseVtt(lines).value| ==> OneLine(ParseVtt(lines).value[i].payload)
  {
    if lines != [] { VttPayloads(lines[3..]); }
  }

  /** What is read back as single lines was single lines. */
  lemma PayloadsAreSingle(segments: seq<Segment>)
    requires forall i :: 0 <= i < |CuesOf(segments)| ==> OneLine(CuesOf(segments)[i].payload)
    ensures SingleLines(segments)
  {
    forall i | 0 <= i < |segments| ensures OneLine(SpeakerName(segments[i])) && OneLine(segments[i].text) {
      assert OneLine(CuesOf(segments)[i].payload);
      OneLineParts(SpeakerName(segments[i]), ": ", segments[i].text);
    }
  }

  lemma OneLineParts(a: string, b: string, c: string)
    requires OneLine(a + b + c)
    ensures OneLine(a) && OneLine(c)
  {
    var all := a + b + c;
    forall i | 0 <= i < |a| ensures a[i] != '\n' { assert all[i] == a[i]; }
    forall i | 0 <= i < |c| ensures c[i] != '\n' { assert all[|a| + |b| + i] == c[i]; }
  }

  /** The cues of an SRT file can be read back (how many there are, when each starts and ends, and
      what it shows) exactly when no speaker name and no text contains a newline. */
  lemma SrtDecodes(segments: seq<Segment>)
    ensures DecodeSrt(SrtText(segments)) == Some(CuesOf(segments)) <==> SingleLines(segments)
  {
    if SingleLines(segments) { SrtSingleDecodes(segments); }
    if DecodeSrt(SrtText(segments)) == Some(CuesOf(segments)) && SrtText(segments) != "" {
      SplitIsOneLine(SrtText(segments));
      SrtPayloads(SplitLines(SrtText(segments)), 1);
      PayloadsAreSingle(segments);
    }
  }

  lemma SrtSingleDecodes(segments: seq<Segment>)
    requires SingleLines(segments)
    ensures DecodeSrt(SrtText(segments)) == Some(CuesOf(segments))
  {
    var shown := AllShown(segments, ',');
    SegmentsConvey(segments, ',');
    SegmentsShownOneLine(segments, ',');
    SrtLinesParse(shown, CuesOf(segments), 1);
    LinesAreSingle(shown, 1);
    if shown != [] {
      SplitJoin(SrtLines(shown, 1));
      assert |SplitLines("")| == 1;
    }
  }

  lemma DecodeVttLines(body: seq<string>, cues: seq<Cue>)
    requires AllOneLine(body) && ParseVtt(body) == Some(cues)
    ensures DecodeVtt(JoinWith("\n", VTT_HEADER + body)) == Some(cues)
  {
    var lines := VTT_HEADER + body;
    assert OneLine(VTT_HEADER[0]) && OneLine(VTT_HEADER[1]);
    SplitJoin(lines);
    assert lines[..2] == VTT_HEADER && lines[2..] == body;
  }

  /** And so can the cues of a VTT file. */
  lemma VttDecodes(segments: seq<Segment>)
    ensures DecodeVtt(VttText(segments)) == Some(CuesOf(segments)) <==> SingleLines(segments)
  {
    if SingleLines(segments) { VttSingleDecodes(segments); }
    if DecodeVtt(VttText(segments)) == Some(CuesOf(segments)) {
      var lines := SplitLines(VttText(segments));
      SplitIsOneLine(VttText(segments));
      VttPayloads(lines[2..]);
      PayloadsAreSingle(segments);
    }
  }

  lemma VttSingleDecodes(segments: seq<Segment>)
    requires SingleLines(segments)
    ensures DecodeVtt(VttText(segments)) == Some(CuesOf(segments))
  {
    var shown := AllShown(segments, '.');
    SegmentsConvey(segments, '.');
    SegmentsShownOneLine(segments, '.');
    VttLinesParse(shown, CuesOf(segments));
    LinesAreSingle(shown, 1);
    DecodeVttLines(VttLines(shown), CuesOf(segments));
  }

  // ----- two lists, one file -----

  function Hidden(c: Shown, lead: string, d: Shown): Shown {
    Shown(c.times, c.payload + ("\n\n" + lead + d.times + "\n" + d.payload))
  }

  lemma HiddenPayload(p: string, times: string, q: string)
    ensures JoinWith("\n", [p, "", times, q]) == p + ("\n\n" + "" + times + "\n" + q)
  {
    assert [p, "", times, q][1..] == ["", times, q] && ["", times, q][1..] == [times, q] && [times, q][1..] == [q];
    assert JoinWith("\n", [times, q]) == times + "\n" + q;
    assert JoinWith("\n", ["", times, q]) == "\n" + (times + "\n" + q);
  }

  lemma NumberedPayload(p: string, number: string, times: string, q: string)
    ensures JoinWith("\n", [p, "", number, times, q]) == p + ("\n\n" + (number + "\n") + times + "\n" + q)
  {
    var tail := [number, times, q];
    assert tail[1..] == [times, q] && [times, q][1..] == [q];
    assert JoinWith("\n", [times, q]) == times + "\n" + q;
    assert JoinWith("\n", tail) == number + "\n" + (times + "\n" + q);
    assert [p, "", number, times, q][1..] == [""] + tail && ([""] + tail)[1..] == tail;
    assert JoinWith("\n", [""] + tail) == "\n" + (number + "\n" + (times + "\n" + q));
  }

  lemma OneCueLines(c: Shown)
    ensures VttLines([c]) == [c.times, c.payload, ""]
    ensures SrtLines([c], 1) == [Decimal(1), c.times, c.payload, ""]
  {
    assert [c][1..] == [];
    assert VttLines([c]) == [c.times, c.payload, ""] + VttLines([]);
    assert SrtLines([c], 1) == [Decimal(1), c.times, c.payload, ""] + SrtLines([], 2);
  }

  lemma TwoCueLines(c: Shown, d: Shown)
    ensures VttLines([c, d]) == [c.times, c.payload, "", d.times, d.payload, ""]
    ensures SrtLines([c, d], 1) == [Decimal(1), c.times, c.payload, "", Decimal(2), d.times, d.payload, ""]
  {
    assert [c, d][1..] == [d] && [d][1..] == [];
    assert VttLines([d]) == [d.times, d.payload, ""] + VttLines([]);
    assert SrtLines([d], 2) == [Decimal(2), d.times, d.payload, ""] + SrtLines([], 3);
  }

  /** The two files of a single segment, letter by letter. */
  lemma SingleSegmentFiles(s: Segment)
    ensures SrtText([s]) == "1\n" + Times(s, ',') + "\n" + CueOf(s).payload + "\n"
    ensures VttText([s]) == "WEBVTT\n\n" + Times(s, '.') + "\n" + CueOf(s).payload + "\n"
  {
    OneShown(s, ',');
    OneShown(s, '.');
    SrtOfOne(Shown(Times(s, ','), CueOf(s).payload));
    VttOfOne(Shown(Times(s, '.'), CueOf(s).payload));
  }

  function Times(s: Segment, separator: char): string {
    TimestampText(Milliseconds(s.start), separator) + " --> " + TimestampText(Milliseconds(s.end), separator)
  }

  lemma OneShown(s: Segment, separator: char)
    ensures AllShown([s], separator) == [Shown(Times(s, separator), CueOf(s).payload)]
  {
    assert AllShown([s], separator) == [ShownAs(s, separator)];
  }

  lemma SrtOfOne(c: Shown)
    ensures JoinWith("\n", SrtLines([c], 1)) == "1\n" + c.times + "\n" + c.payload + "\n"
  {
    OneCueLines(c);
    FourLines(Decimal(1), c.times, c.payload);
    assert Decimal(1) == "1";
    assert "1" + "\n" == "1\n";
  }

  lemma VttOfOne(c: Shown)
    ensures JoinWith("\n", VTT_HEADER + VttLines([c])) == "WEBVTT\n\n" + c.times + "\n" + c.payload + "\n"
  {
    OneCueLines(c);
    FiveLines(c.times, c.payload);
  }

  lemma FiveLines(times: string, payload: string)
    ensures JoinWith("\n", VTT_HEADER + [times, payload, ""]) == "WEBVTT\n\n" + times + "\n" + payload + "\n"
  {
    var lines := VTT_HEADER + [times, payload, ""];
    assert lines == ["WEBVTT", "", times, payload, ""] && lines[1..] == ["", times, payload, ""];
    FourLines("", times, payload);
  }

  lemma HiddenInVtt(c: Shown, d: Shown)
    ensures JoinWith("\n", VTT_HEADER + VttLines([Hidden(c, "", d)])) == JoinWith("\n", VTT_HEADER + VttLines([c, d]))
  {
    var head, mid, last := VTT_HEADER + [c.times], [c.payload, "", d.times, d.payload], [""];
    HiddenPayload(c.payload, d.times, d.payload);
    JoinNested("\n", head, mid, last);
    OneCueLines(Hidden(c, "", d));
    TwoCueLines(c, d);
    assert VTT_HEADER + VttLines([c, d]) == head + mid + last;
    assert VTT_HEADER + VttLines([Hidden(c, "", d)]) == head + [Hidden(c, "", d).payload] + last;
  }

  lemma HiddenInSrt(c: Shown, d: Shown)
    ensures JoinWith("\n", SrtLines([Hidden(c, Decimal(2) + "\n", d)], 1)) == JoinWith("\n", SrtLines([c, d], 1))
  {
    var h := Hidden(c, Decimal(2) + "\n", d);
    var head, mid, last := [Decimal(1), c.times], [c.payload, "", Decimal(2), d.times, d.payload], [""];
    NumberedPayload(c.payload, Decimal(2), d.times, d.payload);
    JoinNested("\n", head, mid, last);
    OneCueLines(h);
    TwoCueLines(c, d);
    assert SrtLines([c, d], 1) == head + mid + last;
    assert SrtLines([h], 1) == head + [h.payload] + last;
  }

  lemma LongerText(s: Segment, tail: string, separator: char)
    ensures ShownAs(s.(text := s.text + tail), separator)
         == Shown(ShownAs(s, separator).times, ShownAs(s, separator).payload + tail)
  {
    var name := SpeakerName(s) + ": ";
    assert name + (s.text + tail) == name + s.text + tail;
  }

  lemma ShownLists(a: Segment, b: Segment, separator: char)
    ensures AllShown([a], separator) == [ShownAs(a, separator)]
    ensures AllShown([a, b], separator) == [ShownAs(a, separator), ShownAs(b, separator)]
  {
  }

  /** What the first segment would have to say to pass for both. */
  function Disguise(first: Segment, second: Segment, lead: string, separator: char): Segment {
    var d := ShownAs(second, separator);
    first.(text := first.text + ("\n\n" + lead + d.times + "\n" + d.payload))
  }

  /** A text with a blank line and a timing line in it passes for the next cue: one segment and two
      give the same VTT file, and with the cue number before the timing line the same SRT file. */
  lemma NewlineHidesCue(first: Segment, second: Segment)
    ensures VttText([Disguise(first, second, "", '.')]) == VttText([first, second])
    ensures SrtText([Disguise(first, second, Decimal(2) + "\n", ',')]) == SrtText([first, second])
    ensures |CuesOf([Disguise(first, second, "", '.')])| != |CuesOf([first, second])|
    ensures |CuesOf([Disguise(first, second, Decimal(2) + "\n", ',')])| != |CuesOf([first, second])|
  {
    HiddenVttSegment(first, second);
    HiddenSrtSegment(first, second);
  }

  lemma HiddenVttSegment(first: Segment, second: Segment)
    ensures VttText([Disguise(first, second, "", '.')]) == VttText([first, second])
  {
    var c, d := ShownAs(first, '.'), ShownAs(second, '.');
    LongerText(first, "\n\n" + "" + d.times + "\n" + d.payload, '.');
    ShownLists(Disguise(first, second, "", '.'), second, '.');
    ShownLists(first, second, '.');
    HiddenInVtt(c, d);
  }

  lemma HiddenSrtSegment(first: Segment, second: Segment)
    ensures SrtText([Disguise(first, second, Decimal(2) + "\n", ',')]) == SrtText([first, second])
  {
    var lead := Decimal(2) + "\n";
    var c, d := ShownAs(first, ','), ShownAs(second, ',');
    LongerText(first, "\n\n" + lead + d.times + "\n" + d.payload, ',');
    ShownLists(Disguise(first, second, lead, ','), second, ',');
    ShownLists(first, second, ',');
    HiddenInSrt(c, d);
  }
}
