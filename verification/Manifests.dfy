/** The durable result of a worker run: what is in a job's archive directory, and how restart
    recovery reads it back. JSON is held as structured values. */
module Manifests {
  import opened Models
  import Strings = Text

  /** A JSON value; arrays and objects where a scalar is expected are all alike. */
  datatype Value = Null | Truth(value: bool) | Int(n: int) | Float(x: Number) | Text(text: string) | Nested

  datatype Kind = Json | Txt | Srt | Vtt | Tsv

  const KINDS: seq<Kind> := [Json, Txt, Srt, Vtt, Tsv]

  /** A file another format overwrites in place is partial between open and close. */
  datatype Content = Partial | Full

  /** A missing section or entry of the file reads as null. */
  datatype Manifest = Manifest(
    jobId: Value, status: Value, completedAt: Value, duration: Value, language: Value, probability: Value,
    languageSource: Value, speakerCount: Value, outputs: map<Kind, Value>, errors: seq<(string, Value)>)

  /** The archive directory of one job; no manifest means none that parses to an object. */
  datatype Directory = Directory(exports: map<Kind, Content>, manifest: Option<Manifest>)

  const COMPLETED_TEXT := "completed"
  const WARNINGS_TEXT := "completed_with_warnings"
  const FAILED_TEXT := "failed"

  function FileName(k: Kind): string {
    match k
    case Json => "transcript.json"
    case Txt => "transcript.txt"
    case Srt => "transcript.srt"
    case Vtt => "transcript.vtt"
    case Tsv => "transcript.tsv"
  }

  predicate AllFull(d: Directory) {
    forall k: Kind :: k in d.exports && d.exports[k] == Full
  }

  // ----- text -----

  /** Python's `str.isspace` characters. */
  predicate IsSpace(c: char) {
    var n := c as int;
    9 <= n <= 13 || 28 <= n <= 32 || n == 0x85 || n == 0xA0 || n == 0x1680 || 0x2000 <= n <= 0x200A
    || n == 0x2028 || n == 0x2029 || n == 0x202F || n == 0x205F || n == 0x3000
  }

  predicate Blank(s: string) { forall i :: 0 <= i < |s| ==> IsSpace(s[i]) }

  function StripLeft(s: string): string {
    if s != "" && IsSpace(s[0]) then StripLeft(s[1..]) else s
  }

  function StripRight(s: string): string {
    if s != "" && IsSpace(s[|s| - 1]) then StripRight(s[..|s| - 1]) else s
  }

  function Strip(s: string): string { StripRight(StripLeft(s)) }

  lemma {:induction false} StripLeftBlank(s: string)
    ensures StripLeft(s) == "" <==> Blank(s)
    ensures StripLeft(s) != "" ==> !IsSpace(StripLeft(s)[0])
  {
    if s != "" && IsSpace(s[0]) {
      StripLeftBlank(s[1..]);
      assert s == [s[0]] + s[1..];
    }
  }

  lemma {:induction false} StripRightKeeps(s: string)
    requires s != "" && !IsSpace(s[0])
    ensures StripRight(s) != ""
  {
    if IsSpace(s[|s| - 1]) { StripRightKeeps(s[..|s| - 1]); }
  }

  /** Stripping leaves nothing exactly when there is nothing but space. */
  lemma StripBlank(s: string)
    ensures Strip(s) == "" <==> Blank(s)
  {
    StripLeftBlank(s);
    if !Blank(s) { StripRightKeeps(StripLeft(s)); }
  }

  /** What is left has been cut out of the text, with nothing but white space around it and none at
      its ends. */
  lemma StripTrims(s: string) returns (lo: nat, hi: nat)
    ensures lo <= hi <= |s| && Strip(s) == s[lo..hi] && Blank(s[..lo]) && Blank(s[hi..])
    ensures Strip(s) != "" ==> !IsSpace(Strip(s)[0]) && !IsSpace(Strip(s)[|Strip(s)| - 1])
  {
    var left := StripLeft(s);
    lo := LeftTrims(s);
    var n := RightTrims(left);
    hi := lo + n;
    assert s[hi..] == left[n..];
    StripLeftBlank(s);
  }

  lemma {:induction false} LeftTrims(s: string) returns (lo: nat)
    ensures lo <= |s| && StripLeft(s) == s[lo..] && Blank(s[..lo])
  {
    if s != "" && IsSpace(s[0]) {
      var k := LeftTrims(s[1..]);
      lo := k + 1;
      assert s[..lo] == [s[0]] + s[1..][..k];
    } else {
      lo := 0;
    }
  }

  lemma {:induction false} RightTrims(s: string) returns (n: nat)
    ensures n <= |s| && StripRight(s) == s[..n] && Blank(s[n..])
    ensures StripRight(s) != "" ==> !IsSpace(StripRight(s)[n - 1])
  {
    if s != "" && IsSpace(s[|s| - 1]) {
      var front := s[..|s| - 1];
      n := RightTrims(front);
      assert s[n..] == front[n..] + [s[|s| - 1]];
      assert front[..n] == s[..n];
    } else {
      n := |s|;
    }
  }

  function Join(texts: seq<string>): string {
    Strings.JoinWith(" ", texts)
  }

  /** `text or None`. */
  function OrNone(s: string): Option<string> { if s == "" then None else Some(s) }

  // ----- reading -----

  function OptionalString(v: Value): Option<string> {
    if v.Text? && Strip(v.text) != "" then Some(Strip(v.text)) else None
  }

  /** `parse` is Python's `float` on text. */
  function OptionalFloat(v: Value, parse: string -> Option<Number>): Option<Number> {
    match v
    case Int(n) => Some(Finite(n as real))
    case Float(x) => Some(x)
    case Text(t) => parse(t)
    case _ => None
  }

  function OptionalInt(v: Value, parse: string -> Option<int>): Option<int> {
    match v
    case Int(n) => Some(n)
    case Float(Finite(r)) => Some(if r >= 0.0 then r.Floor else -((-r).Floor))
    case Text(t) => parse(t)
    case _ => None
  }

  datatype Parsers = Parsers(toFloat: string -> Option<Number>, toInt: string -> Option<int>)

  function FinalStatus(v: Value): Option<JobStatus> {
    if v == Text(COMPLETED_TEXT) then Some(Completed)
    else if v == Text(WARNINGS_TEXT) then Some(CompletedWithWarnings)
    else if v == Text(FAILED_TEXT) then Some(JobStatus.Failed)
    else None
  }

  predicate OutputsPresent(m: Manifest, d: Directory) {
    forall k: Kind :: k in m.outputs && m.outputs[k] == Text(FileName(k)) && k in d.exports
  }

  /** The error entries whose message is text and not blank. */
  function ErrorPairs(errors: seq<(string, Value)>): seq<(string, string)> {
    if errors == [] then []
    else
      var (code, message) := errors[0];
      (if message.Text? && Strip(message.text) != "" then [(code, message.text)] else []) + ErrorPairs(errors[1..])
  }

  function Messages(pairs: seq<(string, string)>): seq<string> {
    seq(|pairs|, i requires 0 <= i < |pairs| => pairs[i].1)
  }

  /** `_read_final_manifest` */
  function ReadFinalManifest(id: JobId, job: Job, d: Directory, parsers: Parsers): Option<Final> {
    if job.archiveDir.None? || d.manifest.None? then None
    else
      var m := d.manifest.value;
      var status := FinalStatus(m.status);
      if m.jobId != Text(id) || status.None? then None
      else if status.value != JobStatus.Failed && !OutputsPresent(m, d) then None
      else
        var pairs := ErrorPairs(m.errors);
        var failed := status.value == JobStatus.Failed;
        Some(Final(
          status.value, OptionalString(m.completedAt),
          Summary(OptionalFloat(m.duration, parsers.toFloat), OptionalString(m.language),
                  OptionalFloat(m.probability, parsers.toFloat), OptionalString(m.languageSource),
                  OptionalInt(m.speakerCount, parsers.toInt),
                  if status.value == CompletedWithWarnings then OrNone(Join(Messages(pairs))) else None),
          if failed && pairs != [] then Some(pairs[0].0) else None,
          if failed && pairs != [] then Some(pairs[0].1) else None))
  }

  // ----- writing -----

  /** `_json_safe` on an optional float: a non-finite number is written as null. */
  function FloatValue(x: Option<Number>): Value {
    if x.Some? && x.value.Finite? then Float(x.value) else Null
  }

  function TextValue(t: Option<string>): Value { if t.Some? then Text(t.value) else Null }

  function IntValue(n: Option<int>): Value { if n.Some? then Int(n.value) else Null }

  function ErrorValues(pairs: seq<(string, string)>): seq<(string, Value)> {
    seq(|pairs|, i requires 0 <= i < |pairs| => (pairs[i].0, Text(pairs[i].1)))
  }

  const ALL_OUTPUTS: map<Kind, Value> := map k: Kind | k in KINDS :: Text(FileName(k))

  lemma ExportNames()
    ensures ALL_OUTPUTS == map[Json := Text("transcript.json"), Txt := Text("transcript.txt"), Srt := Text("transcript.srt"),
                               Vtt := Text("transcript.vtt"), Tsv := Text("transcript.tsv")]
  {
    forall k: Kind ensures k in ALL_OUTPUTS { EveryKind(k); }
  }

  lemma EveryKind(k: Kind)
    ensures k in KINDS && k in ALL_OUTPUTS && ALL_OUTPUTS[k] == Text(FileName(k))
  {
    match k {
      case Json => assert KINDS[0] == k;
      case Txt => assert KINDS[1] == k;
      case Srt => assert KINDS[2] == k;
      case Vtt => assert KINDS[3] == k;
      case Tsv => assert KINDS[4] == k;
    }
  }
}
