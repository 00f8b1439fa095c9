/** The artifacts a container reports in its termination message, and what the runtime reads from it. */
module TaskArtifacts {
  import opened Prelude
  import opened SessionTypes
  import opened Base64

  /** Artifact contents by kind; an artifact that was not reported is empty. */
  datatype RawArtifacts = RawArtifacts(outcome: seq<Byte>, pullRequest: seq<Byte>, workflowOutput: seq<Byte>, change: Option<ChangeArtifact>)

  datatype ParseError = InvalidArtifact(key: string) | InvalidChange | MissingOutcome

  /** What JSON decoding is asked about contents: whether they are JSON, and the change they describe. */
  datatype Json = Json(valid: seq<Byte> -> bool, change: seq<Byte> -> Option<ChangeArtifact>)

  // ---- The message ----

  /** The artifact files of a task; only the outcome always exists. */
  datatype Files = Files(outcome: seq<Byte>, pullRequest: Option<seq<Byte>>, workflowOutput: Option<seq<Byte>>, change: Option<seq<Byte>>)

  const MAX_MESSAGE_BYTES := 4096

  function Line(key: string, contents: seq<Byte>): string {
    key + "=" + Encode(contents) + "\n"
  }

  function OptionalLine(key: string, contents: Option<seq<Byte>>): string {
    if contents.Some? then Line(key, contents.value) else ""
  }

  function Lines(f: Files): string {
    Line("outcome", f.outcome) + OptionalLine("pull-request", f.pullRequest)
    + OptionalLine("workflow-output", f.workflowOutput) + OptionalLine("change", f.change)
  }

  /** What the container writes: every artifact, or when they do not fit only an outcome that says so. */
  function TerminationMessage(f: Files, oversized: seq<Byte>): string {
    if |Lines(f)| > MAX_MESSAGE_BYTES then Line("outcome", oversized) else Lines(f)
  }

  // ---- Reading it ----

  /** The position of the first such character, or the length. */
  function IndexOf(s: string, c: char): (i: nat)
    ensures i <= |s|
    ensures c !in s[..i] && (i < |s| ==> s[i] == c)
  {
    if s == "" || s[0] == c then 0 else IndexOf(s[1..], c) + 1
  }

  /** One line's effect on what was read before. */
  function ParseLine(line: string, read: RawArtifacts, json: Json): Result<RawArtifacts, ParseError> {
    var cut := IndexOf(line, '=');
    if cut == |line| then Success(read)
    else
      var key := line[..cut];
      var contents := Decode(line[cut + 1..]);
      if contents.None? || !json.valid(contents.value) then Failure(InvalidArtifact(key))
      else if key == "outcome" then Success(read.(outcome := contents.value))
      else if key == "pull-request" then Success(read.(pullRequest := contents.value))
      else if key == "workflow-output" then Success(read.(workflowOutput := contents.value))
      else if key == "change" then
        if json.change(contents.value).None? then Failure(InvalidChange)
        else Success(read.(change := json.change(contents.value)))
      else Success(read)
  }

  function ParseLines(message: string, read: RawArtifacts, json: Json): Result<RawArtifacts, ParseError>
    decreases |message|
  {
    var end := IndexOf(message, '\n');
    var r := ParseLine(message[..end], read, json);
    if r.Failure? || end == |message| then r
    else ParseLines(message[end + 1..], r.value, json)
  }

  /** Some line of the message has this key. */
  predicate HasLine(message: string, key: string) {
    exists i :: 0 <= i <= |message| && (i == 0 || message[i - 1] == '\n') && key + "=" <= message[i..]
  }

  /** The outcome that was read so far only changes by a line that reports one. */
  lemma {:induction false} OutcomeIsReported(message: string, read: RawArtifacts, json: Json)
    ensures var r := ParseLines(message, read, json);
            r.Success? && r.value.outcome != read.outcome ==> HasLine(message, "outcome")
    decreases |message|
  {
    hide Decode;
    var end := IndexOf(message, '\n');
    LineReports(message, end, read, json);
    var r := ParseLine(message[..end], read, json);
    if r.Success? && end < |message| {
      OutcomeIsReported(message[end + 1..], r.value, json);
      LaterReport(message, end + 1);
    }
  }

  lemma LaterReport(message: string, start: nat)
    requires 0 < start <= |message| && message[start - 1] == '\n'
    ensures HasLine(message[start..], "outcome") ==> HasLine(message, "outcome")
  {
    var rest := message[start..];
    if i :| 0 <= i <= |rest| && (i == 0 || rest[i - 1] == '\n') && "outcome" + "=" <= rest[i..] {
      assert rest[i..] == message[start + i..];
      assert message[start + i - 1] == '\n';
    }
  }

  lemma LineReports(message: string, end: nat, read: RawArtifacts, json: Json)
    requires end <= |message|
    ensures var r := ParseLine(message[..end], read, json);
            r.Success? && r.value.outcome != read.outcome ==> HasLine(message, "outcome")
  {
    hide Decode;
    var line := message[..end];
    var cut := IndexOf(line, '=');
    if cut < |line| && line[..cut] == "outcome" {
      assert line[..cut + 1] == "outcome" + "=";
      assert message[0..] == message;
      assert "outcome" + "=" <= message[0..];
    }
  }

  const NOTHING_READ := RawArtifacts([], [], [], None)

  function Parsed(message: string, json: Json): Result<RawArtifacts, ParseError> {
    var r := ParseLines(message, NOTHING_READ, json);
    if r.Success? && r.value.outcome == [] then Failure(MissingOutcome) else r
  }

  /** Reads a message line by line; lines without a key are skipped. */
  method ParseTaskArtifacts(message: string, json: Json) returns (r: Result<RawArtifacts, ParseError>)
    ensures r == Parsed(message, json)
    ensures r.Success? ==> r.value.outcome != [] && HasLine(message, "outcome")
  {
    OutcomeIsReported(message, NOTHING_READ, json);
    var read := NOTHING_READ;
    var rest := message;
    var done := false;
    while !done
      invariant done ==> ParseLines(message, NOTHING_READ, json) == Success(read)
      invariant !done ==> ParseLines(message, NOTHING_READ, json) == ParseLines(rest, read, json)
      decreases if done then 0 else |rest| + 1
    {
      var end := IndexOf(rest, '\n');
      var next := ParseLine(rest[..end], read, json);
      if next.Failure? { return next; }
      read := next.value;
      if end == |rest| {
        done := true;
      } else {
        rest := rest[end + 1..];
      }
    }
    if read.outcome == [] { return Failure(MissingOutcome); }
    r := Success(read);
  }

  // ---- The round trip ----

  lemma {:induction false} IndexOfFirst(s: string, c: char, tail: string)
    requires c !in s
    ensures IndexOf(s + [c] + tail, c) == |s|
  {
    if s != "" {
      assert (s + [c] + tail)[1..] == s[1..] + [c] + tail;
      IndexOfFirst(s[1..], c, tail);
    }
  }

  predicate IsKey(key: string) {
    '=' !in key && '\n' !in key
  }

  /** A reported line is read as its key with exactly its contents, and then the rest. */
  lemma LineIsRead(key: string, contents: seq<Byte>, tail: string, read: RawArtifacts, json: Json)
    requires IsKey(key)
    ensures var line := key + "=" + Encode(contents);
            && IndexOf(Line(key, contents) + tail, '\n') == |line|
            && (Line(key, contents) + tail)[..|line|] == line && (Line(key, contents) + tail)[|line| + 1..] == tail
            && IndexOf(line, '=') == |key| && line[..|key|] == key && Decode(line[|key| + 1..]) == Some(contents)
  {
    var line := key + "=" + Encode(contents);
    EncodedIsText(contents);
    assert '\n' !in line by {
      forall i | 0 <= i < |Encode(contents)| ensures Encode(contents)[i] != '\n' {
        assert IsText(Encode(contents)[i]);
      }
    }
    assert Line(key, contents) + tail == line + ['\n'] + tail;
    IndexOfFirst(line, '\n', tail);
    assert line == key + ['='] + Encode(contents);
    IndexOfFirst(key, '=', Encode(contents));
    assert line[|key| + 1..] == Encode(contents);
    RoundTrip(contents);
  }

  function Read(key: string, contents: seq<Byte>, read: RawArtifacts, json: Json): RawArtifacts {
    if key == "outcome" then read.(outcome := contents)
    else if key == "pull-request" then read.(pullRequest := contents)
    else if key == "workflow-output" then read.(workflowOutput := contents)
    else if key == "change" then read.(change := json.change(contents))
    else read
  }

  lemma LineEnds(key: string, contents: seq<Byte>, tail: string)
    ensures |key + "=" + Encode(contents)| < |Line(key, contents) + tail|
  {}

  lemma ReadLine(key: string, contents: seq<Byte>, tail: string, read: RawArtifacts, json: Json)
    requires IsKey(key) && json.valid(contents) && (key == "change" ==> json.change(contents).Some?)
    ensures ParseLines(Line(key, contents) + tail, read, json) == ParseLines(tail, Read(key, contents, read, json), json)
  {
    hide Line, Encode, Decode, IndexOf;
    LineIsRead(key, contents, tail, read, json);
    var message, line := Line(key, contents) + tail, key + "=" + Encode(contents);
    assert ParseLine(line, read, json) == Success(Read(key, contents, read, json));
    assert |line| < |message| by { LineEnds(key, contents, tail); }
    assert ParseLines(message, read, json) == ParseLines(message[|line| + 1..], Read(key, contents, read, json), json);
  }

  lemma ReadOptional(key: string, contents: Option<seq<Byte>>, tail: string, read: RawArtifacts, json: Json)
    requires IsKey(key)
    requires contents.Some? ==> json.valid(contents.value) && (key == "change" ==> json.change(contents.value).Some?)
    ensures ParseLines(OptionalLine(key, contents) + tail, read, json)
         == ParseLines(tail, if contents.Some? then Read(key, contents.value, read, json) else read, json)
  {
    if contents.Some? {
      ReadLine(key, contents.value, tail, read, json);
    } else {
      assert OptionalLine(key, contents) + tail == tail;
    }
  }

  predicate Readable(f: Files, json: Json) {
    && f.outcome != [] && json.valid(f.outcome)
    && (f.pullRequest.Some? ==> json.valid(f.pullRequest.value))
    && (f.workflowOutput.Some? ==> json.valid(f.workflowOutput.value))
    && (f.change.Some? ==> json.valid(f.change.value) && json.change(f.change.value).Some?)
  }

  function ContentsOf(contents: Option<seq<Byte>>): seq<Byte> {
    if contents.Some? then contents.value else []
  }

  function ArtifactsOf(f: Files, json: Json): RawArtifacts {
    RawArtifacts(f.outcome, ContentsOf(f.pullRequest), ContentsOf(f.workflowOutput), if f.change.Some? then json.change(f.change.value) else None)
  }

  lemma LinesAreRead(f: Files, json: Json)
    requires Readable(f, json)
    ensures ParseLines(Lines(f), NOTHING_READ, json) == Success(ArtifactsOf(f, json))
  {
    hide Line, OptionalLine, ParseLine, ParseLines, IndexOf;
    var c := OptionalLine("change", f.change);
    var o := OptionalLine("workflow-output", f.workflowOutput);
    var p := OptionalLine("pull-request", f.pullRequest);
    assert Lines(f) == Line("outcome", f.outcome) + (p + (o + (c + "")));
    var r1 := Read("outcome", f.outcome, NOTHING_READ, json);
    ReadLine("outcome", f.outcome, p + (o + (c + "")), NOTHING_READ, json);
    var r2 := if f.pullRequest.Some? then Read("pull-request", f.pullRequest.value, r1, json) else r1;
    ReadOptional("pull-request", f.pullRequest, o + (c + ""), r1, json);
    var r3 := if f.workflowOutput.Some? then Read("workflow-output", f.workflowOutput.value, r2, json) else r2;
    ReadOptional("workflow-output", f.workflowOutput, c + "", r2, json);
    ReadOptional("change", f.change, "", r3, json);
    EmptyRest(ArtifactsOf(f, json), json);
  }

  lemma EmptyRest(read: RawArtifacts, json: Json)
    ensures ParseLines("", read, json) == Success(read)
  {}

  /** What the container reports is what the runtime reads: exactly the artifacts, or exactly the outcome that they did not fit. */
  lemma {:induction false} ReportRoundTrip(f: Files, oversized: seq<Byte>, json: Json)
    requires Readable(f, json) && json.valid(oversized) && oversized != []
    ensures Parsed(TerminationMessage(f, oversized), json) ==
            Success(if |Lines(f)| <= 4096 then ArtifactsOf(f, json) else RawArtifacts(oversized, [], [], None))
  {
    hide ParseLines, Lines, Line;
    LinesAreRead(f, json);
    LinesAreRead(OutcomeOnly(oversized), json);
    OneLine(oversized, json);
  }

  function OutcomeOnly(outcome: seq<Byte>): Files {
    Files(outcome, None, None, None)
  }

  lemma OneLine(outcome: seq<Byte>, json: Json)
    ensures Lines(OutcomeOnly(outcome)) == Line("outcome", outcome)
    ensures ArtifactsOf(OutcomeOnly(outcome), json) == RawArtifacts(outcome, [], [], None)
  {
    hide Line;
  }

  /** A message with a line that does not decode is never read as artifacts. */
  lemma BadLineIsRefused(key: string, value: string, tail: string, read: RawArtifacts, json: Json)
    requires IsKey(key) && '\n' !in value && Decode(value).None?
    ensures ParseLines(key + "=" + value + "\n" + tail, read, json) == Failure(InvalidArtifact(key))
  {
    var line := key + "=" + value;
    assert key + "=" + value + "\n" + tail == line + ['\n'] + tail;
    IndexOfFirst(line, '\n', tail);
    assert (line + ['\n'] + tail)[..|line|] == line;
    assert line == key + ['='] + value;
    IndexOfFirst(key, '=', value);
    assert line[|key| + 1..] == value && line[..|key|] == key;
    assert ParseLine(line, read, json) == Failure(InvalidArtifact(key));
  }
}
