/**
 * Reading interactions from JSON-lines text: one JSON object per non-blank line, each with the
 * four fields of an interaction. The file's lines are given; `json.loads` is the `decode`
 * parameter (`None` for text it rejects).
 */
module DataIo {
  import opened Wrappers
  import opened Text
  import opened Models
  import opened JsonData

  /** The fields every interaction record must carry, in the order they are reported. */
  const RequiredFields: seq<string> := ["user_input", "response_text", "feedback", "refusal"]

  /** `payload[key]` for a payload that holds `key`; only a dict can be indexed by a string. */
  function Field(payload: Json, key: string): (r: Result<Json, Exception>)
    ensures r.Ok? <==> payload.JObject? && key in payload.fields
  {
    if payload.JObject? && key in payload.fields then Ok(payload.fields[key])
    else if payload.JObject? then Err(KeyError(key))
    else Err(TypeError("indices must be integers"))
  }

  /** `_parse_interaction`: every missing field is reported in one `ValueError`; feedback is
      stripped, refusal is the truthiness of its field, the two texts are `str()` of theirs. */
  function ParseInteraction(payload: Json, lineNumber: int, path: string): (r: Result<Interaction, Exception>)
    ensures payload.JObject? && !(forall k :: k in RequiredFields ==> k in payload.fields) ==>
              r == Err(ValueError("Missing keys on line " + IntToString(lineNumber) + " in " + path + ": "
                                  + Join(MissingKeys(payload, RequiredFields).value)))
    ensures r.Ok? ==> payload.JObject? && forall k :: k in RequiredFields ==> k in payload.fields
    ensures r.Ok? ==> r.value.refusal == Truthy(payload.fields["refusal"])
                      && StrOf(payload.fields["user_input"]) == Ok(r.value.userInput)
                      && StrOf(payload.fields["response_text"]) == Ok(r.value.responseText)
                      && StrOf(payload.fields["feedback"]).Ok?
                      && r.value.feedback == Strip(StrOf(payload.fields["feedback"]).value)
    ensures (payload.JObject? && (forall k :: k in RequiredFields ==> k in payload.fields)
             && StrOf(payload.fields["user_input"]).Ok? && StrOf(payload.fields["response_text"]).Ok?
             && StrOf(payload.fields["feedback"]).Ok?) ==> r.Ok?
  {
    var missing := MissingKeys(payload, RequiredFields);
    if missing.Err? then Err(missing.error)
    else if missing.value != [] then
      Err(ValueError("Missing keys on line " + IntToString(lineNumber) + " in " + path + ": " + Join(missing.value)))
    else
      var feedbackField := Field(payload, "feedback");
      if feedbackField.Err? then Err(feedbackField.error)
      else
        var feedback := StrOf(feedbackField.value);
        if feedback.Err? then Err(feedback.error)
        else
          // Indexing succeeded once, so the payload is a dict, and it holds every required key.
          var refusal := Truthy(payload.fields["refusal"]);
          var user := StrOf(payload.fields["user_input"]);
          if user.Err? then Err(user.error)
          else
            var response := StrOf(payload.fields["response_text"]);
            if response.Err? then Err(response.error)
            else Ok(Interaction(user.value, response.value, Strip(feedback.value), refusal))
  }

  /** One line, numbered `lineNumber`: nothing when blank, else its decoded and parsed interaction. */
  function ParseLine(line: string, lineNumber: nat, decode: string -> Option<Json>, path: string)
    : (r: Result<Option<Interaction>, Exception>)
    ensures r == Ok(None) <==> IsBlank(line)
    ensures Strip(line) != [] && decode(Strip(line)).None? ==>
              r == Err(ValueError("Invalid JSON on line " + IntToString(lineNumber) + ": " + path))
    ensures Strip(line) != [] && decode(Strip(line)).Some? ==>
              match ParseInteraction(decode(Strip(line)).value, lineNumber, path)
              case Ok(x) => r == Ok(Some(x))
              case Err(e) => r == Err(e)
  {
    var raw := Strip(line);
    StripEmptyIffBlank(line);
    if raw == [] then Ok(None)
    else match decode(raw)
      case None => Err(ValueError("Invalid JSON on line " + IntToString(lineNumber) + ": " + path))
      case Some(payload) =>
        var x := ParseInteraction(payload, lineNumber, path);
        if x.Err? then Err(x.error) else Ok(Some(x.value))
  }

  /** The outcome of reading `lines` with `step` (given each line and its 1-based number): the
      kept items in order, or the error of the first line that fails. */
  function ReadLines<T>(lines: seq<string>, step: (string, nat) -> Result<Option<T>, Exception>)
    : (r: Result<seq<T>, Exception>)
    ensures r.Ok? ==> |r.value| <= |lines|
    decreases |lines|
  {
    if lines == [] then Ok([])
    else
      var before := ReadLines(lines[..|lines| - 1], step);
      if before.Err? then before
      else
        var x := step(lines[|lines| - 1], |lines|);
        if x.Err? then Err(x.error)
        else if x.value.None? then before
        else Ok(before.value + [x.value.value])
  }

  /** The 1-based numbers of the non-blank lines, in file order. */
  function NonBlankLines(lines: seq<string>): (r: seq<nat>)
    ensures |r| <= |lines|
    ensures forall j :: 0 <= j < |r| ==> 1 <= r[j] <= |lines|
    decreases |lines|
  {
    if lines == [] then []
    else
      var before := NonBlankLines(lines[..|lines| - 1]);
      if IsBlank(lines[|lines| - 1]) then before else before + [|lines|]
  }

  /** `NonBlankLines` lists every non-blank line once, in increasing order, and no blank one. */
  lemma {:induction false} NonBlankLinesExact(lines: seq<string>)
    ensures forall j, k :: 0 <= j < k < |NonBlankLines(lines)| ==> NonBlankLines(lines)[j] < NonBlankLines(lines)[k]
    ensures forall i :: 0 <= i < |lines| ==> (i + 1 in NonBlankLines(lines) <==> !IsBlank(lines[i]))
    decreases |lines|
  {
    if lines != [] {
      var n := |lines|;
      var pre := lines[..n - 1];
      NonBlankLinesExact(pre);
      var nb0 := NonBlankLines(pre);
      forall i | 0 <= i < n ensures i + 1 in NonBlankLines(lines) <==> !IsBlank(lines[i]) {
        if i < n - 1 {
          assert lines[i] == pre[i];
          assert n !in nb0;
        }
      }
    }
  }

  /** A step that keeps exactly the non-blank lines. */
  ghost predicate KeepsNonBlank<T>(step: (string, nat) -> Result<Option<T>, Exception>) {
    forall line, n :: step(line, n) == Ok(None) <==> IsBlank(line)
  }

  /** The items `xs` are, in order, the step's results for the lines numbered `nb`. */
  ghost predicate ReadAt<T>(lines: seq<string>, step: (string, nat) -> Result<Option<T>, Exception>, xs: seq<T>, nb: seq<nat>) {
    |xs| == |nb|
    && forall j :: 0 <= j < |nb| ==> 1 <= nb[j] <= |lines| && step(lines[nb[j] - 1], nb[j]) == Ok(Some(xs[j]))
  }

  /** The items read are, in order, the step's results for the non-blank lines. */
  ghost predicate OnePerLine<T>(lines: seq<string>, step: (string, nat) -> Result<Option<T>, Exception>, xs: seq<T>) {
    ReadAt(lines, step, xs, NonBlankLines(lines))
  }

  /** A successful read holds one item per non-blank line, in file order, each the step's
      result for that line under that line's number. */
  lemma {:induction false} OnePerNonBlankLine<T>(lines: seq<string>, step: (string, nat) -> Result<Option<T>, Exception>)
    requires KeepsNonBlank(step) && ReadLines(lines, step).Ok?
    ensures OnePerLine(lines, step, ReadLines(lines, step).value)
    decreases |lines|
  {
    if lines != [] {
      var pre := lines[..|lines| - 1];
      OnePerNonBlankLine(pre, step);
      OnePerLineExtends(lines, step, ReadLines(pre, step).value);
    }
  }

  /** One more line keeps the correspondence. */
  lemma OnePerLineExtends<T>(lines: seq<string>, step: (string, nat) -> Result<Option<T>, Exception>, xs0: seq<T>)
    requires lines != [] && ReadLines(lines, step).Ok?
    requires step(lines[|lines| - 1], |lines|) == Ok(None) <==> IsBlank(lines[|lines| - 1])
    requires ReadLines(lines[..|lines| - 1], step) == Ok(xs0)
    requires OnePerLine(lines[..|lines| - 1], step, xs0)
    ensures OnePerLine(lines, step, ReadLines(lines, step).value)
  {
    var n := |lines|;
    var nb0 := NonBlankLines(lines[..n - 1]);
    if IsBlank(lines[n - 1]) {
      assert ReadLines(lines, step).value == xs0 && NonBlankLines(lines) == nb0;
      KeptLines(lines, step, xs0, nb0);
    } else {
      var x := step(lines[n - 1], n);
      assert ReadLines(lines, step).value == xs0 + [x.value.value];
      assert NonBlankLines(lines) == nb0 + [n];
      AppendKept(lines, step, xs0, nb0, x.value.value);
    }
  }

  /** A kept last line adds its item after those of the earlier lines. */
  lemma AppendKept<T>(lines: seq<string>, step: (string, nat) -> Result<Option<T>, Exception>, xs0: seq<T>, nb0: seq<nat>, v: T)
    requires lines != [] && ReadAt(lines[..|lines| - 1], step, xs0, nb0)
    requires step(lines[|lines| - 1], |lines|) == Ok(Some(v))
    ensures ReadAt(lines, step, xs0 + [v], nb0 + [|lines|])
  {
    KeptLines(lines, step, xs0, nb0);
    var nb, xs := nb0 + [|lines|], xs0 + [v];
    forall j | 0 <= j < |nb| ensures 1 <= nb[j] <= |lines| && step(lines[nb[j] - 1], nb[j]) == Ok(Some(xs[j])) {
      if j < |nb0| {
        assert nb[j] == nb0[j] && xs[j] == xs0[j];
      } else {
        assert nb[j] == |lines| && xs[j] == v;
      }
    }
  }

  /** The lines kept before the last one are kept with the same items. */
  lemma KeptLines<T>(lines: seq<string>, step: (string, nat) -> Result<Option<T>, Exception>, xs0: seq<T>, nb0: seq<nat>)
    requires lines != [] && ReadAt(lines[..|lines| - 1], step, xs0, nb0)
    ensures ReadAt(lines, step, xs0, nb0)
  {
    var pre := lines[..|lines| - 1];
    forall j | 0 <= j < |nb0| ensures 1 <= nb0[j] <= |lines| && step(lines[nb0[j] - 1], nb0[j]) == Ok(Some(xs0[j])) {
      assert lines[nb0[j] - 1] == pre[nb0[j] - 1];
    }
  }

  /** Lines that are all blank read as nothing. */
  lemma {:induction false} BlankLinesSkipped<T>(lines: seq<string>, step: (string, nat) -> Result<Option<T>, Exception>)
    requires KeepsNonBlank(step)
    requires forall i :: 0 <= i < |lines| ==> IsBlank(lines[i])
    ensures ReadLines(lines, step) == Ok([])
    decreases |lines|
  {
    if lines != [] {
      BlankLinesSkipped(lines[..|lines| - 1], step);
    }
  }

  /** The first failing line decides the outcome: later lines are never read. */
  lemma {:induction false} FirstErrorStands<T>(lines: seq<string>, k: nat, step: (string, nat) -> Result<Option<T>, Exception>)
    requires k <= |lines| && ReadLines(lines[..k], step).Err?
    ensures ReadLines(lines, step) == ReadLines(lines[..k], step)
    decreases |lines| - k
  {
    if k < |lines| {
      assert lines[..k + 1][..k] == lines[..k];
      FirstErrorStands(lines, k + 1, step);
    } else {
      assert lines[..k] == lines;
    }
  }

  /** The line step `load_interactions` applies. */
  function InteractionStep(decode: string -> Option<Json>, path: string): (step: (string, nat) -> Result<Option<Interaction>, Exception>)
    ensures KeepsNonBlank(step)
  {
    (line: string, n: nat) => ParseLine(line, n, decode, path)
  }

  /** A line that is not valid JSON, after lines that all parse, is reported under its 1-based
      number in the file, blank lines counted. */
  lemma InvalidJsonReported(lines: seq<string>, k: nat, decode: string -> Option<Json>, path: string)
    requires k < |lines| && ReadLines(lines[..k], InteractionStep(decode, path)).Ok?
    requires Strip(lines[k]) != [] && decode(Strip(lines[k])).None?
    ensures ReadLines(lines, InteractionStep(decode, path))
            == Err(ValueError("Invalid JSON on line " + IntToString(k + 1) + ": " + path))
  {
    var step := InteractionStep(decode, path);
    assert step(lines[k], k + 1) == ParseLine(lines[k], k + 1, decode, path);
    FailingLineStands(lines, k, step);
  }

  /** The first line whose step fails ends the read with that line's error. */
  lemma FailingLineStands<T>(lines: seq<string>, k: nat, step: (string, nat) -> Result<Option<T>, Exception>)
    requires k < |lines| && ReadLines(lines[..k], step).Ok? && step(lines[k], k + 1).Err?
    ensures ReadLines(lines, step) == Err(step(lines[k], k + 1).error)
  {
    assert lines[..k + 1][..k] == lines[..k];
    FirstErrorStands(lines, k + 1, step);
  }

  /** `load_interactions` over the file's lines: a missing file raises `FileNotFoundError`; each
      line is stripped, blank ones skipped, the rest decoded and parsed in order. */
  method LoadInteractions(path: string, fileExists: bool, lines: seq<string>, decode: string -> Option<Json>)
    returns (r: Result<seq<Interaction>, Exception>)
    ensures !fileExists ==> r == Err(FileNotFoundError("Data file not found: " + path))
    ensures fileExists ==> r == ReadLines(lines, InteractionStep(decode, path))
  {
    if !fileExists {
      return Err(FileNotFoundError("Data file not found: " + path));
    }
    var step := InteractionStep(decode, path);
    var interactions: seq<Interaction> := [];
    var i := 0;
    while i < |lines|
      invariant 0 <= i <= |lines|
      invariant ReadLines(lines[..i], step) == Ok(interactions)
    {
      assert lines[..i + 1][..i] == lines[..i];
      var x := ParseLine(lines[i], i + 1, decode, path);
      if x.Err? {
        FirstErrorStands(lines, i + 1, step);
        return Err(x.error);
      }
      if x.value.Some? {
        interactions := interactions + [x.value.value];
      }
      i := i + 1;
    }
    assert lines[..i] == lines;
    r := Ok(interactions);
  }
}
