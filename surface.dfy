/** `MsmsOutput`: the result of one run of the surface program (its log and
    its vertex and face tables), how it is read from the program's files,
    and `params()`, which recovers the run's parameters from the log. */
module Surface {
  import opened Wrappers
  import opened Text
  import opened Schema

  /** `SurfaceParams(probe_radius, density, hdensity)`. */
  datatype SurfaceParams<F> = SurfaceParams(probeRadius: F, density: F, hdensity: F)

  /** What `params()` raises on a PARAM line: an `IndexError` when the line
      has no token at `index`, a `ValueError` when `float` rejects `token`. */
  datatype ParamsError = MissingToken(index: nat, found: nat) | NotANumber(token: string)

  const ParamPrefix: string := "PARAM"

  predicate IsParamLine(line: string)
    ensures IsParamLine(line) <==> |line| >= |ParamPrefix| && line == ParamPrefix + line[|ParamPrefix|..]
    ensures line != [] && IsSpace(line[0]) ==> !IsParamLine(line)
  {
    StartsWith(line, ParamPrefix)
  }

  /** `float(elems[i])`. */
  function FloatToken<F>(elems: seq<string>, i: nat, toFloat: string -> Option<F>): (r: Result<F, ParamsError>)
    ensures i >= |elems| ==> r == Err(MissingToken(i, |elems|))
    ensures i < |elems| ==> (r.Ok? <==> toFloat(elems[i]).Some?)
    ensures i < |elems| && r.Ok? ==> toFloat(elems[i]) == Some(r.value)
    ensures i < |elems| && r.Err? ==> r.error == NotANumber(elems[i])
  {
    if i >= |elems| then Err(MissingToken(i, |elems|))
    else
      match toFloat(elems[i])
      case Some(v) => Ok(v)
      case None => Err(NotANumber(elems[i]))
  }

  /** The parameters of one PARAM line: tokens 2, 4 and 6 of its
      whitespace split, converted left to right, so that the first missing
      or malformed token among them is the error. */
  function ParamsFromLine<F>(line: string, toFloat: string -> Option<F>): (r: Result<SurfaceParams<F>, ParamsError>)
    ensures var e := Split(line);
      r.Ok? <==> |e| >= 7 && toFloat(e[2]).Some? && toFloat(e[4]).Some? && toFloat(e[6]).Some?
    ensures var e := Split(line); r.Ok? ==>
      && toFloat(e[2]) == Some(r.value.probeRadius)
      && toFloat(e[4]) == Some(r.value.density)
      && toFloat(e[6]) == Some(r.value.hdensity)
    ensures var e := Split(line); |e| < 7 ==> r.Err?
    ensures var e := Split(line);
      && (|e| <= 2 ==> r == Err(MissingToken(2, |e|)))
      && (|e| > 2 && toFloat(e[2]).None? ==> r == Err(NotANumber(e[2])))
      && (|e| > 2 && toFloat(e[2]).Some? && |e| <= 4 ==> r == Err(MissingToken(4, |e|)))
      && (|e| > 4 && toFloat(e[2]).Some? && toFloat(e[4]).None? ==> r == Err(NotANumber(e[4])))
      && (|e| > 4 && toFloat(e[2]).Some? && toFloat(e[4]).Some? && |e| <= 6 ==> r == Err(MissingToken(6, |e|)))
      && (|e| > 6 && toFloat(e[2]).Some? && toFloat(e[4]).Some? && toFloat(e[6]).None? ==> r == Err(NotANumber(e[6])))
  {
    var elems := Split(line);
    var probeRadius :- FloatToken(elems, 2, toFloat);
    var density :- FloatToken(elems, 4, toFloat);
    var hdensity :- FloatToken(elems, 6, toFloat);
    Ok(SurfaceParams(probeRadius, density, hdensity))
  }

  /** A found PARAM line's outcome as the outcome of the scan. */
  function Found<F>(r: Result<SurfaceParams<F>, ParamsError>): Result<Option<SurfaceParams<F>>, ParamsError> {
    match r
    case Ok(p) => Ok(Some(p))
    case Err(e) => Err(e)
  }

  /** What `params()` computes over the log lines: the outcome of the first
      PARAM line, or `None` when there is none. */
  function ParamsOf<F>(lines: seq<string>, toFloat: string -> Option<F>)
    : (r: Result<Option<SurfaceParams<F>>, ParamsError>)
    ensures r != Ok(None) ==> exists j :: (
      && 0 <= j < |lines|
      && IsParamLine(lines[j])
      && r == Found(ParamsFromLine(lines[j], toFloat))
      && forall m :: 0 <= m < j ==> !IsParamLine(lines[m]))
  {
    if lines == [] then Ok(None)
    else if IsParamLine(lines[0]) then Found(ParamsFromLine(lines[0], toFloat))
    else ParamsOf(lines[1..], toFloat)
  }

  /** `MsmsOutput(log_lines, vertices, faces)`: the constructor keeps its
      three arguments as they are. */
  datatype MsmsOutput<F> = MsmsOutput(
    logLines: seq<string>,
    vertices: seq<VertexRecord<F>>,
    faces: seq<FaceRecord>)
  {
    /** `params()`: scan the log lines in order and stop at the first one
        that starts with "PARAM". */
    method Params(toFloat: string -> Option<F>) returns (r: Result<Option<SurfaceParams<F>>, ParamsError>)
      ensures r == ParamsOf(logLines, toFloat)
      ensures r == Ok(None) <==> forall j :: 0 <= j < |logLines| ==> !IsParamLine(logLines[j])
    {
      var i := 0;
      while i < |logLines|
        invariant 0 <= i <= |logLines|
        invariant forall j :: 0 <= j < i ==> !IsParamLine(logLines[j])
        invariant ParamsOf(logLines[i..], toFloat) == ParamsOf(logLines, toFloat)
      {
        var line := logLines[i];
        if IsParamLine(line) {
          r := Found(ParamsFromLine(line, toFloat));
          return;
        }
        assert logLines[i..][1..] == logLines[i + 1..];
        i := i + 1;
      }
      r := Ok(None);
    }
  }

  /** `MsmsOutput.from_files`: the vertex table is read first, then the face
      table, then the log, kept line by line. */
  function FromFiles<F>(conv: Converters<F>, logText: string, vertText: string, faceText: string)
    : (r: Result<MsmsOutput<F>, TableError>)
    ensures r.Ok? <==> LoadVertices(conv, vertText).Ok? && LoadFaces(conv, faceText).Ok?
    ensures LoadVertices(conv, vertText).Err? ==> r == Err(LoadVertices(conv, vertText).error)
    ensures LoadVertices(conv, vertText).Ok? && LoadFaces(conv, faceText).Err? ==>
      r == Err(LoadFaces(conv, faceText).error)
    ensures r.Ok? ==> r.value.vertices == LoadVertices(conv, vertText).value
    ensures r.Ok? ==> r.value.faces == LoadFaces(conv, faceText).value
    ensures r.Ok? ==> Concat(r.value.logLines) == logText
    ensures r.Ok? ==> r.value.logLines == ReadLines(logText)
  {
    var vertices :- LoadVertices(conv, vertText);
    var faces :- LoadFaces(conv, faceText);
    Ok(MsmsOutput(ReadLines(logText), vertices, faces))
  }

  // ----- properties of params() -----

  /** The first PARAM line decides the outcome. */
  lemma {:induction false} ParamsFirstLineDecides<F>(lines: seq<string>, toFloat: string -> Option<F>, i: nat)
    requires i < |lines| && IsParamLine(lines[i])
    requires forall j :: 0 <= j < i ==> !IsParamLine(lines[j])
    ensures ParamsOf(lines, toFloat) == Found(ParamsFromLine(lines[i], toFloat))
  {
    if i > 0 {
      ParamsFirstLineDecides(lines[1..], toFloat, i - 1);
    }
  }

  /** `params()` is `None` exactly when no log line starts with "PARAM". */
  lemma {:induction false} ParamsNoneIffNoParamLine<F>(lines: seq<string>, toFloat: string -> Option<F>)
    ensures ParamsOf(lines, toFloat) == Ok(None) <==> forall j :: 0 <= j < |lines| ==> !IsParamLine(lines[j])
  {
    if lines != [] && !IsParamLine(lines[0]) {
      ParamsNoneIffNoParamLine(lines[1..], toFloat);
      assert forall j :: 1 <= j < |lines| ==> lines[j] == lines[1..][j - 1];
    }
  }

  /** Lines after a PARAM line have no effect. */
  lemma {:induction false} ParamsIgnoresLaterLines<F>(a: seq<string>, b: seq<string>, toFloat: string -> Option<F>)
    requires exists j :: 0 <= j < |a| && IsParamLine(a[j])
    ensures ParamsOf(a + b, toFloat) == ParamsOf(a, toFloat)
  {
    assert (a + b)[0] == a[0];
    if !IsParamLine(a[0]) {
      var j :| 0 <= j < |a| && IsParamLine(a[j]);
      assert a[1..][j - 1] == a[j];
      assert (a + b)[1..] == a[1..] + b;
      ParamsIgnoresLaterLines(a[1..], b, toFloat);
    }
  }

  /** Lines without the prefix before the first PARAM line have no effect. */
  lemma {:induction false} ParamsSkipsOtherLines<F>(a: seq<string>, b: seq<string>, toFloat: string -> Option<F>)
    requires forall j :: 0 <= j < |a| ==> !IsParamLine(a[j])
    ensures ParamsOf(a + b, toFloat) == ParamsOf(b, toFloat)
  {
    if a == [] {
      assert a + b == b;
    } else {
      assert (a + b)[0] == a[0];
      assert (a + b)[1..] == a[1..] + b;
      ParamsSkipsOtherLines(a[1..], b, toFloat);
    }
  }

  /** The tokens of a PARAM line in the layout `params()` reads: the
      probe radius, density and hdensity values at tokens 2, 4 and 6, each
      after its label. */
  function ExampleParamWords(probe: string, dens: string, hdens: string): seq<string> {
    ["PARAM", "Probe_radius", probe, "density", dens, "hdensity", hdens]
  }

  /** The PARAM line built from those words, single spaces and '\n'. */
  function ExampleParamLine(probe: string, dens: string, hdens: string): string {
    Unwords(ExampleParamWords(probe, dens, hdens)) + "\n"
  }

  /** The example line starts with "PARAM". */
  lemma ExampleIsParamLine(probe: string, dens: string, hdens: string)
    ensures IsParamLine(ExampleParamLine(probe, dens, hdens))
  {
    var words := ExampleParamWords(probe, dens, hdens);
    var line := ExampleParamLine(probe, dens, hdens);
    assert line == "PARAM" + (" " + Unwords(words[1..]) + "\n");
    assert line[..5] == "PARAM";
  }

  /** The example line splits back into its seven words, so the three
      values are tokens 2, 4 and 6. */
  lemma ExampleSplitsIntoWords(probe: string, dens: string, hdens: string)
    requires IsWord(probe) && IsWord(dens) && IsWord(hdens)
    ensures Split(ExampleParamLine(probe, dens, hdens)) == ExampleParamWords(probe, dens, hdens)
    ensures |Split(ExampleParamLine(probe, dens, hdens))| == 7
    ensures var e := Split(ExampleParamLine(probe, dens, hdens)); e[2] == probe && e[4] == dens && e[6] == hdens
  {
    var words := ExampleParamWords(probe, dens, hdens);
    assert IsWord(words[0]) && IsWord(words[1]) && IsWord(words[3]) && IsWord(words[5]);
    SplitUnwords(words, "\n");
  }

  /** A log whose only PARAM line has numbers at tokens 2, 4 and 6 yields
      them as probe_radius, density and hdensity, in that order. */
  lemma ParamsOfOneLine<F>(line: string, toFloat: string -> Option<F>)
    requires IsParamLine(line)
    requires |Split(line)| >= 7
    requires toFloat(Split(line)[2]).Some? && toFloat(Split(line)[4]).Some? && toFloat(Split(line)[6]).Some?
    ensures ParamsOf([line], toFloat) == Ok(Some(SurfaceParams(
      toFloat(Split(line)[2]).value, toFloat(Split(line)[4]).value, toFloat(Split(line)[6]).value)))
  {
    assert [line][0] == line;
  }

  /** End to end: a log holding the example line gives back its three
      values as `SurfaceParams(probe_radius, density, hdensity)`. */
  lemma ParamsOfExampleLine<F>(probe: string, dens: string, hdens: string, toFloat: string -> Option<F>)
    requires IsWord(probe) && IsWord(dens) && IsWord(hdens)
    requires toFloat(probe).Some? && toFloat(dens).Some? && toFloat(hdens).Some?
    ensures ParamsOf([ExampleParamLine(probe, dens, hdens)], toFloat)
         == Ok(Some(SurfaceParams(toFloat(probe).value, toFloat(dens).value, toFloat(hdens).value)))
  {
    var line := ExampleParamLine(probe, dens, hdens);
    ExampleIsParamLine(probe, dens, hdens);
    ExampleSplitsIntoWords(probe, dens, hdens);
    ParamsOfOneLine(line, toFloat);
  }

  // ----- properties of from_files -----

  /** With no blank line in either table body, there is one record per body
      line, in order: the record counts are the line counts minus the three
      header lines. */
  lemma FromFilesRecordPerLine<F>(conv: Converters<F>, logText: string, vertText: string, faceText: string)
    requires forall k :: 0 <= k < |BodyLines(vertText)| ==> LineTokens(BodyLines(vertText)[k]) != []
    requires forall k :: 0 <= k < |BodyLines(faceText)| ==> LineTokens(BodyLines(faceText)[k]) != []
    requires |ReadLines(vertText)| >= HeaderLines && |ReadLines(faceText)| >= HeaderLines
    requires FromFiles(conv, logText, vertText, faceText).Ok?
    ensures var out := FromFiles(conv, logText, vertText, faceText).value;
      && |out.vertices| == |ReadLines(vertText)| - HeaderLines
      && |out.faces| == |ReadLines(faceText)| - HeaderLines
      && (forall k :: 0 <= k < |out.vertices| ==>
            ParseVertex(conv, LineTokens(BodyLines(vertText)[k])) == Ok(out.vertices[k]))
      && (forall k :: 0 <= k < |out.faces| ==>
            ParseFace(conv, LineTokens(BodyLines(faceText)[k])) == Ok(out.faces[k]))
  {
    TableRecordPerLine(VertexTable, vertText, tokens => ParseVertex(conv, tokens));
    TableRecordPerLine(FaceTable, faceText, tokens => ParseFace(conv, tokens));
  }

  /** A vertex line with the wrong column count or an unparsable token makes
      `from_files` fail. */
  lemma FromFilesRejectsBadVertexLine<F>(conv: Converters<F>, logText: string, vertText: string, faceText: string, k: nat)
    requires k < |BodyLines(vertText)|
    requires LineTokens(BodyLines(vertText)[k]) != []
    requires ParseVertex(conv, LineTokens(BodyLines(vertText)[k])).Err?
    ensures FromFiles(conv, logText, vertText, faceText).Err?
  {
    LoadTableRejectsBadLine(VertexTable, vertText, tokens => ParseVertex(conv, tokens), k);
  }

  /** A face line with the wrong column count or an unparsable token makes
      `from_files` fail. */
  lemma FromFilesRejectsBadFaceLine<F>(conv: Converters<F>, logText: string, vertText: string, faceText: string, k: nat)
    requires k < |BodyLines(faceText)|
    requires LineTokens(BodyLines(faceText)[k]) != []
    requires ParseFace(conv, LineTokens(BodyLines(faceText)[k])).Err?
    ensures FromFiles(conv, logText, vertText, faceText).Err?
  {
    LoadTableRejectsBadLine(FaceTable, faceText, tokens => ParseFace(conv, tokens), k);
  }
}
