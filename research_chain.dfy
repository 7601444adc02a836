/** The report pipeline of backend/research_chain.py: three language-model stages run
    one after the other (research, analysis, writing), followed by the suggestion
    stage, whose raw text is cleaned into at most three follow-up questions.
    The web search, the prompt templates and the language model are collaborators
    whose behaviour is not modelled: each stage is a function value supplied by the
    caller, which either returns text or raises. */
module ResearchChain {
  import opened Text

  /** `questions[:3]`: the number of follow-up questions kept. */
  const MaxSuggestions: nat := 3

  /** What invoking a stage yields: its text content, or an exception it raised. */
  datatype Reply = Returned(text: string) | Raised(error: string)

  /** The four stage bodies, as opaque functions from their single input to their reply:
      `research_step` (web search, then the researcher prompt), `analysis_step`,
      `writing_step`, and the suggestions chain invoked on the report. */
  datatype Stages = Stages(
    research: string -> Reply,
    analysis: string -> Reply,
    writing: string -> Reply,
    suggest: string -> Reply)

  datatype Stage = Research | Analysis | Writing | Suggestions

  /** The order in which `run_full_research` calls the stages. */
  const Order: seq<Stage> := [Research, Analysis, Writing, Suggestions]

  /** One invocation of a stage, with the only input it receives. */
  datatype Call = Call(stage: Stage, input: string)

  /** The dictionary returned by `run_full_research`: exactly the keys `report` and `suggestions`. */
  datatype ResearchOutput = ResearchOutput(report: string, suggestions: seq<string>)

  /** A run either returns its dictionary or propagates the exception raised in one stage. */
  datatype Outcome = Completed(output: ResearchOutput) | Aborted(stage: Stage, error: string)

  /** A run's outcome, together with the stage invocations it made, in order. */
  datatype Run = Run(outcome: Outcome, calls: seq<Call>)

  function Invoke(st: Stages, c: Call): Reply {
    match c.stage
    case Research => st.research(c.input)
    case Analysis => st.analysis(c.input)
    case Writing => st.writing(c.input)
    case Suggestions => st.suggest(c.input)
  }

  /** `[q.strip() for q in lines if q.strip()]`. */
  function CleanLines(lines: seq<string>): (r: seq<string>)
    ensures |r| <= |lines|
    ensures forall k :: 0 <= k < |r| ==> r[k] != [] && IsStripped(r[k])
  {
    if lines == [] then []
    else
      var q := Strip(lines[0]);
      (if q != [] then [q] else []) + CleanLines(lines[1..])
  }

  /** The positions in `lines` of the lines that `CleanLines` keeps, in increasing order. */
  function KeptIndices(lines: seq<string>): (ix: seq<nat>)
    ensures |ix| == |CleanLines(lines)|
    ensures forall k :: 0 <= k < |ix| ==> ix[k] < |lines|
    ensures forall k, m :: 0 <= k < m < |ix| ==> ix[k] < ix[m]
  {
    if lines == [] then []
    else
      var shifted := Shift(KeptIndices(lines[1..]));
      if Strip(lines[0]) != [] then [0] + shifted else shifted
  }

  /** Every position moved one line down. */
  function Shift(ix: seq<nat>): (r: seq<nat>)
    ensures |r| == |ix| && forall k :: 0 <= k < |ix| ==> r[k] == ix[k] + 1
  {
    seq(|ix|, k requires 0 <= k < |ix| => ix[k] + 1)
  }

  /** The `k`-th kept question is the stripped line at the `k`-th kept position. */
  lemma {:induction false} CleanLineAt(lines: seq<string>, k: nat)
    requires k < |KeptIndices(lines)|
    ensures CleanLines(lines)[k] == Strip(lines[KeptIndices(lines)[k]])
  {
    var tail := lines[1..];
    var rest := KeptIndices(tail);
    if Strip(lines[0]) == [] {
      assert CleanLines(lines) == CleanLines(tail) && KeptIndices(lines) == Shift(rest);
      CleanLineAt(tail, k);
      assert lines[rest[k] + 1] == tail[rest[k]];
    } else if k > 0 {
      assert CleanLines(lines) == [Strip(lines[0])] + CleanLines(tail);
      assert KeptIndices(lines) == [0] + Shift(rest);
      CleanLineAt(tail, k - 1);
      assert lines[rest[k - 1] + 1] == tail[rest[k - 1]];
    }
  }

  /** No non-blank line is dropped. */
  lemma {:induction false} KeptIndicesComplete(lines: seq<string>)
    ensures forall j :: 0 <= j < |lines| && Strip(lines[j]) != [] ==> j in KeptIndices(lines)
  {
    if lines != [] {
      var tail := lines[1..];
      KeptIndicesComplete(tail);
      var rest := KeptIndices(tail);
      var shifted := Shift(rest);
      var ix := KeptIndices(lines);
      assert forall j :: 1 <= j < |lines| && Strip(lines[j]) != [] ==> j in shifted by {
        forall j | 1 <= j < |lines| && Strip(lines[j]) != []
          ensures j in shifted
        {
          assert tail[j - 1] == lines[j];
          var k :| 0 <= k < |rest| && rest[k] == j - 1;
          assert shifted[k] == j;
        }
      }
      if Strip(lines[0]) != [] {
        assert ix == [0] + shifted;
      } else {
        assert ix == shifted;
      }
    }
  }

  /** Cleaning lines that avoid a character gives questions that avoid it. */
  lemma {:induction false} CleanLinesAvoid(lines: seq<string>, c: char)
    requires forall k :: 0 <= k < |lines| ==> c !in lines[k]
    ensures forall k :: 0 <= k < |CleanLines(lines)| ==> c !in CleanLines(lines)[k]
  {
    if lines != [] {
      CleanLinesAvoid(lines[1..], c);
      var pre, post := StripDecomposes(lines[0]);
      assert lines[0] == pre + Strip(lines[0]) + post;
      assert c !in Strip(lines[0]);
    }
  }

  /** Cleaning distributes over concatenation. */
  lemma {:induction false} CleanLinesAppend(a: seq<string>, b: seq<string>)
    ensures CleanLines(a + b) == CleanLines(a) + CleanLines(b)
  {
    if a == [] {
      assert a + b == b;
    } else {
      assert (a + b)[0] == a[0] && (a + b)[1..] == a[1..] + b;
      CleanLinesAppend(a[1..], b);
    }
  }

  /** The non-blank lines of `text`, each stripped, in their original order. */
  function NonBlankLines(text: string): seq<string> {
    CleanLines(Split(text, '\n'))
  }

  /** A whitespace character in front of the text adds no non-blank line. */
  lemma {:induction false} NonBlankLinesCons(c: char, s: string)
    requires IsSpace(c)
    ensures NonBlankLines([c] + s) == NonBlankLines(s)
  {
    var t := [c] + s;
    assert t[0] == c && t[1..] == s;
    var rest := Split(s, '\n');
    if c != '\n' {
      assert Split(t, '\n') == [[c] + rest[0]] + rest[1..];
      assert [c] + rest[0] + [] == [c] + rest[0];
      assert rest[0] + [] == rest[0];
      StripSkip([c], rest[0], []);
      assert rest == [rest[0]] + rest[1..];
    }
  }

  /** A whitespace character after the text adds no non-blank line. */
  lemma {:induction false} NonBlankLinesSnoc(s: string, c: char)
    requires IsSpace(c)
    ensures NonBlankLines(s + [c]) == NonBlankLines(s)
  {
    if c == '\n' {
      SplitSnocSep(s, '\n');
      CleanLinesAppend(Split(s, '\n'), [[]]);
    } else {
      LastLineGrows(Split(s, '\n'), c);
      SplitSnocOther(s, c, '\n');
    }
  }

  /** Appending whitespace to the last line leaves the cleaned lines as they were. */
  lemma {:induction false} LastLineGrows(r: seq<string>, c: char)
    requires |r| >= 1 && IsSpace(c)
    ensures CleanLines(AppendToLast(r, c)) == CleanLines(r)
  {
    var n := |r| - 1;
    var init, last := r[..n], r[n];
    assert r == init + [last];
    assert AppendToLast(r, c) == init + [last + [c]];
    CleanLinesAppend(init, [last]);
    CleanLinesAppend(init, [last + [c]]);
    assert CleanLines([last + [c]]) == CleanLines([last]) by {
      assert [] + last + [c] == last + [c] && [] + last + [] == last;
      StripSkip([], last, [c]);
      assert [last + [c]][1..] == [] && [last][1..] == [];
    }
  }

  lemma {:induction false} NonBlankLinesSkipPrefix(pre: string, s: string)
    requires AllSpace(pre)
    ensures NonBlankLines(pre + s) == NonBlankLines(s)
  {
    if pre != [] {
      assert pre + s == [pre[0]] + (pre[1..] + s);
      NonBlankLinesSkipPrefix(pre[1..], s);
      NonBlankLinesCons(pre[0], pre[1..] + s);
    } else {
      assert pre + s == s;
    }
  }

  lemma {:induction false} NonBlankLinesSkipSuffix(s: string, post: string)
    requires AllSpace(post)
    ensures NonBlankLines(s + post) == NonBlankLines(s)
  {
    if post != [] {
      var n := |post| - 1;
      assert s + post == (s + post[..n]) + [post[n]];
      NonBlankLinesSkipSuffix(s, post[..n]);
      NonBlankLinesSnoc(s + post[..n], post[n]);
    } else {
      assert s + post == s;
    }
  }

  /** The `result.strip()` applied before splitting changes no question:
      it only removes blank lines and whitespace that the per-line strip removes anyway. */
  lemma OuterStripIsRedundant(raw: string)
    ensures NonBlankLines(Strip(raw)) == NonBlankLines(raw)
  {
    var pre, post := StripDecomposes(raw);
    var mid := Strip(raw) + post;
    assert raw == pre + mid;
    NonBlankLinesSkipPrefix(pre, mid);
    NonBlankLinesSkipSuffix(Strip(raw), post);
  }

  /** The post-processing of `generate_suggestions`: strip the model's text, split it
      on line breaks, strip every line, drop the blank ones and keep the first three. */
  function ParseSuggestions(raw: string): (r: seq<string>)
    ensures |r| <= MaxSuggestions
    ensures forall k :: 0 <= k < |r| ==> r[k] != [] && IsStripped(r[k]) && '\n' !in r[k]
  {
    var lines := Split(Strip(raw), '\n');
    JoinSplit(Strip(raw), '\n');
    CleanLinesAvoid(lines, '\n');
    var questions := CleanLines(lines);
    if |questions| <= MaxSuggestions then questions else questions[..MaxSuggestions]
  }

  /** The questions are the first three non-blank lines of the model's text, stripped,
      in the order they appear: all of them when there are fewer than three. */
  lemma SuggestionsAreFirstNonBlankLines(raw: string)
    ensures var lines := NonBlankLines(raw);
      ParseSuggestions(raw) == if |lines| <= MaxSuggestions then lines else lines[..MaxSuggestions]
    ensures |NonBlankLines(raw)| >= MaxSuggestions ==> |ParseSuggestions(raw)| == MaxSuggestions
    ensures |NonBlankLines(raw)| < MaxSuggestions ==> ParseSuggestions(raw) == NonBlankLines(raw)
  {
    OuterStripIsRedundant(raw);
  }

  /** `generate_suggestions(report)`: invoke the suggestions chain on the report and
      clean its text; an exception raised by the chain propagates. */
  function GenerateSuggestions(st: Stages, report: string): (r: Result)
    ensures r.Ok? <==> st.suggest(report).Returned?
    ensures r.Ok? ==> |r.questions| <= MaxSuggestions
  {
    match st.suggest(report)
    case Raised(e) => Err(e)
    case Returned(raw) => Ok(ParseSuggestions(raw))
  }

  datatype Result = Ok(questions: seq<string>) | Err(error: string)

  /** `run_full_research(query)`: research, analysis, writing and suggestions in this
      order, each stage invoked once on the previous stage's output only; the first
      exception raised ends the run and no later stage is invoked. */
  function RunFullResearch(st: Stages, query: string): (run: Run)
    ensures 1 <= |run.calls| <= |Order|
    ensures forall k :: 0 <= k < |run.calls| ==> run.calls[k].stage == Order[k]
    ensures run.calls[0].input == query
  {
    match st.research(query)
    case Raised(e) => Run(Aborted(Research, e), [Call(Research, query)])
    case Returned(research) =>
      var calls := [Call(Research, query), Call(Analysis, research)];
      match st.analysis(research)
      case Raised(e) => Run(Aborted(Analysis, e), calls)
      case Returned(analysis) =>
        var calls := calls + [Call(Writing, analysis)];
        match st.writing(analysis)
        case Raised(e) => Run(Aborted(Writing, e), calls)
        case Returned(report) =>
          var calls := calls + [Call(Suggestions, report)];
          match GenerateSuggestions(st, report)
          case Err(e) => Run(Aborted(Suggestions, e), calls)
          case Ok(questions) => Run(Completed(ResearchOutput(report, questions)), calls)
  }

  /** Each stage after the first receives exactly the text returned by the stage before it. */
  lemma RunPassesOutputs(st: Stages, query: string)
    ensures var calls := RunFullResearch(st, query).calls;
      forall k :: 1 <= k < |calls| ==> Invoke(st, calls[k - 1]) == Returned(calls[k].input)
  {
  }

  /** A run that aborts does so in its last stage, with the exception that stage raised;
      a run that completes invoked all four stages, reports the writing stage's input
      to the suggestion stage, and returns the questions parsed from that stage's text. */
  lemma RunOutcome(st: Stages, query: string)
    ensures var run := RunFullResearch(st, query);
      var last := run.calls[|run.calls| - 1];
      (run.outcome.Aborted? ==> run.outcome.stage == last.stage && Invoke(st, last) == Raised(run.outcome.error)) &&
      (run.outcome.Completed? ==>
        |run.calls| == |Order| && run.outcome.output.report == last.input && Invoke(st, last).Returned? &&
        run.outcome.output.suggestions == ParseSuggestions(Invoke(st, last).text))
  {
  }

  /** When no stage raises, the report is `writing_step(analysis_step(research_step(query)))`
      and the suggestions are `generate_suggestions` of that same report; the run
      completes exactly when no stage raises. */
  lemma RunIsComposition(st: Stages, query: string)
    ensures var research := st.research(query);
      var analysis := if research.Returned? then st.analysis(research.text) else research;
      var report := if analysis.Returned? then st.writing(analysis.text) else analysis;
      var raw := if report.Returned? then st.suggest(report.text) else report;
      (RunFullResearch(st, query).outcome.Completed? <==> raw.Returned?) &&
      (raw.Returned? ==>
        RunFullResearch(st, query).outcome.output == ResearchOutput(report.text, ParseSuggestions(raw.text)))
  {
  }
}
