/** The two orchestrators: `run_analysis_from_group` of the bot, whose
    stages share one `try`, and the `run_analysis.py` script, which guards
    each stage on its own and stops early with `exit`.  Stages are abstract:
    each call, identified by its stage and path arguments, succeeds, returns
    early having skipped its work, or raises. */
module Pipelines {
  import opened Text
  import opened Messages
  import opened Paths

  datatype Stage =
    | Frequency         // analyze_messages
    | MessageActivity   // plot_message_activity
    | UserActivity      // plot_user_activity
    | Topics            // topic_modeling_nmf
    | Clustering        // cluster_with_embeddings
    | ClusterSummary    // summarize_clusters
    | Report            // generate_report
    | GptSummary        // gpt_summary.main

  /** One stage call with the paths passed to it (none for defaults). */
  datatype Call = Call(stage: Stage, args: seq<string>)

  datatype StageOutcome = Success | Skip | Raise

  /** The JSON file as `json.load` reads it: unreadable or malformed, a
      value that is not a list, or a list of elements. */
  datatype Document = Unreadable | NonList | ListDoc(items: seq<Item>)

  /** `data` survives `if not data or not isinstance(data, list)`. */
  predicate Loadable(doc: Document) {
    doc.ListDoc? && doc.items != []
  }

  /** The stages of some calls, in order. */
  function Stages(calls: seq<Call>): seq<Stage>
  {
    seq(|calls|, k requires 0 <= k < |calls| => calls[k].stage)
  }

  /** How many calls of `calls` are made when each is made only if none
      before it raised. */
  function RanUntil(calls: seq<Call>, outcome: Call -> StageOutcome): (n: nat)
    ensures n <= |calls|
  {
    if calls == [] then 0
    else if outcome(calls[0]) == Raise then 1
    else 1 + RanUntil(calls[1..], outcome)
  }

  /** The calls made are those before the first that raises, and that one. */
  lemma {:induction false} RanUntilMeaning(calls: seq<Call>, outcome: Call -> StageOutcome)
    ensures var n := RanUntil(calls, outcome);
      && (forall k :: 0 <= k < n - 1 ==> outcome(calls[k]) != Raise)
      && (n < |calls| ==> n > 0 && outcome(calls[n - 1]) == Raise)
      && (calls != [] ==> n > 0)
    decreases |calls|
  {
    if calls != [] && outcome(calls[0]) != Raise {
      RanUntilMeaning(calls[1..], outcome);
      var n := RanUntil(calls, outcome);
      forall k | 0 <= k < n - 1 ensures outcome(calls[k]) != Raise {
        if k > 0 {
          assert calls[k] == calls[1..][k - 1];
        }
      }
    }
  }

  /** A count with those properties is `RanUntil`. */
  lemma {:induction false} RanUntilAt(calls: seq<Call>, i: nat, outcome: Call -> StageOutcome)
    requires 0 < i <= |calls|
    requires forall k :: 0 <= k < i - 1 ==> outcome(calls[k]) != Raise
    requires i < |calls| ==> outcome(calls[i - 1]) == Raise
    ensures RanUntil(calls, outcome) == i
    decreases i
  {
    if i > 1 {
      assert outcome(calls[0]) != Raise;
      RanUntilAt(calls[1..], i - 1, outcome);
    } else if i < |calls| {
      assert outcome(calls[0]) == Raise;
    } else {
      assert calls[1..] == [];
    }
  }

  /** No call of `calls` raises. */
  predicate NoneRaise(calls: seq<Call>, outcome: Call -> StageOutcome) {
    forall k :: 0 <= k < |calls| ==> outcome(calls[k]) != Raise
  }

  /** None of `a + b` raises exactly when none of `a` and none of `b` does. */
  lemma NoneRaiseConcat(a: seq<Call>, b: seq<Call>, outcome: Call -> StageOutcome)
    ensures NoneRaise(a + b, outcome) <==> NoneRaise(a, outcome) && NoneRaise(b, outcome)
  {
    if NoneRaise(a + b, outcome) {
      forall k | 0 <= k < |a| ensures outcome(a[k]) != Raise {
        assert a[k] == (a + b)[k];
      }
      forall k | 0 <= k < |b| ensures outcome(b[k]) != Raise {
        assert b[k] == (a + b)[|a| + k];
      }
    } else if NoneRaise(a, outcome) && NoneRaise(b, outcome) {
      forall k | 0 <= k < |a + b| ensures outcome((a + b)[k]) != Raise {
        if k < |a| {
          assert (a + b)[k] == a[k];
        } else {
          assert (a + b)[k] == b[k - |a|];
        }
      }
    }
  }

  /** A run over `a + b` stops inside `a` unless all of `a` gets through. */
  lemma {:induction false} RanUntilConcat(a: seq<Call>, b: seq<Call>, outcome: Call -> StageOutcome)
    ensures RanUntil(a + b, outcome) ==
      if NoneRaise(a, outcome) then |a| + RanUntil(b, outcome) else RanUntil(a, outcome)
    decreases |a|
  {
    if a == [] {
      assert a + b == b;
    } else {
      assert (a + b)[1..] == a[1..] + b;
      RanUntilConcat(a[1..], b, outcome);
      if outcome(a[0]) != Raise {
        assert NoneRaise(a, outcome) <==> NoneRaise(a[1..], outcome) by {
          if NoneRaise(a[1..], outcome) {
            forall k | 0 <= k < |a| ensures outcome(a[k]) != Raise {
              if k > 0 {
                assert a[k] == a[1..][k - 1];
              }
            }
          }
        }
      }
    }
  }

  /** The first `n` elements of a concatenation. */
  lemma TakeConcat<T>(a: seq<T>, b: seq<T>, n: nat)
    requires n <= |a| + |b|
    ensures (a + b)[..n] == if n <= |a| then a[..n] else a + b[..n - |a|]
  {
    if n <= |a| {
      assert (a + b)[..n] == a[..n];
    } else {
      assert (a + b)[..n] == a + b[..n - |a|];
    }
  }

  /** The five analyses at the start of the `try` block, all reading the
      JSON file. */
  function AnalyzerCalls(jsonPath: string): (calls: seq<Call>)
    ensures Stages(calls) == [Frequency, MessageActivity, UserActivity, Topics, Clustering]
  {
    [Call(Frequency, [jsonPath]), Call(MessageActivity, [jsonPath]), Call(UserActivity, [jsonPath]),
     Call(Topics, [jsonPath]), Call(Clustering, [jsonPath])]
  }

  /** The three stages that work on the results directory. */
  function ResultCalls(resultsDir: string): (calls: seq<Call>)
    ensures Stages(calls) == [ClusterSummary, Report, GptSummary]
  {
    [Call(ClusterSummary, [JoinPath(resultsDir, "hdbscan_clusters.csv"), JoinPath(resultsDir, "cluster_summaries.txt")]),
     Call(Report, [resultsDir]), Call(GptSummary, [resultsDir])]
  }

  /** The calls `run_analysis_from_group` makes, in order, for `jsonPath`. */
  function AnalyticsCalls(jsonPath: string): (calls: seq<Call>)
    ensures Stages(calls) ==
      [Frequency, MessageActivity, UserActivity, Topics, Clustering, ClusterSummary, Report, GptSummary]
  {
    var a := AnalyzerCalls(jsonPath);
    var b := ResultCalls(ResultsDirFor(jsonPath));
    assert Stages(a + b) == Stages(a) + Stages(b);
    a + b
  }

  /** The calls made for a document: none when it is not a non-empty list
      (the `ValueError` is caught by the same `try`), otherwise the fixed
      sequence up to and including the first call that raises. */
  function AnalyticsRun(jsonPath: string, doc: Document, outcome: Call -> StageOutcome): seq<Call> {
    if Loadable(doc) then AnalyticsCalls(jsonPath)[..RanUntil(AnalyticsCalls(jsonPath), outcome)] else []
  }

  /** Makes the next call of `calls` after a prefix of them none of which
      raised; says how far the run goes if this one raises. */
  method AttemptNext(made: seq<Call>, ghost calls: seq<Call>, c: Call, outcome: Call -> StageOutcome)
    returns (made': seq<Call>, raised: bool)
    requires |made| < |calls| && made == calls[..|made|] && c == calls[|made|]
    requires forall k :: 0 <= k < |made| ==> outcome(calls[k]) != Raise
    ensures made' == calls[..|made| + 1]
    ensures raised <==> outcome(c) == Raise
    ensures raised ==> RanUntil(calls, outcome) == |made'| && !NoneRaise(calls, outcome)
    ensures !raised ==> forall k :: 0 <= k < |made'| ==> outcome(calls[k]) != Raise
    ensures !raised && |made'| == |calls| ==>
      made' == calls && NoneRaise(calls, outcome) && RanUntil(calls, outcome) == |calls|
  {
    made' := made + [c];
    raised := outcome(c) == Raise;
    assert calls[..|made| + 1] == calls[..|made|] + [c];
    if raised || |made'| == |calls| {
      RanUntilAt(calls, |made'|, outcome);
    }
  }

  /** The five analyses, each made only if none before it raised. */
  method RunAnalyzers(jsonPath: string, outcome: Call -> StageOutcome) returns (made: seq<Call>, raised: bool)
    ensures made == AnalyzerCalls(jsonPath)[..RanUntil(AnalyzerCalls(jsonPath), outcome)]
    ensures raised <==> !NoneRaise(AnalyzerCalls(jsonPath), outcome)
    ensures !raised ==> made == AnalyzerCalls(jsonPath)
  {
    ghost var calls := AnalyzerCalls(jsonPath);
    made, raised := AttemptNext([], calls, Call(Frequency, [jsonPath]), outcome);
    if !raised {
      made, raised := AttemptNext(made, calls, Call(MessageActivity, [jsonPath]), outcome);
    }
    if !raised {
      made, raised := AttemptNext(made, calls, Call(UserActivity, [jsonPath]), outcome);
    }
    if !raised {
      made, raised := AttemptNext(made, calls, Call(Topics, [jsonPath]), outcome);
    }
    if !raised {
      made, raised := AttemptNext(made, calls, Call(Clustering, [jsonPath]), outcome);
    }
  }

  /** The cluster summary, the report and the summary, each made only if
      none before it raised. */
  method RunResultStages(resultsDir: string, outcome: Call -> StageOutcome) returns (made: seq<Call>, raised: bool)
    ensures made == ResultCalls(resultsDir)[..RanUntil(ResultCalls(resultsDir), outcome)]
    ensures raised <==> !NoneRaise(ResultCalls(resultsDir), outcome)
    ensures !raised ==> made == ResultCalls(resultsDir)
  {
    ghost var calls := ResultCalls(resultsDir);
    var clusterCsvPath := JoinPath(resultsDir, "hdbscan_clusters.csv");
    var clusterSummariesPath := JoinPath(resultsDir, "cluster_summaries.txt");
    made, raised := AttemptNext([], calls, Call(ClusterSummary, [clusterCsvPath, clusterSummariesPath]), outcome);
    if !raised {
      made, raised := AttemptNext(made, calls, Call(Report, [resultsDir]), outcome);
    }
    if !raised {
      made, raised := AttemptNext(made, calls, Call(GptSummary, [resultsDir]), outcome);
    }
  }

  /** The run is the run of the five analyses followed, when none of them
      raised, by the run of the three stages on the results directory. */
  lemma AnalyticsRunInTwo(jsonPath: string, doc: Document, outcome: Call -> StageOutcome)
    requires Loadable(doc)
    ensures var a, b := AnalyzerCalls(jsonPath), ResultCalls(ResultsDirFor(jsonPath));
      && AnalyticsCalls(jsonPath) == a + b
      && (NoneRaise(AnalyticsCalls(jsonPath), outcome) <==> NoneRaise(a, outcome) && NoneRaise(b, outcome))
      && AnalyticsRun(jsonPath, doc, outcome) ==
         if NoneRaise(a, outcome) then a + b[..RanUntil(b, outcome)] else a[..RanUntil(a, outcome)]
  {
    var a, b := AnalyzerCalls(jsonPath), ResultCalls(ResultsDirFor(jsonPath));
    RanUntilConcat(a, b, outcome);
    NoneRaiseConcat(a, b, outcome);
    TakeConcat(a, b, RanUntil(a + b, outcome));
  }

  /** `run_analysis_from_group(json_path)`: every exception ends up in the
      one `except`, so the method always returns; `completed` says whether
      the success line was logged. */
  method RunAnalysisFromGroup(jsonPath: string, doc: Document, outcome: Call -> StageOutcome)
    returns (made: seq<Call>, completed: bool)
    ensures made == AnalyticsRun(jsonPath, doc, outcome)
    ensures completed <==> Loadable(doc) && NoneRaise(AnalyticsCalls(jsonPath), outcome)
    ensures completed ==> made == AnalyticsCalls(jsonPath)
  {
    made, completed := [], false;
    if !Loadable(doc) {
      return;
    }
    AnalyticsRunInTwo(jsonPath, doc, outcome);
    var raised;
    made, raised := RunAnalyzers(jsonPath, outcome);
    if raised {
      return;
    }
    var jsonDir := Dirname(jsonPath);
    var resultsDir := JoinPath(Dirname(jsonDir), "results");
    assert resultsDir == ResultsDirFor(jsonPath);
    var rest;
    rest, raised := RunResultStages(resultsDir, outcome);
    made := made + rest;
    if raised {
      return;
    }
    completed := true;
  }

  /** No stage runs unless the file holds a non-empty list; otherwise the
      stages run in the fixed order, each only if none before it raised, and
      the last one made is the one that raised, if the run stopped early. */
  lemma AnalyticsStopsAtRaise(jsonPath: string, doc: Document, outcome: Call -> StageOutcome)
    ensures var made := AnalyticsRun(jsonPath, doc, outcome);
      && (!Loadable(doc) ==> made == [])
      && (Loadable(doc) ==> 0 < |made| <= 8 && made == AnalyticsCalls(jsonPath)[..|made|])
      && (forall k :: 0 <= k < |made| - 1 ==> outcome(made[k]) != Raise)
      && (0 < |made| < 8 ==> outcome(made[|made| - 1]) == Raise)
  {
    RanUntilMeaning(AnalyticsCalls(jsonPath), outcome);
  }

  /** The last of a run of calls whose stage occurs nowhere before it is
      made exactly when none of the calls before it raises. */
  lemma LastReached(calls: seq<Call>, outcome: Call -> StageOutcome)
    requires calls != []
    requires forall k :: 0 <= k < |calls| - 1 ==> calls[k].stage != calls[|calls| - 1].stage
    ensures calls[|calls| - 1] in calls[..RanUntil(calls, outcome)] <==>
      NoneRaise(calls[..|calls| - 1], outcome)
  {
    var n := RanUntil(calls, outcome);
    var last := calls[|calls| - 1];
    RanUntilMeaning(calls, outcome);
    if NoneRaise(calls[..|calls| - 1], outcome) {
      forall k | 0 <= k < |calls| - 1 ensures outcome(calls[k]) != Raise {
        assert calls[..|calls| - 1][k] == calls[k];
      }
      if n < |calls| {
        assert false;
      }
      assert calls[..n][|calls| - 1] == last;
    } else {
      var k :| 0 <= k < |calls| - 1 && outcome(calls[..|calls| - 1][k]) == Raise;
      assert calls[..|calls| - 1][k] == calls[k];
      assert n <= k + 1;
      forall j | 0 <= j < n ensures calls[..n][j] != last {
        assert calls[..n][j] == calls[j];
      }
    }
  }

  /** The summary is always asked for once the seven stages before it got
      through: there is no flag and no message-count gate. */
  lemma AnalyticsAlwaysAsksGpt(jsonPath: string, doc: Document, outcome: Call -> StageOutcome)
    ensures Call(GptSummary, [ResultsDirFor(jsonPath)]) in AnalyticsRun(jsonPath, doc, outcome) <==>
      Loadable(doc) && NoneRaise(AnalyticsCalls(jsonPath)[..7], outcome)
  {
    var calls := AnalyticsCalls(jsonPath);
    var s := Stages(calls);
    assert s[7] == GptSummary;
    assert forall k :: 0 <= k < 7 ==> calls[k].stage == s[k];
    LastReached(calls, outcome);
  }

  /** For `base/sub/chat.json` the report and the summary are made in
      `base/results`. */
  lemma AnalyticsResultsDir(base: string, sub: string, file: string)
    requires base != "" && base[|base| - 1] != '/'
    requires sub != "" && '/' !in sub && '/' !in file
    ensures var calls := AnalyticsCalls(base + "/" + sub + "/" + file);
      calls[6].args == [base + "/results"] && calls[7].args == [base + "/results"]
  {
    ResultsBesideData(base, sub, file);
  }

  /** `MIN_MESSAGES_FOR_FULL_ANALYSIS` */
  const MinMessages: nat := 10

  /** The script's configuration flags as shipped. */
  const UseGpt := false
  const UseExistingJson := false

  /** What the script depends on: its flags, the prepared and the
      downloaded file, the file system, what the chosen file holds, and the
      base directory. */
  datatype ScriptInput = ScriptInput(
    useGpt: bool, useExistingJson: bool, existingJsonPath: string,
    downloaded: Option<string>, pathExists: string -> bool,
    doc: Document, baseDir: string)

  /** How the script ends: `exit(0)` for want of a file, `exit("...")` for
      a file that does not load, `exit(0)` for too few messages, or running
      to the end. */
  datatype ScriptEnd = NoMessages | LoadFailed | TooFewMessages | Finished

  /** `json_path`: the prepared file when the flag is set and it exists,
      else what the download returned. */
  function ScriptJsonPath(inp: ScriptInput): Option<string> {
    if inp.useExistingJson && inp.pathExists(inp.existingJsonPath) then Some(inp.existingJsonPath)
    else inp.downloaded
  }

  /** `os.path.join(BASE_DIR, 'tg_analyst', 'data', 'results')` */
  function ScriptResultsDir(baseDir: string): string {
    JoinPath(JoinPath(JoinPath(baseDir, "tg_analyst"), "data"), "results")
  }

  /** The calls of a run that gets past the message-count gate: the
      guarded stages in the script's order, the cluster summary only when
      the clustering did not raise, and the summary only when asked for. */
  function FullScript(p: string, resultsDir: string, useGpt: bool, outcome: Call -> StageOutcome): seq<Call> {
    var clustering := Call(Clustering, [p]);
    var guarded := [Call(Frequency, [p]), Call(Topics, [p]), Call(MessageActivity, [p]),
                    Call(UserActivity, [p]), Call(Report, [resultsDir]), clustering];
    var clustered := if outcome(clustering) == Raise then guarded else guarded + [Call(ClusterSummary, [])];
    if useGpt then clustered + [Call(GptSummary, [])] else clustered
  }

  /** The calls the script makes and how it ends. */
  function ScriptRun(inp: ScriptInput, outcome: Call -> StageOutcome): (seq<Call>, ScriptEnd) {
    var path := ScriptJsonPath(inp);
    if path == None || path.value == "" || !inp.pathExists(path.value) then ([], NoMessages)
    else if !Loadable(inp.doc) then ([], LoadFailed)
    else if |inp.doc.items| < MinMessages then ([Call(Frequency, [path.value])], TooFewMessages)
    else (FullScript(path.value, ScriptResultsDir(inp.baseDir), inp.useGpt, outcome), Finished)
  }

  /** The `run_analysis.py` script. */
  method RunAnalysisScript(inp: ScriptInput, outcome: Call -> StageOutcome) returns (made: seq<Call>, end: ScriptEnd)
    ensures made == ScriptRun(inp, outcome).0 && end == ScriptRun(inp, outcome).1
  {
    made := [];
    var jsonPath: Option<string>;
    if inp.useExistingJson && inp.pathExists(inp.existingJsonPath) {
      jsonPath := Some(inp.existingJsonPath);
    } else {
      jsonPath := inp.downloaded;
    }
    if jsonPath == None || jsonPath.value == "" || !inp.pathExists(jsonPath.value) {
      end := NoMessages;
      return;
    }
    var path := jsonPath.value;
    if !Loadable(inp.doc) {
      end := LoadFailed;
      return;
    }
    var messageCount := |inp.doc.items|;
    made := made + [Call(Frequency, [path])];
    if messageCount < MinMessages {
      end := TooFewMessages;
      return;
    }
    made := RunPastGate(made, path, ScriptResultsDir(inp.baseDir), inp.useGpt, outcome);
    end := Finished;
  }

  /** The stages after the message-count gate, each in its own `try`; the
      frequency call has been made. */
  method RunPastGate(made0: seq<Call>, path: string, resultsDir: string, useGpt: bool,
                     outcome: Call -> StageOutcome) returns (made: seq<Call>)
    requires made0 == [Call(Frequency, [path])]
    ensures made == FullScript(path, resultsDir, useGpt, outcome)
  {
    made := made0 + [Call(Topics, [path])];
    made := made + [Call(MessageActivity, [path])];
    made := made + [Call(UserActivity, [path])];
    made := made + [Call(Report, [resultsDir])];
    made := made + [Call(Clustering, [path])];
    var raised := outcome(Call(Clustering, [path])) == Raise;
    assert made == [Call(Frequency, [path]), Call(Topics, [path]), Call(MessageActivity, [path]),
      Call(UserActivity, [path]), Call(Report, [resultsDir]), Call(Clustering, [path])];
    if !raised {
      made := made + [Call(ClusterSummary, [])];
    }
    if useGpt {
      made := made + [Call(GptSummary, [])];
    }
  }

  /** Nothing is analysed without a file that holds a non-empty list; once
      one loads, the word frequencies come first. */
  lemma ScriptLoadGate(inp: ScriptInput, outcome: Call -> StageOutcome)
    ensures var (made, end) := ScriptRun(inp, outcome);
      && (made == [] <==> end == NoMessages || end == LoadFailed)
      && (end == LoadFailed ==> !Loadable(inp.doc))
      && (made != [] ==> made[0] == Call(Frequency, [ScriptJsonPath(inp).value]) && Loadable(inp.doc))
  {
  }

  /** The count that gates the rest is the number of records, whether or
      not they hold text: two lists of the same length run the same calls. */
  lemma ScriptCountsRecords(inp: ScriptInput, outcome: Call -> StageOutcome, items: seq<Item>)
    requires Loadable(inp.doc) && |items| == |inp.doc.items|
    ensures ScriptRun(inp.(doc := ListDoc(items)), outcome) == ScriptRun(inp, outcome)
  {
  }

  /** With fewer than ten records only the word frequencies are computed:
      no report, no clustering, no summary. */
  lemma ScriptTooFew(inp: ScriptInput, outcome: Call -> StageOutcome)
    requires ScriptRun(inp, outcome).1 == TooFewMessages
    ensures Loadable(inp.doc) && |inp.doc.items| < MinMessages
    ensures Stages(ScriptRun(inp, outcome).0) == [Frequency]
  {
  }

  /** The stages of a concatenation. */
  lemma StagesConcat(a: seq<Call>, b: seq<Call>)
    ensures Stages(a + b) == Stages(a) + Stages(b)
  {
  }

  /** Past the gate the stages come in the script's order, whatever any of
      them does; the cluster summary runs exactly when the clustering did
      not raise, and the summary exactly when it is asked for. */
  lemma FullScriptOrder(p: string, resultsDir: string, useGpt: bool, outcome: Call -> StageOutcome)
    ensures var s := Stages(FullScript(p, resultsDir, useGpt, outcome));
      && s[..6] == [Frequency, Topics, MessageActivity, UserActivity, Report, Clustering]
      && (ClusterSummary in s <==> outcome(Call(Clustering, [p])) != Raise)
      && (GptSummary in s <==> useGpt)
  {
    var clustering := Call(Clustering, [p]);
    var guarded := [Call(Frequency, [p]), Call(Topics, [p]), Call(MessageActivity, [p]),
                    Call(UserActivity, [p]), Call(Report, [resultsDir]), clustering];
    var clustered := if outcome(clustering) == Raise then guarded else guarded + [Call(ClusterSummary, [])];
    var g := Stages(guarded);
    assert g == [Frequency, Topics, MessageActivity, UserActivity, Report, Clustering];
    var c := Stages(clustered);
    if outcome(clustering) != Raise {
      StagesConcat(guarded, [Call(ClusterSummary, [])]);
      assert c == g + [ClusterSummary];
    }
    assert c[..6] == g;
    assert GptSummary !in c;
    if useGpt {
      StagesConcat(clustered, [Call(GptSummary, [])]);
      assert Stages(FullScript(p, resultsDir, useGpt, outcome)) == c + [GptSummary];
    }
  }

  /** In a full run the stages come in the script's order, whatever any of
      them does; the report is made before the clustering, and the cluster
      summary runs exactly when the clustering did not raise. */
  lemma ScriptStageOrder(inp: ScriptInput, outcome: Call -> StageOutcome)
    requires ScriptRun(inp, outcome).1 == Finished
    ensures var made := ScriptRun(inp, outcome).0;
      var p := ScriptJsonPath(inp).value;
      && Stages(made)[..6] == [Frequency, Topics, MessageActivity, UserActivity, Report, Clustering]
      && (ClusterSummary in Stages(made) <==> outcome(Call(Clustering, [p])) != Raise)
      && (GptSummary in Stages(made) <==> inp.useGpt)
  {
    FullScriptOrder(ScriptJsonPath(inp).value, ScriptResultsDir(inp.baseDir), inp.useGpt, outcome);
  }

  /** As shipped, the script never asks for the summary. */
  lemma ShippedScriptSkipsGpt(inp: ScriptInput, outcome: Call -> StageOutcome)
    requires inp.useGpt == UseGpt
    ensures GptSummary !in Stages(ScriptRun(inp, outcome).0)
  {
    var p := ScriptJsonPath(inp);
    if ScriptRun(inp, outcome).1 == Finished {
      FullScriptOrder(p.value, ScriptResultsDir(inp.baseDir), inp.useGpt, outcome);
    }
  }
}
