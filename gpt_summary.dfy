/** `gpt_summary.py`: the prompt built from the files of the results
    directory, capped at 12 000 characters; the language-model call behind
    its API-key check; and `main`, which writes either the model's answer or
    a fixed warning line to `final_analysis_gpt.txt`.  The results directory
    is a map from file name to contents (a name is present exactly when the
    file exists); the model call is an abstract function of the prompt. */
module GptSummary {
  import opened Text
  import opened Messages

  const TopicsFile := "nmf_topics.txt"
  const ClustersCsv := "hdbscan_clusters.csv"
  const ClusterSummaryFile := "cluster_summaries.txt"
  const FrequencyFile := "word_frequency.csv"
  const ReportFile := "report.md"
  const OutputFile := "final_analysis_gpt.txt"

  /** The longest prompt sent to the model. */
  const MaxInput: nat := 12000

  /** The fixed text of the prompt template around the four bodies. */
  const Opening := "\n\U{1F4CA} Final Chat Analysis Summary\n\n--- Topics (NMF) ---\n"
  const ClustersMarker := "\n\n--- Semantic Clusters (HDBSCAN) ---\n"
  const WordsMarker := "\n\n--- Frequent Words ---\n"
  const ReportMarker := "\n\n--- Markdown Report (Optional) ---\n"
  const Closing := "\n"

  /** What `ask_gpt` returns without asking the model, and when the request raises. */
  const KeyMissing := "API key not found."
  const RequestFailed := "GPT request failed."

  /** The line `main` writes when no usable answer came back. */
  const Warning := "\U{26A0}\U{FE0F} GPT summary could not be generated.\n"

  /** The four bodies of the template, in template order. */
  datatype GptSections = GptSections(topics: string, clusters: string, words: string, report: string)

  /** The fixed text of a template: what precedes each body, and what follows the last. */
  datatype Skeleton = Skeleton(opening: string, beforeClusters: string, beforeWords: string,
                               beforeReport: string, closing: string)

  /** The f-string of `prepare_gpt_input`. */
  const Template := Skeleton(Opening, ClustersMarker, WordsMarker, ReportMarker, Closing)

  /** The contents of a file, or "" when it does not exist. */
  function Contents(files: map<string, string>, name: string): (r: string)
    ensures name !in files ==> r == ""
  {
    if name in files then files[name] else ""
  }

  /** The bodies read from the results directory: each file's contents, the
      cluster summaries behind one extra newline, and "" for a missing file. */
  function Bodies(files: map<string, string>): GptSections {
    GptSections(
      Contents(files, TopicsFile),
      if ClusterSummaryFile in files then "\n" + files[ClusterSummaryFile] else "",
      Contents(files, FrequencyFile),
      Contents(files, ReportFile))
  }

  /** A template filled with the four bodies. */
  function Render(sk: Skeleton, b: GptSections): string {
    sk.opening + b.topics + sk.beforeClusters + b.clusters + sk.beforeWords + b.words
    + sk.beforeReport + b.report + sk.closing
  }

  /** `combined[:12000]` when the text is longer than 12 000 characters. */
  function Cap(s: string): (r: string)
    ensures |r| <= MaxInput && |r| <= |s|
    ensures |r| == |s| || |r| == MaxInput
    ensures r == s[..|r|]
  {
    if |s| > MaxInput then s[..MaxInput] else s
  }

  /** `prepare_gpt_input` */
  function PrepareGptInput(files: map<string, string>): string {
    Cap(Render(Template, Bodies(files)))
  }

  /** What follows `a` in `t`, when `t` starts with `a`. */
  function After(t: string, a: string): (r: Option<string>)
    ensures r.Some? ==> t == a + r.value
  {
    if |a| <= |t| && t[..|a|] == a then Some(t[|a|..]) else None
  }

  /** Reads a filled template back into its bodies, given the lengths of the
      first three: each piece of fixed text must come where the template
      puts it. */
  function Parse(sk: Skeleton, t: string, topicsLen: nat, clustersLen: nat, wordsLen: nat): Option<GptSections> {
    var t1 := After(t, sk.opening);
    if t1.None? || |t1.value| < topicsLen then None
    else
      var t2 := After(t1.value[topicsLen..], sk.beforeClusters);
      if t2.None? || |t2.value| < clustersLen then None
      else
        var t3 := After(t2.value[clustersLen..], sk.beforeWords);
        if t3.None? || |t3.value| < wordsLen then None
        else
          var t4 := After(t3.value[wordsLen..], sk.beforeReport);
          if t4.None? || |t4.value| < |sk.closing| then None
          else
            var n := |t4.value| - |sk.closing|;
            if t4.value[n..] != sk.closing then None
            else Some(GptSections(t1.value[..topicsLen], t2.value[..clustersLen], t3.value[..wordsLen], t4.value[..n]))
  }

  /** The prompt is never longer than 12 000 characters, and it is the
      template itself when that fits, its first 12 000 characters otherwise. */
  lemma InputCapped(files: map<string, string>)
    ensures |PrepareGptInput(files)| <= MaxInput
    ensures |Render(Template, Bodies(files))| <= MaxInput ==>
      PrepareGptInput(files) == Render(Template, Bodies(files))
    ensures |Render(Template, Bodies(files))| > MaxInput ==>
      PrepareGptInput(files) == Render(Template, Bodies(files))[..MaxInput]
  {
  }

  /** A text that starts with `a` has `a` removed by `After`. */
  lemma AfterConcat(a: string, r: string)
    ensures After(a + r, a) == Some(r)
  {
    assert (a + r)[..|a|] == a;
  }

  /** A body followed by the rest of a text. */
  lemma Split(x: string, r: string)
    ensures (x + r)[..|x|] == x && (x + r)[|x|..] == r
  {
  }

  /** A filled template holds the four bodies in order between its pieces
      of fixed text: reading it back at the bodies' lengths gives the bodies. */
  lemma RenderParse(sk: Skeleton, b: GptSections)
    ensures Parse(sk, Render(sk, b), |b.topics|, |b.clusters|, |b.words|) == Some(b)
  {
    var r8 := b.report + sk.closing;
    var r7 := sk.beforeReport + r8;
    var r6 := b.words + r7;
    var r5 := sk.beforeWords + r6;
    var r4 := b.clusters + r5;
    var r3 := sk.beforeClusters + r4;
    var r2 := b.topics + r3;
    assert Render(sk, b) == sk.opening + r2;
    AfterConcat(sk.opening, r2);
    Split(b.topics, r3);
    AfterConcat(sk.beforeClusters, r4);
    Split(b.clusters, r5);
    AfterConcat(sk.beforeWords, r6);
    Split(b.words, r7);
    AfterConcat(sk.beforeReport, r8);
    Split(b.report, sk.closing);
  }

  /** A prompt that was not cut gives back what each file contributed. */
  lemma ShortInputParses(files: map<string, string>)
    requires |Render(Template, Bodies(files))| <= MaxInput
    ensures var b := Bodies(files);
      Parse(Template, PrepareGptInput(files), |b.topics|, |b.clusters|, |b.words|) == Some(b)
  {
    RenderParse(Template, Bodies(files));
  }

  /** A missing file contributes an empty body; an existing one its
      contents, the cluster summaries after one newline. */
  lemma BodiesMeaning(files: map<string, string>)
    ensures Bodies(files).topics == (if TopicsFile in files then files[TopicsFile] else "")
    ensures Bodies(files).words == (if FrequencyFile in files then files[FrequencyFile] else "")
    ensures Bodies(files).report == (if ReportFile in files then files[ReportFile] else "")
    ensures Bodies(files).clusters != "" <==> ClusterSummaryFile in files
    ensures ClusterSummaryFile in files ==>
      Bodies(files).clusters[0] == '\n' && Bodies(files).clusters[1..] == files[ClusterSummaryFile]
  {
    if ClusterSummaryFile in files {
      assert Bodies(files).clusters == "\n" + files[ClusterSummaryFile];
    }
  }

  /** `hdbscan_clusters.csv` is located but never read. */
  lemma ClustersCsvIgnored(files: map<string, string>, csv: string)
    ensures PrepareGptInput(files[ClustersCsv := csv]) == PrepareGptInput(files)
    ensures PrepareGptInput(files - {ClustersCsv}) == PrepareGptInput(files)
  {
    var f1 := files[ClustersCsv := csv];
    var f2 := files - {ClustersCsv};
    assert Bodies(f1) == Bodies(files);
    assert Bodies(f2) == Bodies(files);
  }

  /** What the chat-completion request gives back: an exception, or a
      message whose content may be `None`. */
  datatype Reply = RequestRaised | Content(content: Option<string>)

  /** `ask_gpt`: `apiKey` is what `os.getenv` found (`None` when unset);
      `complete(fullText)` is the chat-completion request whose user message
      is the prompt followed by the fixed list of questions. */
  function AskGpt(fullText: string, apiKey: Option<string>, complete: string -> Reply): Option<string> {
    if apiKey == None || apiKey.value == "" then Some(KeyMissing)
    else
      match complete(fullText)
      case RequestRaised => Some(RequestFailed)
      case Content(c) => c
  }

  /** Without an API key the model is never asked: the answer is the
      key-missing sentinel whatever the request would have returned. */
  lemma NoKeyNoRequest(fullText: string, complete: string -> Reply, other: string -> Reply)
    ensures AskGpt(fullText, None, complete) == AskGpt(fullText, None, other) == Some(KeyMissing)
    ensures AskGpt(fullText, Some(""), complete) == AskGpt(fullText, Some(""), other) == Some(KeyMissing)
  {
  }

  /** `not result or result.strip().lower() in {...}` */
  predicate Unusable(result: Option<string>) {
    result == None || result.value == ""
    || Lower(Strip(result.value)) == "gpt request failed."
    || Lower(Strip(result.value)) == "api key not found."
  }

  /** What `main` writes to `final_analysis_gpt.txt` for an answer. */
  function SummaryText(result: Option<string>): (r: string)
    ensures Unusable(result) ==> r == Warning
    ensures !Unusable(result) ==> r == result.value
  {
    if Unusable(result) then Warning else result.value
  }

  /** The sentinels have no white space at either end ... */
  lemma SentinelsStripped()
    ensures Strip(KeyMissing) == KeyMissing && Strip(RequestFailed) == RequestFailed
  {
    StripOfTrimmed(KeyMissing);
    StripOfTrimmed(RequestFailed);
  }

  /** ... and lower-case to the strings `main` compares with. */
  lemma KeyMissingLower()
    ensures Lower(KeyMissing) == "api key not found."
  {
    var l := Lower(KeyMissing);
    forall i | 0 <= i < 18 ensures l[i] == "api key not found."[i] {
    }
  }

  lemma RequestFailedLower()
    ensures Lower(RequestFailed) == "gpt request failed."
  {
    var l := Lower(RequestFailed);
    forall i | 0 <= i < 19 ensures l[i] == "gpt request failed."[i] {
    }
  }

  /** Both sentinels `ask_gpt` can return are recognised by `main`, so a
      missing key or a failed request ends in the warning line. */
  lemma SentinelsUnusable()
    ensures Unusable(Some(KeyMissing))
    ensures Unusable(Some(RequestFailed))
  {
    SentinelsStripped();
    KeyMissingLower();
    RequestFailedLower();
  }

  /** The whole of `main` on a results directory: the text it writes. */
  function FinalAnalysis(files: map<string, string>, apiKey: Option<string>, complete: string -> Reply): string {
    SummaryText(AskGpt(PrepareGptInput(files), apiKey, complete))
  }

  /** Without an API key, or when the request raises, the warning is written. */
  lemma FailureWritesWarning(files: map<string, string>, apiKey: Option<string>, complete: string -> Reply)
    requires apiKey == None || apiKey.value == ""
             || complete(PrepareGptInput(files)) == RequestRaised
    ensures FinalAnalysis(files, apiKey, complete) == Warning
  {
    SentinelsUnusable();
  }

  /** An answer the model gave is written verbatim unless it is empty or
      reads as one of the sentinels. */
  lemma AnswerWritten(files: map<string, string>, apiKey: Option<string>, complete: string -> Reply, answer: string)
    requires apiKey != None && apiKey.value != ""
    requires complete(PrepareGptInput(files)) == Content(Some(answer))
    ensures FinalAnalysis(files, apiKey, complete) == answer <==> !Unusable(Some(answer)) || answer == Warning
    ensures FinalAnalysis(files, apiKey, complete) == Warning <==> Unusable(Some(answer)) || answer == Warning
  {
  }

  /** The results directory `main` writes into. */
  class ResultsFolder {
    var files: map<string, string>

    constructor(files0: map<string, string>)
      ensures files == files0
    {
      files := files0;
    }

    /** `main(results_dir)`: builds the prompt, asks the model and writes
        the answer, or the warning line, to `final_analysis_gpt.txt`.
        `openOk` says whether `os.makedirs` and `open` succeed; when either
        raises, the exception escapes `main` and no file changes. */
    method WriteFinalAnalysis(apiKey: Option<string>, complete: string -> Reply, openOk: bool)
      returns (raised: bool)
      modifies this
      ensures raised <==> !openOk
      ensures files == if openOk then old(files)[OutputFile := FinalAnalysis(old(files), apiKey, complete)]
                       else old(files)
    {
      var inputText := PrepareGptInput(files);
      var result := AskGpt(inputText, apiKey, complete);
      assert FinalAnalysis(files, apiKey, complete) == SummaryText(result);
      if !openOk {
        return true;
      }
      raised := false;
      if Unusable(result) {
        files := files[OutputFile := Warning];
        return;
      }
      files := files[OutputFile := result.value];
    }
  }
}
