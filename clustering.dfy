/** The decision logic of `cluster_with_embeddings`: the size threshold, the
    HDBSCAN parameter table chosen by corpus size, the rule that discards a
    labelling with at most one distinct label, and the rows saved to
    `hdbscan_clusters.csv`.  Embedding and clustering are one abstract call
    that either yields one label per text or fails. */
module Clustering {
  import opened Text
  import opened Messages

  datatype ClusterParams = ClusterParams(minClusterSize: nat, minSamples: nat)

  /** One row of `hdbscan_clusters.csv`. */
  datatype ClusterRow = ClusterRow(text: string, cluster: int)

  datatype ClusterOutcome =
    | ClusterFailed                  // an exception was caught and logged
    | TooFewTexts(found: nat)        // fewer than ten non-blank texts
    | NotMeaningful                  // one cluster, or everything noise
    | ClustersSaved(rows: seq<ClusterRow>, plotted: bool)   // the CSV was written; `plotted` when the UMAP chart was too

  /** The auto-tuned HDBSCAN parameters for `n` texts. */
  function ParamsFor(n: nat): (p: ClusterParams)
    ensures 1 <= p.minSamples <= p.minClusterSize <= 3
    ensures p.minClusterSize == 1 <==> n < 100
    ensures p.minClusterSize == 3 <==> n >= 300
    ensures p.minSamples == 2 <==> n >= 300
  {
    if n < 100 then ClusterParams(1, 1)
    else if n < 300 then ClusterParams(2, 1)
    else ClusterParams(3, 2)
  }

  /** More texts never make the clustering more sensitive. */
  lemma ParamsMonotone(m: nat, n: nat)
    requires m <= n
    ensures ParamsFor(m).minClusterSize <= ParamsFor(n).minClusterSize
    ensures ParamsFor(m).minSamples <= ParamsFor(n).minSamples
  {
  }

  /** `set(labels)` */
  function LabelSet(labels: seq<int>): set<int>
  {
    set l | l in labels
  }

  /** At most one distinct label means every text got the same label. */
  lemma OneLabelMeaning(labels: seq<int>)
    ensures |LabelSet(labels)| <= 1 <==>
      forall i, j :: 0 <= i < |labels| && 0 <= j < |labels| ==> labels[i] == labels[j]
  {
    var ls := LabelSet(labels);
    if forall i, j :: 0 <= i < |labels| && 0 <= j < |labels| ==> labels[i] == labels[j] {
      if labels != [] {
        assert ls == {labels[0]} by {
          forall l | l in ls ensures l == labels[0] {
            var i :| 0 <= i < |labels| && labels[i] == l;
          }
        }
      } else {
        assert ls == {};
      }
    } else {
      var i, j :| 0 <= i < |labels| && 0 <= j < |labels| && labels[i] != labels[j];
      assert {labels[i], labels[j]} <= ls;
      assert |{labels[i], labels[j]}| == 2;
      SubsetSize({labels[i], labels[j]}, ls);
    }
  }

  lemma SubsetSize(a: set<int>, b: set<int>)
    requires a <= b
    ensures |a| <= |b|
  {
    assert b == a + (b - a);
  }

  /** The `text` column of a table. */
  function TextColumn(rows: seq<ClusterRow>): seq<string> {
    seq(|rows|, k requires 0 <= k < |rows| => rows[k].text)
  }

  /** The `cluster` column of a table. */
  function LabelColumn(rows: seq<ClusterRow>): seq<int> {
    seq(|rows|, k requires 0 <= k < |rows| => rows[k].cluster)
  }

  /** `pd.DataFrame({'text': texts, 'cluster': labels})` for columns of equal
      length: reading either column back gives the list it was built from. */
  function Rows(texts: seq<string>, labels: seq<int>): (rows: seq<ClusterRow>)
    requires |texts| == |labels|
    ensures |rows| == |texts|
    ensures TextColumn(rows) == texts && LabelColumn(rows) == labels
  {
    seq(|texts|, k requires 0 <= k < |texts| => ClusterRow(texts[k], labels[k]))
  }

  /** `cluster_with_embeddings` on the loaded list.  `fitPredict` stands for
      the sentence embedding followed by HDBSCAN with the given parameters
      (`None` when either raises); `csvOk` says whether `df.to_csv` succeeds
      and `plotOk` whether the UMAP projection and the chart do. */
  function ClusterOf(items: seq<Item>, fitPredict: (seq<string>, ClusterParams) -> Option<seq<int>>,
                     csvOk: bool, plotOk: bool): ClusterOutcome
  {
    if !AllObjects(items) then ClusterFailed
    else
      var texts := StrippedTexts(items);
      if |texts| < MinTexts then TooFewTexts(|texts|)
      else
        match fitPredict(texts, ParamsFor(|texts|))
        case None => ClusterFailed
        case Some(labels) =>
          if |LabelSet(labels)| <= 1 then NotMeaningful
          else if |labels| != |texts| || !csvOk then ClusterFailed
          else ClustersSaved(Rows(texts, labels), plotOk)
  }

  /** Clustering is skipped exactly when every element is an object and
      fewer than ten messages have a non-blank string text. */
  lemma TooFewMeaning(items: seq<Item>, fitPredict: (seq<string>, ClusterParams) -> Option<seq<int>>,
                      csvOk: bool, plotOk: bool, n: nat)
    ensures ClusterOf(items, fitPredict, csvOk, plotOk) == TooFewTexts(n) <==>
      AllObjects(items) && |TextsOf(items)| == n && n < MinTexts
  {
  }

  /** A labelling in which every text has the same label is discarded. */
  lemma SameLabelDiscarded(items: seq<Item>, fitPredict: (seq<string>, ClusterParams) -> Option<seq<int>>,
                           csvOk: bool, plotOk: bool, labels: seq<int>)
    requires AllObjects(items) && |TextsOf(items)| >= MinTexts
    requires fitPredict(StrippedTexts(items), ParamsFor(|TextsOf(items)|)) == Some(labels)
    requires forall i, j :: 0 <= i < |labels| && 0 <= j < |labels| ==> labels[i] == labels[j]
    ensures ClusterOf(items, fitPredict, csvOk, plotOk) == NotMeaningful
  {
    OneLabelMeaning(labels);
  }

  /** Text `k` given to the model is the stripped text of the `k`-th
      message with a non-blank text, and stripping it again changes nothing. */
  lemma StrippedText(items: seq<Item>, k: nat)
    requires AllObjects(items) && k < |TextsOf(items)|
    ensures StrippedTexts(items)[k] == Strip(TextsOf(items)[k])
    ensures Strip(StrippedTexts(items)[k]) == StrippedTexts(items)[k] != ""
  {
    StripOfTrimmed(StrippedTexts(items)[k]);
  }

  /** A saved table is built from the stripped texts and the labels. */
  lemma SavedRowsBuilt(items: seq<Item>, fitPredict: (seq<string>, ClusterParams) -> Option<seq<int>>,
                       csvOk: bool, plotOk: bool, rows: seq<ClusterRow>, plotted: bool)
    requires ClusterOf(items, fitPredict, csvOk, plotOk) == ClustersSaved(rows, plotted)
    ensures AllObjects(items) && |TextsOf(items)| >= MinTexts && plotted == plotOk
    ensures var labels := fitPredict(StrippedTexts(items), ParamsFor(|TextsOf(items)|));
      && labels.Some? && |labels.value| == |TextsOf(items)| && |LabelSet(labels.value)| > 1
      && rows == Rows(StrippedTexts(items), labels.value)
  {
  }

  /** What the saved CSV holds: one row per non-blank text, in message order,
      the stripped text with the label HDBSCAN gave it under the parameters
      for that many texts; at least ten rows and at least two distinct labels. */
  lemma SavedRowsFacts(items: seq<Item>, fitPredict: (seq<string>, ClusterParams) -> Option<seq<int>>,
                       csvOk: bool, plotOk: bool, rows: seq<ClusterRow>, plotted: bool)
    requires ClusterOf(items, fitPredict, csvOk, plotOk) == ClustersSaved(rows, plotted)
    ensures AllObjects(items) && |rows| == |TextsOf(items)| >= MinTexts
    ensures plotted == plotOk
    ensures forall k :: 0 <= k < |rows| ==>
      rows[k].text == Strip(TextsOf(items)[k]) && Strip(rows[k].text) == rows[k].text != ""
    ensures fitPredict(StrippedTexts(items), ParamsFor(|rows|)) ==
      Some(LabelColumn(rows))
    ensures exists i, j :: 0 <= i < |rows| && 0 <= j < |rows| && rows[i].cluster != rows[j].cluster
  {
    SavedRowsBuilt(items, fitPredict, csvOk, plotOk, rows, plotted);
    var texts := StrippedTexts(items);
    var labels := fitPredict(texts, ParamsFor(|TextsOf(items)|)).value;
    assert TextColumn(rows) == texts && LabelColumn(rows) == labels;
    forall k | 0 <= k < |rows|
      ensures rows[k].text == Strip(TextsOf(items)[k]) && Strip(rows[k].text) == rows[k].text != ""
    {
      assert rows[k].text == TextColumn(rows)[k] == texts[k];
      StrippedText(items, k);
    }
    OneLabelMeaning(labels);
    var i, j :| 0 <= i < |labels| && 0 <= j < |labels| && labels[i] != labels[j];
    assert rows[i].cluster == LabelColumn(rows)[i] && rows[j].cluster == LabelColumn(rows)[j];
  }

  /** The table is saved exactly when every element is an object, there are
      at least ten non-blank texts, HDBSCAN gives one label per text with at
      least two distinct labels, and `to_csv` succeeds; a failing `to_csv` is
      caught like any other exception. */
  lemma SavedExactly(items: seq<Item>, fitPredict: (seq<string>, ClusterParams) -> Option<seq<int>>,
                     csvOk: bool, plotOk: bool)
    ensures ClusterOf(items, fitPredict, csvOk, plotOk).ClustersSaved? <==>
      && AllObjects(items) && |TextsOf(items)| >= MinTexts
      && var labels := fitPredict(StrippedTexts(items), ParamsFor(|TextsOf(items)|));
      && labels.Some? && |labels.value| == |TextsOf(items)| && |LabelSet(labels.value)| > 1
      && csvOk
    ensures !csvOk && AllObjects(items) && |TextsOf(items)| >= MinTexts ==>
      ClusterOf(items, fitPredict, csvOk, plotOk) in {ClusterFailed, NotMeaningful}
  {
  }
}
