/** The deterministic part of `topic_modeling_nmf`: the size threshold, the
    empty-vocabulary check, the adjustment of the number of topics, the
    choice of each topic's top words and the `Topic <i>: <words>` lines of
    `nmf_topics.txt`.  TF-IDF and NMF are abstract calls. */
module Topics {
  import opened Text
  import opened Messages

  /** The defaults `n_topics=10` and `n_words=10`. */
  const DefaultTopics: nat := 10
  const WordsPerTopic: nat := 10

  function Max(a: nat, b: nat): nat {
    if a >= b then a else b
  }

  function Min(a: nat, b: nat): nat {
    if a <= b then a else b
  }

  /** The number of topics fitted for a matrix with `rows` documents when
      `nTopics` were asked for. */
  function AdjustTopics(rows: nat, nTopics: nat): (n: nat)
    ensures rows >= nTopics ==> n == nTopics
    ensures rows < nTopics ==> 2 <= n && (n == 2 || 2 * n <= rows)
  {
    if rows < nTopics then Max(2, rows / 2) else nTopics
  }

  /** With the default of ten topics the adjustment never happens, because
      the model is only fitted on at least ten documents. */
  lemma DefaultNeverAdjusted(rows: nat)
    requires rows >= MinTexts
    ensures AdjustTopics(rows, DefaultTopics) == DefaultTopics
  {
  }

  /** An adjusted count is smaller than the one asked for, once more than two
      were asked for. */
  lemma AdjustedIsSmaller(rows: nat, nTopics: nat)
    requires rows < nTopics && nTopics > 2
    ensures AdjustTopics(rows, nTopics) < nTopics
  {
  }

  /** `topic.argsort()[:-n_words - 1:-1]` mapped to feature names, for a
      ranking of the feature names by falling weight: its best `n_words`
      entries, best first, or the whole ranking when it is shorter. */
  function TopWords(ranking: seq<string>, nWords: nat): (words: seq<string>)
    ensures |words| <= nWords && |words| <= |ranking| && words == ranking[..|words|]
    ensures |words| < nWords ==> words == ranking
  {
    ranking[..Min(nWords, |ranking|)]
  }

  /** The heading of topic number `i` (counted from zero). */
  function TopicHeader(i: nat): string {
    "Topic " + NatToString(i + 1) + ": "
  }

  /** One line of `nmf_topics.txt`, without its newline. */
  function TopicLine(i: nat, words: seq<string>): string {
    TopicHeader(i) + Join(words, " ")
  }

  /** The lines of the file. */
  function TopicLines(topics: seq<seq<string>>): (lines: seq<string>)
    ensures |lines| == |topics|
  {
    seq(|topics|, i requires 0 <= i < |topics| => TopicLine(i, topics[i]))
  }

  /** The contents of `nmf_topics.txt`: each topic's line and a newline. */
  function TopicsText(topics: seq<seq<string>>): string
  {
    WriteLines(TopicLines(topics))
  }

  /** The write loop of `topic_modeling_nmf`. */
  method WriteTopics(topics: seq<seq<string>>) returns (text: string)
    ensures text == TopicsText(topics)
  {
    text := "";
    for i := 0 to |topics|
      invariant text == WriteLines(TopicLines(topics)[..i])
    {
      WriteLinesSnoc(TopicLines(topics)[..i], TopicLine(i, topics[i]));
      assert TopicLines(topics)[..i + 1] == TopicLines(topics)[..i] + [TopicLine(i, topics[i])];
      text := text + TopicLine(i, topics[i]) + "\n";
    }
    assert TopicLines(topics)[..|topics|] == TopicLines(topics);
  }

  /** Feature names hold neither spaces nor newlines, and every topic has at
      least one word. */
  predicate WellFormedTopics(topics: seq<seq<string>>) {
    forall i :: 0 <= i < |topics| ==>
      && topics[i] != []
      && forall k :: 0 <= k < |topics[i]| ==> ' ' !in topics[i][k] && '\n' !in topics[i][k]
  }

  /** A topic line holds no newline when its words hold none. */
  lemma {:induction false} JoinNoNewline(words: seq<string>)
    requires forall k :: 0 <= k < |words| ==> '\n' !in words[k]
    ensures '\n' !in Join(words, " ")
    decreases |words|
  {
    if |words| > 1 {
      JoinNoNewline(words[1..]);
    }
  }

  lemma HeaderNoNewline(i: nat)
    ensures '\n' !in TopicHeader(i)
  {
    var digits := NatToString(i + 1);
    assert forall k :: 0 <= k < |digits| ==> IsDigit(digits[k]);
  }

  /** The file splits into one line per topic followed by the empty piece
      after the last newline. */
  lemma TopicsTextLines(topics: seq<seq<string>>)
    requires WellFormedTopics(topics)
    ensures SplitOn(TopicsText(topics), '\n') == TopicLines(topics) + [""]
  {
    var lines := TopicLines(topics);
    forall k | 0 <= k < |lines| ensures '\n' !in lines[k] {
      HeaderNoNewline(k);
      JoinNoNewline(topics[k]);
    }
    WriteLinesSplit(lines);
  }

  /** Reads the words back from line `i`, if it carries topic `i`'s header. */
  function ParseTopicLine(i: nat, line: string): Option<seq<string>> {
    if StartsWith(line, TopicHeader(i)) then Some(SplitOn(line[|TopicHeader(i)|..], ' ')) else None
  }

  /** Each line of the file gives back its topic's words. */
  lemma TopicsRoundTrip(topics: seq<seq<string>>, i: nat)
    requires WellFormedTopics(topics) && i < |topics|
    ensures |SplitOn(TopicsText(topics), '\n')| == |topics| + 1
    ensures ParseTopicLine(i, SplitOn(TopicsText(topics), '\n')[i]) == Some(topics[i])
  {
    TopicsTextLines(topics);
    var line := TopicLine(i, topics[i]);
    assert SplitOn(TopicsText(topics), '\n')[i] == line;
    assert line[|TopicHeader(i)|..] == Join(topics[i], " ");
    SplitJoin(topics[i], ' ');
  }

  /** The words of the `n` topics, given each topic's ranking. */
  function TopicWords(ranking: nat -> seq<string>, n: nat, nWords: nat): (topics: seq<seq<string>>)
    ensures |topics| == n
  {
    seq(n, t requires 0 <= t < n => TopWords(ranking(t), nWords))
  }

  datatype TopicsOutcome =
    | TopicsFailed                // an exception was caught and logged
    | TopicsTooFew(found: nat)    // fewer than ten non-blank texts
    | EmptyMatrix                 // the TF-IDF matrix has no row or no column
    | TopicsWritten(nTopics: nat, text: string)   // the contents of `nmf_topics.txt`

  /** `topic_modeling_nmf(json_path, n_topics, n_words)` on the loaded list.
      `vocabulary` is the number of terms the TF-IDF vectorizer keeps (`None`
      when it raises); the matrix has one row per text.  `fit` stands for NMF
      with the chosen number of topics: for each topic index, that topic's
      feature names ordered by falling weight (`None` when NMF raises).
      `writeOk` says whether `os.makedirs`, `open` and the writes of
      `nmf_topics.txt` succeed. */
  function TopicsOf(items: seq<Item>, nTopics: nat, nWords: nat,
                    vocabulary: seq<string> -> Option<nat>,
                    fit: (seq<string>, nat) -> Option<nat -> seq<string>>,
                    writeOk: bool): TopicsOutcome
  {
    if !AllObjects(items) then TopicsFailed
    else
      var texts := StrippedTexts(items);
      if |texts| < MinTexts then TopicsTooFew(|texts|)
      else
        match vocabulary(texts)
        case None => TopicsFailed
        case Some(columns) =>
          if |texts| == 0 || columns == 0 then EmptyMatrix
          else
            var n := AdjustTopics(|texts|, nTopics);
            match fit(texts, n)
            case None => TopicsFailed
            case Some(ranking) =>
              if !writeOk then TopicsFailed
              else TopicsWritten(n, TopicsText(TopicWords(ranking, n, nWords)))
  }

  /** The skip conditions: fewer than ten texts, or no vocabulary left. */
  lemma TopicsSkipMeaning(items: seq<Item>, vocabulary: seq<string> -> Option<nat>,
                          fit: (seq<string>, nat) -> Option<nat -> seq<string>>, writeOk: bool)
    requires AllObjects(items)
    ensures TopicsOf(items, DefaultTopics, WordsPerTopic, vocabulary, fit, writeOk).TopicsTooFew? <==>
      |TextsOf(items)| < MinTexts
    ensures TopicsOf(items, DefaultTopics, WordsPerTopic, vocabulary, fit, writeOk) == EmptyMatrix <==>
      |TextsOf(items)| >= MinTexts && vocabulary(StrippedTexts(items)) == Some(0)
  {
    var texts := StrippedTexts(items);
    assert |texts| == |TextsOf(items)|;
    var outcome := TopicsOf(items, DefaultTopics, WordsPerTopic, vocabulary, fit, writeOk);
    if |texts| >= MinTexts && vocabulary(texts).Some? && vocabulary(texts).value > 0 {
      assert !outcome.TopicsTooFew? && outcome != EmptyMatrix;
    }
  }

  /** The file is written exactly when every element is an object, there are
      at least ten non-blank texts, the vectorizer keeps some term, NMF
      succeeds and the file can be created and written; a failing write is
      caught like any other exception. */
  lemma TopicsWrittenExactly(items: seq<Item>, nTopics: nat, nWords: nat,
                             vocabulary: seq<string> -> Option<nat>,
                             fit: (seq<string>, nat) -> Option<nat -> seq<string>>, writeOk: bool)
    ensures TopicsOf(items, nTopics, nWords, vocabulary, fit, writeOk).TopicsWritten? <==>
      && AllObjects(items) && |TextsOf(items)| >= MinTexts
      && vocabulary(StrippedTexts(items)).Some? && vocabulary(StrippedTexts(items)).value > 0
      && fit(StrippedTexts(items), AdjustTopics(|TextsOf(items)|, nTopics)).Some?
      && writeOk
  {
    if AllObjects(items) {
      var texts := StrippedTexts(items);
      assert |texts| == |TextsOf(items)|;
      if |texts| >= MinTexts && vocabulary(texts).Some? && vocabulary(texts).value > 0 {
        assert TopicsOf(items, nTopics, nWords, vocabulary, fit, writeOk).TopicsWritten? <==>
          fit(texts, AdjustTopics(|texts|, nTopics)).Some? && writeOk;
      }
    }
  }

  /** Run with its defaults, the model is fitted with ten topics and the
      file holds exactly ten lines, `Topic 1:` to `Topic 10:`, each naming
      its topic's ten best words (or all of them when fewer terms were kept). */
  lemma DefaultTopicsWritten(items: seq<Item>, vocabulary: seq<string> -> Option<nat>,
                             fit: (seq<string>, nat) -> Option<nat -> seq<string>>, writeOk: bool,
                             n: nat, text: string)
    requires TopicsOf(items, DefaultTopics, WordsPerTopic, vocabulary, fit, writeOk) == TopicsWritten(n, text)
    ensures n == DefaultTopics && writeOk
    ensures fit(StrippedTexts(items), DefaultTopics).Some?
    ensures var ranking := fit(StrippedTexts(items), DefaultTopics).value;
      var lines := TopicLines(TopicWords(ranking, DefaultTopics, WordsPerTopic));
      && text == WriteLines(lines) && |lines| == DefaultTopics
      && forall i :: 0 <= i < DefaultTopics ==>
           StartsWith(lines[i], TopicHeader(i)) && lines[i][|TopicHeader(i)|..] == Join(TopWords(ranking(i), WordsPerTopic), " ")
  {
    DefaultNeverAdjusted(|StrippedTexts(items)|);
  }
}
