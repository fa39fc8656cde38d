/** The word-frequency analysis of `analyze_messages`: the non-blank string
    texts are tokenised, stop words dropped, occurrences counted, and the
    twenty most common words occurring more than once are kept. */
module Frequency {
  import opened Text
  import opened Messages
  import opened Counting

  /** `stopwords_local`: the 34 Russian stop words removed before counting. */
  const StopWords: set<string> := {"в", "на", "и", "а", "но", "что", "как", "уже", "будет", "это", "то", "не", "да", "с", "по", "за", "от", "для", "к", "о", "об", "из", "при", "быть", "есть", "его", "ее", "их", "мы", "вы", "он", "она", "они", "кто"}

  /** Rows written to the frequency table. */
  const TopCount: nat := 20

  /** Length of the leading run of word characters. */
  function WordRun(s: string): (n: nat)
    ensures n <= |s|
    ensures forall i :: 0 <= i < n ==> IsWordChar(s[i])
    ensures n == |s| || !IsWordChar(s[n])
  {
    if s == [] || !IsWordChar(s[0]) then 0 else 1 + WordRun(s[1..])
  }

  predicate IsToken(w: string) {
    w != [] && forall i :: 0 <= i < |w| ==> IsWordChar(w[i])
  }

  /** `re.findall(r'\b\w+\b', s)`: the maximal runs of word characters, in
      order; each is a non-empty run of word characters. */
  function Tokens(s: string): (ts: seq<string>)
    ensures forall k :: 0 <= k < |ts| ==> IsToken(ts[k])
    decreases |s|
  {
    if s == [] then []
    else if !IsWordChar(s[0]) then Tokens(s[1..])
    else
      var n := WordRun(s);
      [s[..n]] + Tokens(s[n..])
  }

  /** A text has a token exactly when it has a word character: `\b\w+\b`
      finds every run of them. */
  lemma {:induction false} TokensExist(s: string)
    ensures Tokens(s) != [] <==> exists i :: 0 <= i < |s| && IsWordChar(s[i])
    decreases |s|
  {
    if s != [] && !IsWordChar(s[0]) {
      TokensExist(s[1..]);
      if exists i :: 0 <= i < |s[1..]| && IsWordChar(s[1..][i]) {
        var i :| 0 <= i < |s[1..]| && IsWordChar(s[1..][i]);
        assert IsWordChar(s[i + 1]);
      }
      if exists i :: 0 <= i < |s| && IsWordChar(s[i]) {
        var i :| 0 <= i < |s| && IsWordChar(s[i]);
        assert IsWordChar(s[1..][i - 1]);
      }
    }
  }

  /** `[w for w in tokens if w not in stopwords_local]` */
  function DropStopWords(tokens: seq<string>): (r: seq<string>)
    ensures |r| <= |tokens|
  {
    if tokens == [] then []
    else if tokens[0] in StopWords then DropStopWords(tokens[1..])
    else [tokens[0]] + DropStopWords(tokens[1..])
  }

  /** The counted words of one message: exactly its lower-cased tokens that
      are not stop words. */
  function MessageWords(text: string): (ws: seq<string>)
    ensures forall w :: w in ws <==> w in Tokens(Lower(text)) && w !in StopWords
    ensures forall w :: w in ws ==> IsToken(w)
  {
    DropStopWordsMembers(Tokens(Lower(text)));
    DropStopWords(Tokens(Lower(text)))
  }

  /** The words of all messages, in order. */
  function WordsOf(texts: seq<string>): seq<string>
  {
    if texts == [] then [] else WordsOf(texts[..|texts| - 1]) + MessageWords(texts[|texts| - 1])
  }

  lemma WordsOfStep(texts: seq<string>, i: nat)
    requires i < |texts|
    ensures WordsOf(texts[..i + 1]) == WordsOf(texts[..i]) + MessageWords(texts[i])
  {
    assert texts[..i + 1][..i] == texts[..i];
  }

  /** What the analysis ends with. */
  datatype FrequencyOutcome =
    | Raised            // an element of the list is not an object
    | NoValidText       // no message has a non-blank string text
    | NoWordsLeft       // every token is a stop word
    | NoRepeatedWords   // no word occurs more than once
    | SaveRaised        // `os.makedirs` or `to_csv` raised; nothing catches it
    | TopWords(rows: seq<Entry<string>>)   // the rows of `word_frequency.csv`

  /** The outcome of the analysis on a loaded list; `saveOk` says whether
      creating the results directory and writing the CSV succeed. */
  function FrequencyOf(items: seq<Item>, saveOk: bool): FrequencyOutcome
  {
    match MessageTexts(items)
    case None => Raised
    case Some(texts) =>
      if texts == [] then NoValidText
      else
        var words := WordsOf(texts);
        if words == [] then NoWordsLeft
        else
          var repeated := KeepRepeated(Tally(words));
          if repeated == [] then NoRepeatedWords
          else if !saveOk then SaveRaised
          else TopWords(MostCommon(repeated, TopCount))
  }

  /** `analyze_messages`, from the loaded list to the rows it saves. */
  method AnalyzeMessages(items: seq<Item>, saveOk: bool) returns (outcome: FrequencyOutcome)
    ensures outcome == FrequencyOf(items, saveOk)
  {
    var loaded := MessageTexts(items);
    if loaded.None? {
      return Raised;
    }
    var messages := loaded.value;
    if messages == [] {
      return NoValidText;
    }
    var words: seq<string> := [];
    for i := 0 to |messages|
      invariant words == WordsOf(messages[..i])
    {
      WordsOfStep(messages, i);
      var tokens := Tokens(Lower(messages[i]));
      words := words + DropStopWords(tokens);
    }
    assert messages[..|messages|] == messages;
    if words == [] {
      return NoWordsLeft;
    }
    var counterAll := CountAll(words);
    var wordCounts := KeepRepeated(counterAll);
    if wordCounts == [] {
      return NoRepeatedWords;
    }
    var topWords := MostCommon(wordCounts, TopCount);
    if !saveOk {
      return SaveRaised;
    }
    outcome := TopWords(topWords);
  }

  /** The stop words are dropped and nothing else is. */
  lemma {:induction false} DropStopWordsMembers(tokens: seq<string>)
    ensures forall w :: w in DropStopWords(tokens) <==> w in tokens && w !in StopWords
  {
    if tokens != [] {
      DropStopWordsMembers(tokens[1..]);
      assert tokens == [tokens[0]] + tokens[1..];
    }
  }

  /** Every counted word is a token of some message and not a stop word. */
  lemma {:induction false} WordsOfMembers(texts: seq<string>, w: string)
    requires w in WordsOf(texts)
    ensures w !in StopWords && IsToken(w)
    decreases |texts|
  {
    if w in WordsOf(texts[..|texts| - 1]) {
      WordsOfMembers(texts[..|texts| - 1], w);
    }
  }

  /** "No valid text" is reported exactly when every element is an object and
      none has a non-blank string text. */
  lemma NoValidTextMeaning(items: seq<Item>, saveOk: bool)
    ensures FrequencyOf(items, saveOk) == NoValidText <==>
      AllObjects(items) && forall k :: 0 <= k < |items| ==> !HasText(items[k])
  {
    if AllObjects(items) {
      TextsOfEmpty(items);
      assert MessageTexts(items) == Some(TextsOf(items));
      if TextsOf(items) != [] {
        var words := WordsOf(TextsOf(items));
        assert FrequencyOf(items, saveOk) != NoValidText by {
          if words != [] && KeepRepeated(Tally(words)) != [] && saveOk {
            assert FrequencyOf(items, saveOk).TopWords?;
          }
        }
      }
    }
  }

  /** The words counted for a list of objects. */
  function CountedWords(items: seq<Item>): seq<string>
    requires AllObjects(items)
  {
    WordsOf(TextsOf(items))
  }

  /** A saved table is the top of the repeated words' counts. */
  lemma TopWordsRows(items: seq<Item>, saveOk: bool, rows: seq<Entry<string>>)
    requires FrequencyOf(items, saveOk) == TopWords(rows)
    ensures AllObjects(items) && saveOk
    ensures rows == MostCommon(KeepRepeated(Tally(CountedWords(items))), TopCount)
  {
  }

  /** The saved table: between one and twenty rows, each a word (a token that
      is not a stop word) with its number of occurrences, which is at least
      two; in non-increasing order of count, equal counts in order of the
      word's first occurrence; and no repeated word left out occurs more
      often than a word kept. */
  lemma TopWordsFacts(items: seq<Item>, saveOk: bool, rows: seq<Entry<string>>)
    requires FrequencyOf(items, saveOk) == TopWords(rows)
    ensures AllObjects(items) && saveOk
    ensures 1 <= |rows| <= TopCount
    ensures forall e :: e in rows ==>
      e.key in CountedWords(items) && e.key !in StopWords && IsToken(e.key) &&
      e.count == Occurrences(CountedWords(items), e.key) && e.count >= 2
    ensures SortedDesc(rows)
    ensures forall i, j :: 0 <= i < j < |rows| && rows[i].count == rows[j].count ==>
      rows[i].key in CountedWords(items) && rows[j].key in CountedWords(items) &&
      FirstIndex(CountedWords(items), rows[i].key) < FirstIndex(CountedWords(items), rows[j].key)
    ensures forall w, k ::
      && w in CountedWords(items) && Occurrences(CountedWords(items), w) >= 2
      && (forall e :: e in rows ==> e.key != w)
      && 0 <= k < |rows|
      ==> Occurrences(CountedWords(items), w) <= rows[k].count
  {
    TopWordsRows(items, saveOk, rows);
    var words := CountedWords(items);
    var tally := Tally(words);
    var repeated := KeepRepeated(tally);
    MostCommonFacts(repeated, TopCount);
    KeepRepeatedMembers(tally);
    forall e | e in rows
      ensures e.key in words && e.key !in StopWords && IsToken(e.key)
      ensures e.count == Occurrences(words, e.key) && e.count >= 2
    {
      TallyMember(words, e);
      WordsOfMembers(TextsOf(items), e.key);
    }
    forall i, j | 0 <= i < j < |rows| && rows[i].count == rows[j].count
      ensures rows[i].key in words && rows[j].key in words
      ensures FirstIndex(words, rows[i].key) < FirstIndex(words, rows[j].key)
    {
      KeepRepeatedOrder(tally, rows[i], rows[j]);
      TallyBefore(words, rows[i], rows[j]);
    }
    forall w, k |
      && w in words && Occurrences(words, w) >= 2
      && (forall e :: e in rows ==> e.key != w)
      && 0 <= k < |rows|
      ensures Occurrences(words, w) <= rows[k].count
    {
      TallyHas(words, w);
      assert Entry(w, Occurrences(words, w)) in repeated;
    }
  }

  /** Saving is the last step: a failing save turns exactly the runs that
      would have saved a table into an escaping exception, and changes no
      other outcome. */
  lemma SaveFailureRaises(items: seq<Item>)
    ensures !FrequencyOf(items, false).TopWords?
    ensures FrequencyOf(items, false) == SaveRaised <==> FrequencyOf(items, true).TopWords?
    ensures !FrequencyOf(items, true).TopWords? ==> FrequencyOf(items, false) == FrequencyOf(items, true)
  {
  }
}
