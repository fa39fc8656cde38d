# TgAnalyzer core, modelled in Dafny

TgAnalyzer downloads the messages of a Telegram group, analyses them and
reports back through a Telegram bot. This project models the deterministic
logic around the numerical and network services:

- the analysers of `analyzer.py`:
  - word frequencies, with stop words, repeated words only and the top twenty;
  - the size thresholds;
  - the HDBSCAN parameter table;
  - the "at most one label" rule;
  - the NMF topic-count adjustment and the `Topic <i>:` lines;
  - messages per day and per sender;
- the cluster summariser `summarize_clusters`;
- the Markdown report `generate_report`;
- the prompt builder and the answer handling of `gpt_summary.py`;
- the MarkdownV2 escaping and report formatting of the bot;
- the bot's `universal_handler`, with its two dictionaries `user_states` and `analysis_cache`;
- the two pipelines: `run_analysis_from_group` and the `run_analysis.py` script;
- the text normaliser `preprocess_text`.

One module per concern:

| file | module | models |
|---|---|---|
| text.dfy | Text | Python string helpers used throughout: `strip`, `lower`, `split`, `join`, `str(int)`, line writing |
| messages.dfy | Messages | the loaded JSON list and the non-blank texts the analysers select |
| counting.dfy | Counting | `collections.Counter` and `most_common` |
| frequency.dfy | Frequency | `analyze_messages` |
| clustering.dfy | Clustering | `cluster_with_embeddings` |
| topics.dfy | Topics | `topic_modeling_nmf` |
| activity.dfy | Activity | `plot_message_activity`, `plot_user_activity` |
| cluster_summary.dfy | ClusterSummary | `summarize_clusters` |
| report.dfy | Report | `generate_report` |
| gpt_summary.dfy | GptSummary | `prepare_gpt_input`, `ask_gpt`, `main` |
| formatting.dfy | Formatting | `escape_md_v2`, `format_report_md` |
| handlers.dfy | Handlers | `universal_handler` and reply chunking |
| paths.dfy | Paths | `os.path.dirname`, `os.path.join` (POSIX) |
| pipelines.dfy | Pipelines | `run_analysis_from_group`, `run_analysis.py` |
| preprocessing.dfy | Preprocessing | `preprocess_text` |

Where the source loops or changes state, the model does too, and each such
method is proved against a specification function:

- `summarize_clusters`, the report writes, `format_report_md`, the counting, date and topic-writing loops, the handler and the pipelines are methods;
- the handler is a class `Bot` whose fields are the two dictionaries;
- the report file is a class `TextSink` that every write appends to;
- the results directory of the summary is a class `ResultsFolder`.

The file system, the environment, the chat-completion request and the
analysis call of the bot are parameters. Embeddings, HDBSCAN, UMAP, TF-IDF,
NMF and ISO date parsing are abstract functions.

Where a description of the code and the code itself disagree, the model
follows the code:

- The docstring of `generate_report` (`tg_analyst/report_generator.py:5-11`)
  says it skips sections gracefully, but its `os.makedirs`
  (`tg_analyst/report_generator.py:13`) is not guarded by the `try`, so the
  model's `ReportOf` has a raising outcome for it.
- The `\w` and `\s` classes and `lower()` are concrete character predicates
  here rather than abstract ones (see "## Left out" for their range).

## Model

| member | source | states |
|---|---|---|
| Text.Strip | tg_analyst/utils/analyzer.py:147 | `str.strip()`: the result is the infix of the text that starts after the leading white space; it has no white space at either end, and everything cut off on both sides is white space |
| Text.StripOfTrimmed | tg_analyst/utils/preprocessing.py:29 | stripping a text with no white space at either end gives the text back, so stripping is idempotent |
| Text.LowerChar | tg_analyst/utils/preprocessing.py:20 | a lower-cased character is never an upper-case letter, a character that is not one is left alone, and it stays a word character, or white space, exactly when it was one |
| Text.Lower | tg_analyst/utils/preprocessing.py:20 | `lower()` keeps the length, leaves no upper-case letter, leaves every other character in place, and keeps word characters and white space where they were |
| Text.LowerIdempotent | tg_analyst/utils/preprocessing.py:20 | lower-casing twice is lower-casing once |
| Text.SplitOn | tg_bot/utils/formatting.py:7 | `split(c)` always gives at least one piece |
| Text.JoinSplit | tg_bot/utils/formatting.py:7-26 | joining the pieces of `split(c)` with `c` gives back the text |
| Text.SplitJoin | tg_bot/utils/formatting.py:7-26 | splitting a join of separator-free pieces gives back the pieces |
| Text.SplitCount | tg_bot/utils/formatting.py:7 | `split(c)` gives one more piece than there are separators |
| Text.WriteLinesSplit | tg_analyst/utils/analyzer.py:261-265 | text written as `line + "\n"` per line reads back, split at newlines, as the lines followed by one empty piece |
| Text.NatToString | tg_analyst/utils/analyzer.py:265 | `str(n)` is a non-empty run of decimal digits with no leading zero |
| Text.NatToStringRoundTrip | tg_analyst/utils/analyzer.py:265 | the decimal digits of `str(n)` read back as `n` |
| Text.IntToString | tg_analyst/utils/cluster_utils.py:59 | `str(i)` of a negative label is a minus sign followed by the digits of its magnitude |
| Messages.TextsOf | tg_analyst/utils/analyzer.py:53 | at most one text per message, none of them blank after stripping; `TextsOfMembers` and `TextsOfCount` state which are selected |
| Messages.TextsOfMembers | tg_analyst/utils/analyzer.py:53 | a text is selected exactly when some message has it as a string `text` that is not blank after stripping |
| Messages.TextsOfCount | tg_analyst/utils/analyzer.py:53 | exactly one text is selected per message with a non-blank string `text` |
| Messages.TextsOfEmpty | tg_analyst/utils/analyzer.py:53-58 | no text is selected exactly when no message has a non-blank string text |
| Messages.StrippedTexts | tg_analyst/utils/analyzer.py:147 | one text per selected text, each a non-empty infix of it that starts where its leading white space ends, has no white space at either end and is followed only by white space |
| Counting.FirstSeen | tg_analyst/utils/analyzer.py:72 | the counter's keys are exactly the distinct words, each once |
| Counting.Tally | tg_analyst/utils/analyzer.py:72 | `Counter(words).items()`: each distinct word, in order of first occurrence, with its number of occurrences |
| Counting.CountAll | tg_analyst/utils/analyzer.py:72 | the counting loop produces exactly the tally |
| Counting.TallyMember | tg_analyst/utils/analyzer.py:72 | every tally entry is a word that occurs, with its true count, at least one |
| Counting.TallyHas | tg_analyst/utils/analyzer.py:72 | every word that occurs has its entry, with its full count, in the tally |
| Counting.TallyTotal | tg_analyst/utils/analyzer.py:72 | the counts add up to the number of words counted |
| Counting.FirstSeenOrder | tg_analyst/utils/analyzer.py:72 | the counter's keys come in order of first occurrence |
| Counting.KeepRepeated | tg_analyst/utils/analyzer.py:73 | the filtered counter is no longer than the counter |
| Counting.KeepRepeatedMembers | tg_analyst/utils/analyzer.py:73 | an entry is kept exactly when its count is above one |
| Counting.KeepRepeatedOrder | tg_analyst/utils/analyzer.py:73 | the kept entries keep their relative order |
| Counting.SortByCount | tg_analyst/utils/analyzer.py:81 | the sort is a permutation of the entries |
| Counting.SortByCountSorted | tg_analyst/utils/analyzer.py:81 | the sorted counts are non-increasing |
| Counting.SortByCountStable | tg_analyst/utils/analyzer.py:81 | entries with equal counts come out in the order they went in |
| Counting.MostCommonFromCounter | tg_analyst/utils/analyzer.py:81 | `most_common(n)` only returns entries of the counter |
| Counting.MostCommonNoLarger | tg_analyst/utils/analyzer.py:81 | no entry left out by `most_common(n)` has a larger count than an entry it keeps |
| Counting.MostCommonFacts | tg_analyst/utils/analyzer.py:81 | `most_common(n)` has `min(n, size)` entries from the counter, in non-increasing count order with ties in counter order, and no larger entry is left out |
| Counting.MostCommon | tg_analyst/utils/analyzer.py:81 | `most_common(n)`: the first `n` entries of the stable sort by falling count; `MostCommonFacts` states what it gives |
| Frequency.WordRun | tg_analyst/utils/analyzer.py:63 | the token scanner stops at the end of a maximal run of word characters |
| Frequency.Tokens | tg_analyst/utils/analyzer.py:63 | `re.findall(r"\b\w+\b", text)`: every token is a non-empty run of word characters |
| Frequency.MessageWords | tg_analyst/utils/analyzer.py:61-64 | a word is kept exactly when it is a token of the lower-cased text and not a stop word |
| Frequency.TokensExist | tg_analyst/utils/analyzer.py:63 | a text has a token exactly when it holds a word character |
| Frequency.DropStopWords | tg_analyst/utils/analyzer.py:64 | stop-word removal never adds tokens |
| Frequency.DropStopWordsMembers | tg_analyst/utils/analyzer.py:64 | a word survives exactly when it is a token and not a stop word |
| Frequency.WordsOfMembers | tg_analyst/utils/analyzer.py:61-64 | every counted word is a token and not one of the 34 stop words |
| Frequency.FrequencyOf | tg_analyst/utils/analyzer.py:42-90 | the outcome of `analyze_messages`: an escaping exception for a non-object element, the three early returns, an escaping save failure, or the saved table; `NoValidTextMeaning`, `TopWordsFacts` and `SaveFailureRaises` state its properties |
| Frequency.AnalyzeMessages | tg_analyst/utils/analyzer.py:42-90 | the tokenising and counting loops end in the outcome `FrequencyOf` gives, including the escaping exception of a failed save |
| Frequency.NoValidTextMeaning | tg_analyst/utils/analyzer.py:53-58 | "no valid text" is the outcome exactly when every element is an object and none has a non-blank string text, whether or not saving would succeed |
| Frequency.TopWordsFacts | tg_analyst/utils/analyzer.py:64-84 | a table is saved only for a list of objects whose save succeeds. It has 1 to 20 rows. Each row is a non-stop-word token with its true count, at least 2. Counts are non-increasing, ties follow first occurrence, and no repeated word left out occurs more often than a kept one |
| Frequency.SaveFailureRaises | tg_analyst/utils/analyzer.py:80-84 | a failing `makedirs` or `to_csv` escapes exactly in the runs that would have saved a table, and changes no other outcome |
| Clustering.ParamsFor | tg_analyst/utils/analyzer.py:156-164 | fewer than 100 texts give (1, 1), fewer than 300 give (2, 1), otherwise (3, 2) |
| Clustering.ParamsMonotone | tg_analyst/utils/analyzer.py:156-164 | more texts never give smaller parameters |
| Clustering.OneLabelMeaning | tg_analyst/utils/analyzer.py:181 | `len(set(labels)) <= 1` holds exactly when all texts got the same label |
| Clustering.Rows | tg_analyst/utils/analyzer.py:187 | the saved frame has one row per text; its text column is the texts and its cluster column is the labels |
| Clustering.ClusterOf | tg_analyst/utils/analyzer.py:135-213 | the outcome of `cluster_with_embeddings`: too few texts, a caught failure, a discarded labelling, or the saved rows and whether the chart was drawn; `TooFewMeaning`, `SameLabelDiscarded`, `SavedRowsFacts` and `SavedExactly` state its properties |
| Clustering.TooFewMeaning | tg_analyst/utils/analyzer.py:147-153 | clustering is skipped exactly when fewer than ten non-blank texts exist |
| Clustering.SameLabelDiscarded | tg_analyst/utils/analyzer.py:179-184 | a labelling that gives every text the same label is discarded |
| Clustering.SavedRowsFacts | tg_analyst/utils/analyzer.py:147-205 | the CSV has one row per non-blank text, at least ten, in message order: the stripped text with the label HDBSCAN gave it under the parameters for that count. At least two distinct labels occur, the CSV write succeeded, and the chart exists exactly when the projection succeeded |
| Clustering.SavedExactly | tg_analyst/utils/analyzer.py:145-211 | the CSV is saved exactly when every element is an object, ten or more texts remain, HDBSCAN gives one label per text with two distinct labels, and `to_csv` succeeds; a failing `to_csv` is caught |
| Topics.AdjustTopics | tg_analyst/utils/analyzer.py:248-249 | the topic count stays as asked when there are enough documents, otherwise becomes `max(2, rows // 2)` |
| Topics.DefaultNeverAdjusted | tg_analyst/utils/analyzer.py:218-249 | with the default of ten topics and at least ten documents no adjustment happens |
| Topics.AdjustedIsSmaller | tg_analyst/utils/analyzer.py:248-249 | an adjusted count is below the count asked for, once more than two were asked for |
| Topics.TopWords | tg_analyst/utils/analyzer.py:263-264 | a topic's words are a prefix of its ranking of at most `n_words` words, the whole ranking when it is shorter |
| Topics.TopicLines | tg_analyst/utils/analyzer.py:262-265 | one line per topic |
| Topics.WriteTopics | tg_analyst/utils/analyzer.py:261-265 | the write loop produces the topics text |
| Topics.TopicsTextLines | tg_analyst/utils/analyzer.py:261-265 | `nmf_topics.txt` splits into one `Topic <i+1>: <words>` line per topic and a final empty piece |
| Topics.TopicsRoundTrip | tg_analyst/utils/analyzer.py:262-265 | line `i` of the file carries topic `i`'s header and reads back as that topic's words |
| Topics.TopicsText | tg_analyst/utils/analyzer.py:261-265 | the contents of `nmf_topics.txt`, one `Topic <i+1>: <words>` line per topic; `TopicsTextLines` and `TopicsRoundTrip` state how it reads back |
| Topics.TopicWords | tg_analyst/utils/analyzer.py:262-264 | one word list per topic, `n` of them, each from that topic's own ranking |
| Topics.TopicsOf | tg_analyst/utils/analyzer.py:218-272 | the outcome of `topic_modeling_nmf`; `TopicsSkipMeaning`, `TopicsWrittenExactly` and `DefaultTopicsWritten` state its properties |
| Topics.TopicsSkipMeaning | tg_analyst/utils/analyzer.py:229-246 | topic modelling skips for fewer than ten texts, and reports an empty matrix exactly when ten or more texts leave no vocabulary, whether or not the file could be written |
| Topics.DefaultTopicsWritten | tg_analyst/utils/analyzer.py:218-265 | with its defaults NMF is fitted with ten topics and the file holds exactly ten lines, `Topic 1:` to `Topic 10:`, each with its topic's ten best words, or all of them if fewer |
| Topics.TopicsWrittenExactly | tg_analyst/utils/analyzer.py:218-272 | the file is written exactly when every element is an object, ten or more texts remain, the vectorizer keeps a term, NMF succeeds and the file can be written |
| Activity.DateOf | tg_analyst/utils/analyzer.py:287-294 | a message's date: its non-empty string `date` when the parser accepts it; `ExtractDates` states the loop over it |
| Activity.DatesOf | tg_analyst/utils/analyzer.py:287-294 | at most one date per message |
| Activity.ExtractDates | tg_analyst/utils/analyzer.py:287-294 | the date loop succeeds exactly when every element is an object, and then yields each parsable non-empty `date` in message order |
| Activity.InsertByKey | tg_analyst/utils/analyzer.py:302 | insertion adds the entry and keeps the others |
| Activity.SortByKey | tg_analyst/utils/analyzer.py:302 | `sort_index()` is a permutation |
| Activity.InsertByKeyAscending | tg_analyst/utils/analyzer.py:302 | insertion into increasing keys keeps them increasing |
| Activity.SortByKeyAscending | tg_analyst/utils/analyzer.py:302 | `sort_index()` of distinct dates gives increasing dates |
| Activity.InsertByKeySum | tg_analyst/utils/analyzer.py:302 | insertion adds the entry's count to the total |
| Activity.SortByKeySum | tg_analyst/utils/analyzer.py:302 | sorting keeps the total count |
| Activity.TallyDistinctKeys | tg_analyst/utils/analyzer.py:302 | `value_counts()` has one entry per date |
| Activity.DayCounts | tg_analyst/utils/analyzer.py:301-302 | `value_counts().sort_index()` of the dates; `DayCountsFacts` states its properties |
| Activity.DayCountsFacts | tg_analyst/utils/analyzer.py:301-302 | per-day counts are in increasing date order, one true count per date that occurs; they sum to the number of dates and are empty only without dates |
| Activity.MessageActivityOf | tg_analyst/utils/analyzer.py:278-328 | the outcome of `plot_message_activity`; `NoActivityUnreachable` and `DaysPlottedFacts` state its properties |
| Activity.PlotMessageActivity | tg_analyst/utils/analyzer.py:278-328 | the method ends in the outcome the specification function gives |
| Activity.NoActivityUnreachable | tg_analyst/utils/analyzer.py:304-307 | the "empty after grouping" branch is never taken |
| Activity.DaysPlottedFacts | tg_analyst/utils/analyzer.py:284-320 | the chart has one bar per day in date order, with every parsable date counted |
| Activity.SenderOf | tg_analyst/utils/analyzer.py:344 | a message's sender: its `sender_name` unless missing or null, then "Unknown"; `Senders` states it for the column |
| Activity.Senders | tg_analyst/utils/analyzer.py:344 | one sender per message, never null; a present non-null name is kept, and the sender is "Unknown" exactly when the name is missing, null or already "Unknown" |
| Activity.NoSenderMeaning | tg_analyst/utils/analyzer.py:337-343 | the chart is skipped for want of names exactly when the list is empty, holds no object, or no object has a `sender_name`; the call fails exactly when objects are mixed with other values |
| Activity.UserActivityOf | tg_analyst/utils/analyzer.py:330-369 | the outcome of `plot_user_activity`; `NoSenderMeaning`, `NoUserActivityUnreachable` and `UsersPlottedFacts` state its properties |
| Activity.NoUserActivityUnreachable | tg_analyst/utils/analyzer.py:346-349 | the "no user activity" branch is never taken |
| Activity.UsersPlottedFacts | tg_analyst/utils/analyzer.py:337-361 | the chart shows 1 to 15 senders with their true message counts, non-increasing, and no sender left out has more messages than one shown |
| ClusterSummary.ReplaceNewlines | tg_analyst/utils/cluster_utils.py:44 | every newline becomes a space and nothing else changes |
| ClusterSummary.Clean | tg_analyst/utils/cluster_utils.py:44 | a cleaned text holds no newline and is as long as the stripped cell text |
| ClusterSummary.NoiseFree | tg_analyst/utils/cluster_utils.py:35 | no kept row has label -1, and every kept row is an input row |
| ClusterSummary.Members | tg_analyst/utils/cluster_utils.py:41-46 | every grouped text is non-empty and free of newlines |
| ClusterSummary.MembersStep | tg_analyst/utils/cluster_utils.py:41-46 | one more row appends its cleaned text to its label's group, if the text is non-empty |
| ClusterSummary.SortedSet | tg_analyst/utils/cluster_utils.py:58 | `sorted` of the labels holds each label once, strictly increasing |
| ClusterSummary.Bullets | tg_analyst/utils/cluster_utils.py:60-61 | one line per shown message, which is `• ` followed by that message |
| ClusterSummary.Shown | tg_analyst/utils/cluster_utils.py:60 | `messages[:5]`: the first five messages, or all if fewer |
| ClusterSummary.GroupRows | tg_analyst/utils/cluster_utils.py:41-46 | the grouping loop maps exactly the labels with a non-empty cleaned text to their texts in row order |
| ClusterSummary.DropSingletons | tg_analyst/utils/cluster_utils.py:49 | exactly the groups of more than one text remain, unchanged |
| ClusterSummary.WriteBullets | tg_analyst/utils/cluster_utils.py:60-61 | the bullet loop appends the bullet lines |
| ClusterSummary.BlockLines | tg_analyst/utils/cluster_utils.py:59-62 | one group's lines: the header, its bullets and an empty line; `SummaryWrittenFacts` states how they read back |
| ClusterSummary.WriteBlock | tg_analyst/utils/cluster_utils.py:59-62 | one group's block: header, bullets, blank line |
| ClusterSummary.SummaryLines | tg_analyst/utils/cluster_utils.py:57-62 | the blocks of the groups in increasing label order; `SummaryBlankLines` and `SummaryWrittenFacts` state their shape |
| ClusterSummary.WriteGroups | tg_analyst/utils/cluster_utils.py:57-62 | the write loop appends the blocks of the given groups in order |
| ClusterSummary.SummaryOf | tg_analyst/utils/cluster_utils.py:12-69 | the outcome of `summarize_clusters`; `SummaryWrittenExactly` states when it writes |
| ClusterSummary.SummaryOfRows | tg_analyst/utils/cluster_utils.py:35-62 | the outcome once the table is read; `RowsWrittenExactly`, `NothingWrittenWithoutGroups` and `SummaryWrittenFacts` state its properties |
| ClusterSummary.SummarizeClusters | tg_analyst/utils/cluster_utils.py:12-69 | `summarize_clusters` ends in the outcome `SummaryOf` gives, a failed write included |
| ClusterSummary.SummarizeRows | tg_analyst/utils/cluster_utils.py:35-69 | from the noise filter on, with a failed write caught |
| ClusterSummary.SummarizeKept | tg_analyst/utils/cluster_utils.py:41-69 | from the grouping loop on, with a failed write caught |
| ClusterSummary.MembersNoiseFree | tg_analyst/utils/cluster_utils.py:35 | dropping the noise rows leaves every other label's group unchanged |
| ClusterSummary.MembersOrigin | tg_analyst/utils/cluster_utils.py:41-46 | every grouped text is the cleaned text of a row with that label |
| ClusterSummary.SummaryIdsFacts | tg_analyst/utils/cluster_utils.py:35-58 | a block is written for a label exactly when it is not -1 and has at least two non-empty texts; labels strictly increase |
| ClusterSummary.SummaryBlankLines | tg_analyst/utils/cluster_utils.py:57-62 | the summary has exactly one blank line per group |
| ClusterSummary.SummaryWrittenFacts | tg_analyst/utils/cluster_utils.py:35-62 | the file reads back as the summarised groups' blocks in increasing label order. Each block is a header with the full group size, at most five bullets and one blank line |
| ClusterSummary.NothingWrittenWithoutGroups | tg_analyst/utils/cluster_utils.py:49-54 | nothing is written when no label other than -1 has two or more texts |
| ClusterSummary.RowsWrittenExactly | tg_analyst/utils/cluster_utils.py:35-62 | a table with both columns gets a file exactly when some non-noise label has at least two non-empty texts |
| ClusterSummary.GroupMeansWritten | tg_analyst/utils/cluster_utils.py:49-62 | any label other than -1 with two non-empty texts leads to a written summary |
| ClusterSummary.SummaryWrittenExactly | tg_analyst/utils/cluster_utils.py:22-69 | a missing CSV or column writes nothing and raises nothing; a file is written exactly for a readable table with both columns and a group of two whose write succeeds; a failing write is caught and reported |
| Report.TopicsRead | tg_analyst/report_generator.py:17-23 | a readable file gives its stripped contents, with no white space at either end; a missing or unreadable file gives "" |
| Report.UnreadableLikeMissing | tg_analyst/report_generator.py:17-23 | a topics file that cannot be read gives the same report as a missing one, with the topics placeholder |
| Report.ReportText | tg_analyst/report_generator.py:25-66 | the text of `report.md`; `ReportTextLines`, `ChartsShown` and `ReportRoundTrip` state its properties |
| Report.ReportOf | tg_analyst/report_generator.py:4-73 | the outcome of `generate_report`: raised by `os.makedirs`, caught when opening fails, or the report text when every write succeeds; `GenerateReport` ends in it |
| Report.TextSink.constructor | tg_analyst/report_generator.py:26 | opening for writing starts an empty file |
| Report.TextSink.Write | tg_analyst/report_generator.py:27 | every write appends its text |
| Report.WriteSection | tg_analyst/report_generator.py:29-35 | a chart section appends heading, image or placeholder, and a blank line |
| Report.WriteTopicsSection | tg_analyst/report_generator.py:37-42 | the topics section appends heading and fenced block or placeholder |
| Report.GenerateReport | tg_analyst/report_generator.py:4-73 | raises only when creating the directory fails, writes nothing when opening fails, otherwise (the writes succeeding) writes the report text |
| Report.WriteReport | tg_analyst/report_generator.py:25-66 | the writes inside the `with` block produce the report text |
| Report.ReportTextIsLines | tg_analyst/report_generator.py:27-66 | the report is its lines, each followed by a newline |
| Report.ReportTextLines | tg_analyst/report_generator.py:27-66 | read back line by line, the report is its lines and one final empty piece |
| Report.ChartsShown | tg_analyst/report_generator.py:31-66 | each chart's image line appears exactly when its file exists |
| Report.TopicsBlockRoundTrip | tg_analyst/report_generator.py:39-42 | the topics block gives back the topics text |
| Report.ReportRoundTrip | tg_analyst/report_generator.py:17-66 | a reader of the report learns exactly which charts exist and the stripped topics text |
| Report.EmptyDirectoryReport | tg_analyst/report_generator.py:27-66 | an empty directory gives the title, the five headings and the five placeholders |
| GptSummary.Contents | tg_analyst/gpt_summary.py:33-52 | a missing file contributes "" |
| GptSummary.Bodies | tg_analyst/gpt_summary.py:33-52 | the four file bodies of the prompt; `BodiesMeaning` states them |
| GptSummary.Render | tg_analyst/gpt_summary.py:54-68 | the filled prompt template; `RenderParse` states how it reads back |
| GptSummary.Cap | tg_analyst/gpt_summary.py:70-72 | the cap is a prefix of at most 12 000 characters, the whole text when it fits |
| GptSummary.After | tg_analyst/gpt_summary.py:54-68 | what follows a prefix is the rest of the text |
| GptSummary.PrepareGptInput | tg_analyst/gpt_summary.py:16-74 | the prompt of `prepare_gpt_input`; `InputCapped` and `ShortInputParses` state its properties |
| GptSummary.InputCapped | tg_analyst/gpt_summary.py:54-74 | the prompt never exceeds 12 000 characters. It is the filled template when that fits, and the template's first 12 000 characters otherwise |
| GptSummary.RenderParse | tg_analyst/gpt_summary.py:54-68 | the filled template holds the four bodies in order between its fixed texts |
| GptSummary.ShortInputParses | tg_analyst/gpt_summary.py:27-68 | an uncut prompt gives back what each file contributed |
| GptSummary.BodiesMeaning | tg_analyst/gpt_summary.py:33-52 | each body is its file's contents or "" when missing; the cluster summaries come after one newline, only when their file exists |
| GptSummary.ClustersCsvIgnored | tg_analyst/gpt_summary.py:28 | `hdbscan_clusters.csv` never changes the prompt |
| GptSummary.AskGpt | tg_analyst/gpt_summary.py:78-118 | the key sentinel without a key, the request sentinel when it raises, otherwise the reply; `NoKeyNoRequest` and `FailureWritesWarning` state its properties |
| GptSummary.NoKeyNoRequest | tg_analyst/gpt_summary.py:82-86 | without a key the answer is "API key not found." whatever the request would return |
| GptSummary.Unusable | tg_analyst/gpt_summary.py:137 | the answer is empty or strips and lower-cases to a sentinel; `SentinelsUnusable` and `AnswerWritten` state its properties |
| GptSummary.SummaryText | tg_analyst/gpt_summary.py:137-144 | an unusable answer is replaced by the warning line; any other is written verbatim |
| GptSummary.SentinelsStripped | tg_analyst/gpt_summary.py:137 | the sentinels have no white space at either end |
| GptSummary.KeyMissingLower | tg_analyst/gpt_summary.py:86 | the key sentinel lower-cases to the string compared with |
| GptSummary.RequestFailedLower | tg_analyst/gpt_summary.py:118 | the request sentinel lower-cases to the string compared with |
| GptSummary.SentinelsUnusable | tg_analyst/gpt_summary.py:86-137 | both sentinels of `ask_gpt` are recognised by `main` |
| GptSummary.FinalAnalysis | tg_analyst/gpt_summary.py:129-144 | the contents `main` writes to `final_analysis_gpt.txt`; `FailureWritesWarning` and `AnswerWritten` state them |
| GptSummary.FailureWritesWarning | tg_analyst/gpt_summary.py:82-141 | a missing key or a raising request ends in the warning line |
| GptSummary.AnswerWritten | tg_analyst/gpt_summary.py:137-144 | the model's answer is written unless it is empty or reads as a sentinel |
| GptSummary.ResultsFolder.constructor | tg_analyst/gpt_summary.py:125-127 | the folder holds the given files |
| GptSummary.ResultsFolder.WriteFinalAnalysis | tg_analyst/gpt_summary.py:121-147 | `main` raises exactly when creating or opening the output fails, and then changes nothing; otherwise it changes exactly `final_analysis_gpt.txt`, to the answer or the warning |
| Formatting.EscapeMdV2 | tg_bot/utils/formatting.py:3-4 | escaping only lengthens; empty stays empty; the result never starts with an unescaped special |
| Formatting.Unescape | tg_bot/utils/formatting.py:3-4 | the inverse of `escape_md_v2`: drops each backslash before a special character; `UnescapeEscape` states the round trip |
| Formatting.UnescapeEscape | tg_bot/utils/formatting.py:3-4 | dropping the inserted backslashes recovers the input |
| Formatting.EscapeLength | tg_bot/utils/formatting.py:4 | the length grows by exactly the number of special characters |
| Formatting.SpecialsEscaped | tg_bot/utils/formatting.py:4 | every special character of the result has a backslash before it |
| Formatting.EscapeAddsOnlyBackslash | tg_bot/utils/formatting.py:4 | escaping adds no character but the backslash |
| Formatting.DigitRun | tg_bot/utils/formatting.py:12 | the digit scan stops at the end of the leading digits |
| Formatting.IsNumberedHeading | tg_bot/utils/formatting.py:12 | `re.match(r"^\d+\.", line)`; `NumberedHeadingMeaning` states it |
| Formatting.NumberedHeadingMeaning | tg_bot/utils/formatting.py:12 | the heading test holds exactly when some non-empty digit prefix is followed by a dot |
| Formatting.FormatStripped | tg_bot/utils/formatting.py:12-24 | the output lines of one stripped line: a bold heading and an empty line, a marked bullet, an empty line, or the escaped text; `DecodeFormatStripped` states how they read back |
| Formatting.FormatLine | tg_bot/utils/formatting.py:11-24 | a line is stripped and then formatted |
| Formatting.FormatReport | tg_bot/utils/formatting.py:6-26 | `format_report_md`; `ReportLines` and `ReportRoundTrip` state its properties |
| Formatting.FormatReportMd | tg_bot/utils/formatting.py:6-26 | the loop produces the formatted report |
| Formatting.AppendFormatted | tg_bot/utils/formatting.py:11-24 | one pass appends the formatted lines of the stripped line |
| Formatting.FlatMapSnoc | tg_bot/utils/formatting.py:10-24 | one more input line appends its output |
| Formatting.FormatAllLength | tg_bot/utils/formatting.py:7-26 | one output line per input line, plus one per numbered heading |
| Formatting.ReportLines | tg_bot/utils/formatting.py:7-26 | the output's lines are the formatted lines, input count plus heading count |
| Formatting.DecodeFormatStripped | tg_bot/utils/formatting.py:12-24 | each line's output decodes to the stripped line; only a heading's output reads as a heading |
| Formatting.DecodeFormatAll | tg_bot/utils/formatting.py:10-24 | decoding the formatted lines gives the stripped input lines |
| Formatting.ReportRoundTrip | tg_bot/utils/formatting.py:6-26 | reading a formatted report back gives the stripped lines of the original |
| Formatting.StripAll | tg_bot/utils/formatting.py:11 | one stripped line per line |
| Handlers.Chunks | tg_bot/handlers.py:87 | the 4000-character slices of the content; `ChunksConcat`, `ChunkSizes` and `ChunkCount` state them |
| Handlers.SayAll | tg_bot/handlers.py:88-89 | one reply per chunk, in order |
| Handlers.ChunksConcat | tg_bot/handlers.py:87 | the chunks put together give the content |
| Handlers.ChunkSizes | tg_bot/handlers.py:87 | every chunk but the last has exactly 4000 characters, the last 1 to 4000 |
| Handlers.ChunkCount | tg_bot/handlers.py:87 | the number of chunks is the fewest 4000-character pieces that hold the content |
| Handlers.MenuStep | tg_bot/handlers.py:46-75 | the button branch of `universal_handler`; `MenuFramed`, `MenuNeedsReady`, `RestartForgetsUser` and `ChartButtonsReadOnly` state its properties |
| Handlers.CachedStep | tg_bot/handlers.py:80-97 | the cache-hit branch; `CachedFramed` and `CacheHitSkipsAnalysis` state its properties |
| Handlers.FreshStep | tg_bot/handlers.py:99-137 | the cache-miss branch; `FreshFramed`, `FreshReportCached` and `FreshFailureKeepsState` state its properties |
| Handlers.Handle | tg_bot/handlers.py:41-140 | `universal_handler` on one message; `HandleFrame` and `OtherTextGreets` state its properties |
| Handlers.MenuFramed | tg_bot/handlers.py:46-75 | a menu button changes at most the sender's session |
| Handlers.CachedFramed | tg_bot/handlers.py:80-97 | a cache hit changes at most the sender's session |
| Handlers.FreshFramed | tg_bot/handlers.py:99-137 | a cache miss changes at most the sender's session and the link's cache entry |
| Handlers.HandleFrame | tg_bot/handlers.py:41-140 | only the sender's session and the stripped text's cache entry change, sessions stay `ready`; a message without text raises and changes nothing |
| Handlers.MenuNeedsReady | tg_bot/handlers.py:46-52 | a button from a user without a `ready` session gets the link prompt and changes nothing |
| Handlers.RestartForgetsUser | tg_bot/handlers.py:70-73 | restart removes only the sender's session and keeps the cache |
| Handlers.ChartButtonsReadOnly | tg_bot/handlers.py:54-68 | the chart buttons change nothing and send the chart exactly when its path is set and exists |
| Handlers.OtherTextGreets | tg_bot/handlers.py:78-140 | text that is neither a button nor a link gets the greeting and changes nothing |
| Handlers.CacheHitSkipsAnalysis | tg_bot/handlers.py:80-97 | a cache hit does not run the analysis; a readable report is sent unformatted and leaves the user `ready` with the cached paths |
| Handlers.FreshReportCached | tg_bot/handlers.py:99-137 | a report found for a new link caches the stripped link first. Only a readable report makes the user `ready`; a failed read keeps the cache entry and sends the error line |
| Handlers.FreshFailureKeepsState | tg_bot/handlers.py:104-137 | a missing report or a raising analysis changes neither dictionary |
| Handlers.Bot.constructor | tg_bot/handlers.py:30-33 | both dictionaries start empty |
| Handlers.Bot.AnswerChunks | tg_bot/handlers.py:120-122 | the chunk loop sends one reply per chunk |
| Handlers.Bot.AnswerMenu | tg_bot/handlers.py:46-75 | the button branch updates the dictionaries as the step function says |
| Handlers.Bot.AnswerCached | tg_bot/handlers.py:80-97 | the cache-hit branch updates the dictionaries as the step function says |
| Handlers.Bot.AnswerFresh | tg_bot/handlers.py:99-137 | the cache-miss branch updates the dictionaries as the step function says and never raises |
| Handlers.Bot.UniversalHandler | tg_bot/handlers.py:41-140 | the handler's new dictionaries, replies and escaping exception are those of `Handle` |
| Paths.LastSlashEnd | tg_bot/run_analytics.py:38 | the head of a path ends at its last slash |
| Paths.TrimSlashes | tg_bot/run_analytics.py:38 | only trailing slashes are removed |
| Paths.JoinPath | tg_bot/run_analytics.py:39-41 | joining an absolute path gives that path |
| Paths.JoinUnder | tg_bot/run_analytics.py:39-41 | a relative name joins under a directory with one slash |
| Paths.Dirname | tg_bot/run_analytics.py:38 | POSIX `os.path.dirname`; `LastSlashEnd`, `TrimSlashes` and `DirnameOfChild` state its properties |
| Paths.DirnameOfChild | tg_bot/run_analytics.py:38 | the directory of an entry directly inside a directory is that directory |
| Paths.ResultsDirFor | tg_bot/run_analytics.py:38-39 | the results directory beside the data file's directory; `ResultsBesideData` states it |
| Paths.ResultsBesideData | tg_bot/run_analytics.py:38-39 | for `base/sub/file.json` the results directory is `base/results` |
| Preprocessing.NonSpaceRun | tg_analyst/utils/preprocessing.py:23 | a URL match runs to the next white space |
| Preprocessing.SpaceRun | tg_analyst/utils/preprocessing.py:29 | a white-space run is maximal |
| Preprocessing.RemoveSymbols | tg_analyst/utils/preprocessing.py:26 | only word characters and white space remain |
| Preprocessing.RemoveUrls | tg_analyst/utils/preprocessing.py:23 | every match that starts at `http` or `www.` and runs to the next white space is removed; `NoUrlRemains`, `RemoveUrlsIdentity`, `RemoveUrlsIdempotent` and `RemoveUrlsDeletesOnly` state its properties |
| Preprocessing.CollapseRuns | tg_analyst/utils/preprocessing.py:29 | `re.sub(r"\s+", " ", t)`; `CollapseKeepsNonSpace` and `CollapseIsJoinedWords` state its properties |
| Preprocessing.PreprocessText | tg_analyst/utils/preprocessing.py:17-31 | `preprocess_text`; `PreprocessIsJoinedWords`, `PreprocessTextShape` and `PreprocessTextDeletesOnly` state its properties |
| Preprocessing.UrlLeavesBlank | tg_analyst/utils/preprocessing.py:23 | after a URL the result is empty or resumes with white space |
| Preprocessing.NonSpacePrefixCopied | tg_analyst/utils/preprocessing.py:23 | a non-space prefix of the result is copied from the input |
| Preprocessing.NoUrlRemains | tg_analyst/utils/preprocessing.py:23 | no `http` or `www.` match starts anywhere in the result |
| Preprocessing.RemoveUrlsIdentity | tg_analyst/utils/preprocessing.py:23 | text without URLs is left unchanged |
| Preprocessing.RemoveUrlsIdempotent | tg_analyst/utils/preprocessing.py:23 | removing URLs twice is removing them once |
| Preprocessing.RemoveUrlsDeletesOnly | tg_analyst/utils/preprocessing.py:23 | URL removal only deletes characters |
| Preprocessing.CollapseKeepsNonSpace | tg_analyst/utils/preprocessing.py:29 | collapsing white space keeps every other character, in order |
| Preprocessing.StripKeepsNonSpace | tg_analyst/utils/preprocessing.py:29 | stripping removes only white space |
| Preprocessing.SymbolsLeaveWordChars | tg_analyst/utils/preprocessing.py:26 | the non-space characters left are exactly the word characters |
| Preprocessing.CollapseIsJoinedWords | tg_analyst/utils/preprocessing.py:29 | `re.sub(r"\s+", " ", t)` is the words joined by single spaces, with one space kept at either white-space end |
| Preprocessing.WordsOfKept | tg_analyst/utils/preprocessing.py:26-29 | after symbol removal every word is made of word characters |
| Preprocessing.JoinedWordsShape | tg_analyst/utils/preprocessing.py:29 | such words joined by single spaces are normalised |
| Preprocessing.PreprocessIsJoinedWords | tg_analyst/utils/preprocessing.py:17-31 | `preprocess_text` of a string is `" ".join(t.split())` of the lower-cased text without URLs and symbols |
| Preprocessing.PreprocessTextShape | tg_analyst/utils/preprocessing.py:17-31 | only word characters and single spaces remain, with no space at either end; a non-string gives "" |
| Preprocessing.PreprocessTextDeletesOnly | tg_analyst/utils/preprocessing.py:20-29 | the non-space output is the word characters left after URL removal, obtained from the lower-cased input by deletion alone |
| Pipelines.RanUntil | tg_bot/run_analytics.py:25-51 | no more calls run than there are |
| Pipelines.RanUntilMeaning | tg_bot/run_analytics.py:25-51 | the calls made are those before the first raising one, and that one |
| Pipelines.RanUntilAt | tg_bot/run_analytics.py:25-51 | a count with those properties is the count of calls made |
| Pipelines.NoneRaiseConcat | tg_bot/run_analytics.py:25-51 | no call of two runs raises exactly when no call of either does |
| Pipelines.RanUntilConcat | tg_bot/run_analytics.py:25-51 | a run over two parts stops in the first unless all of it gets through |
| Pipelines.AnalyticsRun | tg_bot/run_analytics.py:25-51 | the calls `run_analysis_from_group` makes; `AnalyticsStopsAtRaise`, `LastReached` and `AnalyticsAlwaysAsksGpt` state its properties |
| Pipelines.AnalyzerCalls | tg_bot/run_analytics.py:32-36 | frequency, message activity, user activity, topics, clustering |
| Pipelines.ResultCalls | tg_bot/run_analytics.py:38-46 | cluster summary, report, GPT summary |
| Pipelines.AnalyticsCalls | tg_bot/run_analytics.py:32-46 | the eight stages in the fixed order |
| Pipelines.AttemptNext | tg_bot/run_analytics.py:32-46 | a raising call ends the run there; otherwise the run goes on |
| Pipelines.RunAnalyzers | tg_bot/run_analytics.py:32-36 | the five analyses run up to and including the first raising one |
| Pipelines.RunResultStages | tg_bot/run_analytics.py:38-46 | the three result stages run up to and including the first raising one |
| Pipelines.AnalyticsRunInTwo | tg_bot/run_analytics.py:25-46 | the run is the analyses' run followed, if none raised, by the result stages' run |
| Pipelines.RunAnalysisFromGroup | tg_bot/run_analytics.py:8-51 | the calls made are the fixed order cut after the first raise; the success line is logged exactly for a loadable file with no raise, and no exception escapes |
| Pipelines.AnalyticsStopsAtRaise | tg_bot/run_analytics.py:25-51 | nothing runs for empty or non-list data; otherwise a prefix of the order runs, ending at the raising stage if it stopped early |
| Pipelines.LastReached | tg_bot/run_analytics.py:25-51 | the last call is made exactly when none before it raises |
| Pipelines.AnalyticsAlwaysAsksGpt | tg_bot/run_analytics.py:45-46 | the GPT summary is asked for exactly when the data loads and the seven stages before it do not raise |
| Pipelines.AnalyticsResultsDir | tg_bot/run_analytics.py:38-46 | for `base/sub/file.json` report and summary go to `base/results` |
| Pipelines.FullScript | tg_analyst/run_analysis.py:90-135 | the calls past the gate; `FullScriptOrder` and `ScriptStageOrder` state them |
| Pipelines.ScriptRun | tg_analyst/run_analysis.py:47-140 | the calls and end of the script; `ScriptLoadGate`, `ScriptTooFew` and `ShippedScriptSkipsGpt` state its properties |
| Pipelines.RunAnalysisScript | tg_analyst/run_analysis.py:47-140 | the script's calls and its end are those of `ScriptRun` |
| Pipelines.RunPastGate | tg_analyst/run_analysis.py:90-135 | past the gate the script makes the calls of `FullScript`: every guarded stage, the cluster summary only if clustering did not raise, the GPT summary only if asked for |
| Pipelines.ScriptLoadGate | tg_analyst/run_analysis.py:55-82 | nothing runs without a file holding a non-empty list; otherwise frequency runs first |
| Pipelines.ScriptCountsRecords | tg_analyst/run_analysis.py:68-88 | the gate counts records, text or not |
| Pipelines.ScriptTooFew | tg_analyst/run_analysis.py:85-88 | below ten records only the frequencies run, not even the report |
| Pipelines.StagesConcat | tg_analyst/run_analysis.py:91-135 | stages of consecutive runs follow one another |
| Pipelines.FullScriptOrder | tg_analyst/run_analysis.py:91-135 | past the gate the stages follow the script's order whatever each does. The cluster summary runs exactly when clustering did not raise, the GPT summary exactly when asked for |
| Pipelines.ScriptStageOrder | tg_analyst/run_analysis.py:91-135 | a finished run makes the report before clustering and the cluster summary only when clustering did not raise |
| Pipelines.ShippedScriptSkipsGpt | tg_analyst/run_analysis.py:43-135 | as shipped, with `USE_GPT = False`, the GPT summary never runs |

## Left out

- Plotting (matplotlib, seaborn) and `plot_top_words`: no chart image is modelled. Only whether a chart file exists matters, to the report and the bot.
- Logging and `print` output: neither affects any result.
- Embeddings, HDBSCAN, UMAP, TF-IDF and NMF are abstract functions. NMF's weights and the `argsort` tie order are replaced by a given ranking per topic.
- The `datetime.fromisoformat` call is an abstract partial parser.
- `load_json`, the download and the network code of the bot (`downloader.py`, `logic.py`, `bot_main.py`) are not part of this model. The loaded document is a parameter.
- The configuration modules `config.py` and `nltk_setup.py` are not part of this model.
- The environment variables (`TGA_OUTPUT_DIR`, `TGANALYST_BASE_DIR`) and the base directories are parameters.
- The OpenAI client and its request are one abstract call from the prompt to a reply. The fixed system message and question text belong to that call.
- Reading an existing file is taken to succeed in `prepare_gpt_input`; a read error there is not modelled.
- Reply delivery in the bot (aiogram, keyboards, MarkdownV2 rejection by Telegram) is not modelled. Replies are a list in sending order, and the handler deals with one message at a time.
- The bot's analysis call (the hard-coded fake at `tg_bot/handlers.py:36-38`) is a parameter.
- Text.Lower: covers ASCII and Russian Cyrillic letters only. Other characters are left unchanged, where Python's Unicode `lower()` would map them.
- Text.IsWordChar and Text.IsSpace: `\w` is limited to ASCII letters, digits, `_` and U+0400..U+045F. `\s` is Python's white-space list.
- Frequency.Tokens: tokens follow the `\w` class above, not Python's full Unicode `\w`.
- Activity.UsersPlottedFacts: does not claim an order among senders with equal counts, because pandas `value_counts` does not fix one. Every sender value that is not a string or null is merged into one.
- ClusterSummary.Clean: an empty or null `text` cell reads back as "nan", as pandas does. Other type conversions by `read_csv` are not modelled.
- Pipelines.RunAnalysisScript: stage calls record their path arguments only. `n_topics` and `n_words` are left out, and the script's `exit` calls are its end states.
- Pipelines.RunAnalysisFromGroup: what each stage does is an abstract outcome (success, skip or raise). The outcome `completed` stands for the success log line.
- Text.IsDigit, Formatting.DigitRun and Formatting.NumberedHeadingMeaning: `\d` is taken as the ASCII digits `0`-`9`. Python's `\d` also matches other Unicode decimal digits, such as Arabic-Indic ones, so a line starting with those and a dot is a heading in the source but not in the model.
- Frequency.FrequencyOf: a failing `savefig` in `plot_top_words` also escapes; plotting is not modelled, so only the failure of `os.makedirs` or `to_csv` (`saveOk`) is.
- Clustering.ClusterOf, Topics.TopicsOf and ClusterSummary.SummaryOf: a write that fails part-way is caught, but the partial file it leaves is not modelled; the outcome only says that the call failed.
- Report.ReportOf and Report.GenerateReport: the `f.write` calls are assumed to succeed once `open` has; a write failing part-way is caught by the same `except` and leaves a partial `report.md`, which is not modelled.
- GptSummary.ResultsFolder.WriteFinalAnalysis: `openOk` covers `os.makedirs` and `open`; a `write` that fails after `open` has emptied the file is not modelled.
- Activity.UserActivityOf: a list that mixes objects with other values is read as a failure of `pd.DataFrame`; the columns pandas would build from such a list are not modelled.
