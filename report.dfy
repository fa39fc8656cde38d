/** `generate_report`: the Markdown report assembled from whatever the
    analysers left in the results directory.  It has a title and five
    sections in a fixed order; each section shows its chart (or, for the
    topics, the stripped topics text in a fenced block) when it is there and
    a placeholder line otherwise. */
module Report {
  import opened Text

  /** What reading `nmf_topics.txt` gives. */
  datatype TopicsFile = NoTopicsFile | UnreadableTopics | TopicsFileText(s: string)

  /** The files of the results directory the report looks at. */
  datatype ResultsDir = ResultsDir(
    topWordsPng: bool, topics: TopicsFile, umapPng: bool,
    messageActivityPng: bool, userActivityPng: bool)

  datatype ReportOutcome =
    | ReportRaised                  // `os.makedirs` failed; it is outside the `try`
    | ReportNotWritten              // opening `report.md` failed; logged
    | ReportWritten(text: string)   // the contents of `report.md`

  /** A text without a newline: one line of the report. */
  type Line = s: string | '\n' !in s

  const Title: Line := "# \U{1F9E0} Chat Topic Report"
  const FrequencyHeading: Line := "## \U{1F539} Word Frequency Analysis"
  const TopicsHeading: Line := "## \U{1F539} Topics by NMF"
  const ClustersHeading: Line := "## \U{1F539} Clusters by HDBSCAN"
  const MessageHeading: Line := "## \U{1F539} Message Activity"
  const UserHeading: Line := "## \U{1F539} User Activity"

  const FrequencyImage: Line := "![Top Words](top_words.png)"
  const ClustersImage: Line := "![Cluster Map](hdbscan_umap.png)"
  const MessageImage: Line := "![Message Activity](message_activity.png)"
  const UserImage: Line := "![User Activity](user_activity.png)"

  const FrequencyPlaceholder: Line := "_No word frequency chart available._"
  const TopicsPlaceholder: Line := "_NMF topics not available._"
  const ClustersPlaceholder: Line := "_No cluster visualization available._"
  const MessagePlaceholder: Line := "_Message activity chart not available._"
  const UserPlaceholder: Line := "_User activity chart not available._"

  const Fence: Line := "```"

  /** `nmf_topics`: the stripped file contents, or "" when the file is
      missing or cannot be read. */
  function TopicsRead(t: TopicsFile): (r: string)
    ensures r == [] || (!IsSpace(r[0]) && !IsSpace(r[|r| - 1]))
    ensures t.TopicsFileText? ==> r == Strip(t.s)
    ensures !t.TopicsFileText? ==> r == ""
  {
    match t
    case TopicsFileText(s) => Strip(s)
    case _ => ""
  }

  function Choose(present: bool, image: string, placeholder: string): string {
    if present then image else placeholder
  }

  /** A chart section: heading, image or placeholder, blank line. */
  function SectionText(heading: string, line: string): string {
    heading + "\n" + line + "\n\n"
  }

  /** The body of the topics section. */
  function TopicsBody(topics: string): string {
    if topics != "" then Fence + "\n" + topics + "\n" + Fence + "\n\n" else TopicsPlaceholder + "\n\n"
  }

  /** The text `generate_report` writes for `dir`. */
  function ReportText(dir: ResultsDir): string
  {
    Title + "\n\n"
    + SectionText(FrequencyHeading, Choose(dir.topWordsPng, FrequencyImage, FrequencyPlaceholder))
    + (TopicsHeading + "\n" + TopicsBody(TopicsRead(dir.topics)))
    + SectionText(ClustersHeading, Choose(dir.umapPng, ClustersImage, ClustersPlaceholder))
    + SectionText(MessageHeading, Choose(dir.messageActivityPng, MessageImage, MessagePlaceholder))
    + SectionText(UserHeading, Choose(dir.userActivityPng, UserImage, UserPlaceholder))
  }

  /** `generate_report(results_dir)`, given whether creating the directory
      and opening the report for writing succeed. */
  function ReportOf(dir: ResultsDir, makedirsOk: bool, openOk: bool): ReportOutcome
  {
    if !makedirsOk then ReportRaised
    else if !openOk then ReportNotWritten
    else ReportWritten(ReportText(dir))
  }

  /** The open report file: every write appends. */
  class TextSink {
    var text: string

    constructor ()
      ensures text == ""
    {
      text := "";
    }

    method Write(s: string)
      modifies this
      ensures text == old(text) + s
    {
      text := text + s;
    }
  }

  /** Writes one chart section. */
  method WriteSection(f: TextSink, heading: string, present: bool, image: string, placeholder: string)
    modifies f
    ensures f.text == old(f.text) + SectionText(heading, Choose(present, image, placeholder))
  {
    f.Write(heading + "\n");
    if present {
      f.Write(image + "\n\n");
    } else {
      f.Write(placeholder + "\n\n");
    }
  }

  /** Writes the topics section. */
  method WriteTopicsSection(f: TextSink, topics: string)
    modifies f
    ensures f.text == old(f.text) + (TopicsHeading + "\n" + TopicsBody(topics))
  {
    f.Write(TopicsHeading + "\n");
    if topics != "" {
      f.Write(Fence + "\n" + topics + "\n" + Fence + "\n\n");
    } else {
      f.Write(TopicsPlaceholder + "\n\n");
    }
  }

  /** The body of `generate_report`. */
  method GenerateReport(dir: ResultsDir, makedirsOk: bool, openOk: bool) returns (outcome: ReportOutcome)
    ensures outcome == ReportOf(dir, makedirsOk, openOk)
  {
    if !makedirsOk {
      return ReportRaised;
    }
    var nmfTopics := "";
    match dir.topics {
      case TopicsFileText(s) => nmfTopics := Strip(s);
      case _ =>
    }
    assert nmfTopics == TopicsRead(dir.topics);
    if !openOk {
      return ReportNotWritten;
    }
    var text := WriteReport(dir, nmfTopics);
    outcome := ReportWritten(text);
  }

  /** The writes inside `with open(report_path, "w")`. */
  method WriteReport(dir: ResultsDir, nmfTopics: string) returns (text: string)
    requires nmfTopics == TopicsRead(dir.topics)
    ensures text == ReportText(dir)
  {
    var f := new TextSink();
    f.Write(Title + "\n\n");
    assert f.text == Title + "\n\n";
    WriteSection(f, FrequencyHeading, dir.topWordsPng, FrequencyImage, FrequencyPlaceholder);
    WriteTopicsSection(f, nmfTopics);
    WriteSection(f, ClustersHeading, dir.umapPng, ClustersImage, ClustersPlaceholder);
    WriteSection(f, MessageHeading, dir.messageActivityPng, MessageImage, MessagePlaceholder);
    WriteSection(f, UserHeading, dir.userActivityPng, UserImage, UserPlaceholder);
    text := f.text;
  }

  /** A topics file that cannot be read gives the same report as a missing
      one: the read error is only logged. */
  lemma UnreadableLikeMissing(dir: ResultsDir)
    ensures ReportText(dir.(topics := UnreadableTopics)) == ReportText(dir.(topics := NoTopicsFile))
    ensures TopicsLines(TopicsRead(UnreadableTopics)) == [TopicsHeading, TopicsPlaceholder, ""]
  {
  }

  /** The lines of a chart section. */
  function SectionLines(heading: string, line: string): seq<string> {
    [heading, line, ""]
  }

  /** The lines of the topics section: the topics text between fences, one
      line per line of the text, or the placeholder. */
  function TopicsLines(topics: string): seq<string> {
    [TopicsHeading]
    + (if topics != "" then [Fence] + SplitOn(topics, '\n') + [Fence] else [TopicsPlaceholder])
    + [""]
  }

  /** The lines of the report, each written with its newline. */
  function BodyLines(dir: ResultsDir): seq<string>
  {
    [Title, ""]
    + SectionLines(FrequencyHeading, Choose(dir.topWordsPng, FrequencyImage, FrequencyPlaceholder))
    + TopicsLines(TopicsRead(dir.topics))
    + SectionLines(ClustersHeading, Choose(dir.umapPng, ClustersImage, ClustersPlaceholder))
    + SectionLines(MessageHeading, Choose(dir.messageActivityPng, MessageImage, MessagePlaceholder))
    + SectionLines(UserHeading, Choose(dir.userActivityPng, UserImage, UserPlaceholder))
  }

  lemma WriteTwo(a: string, b: string)
    ensures WriteLines([a, b]) == a + "\n" + b + "\n"
  {
    WriteLinesSnoc([], a);
    assert [] + [a] == [a];
    WriteLinesSnoc([a], b);
    assert [a] + [b] == [a, b];
  }

  lemma SectionLinesText(heading: string, line: string)
    ensures WriteLines(SectionLines(heading, line)) == SectionText(heading, line)
  {
    WriteTwo(heading, line);
    WriteLinesSnoc([heading, line], "");
    assert [heading, line] + [""] == SectionLines(heading, line);
  }

  lemma TitleLinesText()
    ensures WriteLines([Title, ""]) == Title + "\n\n"
  {
    WriteTwo(Title, "");
  }

  /** The written lines of a text split at its newlines are the text and a
      final newline. */
  lemma WriteSplitLines(t: string)
    ensures WriteLines(SplitOn(t, '\n')) == t + "\n"
  {
    var ps := SplitOn(t, '\n');
    WriteLinesIsJoin(ps);
    JoinSnoc(ps, "", "\n");
    JoinSplit(t, '\n');
  }

  lemma TopicsLinesText(topics: string)
    ensures WriteLines(TopicsLines(topics)) == TopicsHeading + "\n" + TopicsBody(topics)
  {
    if topics != "" {
      var ps := SplitOn(topics, '\n');
      var front := [TopicsHeading, Fence];
      assert TopicsLines(topics) == (front + ps) + [Fence, ""];
      WriteTwo(TopicsHeading, Fence);
      WriteSplitLines(topics);
      WriteLinesAppend(front, ps);
      WriteTwo(Fence, "");
      WriteLinesAppend(front + ps, [Fence, ""]);
      FencedText(TopicsHeading + "\n", topics);
    } else {
      WriteTwo(TopicsHeading, TopicsPlaceholder);
      WriteLinesSnoc([TopicsHeading, TopicsPlaceholder], "");
      assert [TopicsHeading, TopicsPlaceholder] + [""] == TopicsLines(topics);
    }
  }

  lemma FencedText(h: string, t: string)
    ensures (h + Fence + "\n") + (t + "\n") + (Fence + "\n" + "" + "\n") == h + (Fence + "\n" + t + "\n" + Fence + "\n\n")
  {
  }

  lemma WriteSix(a: seq<string>, b: seq<string>, c: seq<string>, d: seq<string>, e: seq<string>, g: seq<string>)
    ensures WriteLines(a + b + c + d + e + g) ==
      WriteLines(a) + WriteLines(b) + WriteLines(c) + WriteLines(d) + WriteLines(e) + WriteLines(g)
  {
    WriteLinesAppend(a, b);
    WriteLinesAppend(a + b, c);
    WriteLinesAppend(a + b + c, d);
    WriteLinesAppend(a + b + c + d, e);
    WriteLinesAppend(a + b + c + d + e, g);
  }

  /** The report is its lines, each followed by a newline. */
  lemma ReportTextIsLines(dir: ResultsDir)
    ensures ReportText(dir) == WriteLines(BodyLines(dir))
  {
    var t := TopicsRead(dir.topics);
    TitleLinesText();
    SectionLinesText(FrequencyHeading, Choose(dir.topWordsPng, FrequencyImage, FrequencyPlaceholder));
    TopicsLinesText(t);
    SectionLinesText(ClustersHeading, Choose(dir.umapPng, ClustersImage, ClustersPlaceholder));
    SectionLinesText(MessageHeading, Choose(dir.messageActivityPng, MessageImage, MessagePlaceholder));
    SectionLinesText(UserHeading, Choose(dir.userActivityPng, UserImage, UserPlaceholder));
    WriteSix([Title, ""],
      SectionLines(FrequencyHeading, Choose(dir.topWordsPng, FrequencyImage, FrequencyPlaceholder)),
      TopicsLines(t),
      SectionLines(ClustersHeading, Choose(dir.umapPng, ClustersImage, ClustersPlaceholder)),
      SectionLines(MessageHeading, Choose(dir.messageActivityPng, MessageImage, MessagePlaceholder)),
      SectionLines(UserHeading, Choose(dir.userActivityPng, UserImage, UserPlaceholder)));
  }

  predicate LinesFree(ls: seq<string>) {
    forall k :: 0 <= k < |ls| ==> '\n' !in ls[k]
  }

  lemma LinesFreeAppend(a: seq<string>, b: seq<string>)
    requires LinesFree(a) && LinesFree(b)
    ensures LinesFree(a + b)
  {
    assert forall k :: |a| <= k < |a + b| ==> (a + b)[k] == b[k - |a|];
  }

  lemma SectionLinesFree(heading: string, present: bool, image: string, placeholder: string)
    requires '\n' !in heading && '\n' !in image && '\n' !in placeholder
    ensures LinesFree(SectionLines(heading, Choose(present, image, placeholder)))
  {
  }

  lemma TopicsLinesFree(topics: string)
    ensures LinesFree(TopicsLines(topics))
  {
    SplitPiecesFree(topics, '\n');
    var block := if topics != "" then [Fence] + SplitOn(topics, '\n') + [Fence] else [TopicsPlaceholder];
    assert LinesFree(block) by {
      if topics != "" {
        LinesFreeAppend([Fence], SplitOn(topics, '\n'));
        LinesFreeAppend([Fence] + SplitOn(topics, '\n'), [Fence]);
      }
    }
    LinesFreeAppend([TopicsHeading], block);
    LinesFreeAppend([TopicsHeading] + block, [""]);
  }

  /** No line of the report holds a newline. */
  lemma BodyLinesNoNewline(dir: ResultsDir)
    ensures LinesFree(BodyLines(dir))
  {
    var s1 := SectionLines(FrequencyHeading, Choose(dir.topWordsPng, FrequencyImage, FrequencyPlaceholder));
    var s2 := TopicsLines(TopicsRead(dir.topics));
    var s3 := SectionLines(ClustersHeading, Choose(dir.umapPng, ClustersImage, ClustersPlaceholder));
    var s4 := SectionLines(MessageHeading, Choose(dir.messageActivityPng, MessageImage, MessagePlaceholder));
    var s5 := SectionLines(UserHeading, Choose(dir.userActivityPng, UserImage, UserPlaceholder));
    SectionLinesFree(FrequencyHeading, dir.topWordsPng, FrequencyImage, FrequencyPlaceholder);
    TopicsLinesFree(TopicsRead(dir.topics));
    SectionLinesFree(ClustersHeading, dir.umapPng, ClustersImage, ClustersPlaceholder);
    SectionLinesFree(MessageHeading, dir.messageActivityPng, MessageImage, MessagePlaceholder);
    SectionLinesFree(UserHeading, dir.userActivityPng, UserImage, UserPlaceholder);
    LinesFreeAppend([Title, ""], s1);
    LinesFreeAppend([Title, ""] + s1, s2);
    LinesFreeAppend([Title, ""] + s1 + s2, s3);
    LinesFreeAppend([Title, ""] + s1 + s2 + s3, s4);
    LinesFreeAppend([Title, ""] + s1 + s2 + s3 + s4, s5);
  }

  /** Reading the report back line by line gives its lines and the empty
      piece after the final newline. */
  lemma ReportTextLines(dir: ResultsDir)
    ensures SplitOn(ReportText(dir), '\n') == BodyLines(dir) + [""]
  {
    ReportTextIsLines(dir);
    BodyLinesNoNewline(dir);
    WriteLinesSplit(BodyLines(dir));
  }

  /** What a reader of the report learns: which charts are shown and the
      topics text. */
  datatype ReportView = ReportView(topWords: bool, topics: string, clusters: bool,
                                   messageActivity: bool, userActivity: bool)

  /** What `dir` should show. */
  function ViewOf(dir: ResultsDir): ReportView {
    ReportView(dir.topWordsPng, TopicsRead(dir.topics), dir.umapPng,
               dir.messageActivityPng, dir.userActivityPng)
  }

  /** The topics shown by the lines between the topics heading and the
      blank line closing the section: the fenced text, if fenced. */
  function BlockTopics(block: seq<string>): string {
    if |block| >= 2 && block[0] == Fence then Join(block[1..|block| - 1], "\n") else ""
  }

  /** Reads a report: the image lines after the fixed headings, and the
      fenced block between the topics heading and the clusters section. */
  function DecodeReport(lines: seq<string>): ReportView
    requires |lines| >= 18
  {
    ReportView(
      lines[3] == FrequencyImage,
      BlockTopics(lines[6..|lines| - 11]),
      lines[|lines| - 9] == ClustersImage,
      lines[|lines| - 6] == MessageImage,
      lines[|lines| - 3] == UserImage)
  }

  /** The first six lines of the report: title, frequency section, topics heading. */
  function ReportHead(dir: ResultsDir): seq<string> {
    [Title, ""] + SectionLines(FrequencyHeading, Choose(dir.topWordsPng, FrequencyImage, FrequencyPlaceholder))
    + [TopicsHeading]
  }

  /** The topics block: fenced text or placeholder. */
  function TopicsBlock(t: string): seq<string> {
    if t != "" then [Fence] + SplitOn(t, '\n') + [Fence] else [TopicsPlaceholder]
  }

  /** The three chart sections after the topics, and the final empty piece. */
  function ReportTail(dir: ResultsDir): seq<string> {
    SectionLines(ClustersHeading, Choose(dir.umapPng, ClustersImage, ClustersPlaceholder))
    + SectionLines(MessageHeading, Choose(dir.messageActivityPng, MessageImage, MessagePlaceholder))
    + SectionLines(UserHeading, Choose(dir.userActivityPng, UserImage, UserPlaceholder))
    + [""]
  }

  lemma ReportShape(a: seq<string>, b: seq<string>, x: string, block: seq<string>,
                    d: seq<string>, e: seq<string>, g: seq<string>)
    ensures a + b + ([x] + block + [""]) + d + e + g + [""] == (a + b + [x]) + block + ([""] + (d + e + g + [""]))
  {
  }

  /** The lines of the report in three parts. */
  lemma ReportLinesShape(dir: ResultsDir)
    ensures SplitOn(ReportText(dir), '\n') ==
      ReportHead(dir) + TopicsBlock(TopicsRead(dir.topics)) + ([""] + ReportTail(dir))
  {
    var t := TopicsRead(dir.topics);
    ReportTextLines(dir);
    assert TopicsLines(t) == [TopicsHeading] + TopicsBlock(t) + [""];
    ReportShape([Title, ""],
      SectionLines(FrequencyHeading, Choose(dir.topWordsPng, FrequencyImage, FrequencyPlaceholder)),
      TopicsHeading, TopicsBlock(t),
      SectionLines(ClustersHeading, Choose(dir.umapPng, ClustersImage, ClustersPlaceholder)),
      SectionLines(MessageHeading, Choose(dir.messageActivityPng, MessageImage, MessagePlaceholder)),
      SectionLines(UserHeading, Choose(dir.userActivityPng, UserImage, UserPlaceholder)));
  }

  /** Decoding reads the fixed positions of the three parts. */
  lemma DecodeParts(head: seq<string>, block: seq<string>, tail: seq<string>)
    requires |head| == 6 && |tail| == 10 && |block| >= 1
    ensures |head + block + ([""] + tail)| >= 18
    ensures DecodeReport(head + block + ([""] + tail)) ==
      ReportView(head[3] == FrequencyImage, BlockTopics(block), tail[1] == ClustersImage,
                 tail[4] == MessageImage, tail[7] == UserImage)
  {
    var lines := head + block + ([""] + tail);
    assert lines[6..|lines| - 11] == block;
  }

  /** A section shows its image exactly when the file is present. */
  lemma ChoiceShows(present: bool, image: Line, placeholder: Line)
    requires |image| != |placeholder|
    ensures (Choose(present, image, placeholder) == image) == present
  {
  }

  /** The image lines of the head and the tail are the images exactly when
      their files are present. */
  lemma ChartsShown(dir: ResultsDir)
    ensures (ReportHead(dir)[3] == FrequencyImage) == dir.topWordsPng
    ensures |ReportTail(dir)| == 10
    ensures (ReportTail(dir)[1] == ClustersImage) == dir.umapPng
    ensures (ReportTail(dir)[4] == MessageImage) == dir.messageActivityPng
    ensures (ReportTail(dir)[7] == UserImage) == dir.userActivityPng
  {
    ChoiceShows(dir.topWordsPng, FrequencyImage, FrequencyPlaceholder);
    ChoiceShows(dir.umapPng, ClustersImage, ClustersPlaceholder);
    ChoiceShows(dir.messageActivityPng, MessageImage, MessagePlaceholder);
    ChoiceShows(dir.userActivityPng, UserImage, UserPlaceholder);
  }

  /** The topics block gives back the topics text. */
  lemma TopicsBlockRoundTrip(t: string)
    ensures BlockTopics(TopicsBlock(t)) == t
  {
    if t != "" {
      var block := TopicsBlock(t);
      assert block[1..|block| - 1] == SplitOn(t, '\n');
      JoinSplit(t, '\n');
    }
  }

  /** Each chart appears exactly when its file exists, and the topics block
      holds exactly the stripped topics text (none when the file is missing,
      unreadable or blank). */
  lemma ReportRoundTrip(dir: ResultsDir)
    ensures |SplitOn(ReportText(dir), '\n')| >= 18
    ensures DecodeReport(SplitOn(ReportText(dir), '\n')) == ViewOf(dir)
  {
    var t := TopicsRead(dir.topics);
    ReportLinesShape(dir);
    DecodeParts(ReportHead(dir), TopicsBlock(t), ReportTail(dir));
    TopicsBlockRoundTrip(t);
    ChartsShown(dir);
  }

  /** With nothing in the results directory the report is the title and the
      five placeholders. */
  lemma EmptyDirectoryReport(dir: ResultsDir)
    requires !dir.topWordsPng && !dir.umapPng && !dir.messageActivityPng && !dir.userActivityPng
    requires dir.topics == NoTopicsFile
    ensures SplitOn(ReportText(dir), '\n') ==
      [Title, "",
       FrequencyHeading, FrequencyPlaceholder, "",
       TopicsHeading, TopicsPlaceholder, "",
       ClustersHeading, ClustersPlaceholder, "",
       MessageHeading, MessagePlaceholder, "",
       UserHeading, UserPlaceholder, "", ""]
  {
    ReportLinesShape(dir);
    assert ReportHead(dir) == [Title, "", FrequencyHeading, FrequencyPlaceholder, "", TopicsHeading];
    assert TopicsBlock(TopicsRead(dir.topics)) == [TopicsPlaceholder];
    assert ReportTail(dir) ==
      [ClustersHeading, ClustersPlaceholder, "", MessageHeading, MessagePlaceholder, "",
       UserHeading, UserPlaceholder, "", ""];
  }
}
