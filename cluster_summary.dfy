/** `summarize_clusters`: reads the saved cluster table, drops the noise
    label -1, cleans the texts, groups them by label, drops groups of one
    message and writes one block per remaining group, in ascending label
    order, with at most five example messages each. */
module ClusterSummary {
  import opened Text

  /** The noise label HDBSCAN gives to unclustered points. */
  const Noise: int := -1

  /** `max_messages_per_cluster` */
  const MaxMessages: nat := 5

  /** A `text` cell as pandas reads it back: a string, or `NaN` for an empty
      or null-looking cell, which `str` turns into "nan". */
  datatype Cell = TextCell(s: string) | NaN

  datatype SummaryRow = SummaryRow(text: Cell, cluster: int)

  /** What `pd.read_csv` gives: a failure, or the column names present and
      the rows. */
  datatype CsvTable = Unreadable | Table(hasCluster: bool, hasText: bool, rows: seq<SummaryRow>)

  datatype SummaryOutcome =
    | CsvMissing              // the CSV file does not exist
    | SummaryFailed           // an exception was caught and logged
    | MissingColumns          // no `cluster` or no `text` column
    | OnlyNoise               // nothing but noise rows
    | NoLargeClusters         // no group of two or more messages
    | SummaryWritten(text: string)   // the contents of `cluster_summaries.txt`

  function CellText(c: Cell): string {
    match c
    case TextCell(s) => s
    case NaN => "nan"
  }

  /** `s.replace("\n", " ")` */
  function ReplaceNewlines(s: string): (r: string)
    ensures |r| == |s| && '\n' !in r
    ensures forall i :: 0 <= i < |s| ==> r[i] == (if s[i] == '\n' then ' ' else s[i])
  {
    if s == [] then [] else [if s[0] == '\n' then ' ' else s[0]] + ReplaceNewlines(s[1..])
  }

  /** `str(row['text']).strip().replace("\n", " ")` */
  function Clean(c: Cell): (r: string)
    ensures '\n' !in r
    ensures |r| == |Strip(CellText(c))|
  {
    ReplaceNewlines(Strip(CellText(c)))
  }

  /** `df[df['cluster'] != -1]` */
  function NoiseFree(rows: seq<SummaryRow>): (r: seq<SummaryRow>)
    ensures |r| <= |rows|
    ensures forall k :: 0 <= k < |r| ==> r[k].cluster != Noise && r[k] in rows
  {
    if rows == [] then []
    else
      var front := NoiseFree(rows[..|rows| - 1]);
      if rows[|rows| - 1].cluster != Noise then front + [rows[|rows| - 1]] else front
  }

  /** The cleaned, non-empty texts of the rows labelled `l`, in row order:
      what `grouped[l]` holds after the grouping loop. */
  function Members(rows: seq<SummaryRow>, l: int): (ms: seq<string>)
    ensures forall k :: 0 <= k < |ms| ==> ms[k] != "" && '\n' !in ms[k]
  {
    if rows == [] then []
    else
      var front := Members(rows[..|rows| - 1], l);
      var row := rows[|rows| - 1];
      if row.cluster == l && Clean(row.text) != "" then front + [Clean(row.text)] else front
  }

  lemma MembersStep(rows: seq<SummaryRow>, i: nat, l: int)
    requires i < |rows|
    ensures Members(rows[..i + 1], l) ==
      Members(rows[..i], l) + (if rows[i].cluster == l && Clean(rows[i].text) != "" then [Clean(rows[i].text)] else [])
  {
    assert rows[..i + 1][..i] == rows[..i];
  }

  /** A label has members only if some row carries it. */
  lemma {:induction false} MembersHaveLabel(rows: seq<SummaryRow>, l: int)
    requires Members(rows, l) != []
    ensures exists k :: 0 <= k < |rows| && rows[k].cluster == l
    decreases |rows|
  {
    var front := rows[..|rows| - 1];
    if Members(front, l) != [] {
      MembersHaveLabel(front, l);
      var k :| 0 <= k < |front| && front[k].cluster == l;
      assert rows[k].cluster == l;
    }
  }

  /** The labels that keep a group: more than one cleaned, non-empty text. */
  function LargeLabels(rows: seq<SummaryRow>): set<int>
  {
    set k | 0 <= k < |rows| && |Members(rows, rows[k].cluster)| > 1 :: rows[k].cluster
  }

  /** The least element of a non-empty set. */
  function MinOf(s: set<int>): (m: int)
    requires s != {}
    ensures m in s && forall y :: y in s ==> m <= y
  {
    HasMin(s);
    var m :| m in s && forall y :: y in s ==> m <= y;
    m
  }

  lemma {:induction false} HasMin(s: set<int>)
    requires s != {}
    ensures exists m :: m in s && forall y :: y in s ==> m <= y
    decreases |s|
  {
    assert exists x :: x in s by {
      if forall x :: x !in s {
        assert false;
      }
    }
    var x :| x in s;
    if s != {x} {
      var rest := s - {x};
      HasMin(rest);
      var m :| m in rest && forall y :: y in rest ==> m <= y;
      var least := if x < m then x else m;
      assert least in s;
      forall y | y in s ensures least <= y {
        if y != x {
          assert y in rest;
        }
      }
    } else {
      forall y | y in s ensures x <= y {
        assert y in {x};
      }
    }
  }

  /** `sorted(...)` of distinct integer keys: strictly increasing, and the
      same elements. */
  function SortedSet(s: set<int>): (r: seq<int>)
    ensures |r| == |s|
    ensures forall x :: x in r <==> x in s
    ensures forall i, j :: 0 <= i < j < |r| ==> r[i] < r[j]
    decreases |s|
  {
    if s == {} then []
    else
      var m := MinOf(s);
      var rest := SortedSet(s - {m});
      assert forall j :: 0 <= j < |rest| ==> m < rest[j] by {
        forall j | 0 <= j < |rest| ensures m < rest[j] {
          assert rest[j] in s - {m};
        }
      }
      [m] + rest
  }

  /** The header of a group's block. */
  function Header(l: int, size: nat): string {
    "--- Cluster " + IntToString(l) + " (" + NatToString(size) + " messages) ---"
  }

  function Bullet(m: string): string {
    "• " + m
  }

  /** The bullet lines of the shown messages: one per message, each the
      bullet mark and a space, after which the message reads back whole. */
  function Bullets(ms: seq<string>): (bs: seq<string>)
    ensures |bs| == |ms|
    ensures forall k :: 0 <= k < |ms| ==> StartsWith(bs[k], "• ") && bs[k][2..] == ms[k]
  {
    seq(|ms|, k requires 0 <= k < |ms| => Bullet(ms[k]))
  }

  function Shown(ms: seq<string>): (s: seq<string>)
    ensures |s| <= MaxMessages && |s| <= |ms| && s == ms[..|s|]
    ensures |ms| >= MaxMessages ==> |s| == MaxMessages
    ensures |ms| < MaxMessages ==> s == ms
  {
    if |ms| <= MaxMessages then ms else ms[..MaxMessages]
  }

  /** The lines of one group's block: header, bullets, blank line. */
  function BlockLines(l: int, ms: seq<string>): seq<string>
  {
    [Header(l, |ms|)] + Bullets(Shown(ms)) + [""]
  }

  /** The lines written for the groups `ids`, in that order. */
  function SummaryLines(rows: seq<SummaryRow>, ids: seq<int>): seq<string>
  {
    if ids == [] then []
    else SummaryLines(rows, ids[..|ids| - 1]) + BlockLines(ids[|ids| - 1], Members(rows, ids[|ids| - 1]))
  }

  /** `summarize_clusters(csv_path, output_path)`, given whether the CSV
      exists, what reading it gives, and whether `os.makedirs`, `open` and
      the writes of the output file succeed. */
  function SummaryOf(exists_: bool, table: CsvTable, writeOk: bool): SummaryOutcome
  {
    if !exists_ then CsvMissing
    else match table
      case Unreadable => SummaryFailed
      case Table(hasCluster, hasText, rows) =>
        if !hasCluster || !hasText then MissingColumns
        else AfterWrite(SummaryOfRows(rows), writeOk)
  }

  /** The file is only touched once a summary is due; a failure while
      creating or writing it is caught by the same `try`. */
  function AfterWrite(due: SummaryOutcome, writeOk: bool): SummaryOutcome {
    if due.SummaryWritten? && !writeOk then SummaryFailed else due
  }

  /** The summary of a table with both columns. */
  function SummaryOfRows(rows: seq<SummaryRow>): SummaryOutcome
  {
    var kept := NoiseFree(rows);
    if kept == [] then OnlyNoise else SummaryOfKept(kept)
  }

  /** The summary of the rows left after the noise filter. */
  function SummaryOfKept(kept: seq<SummaryRow>): SummaryOutcome
  {
    var labels := LargeLabels(kept);
    if labels == {} then NoLargeClusters
    else SummaryWritten(WriteLines(SummaryLines(kept, SortedSet(labels))))
  }

  /** `grouped` holds, for every label with members in `rows`, exactly those
      members. */
  ghost predicate GroupedAs(grouped: map<int, seq<string>>, rows: seq<SummaryRow>) {
    && (forall l :: l in grouped <==> Members(rows, l) != [])
    && (forall l :: l in grouped ==> grouped[l] == Members(rows, l))
  }

  /** One pass of the grouping loop: `grouped[cluster].append(text)` when the
      cleaned text is non-empty. */
  function AddRow(grouped: map<int, seq<string>>, row: SummaryRow): map<int, seq<string>> {
    var text := Clean(row.text);
    if text == "" then grouped
    else grouped[row.cluster := (if row.cluster in grouped then grouped[row.cluster] else []) + [text]]
  }

  lemma GroupStep(grouped: map<int, seq<string>>, rows: seq<SummaryRow>, i: nat)
    requires i < |rows| && GroupedAs(grouped, rows[..i])
    ensures GroupedAs(AddRow(grouped, rows[i]), rows[..i + 1])
  {
    forall l ensures Members(rows[..i + 1], l) ==
      Members(rows[..i], l) + (if rows[i].cluster == l && Clean(rows[i].text) != "" then [Clean(rows[i].text)] else [])
    {
      MembersStep(rows, i, l);
    }
  }

  /** The grouping loop. */
  method GroupRows(rows: seq<SummaryRow>) returns (grouped: map<int, seq<string>>)
    ensures GroupedAs(grouped, rows)
  {
    grouped := map[];
    for i := 0 to |rows|
      invariant GroupedAs(grouped, rows[..i])
    {
      GroupStep(grouped, rows, i);
      var cluster := rows[i].cluster;
      var text := Clean(rows[i].text);
      if text != "" {
        var previous := if cluster in grouped then grouped[cluster] else [];
        grouped := grouped[cluster := previous + [text]];
      }
    }
    assert rows[..|rows|] == rows;
  }

  /** `{k: v for k, v in grouped.items() if len(v) > 1}` */
  method DropSingletons(rows: seq<SummaryRow>, grouped: map<int, seq<string>>) returns (large: map<int, seq<string>>)
    requires GroupedAs(grouped, rows)
    ensures large.Keys == LargeLabels(rows)
    ensures forall l :: l in large ==> large[l] == Members(rows, l)
  {
    large := map l | l in grouped && |grouped[l]| > 1 :: grouped[l];
    forall l | l in LargeLabels(rows) ensures l in large {
      var k :| 0 <= k < |rows| && |Members(rows, rows[k].cluster)| > 1 && rows[k].cluster == l;
    }
    forall l | l in large ensures l in LargeLabels(rows) {
      MembersHaveLabel(rows, l);
      var k :| 0 <= k < |rows| && rows[k].cluster == l;
    }
  }

  /** Writing line `x` after the lines `ls` already written after `text`. */
  lemma AppendLine(text: string, ls: seq<string>, x: string)
    ensures text + WriteLines(ls + [x]) == text + WriteLines(ls) + x + "\n"
  {
    WriteLinesSnoc(ls, x);
  }

  /** The text of a block: header line, bullet lines, blank line. */
  lemma BlockText(text: string, l: int, ms: seq<string>)
    ensures text + WriteLines(BlockLines(l, ms)) ==
      ((text + Header(l, |ms|) + "\n") + WriteLines(Bullets(Shown(ms)))) + "\n"
  {
    LinesText(text, Header(l, |ms|), Bullets(Shown(ms)));
  }

  /** The text of a header, some lines and a blank line, written after `text`. */
  lemma LinesText(text: string, h: string, lines: seq<string>)
    ensures text + WriteLines([h] + lines + [""]) == ((text + h + "\n") + WriteLines(lines)) + "\n"
  {
    var w := WriteLines(lines);
    WriteLinesSnoc([], h);
    assert [] + [h] == [h];
    WriteLinesAppend([h], lines);
    WriteLinesSnoc([h] + lines, "");
    Regroup(text, h, w);
  }

  lemma Regroup(text: string, h: string, w: string)
    ensures text + ((h + "\n" + w) + "" + "\n") == ((text + h + "\n") + w) + "\n"
  {
  }

  lemma BulletsSnoc(ms: seq<string>, k: nat)
    requires k < |ms|
    ensures Bullets(ms[..k + 1]) == Bullets(ms[..k]) + [Bullet(ms[k])]
  {
    assert Bullets(ms[..k + 1])[k] == Bullet(ms[k]);
  }

  /** `for msg in messages[:max_messages_per_cluster]: f.write(f"• {msg}\n")` */
  method WriteBullets(text: string, shown: seq<string>) returns (r: string)
    ensures r == text + WriteLines(Bullets(shown))
  {
    r := text;
    for k := 0 to |shown|
      invariant r == text + WriteLines(Bullets(shown[..k]))
    {
      var bullet := Bullet(shown[k]);
      AppendLine(text, Bullets(shown[..k]), bullet);
      BulletsSnoc(shown, k);
      r := r + bullet + "\n";
    }
    PrefixAll(shown, |shown|);
  }

  /** Writes one group's block. */
  method WriteBlock(text: string, l: int, messages: seq<string>) returns (r: string)
    ensures r == text + WriteLines(BlockLines(l, messages))
  {
    r := text + Header(l, |messages|) + "\n";
    r := WriteBullets(r, Shown(messages));
    r := r + "\n";
    BlockText(text, l, messages);
  }

  lemma SummaryStep(rows: seq<SummaryRow>, ids: seq<int>, i: nat)
    requires i < |ids|
    ensures WriteLines(SummaryLines(rows, ids[..i + 1])) ==
      WriteLines(SummaryLines(rows, ids[..i])) + WriteLines(BlockLines(ids[i], Members(rows, ids[i])))
  {
    assert ids[..i + 1][..i] == ids[..i];
    WriteLinesAppend(SummaryLines(rows, ids[..i]), BlockLines(ids[i], Members(rows, ids[i])));
  }

  /** The body of `summarize_clusters`. */
  method SummarizeClusters(exists_: bool, table: CsvTable, writeOk: bool) returns (outcome: SummaryOutcome)
    ensures outcome == SummaryOf(exists_, table, writeOk)
  {
    if !exists_ {
      return CsvMissing;
    }
    if table.Unreadable? {
      return SummaryFailed;
    }
    if !table.hasCluster || !table.hasText {
      return MissingColumns;
    }
    outcome := SummarizeRows(table.rows, writeOk);
  }

  /** From the noise filter on. */
  method SummarizeRows(rows: seq<SummaryRow>, writeOk: bool) returns (outcome: SummaryOutcome)
    ensures outcome == AfterWrite(SummaryOfRows(rows), writeOk)
  {
    var df := NoiseFree(rows);
    if df == [] {
      return OnlyNoise;
    }
    outcome := SummarizeKept(df, writeOk);
  }

  /** From the grouping loop on. */
  method SummarizeKept(df: seq<SummaryRow>, writeOk: bool) returns (outcome: SummaryOutcome)
    ensures outcome == AfterWrite(SummaryOfKept(df), writeOk)
  {
    var grouped := GroupRows(df);
    var large := DropSingletons(df, grouped);
    if large == map[] {
      assert large.Keys == {};
      return NoLargeClusters;
    }
    assert large.Keys != {} by {
      var l :| l in large;
    }
    if !writeOk {
      return SummaryFailed;
    }
    var ids := SortedSet(large.Keys);
    assert ids == SortedSet(LargeLabels(df));
    assert forall i :: 0 <= i < |ids| ==> ids[i] in large && large[ids[i]] == Members(df, ids[i]) by {
      forall i | 0 <= i < |ids| ensures ids[i] in large {
        assert ids[i] in ids;
      }
    }
    var text := WriteGroups(df, large, ids);
    outcome := SummaryWritten(text);
  }

  /** `for cluster_id, messages in sorted(grouped.items())`: the blocks of
      the groups `ids`, in that order. */
  method WriteGroups(rows: seq<SummaryRow>, large: map<int, seq<string>>, ids: seq<int>) returns (text: string)
    requires forall i :: 0 <= i < |ids| ==> ids[i] in large && large[ids[i]] == Members(rows, ids[i])
    ensures text == WriteLines(SummaryLines(rows, ids))
  {
    text := "";
    for i := 0 to |ids|
      invariant text == WriteLines(SummaryLines(rows, ids[..i]))
    {
      SummaryStep(rows, ids, i);
      text := WriteBlock(text, ids[i], large[ids[i]]);
    }
    PrefixAll(ids, |ids|);
  }

  /** Dropping the noise rows leaves every other label's group as it was. */
  lemma {:induction false} MembersNoiseFree(rows: seq<SummaryRow>, l: int)
    requires l != Noise
    ensures Members(NoiseFree(rows), l) == Members(rows, l)
    decreases |rows|
  {
    if rows != [] {
      var front := rows[..|rows| - 1];
      var row := rows[|rows| - 1];
      MembersNoiseFree(front, l);
      if row.cluster != Noise {
        var kept := NoiseFree(front) + [row];
        assert NoiseFree(rows) == kept;
        assert kept[..|kept| - 1] == NoiseFree(front);
      }
    }
  }

  /** Every member of a group is the cleaned text of a row with that label. */
  lemma {:induction false} MembersOrigin(rows: seq<SummaryRow>, l: int, m: string)
    requires m in Members(rows, l)
    ensures exists k :: 0 <= k < |rows| && rows[k].cluster == l && Clean(rows[k].text) == m
    decreases |rows|
  {
    var front := rows[..|rows| - 1];
    if m in Members(front, l) {
      MembersOrigin(front, l, m);
      var k :| 0 <= k < |front| && front[k].cluster == l && Clean(front[k].text) == m;
      assert rows[k] == front[k];
    } else {
      assert rows[|rows| - 1].cluster == l && Clean(rows[|rows| - 1].text) == m;
    }
  }

  /** The groups written, in order. */
  function SummaryIds(rows: seq<SummaryRow>): seq<int>
  {
    SortedSet(LargeLabels(NoiseFree(rows)))
  }

  /** A block is written for a label exactly when it is not the noise label
      and at least two of its rows have a non-empty cleaned text; the labels
      come in strictly increasing order. */
  lemma SummaryIdsFacts(rows: seq<SummaryRow>)
    ensures forall l :: l in SummaryIds(rows) <==> l != Noise && |Members(rows, l)| >= 2
    ensures forall i, j :: 0 <= i < j < |SummaryIds(rows)| ==> SummaryIds(rows)[i] < SummaryIds(rows)[j]
  {
    var kept := NoiseFree(rows);
    forall l ensures l in LargeLabels(kept) <==> l != Noise && |Members(rows, l)| >= 2 {
      if l in LargeLabels(kept) {
        var k :| 0 <= k < |kept| && |Members(kept, kept[k].cluster)| > 1 && kept[k].cluster == l;
        MembersNoiseFree(rows, l);
      }
      if l != Noise && |Members(rows, l)| >= 2 {
        MembersNoiseFree(rows, l);
        MembersHaveLabel(kept, l);
        var k :| 0 <= k < |kept| && kept[k].cluster == l;
      }
    }
  }

  /** Number of empty lines. */
  function BlankLines(lines: seq<string>): nat
  {
    if lines == [] then 0 else BlankLines(lines[..|lines| - 1]) + (if lines[|lines| - 1] == "" then 1 else 0)
  }

  lemma {:induction false} BlankLinesAppend(a: seq<string>, b: seq<string>)
    ensures BlankLines(a + b) == BlankLines(a) + BlankLines(b)
    decreases |b|
  {
    if b == [] {
      assert a + b == a;
    } else {
      BlankLinesAppend(a, b[..|b| - 1]);
      assert (a + b)[..|a + b| - 1] == a + b[..|b| - 1];
    }
  }

  lemma {:induction false} NoBlankBullets(ms: seq<string>)
    ensures BlankLines(Bullets(ms)) == 0
    decreases |ms|
  {
    if ms != [] {
      NoBlankBullets(ms[..|ms| - 1]);
      assert Bullets(ms)[..|ms| - 1] == Bullets(ms[..|ms| - 1]);
    }
  }

  /** A block has exactly one blank line, its last. */
  lemma BlockBlankLines(l: int, ms: seq<string>)
    ensures BlankLines(BlockLines(l, ms)) == 1
    ensures BlockLines(l, ms)[|BlockLines(l, ms)| - 1] == ""
  {
    var h := Header(l, |ms|);
    var bullets := Bullets(Shown(ms));
    NoBlankBullets(Shown(ms));
    BlankLinesAppend([h], bullets);
    BlankLinesAppend([h] + bullets, [""]);
    assert BlankLines([h]) == 0 by {
      assert [h][..0] == [];
    }
    assert BlankLines([""]) == 1 by {
      assert [""][..0] == [];
    }
  }

  /** So the summary has exactly one blank line per block. */
  lemma {:induction false} SummaryBlankLines(rows: seq<SummaryRow>, ids: seq<int>)
    ensures BlankLines(SummaryLines(rows, ids)) == |ids|
    decreases |ids|
  {
    if ids != [] {
      var last := ids[|ids| - 1];
      SummaryBlankLines(rows, ids[..|ids| - 1]);
      BlockBlankLines(last, Members(rows, last));
      BlankLinesAppend(SummaryLines(rows, ids[..|ids| - 1]), BlockLines(last, Members(rows, last)));
    }
  }

  lemma HeaderNoNewline(l: int, size: nat)
    ensures '\n' !in Header(l, size)
  {
    var a := IntToString(l);
    var b := NatToString(size);
    assert forall i :: 0 <= i < |b| ==> IsDigit(b[i]);
    if l < 0 {
      assert a == "-" + NatToString(-l);
      var c := NatToString(-l);
      assert forall i :: 0 <= i < |c| ==> IsDigit(c[i]);
    } else {
      assert forall i :: 0 <= i < |a| ==> IsDigit(a[i]);
    }
  }

  lemma {:induction false} SummaryLinesNoNewline(rows: seq<SummaryRow>, ids: seq<int>)
    ensures forall k :: 0 <= k < |SummaryLines(rows, ids)| ==> '\n' !in SummaryLines(rows, ids)[k]
    decreases |ids|
  {
    if ids != [] {
      var last := ids[|ids| - 1];
      var ms := Members(rows, last);
      SummaryLinesNoNewline(rows, ids[..|ids| - 1]);
      HeaderNoNewline(last, |ms|);
      var block := BlockLines(last, ms);
      assert forall k :: 0 <= k < |block| ==> '\n' !in block[k] by {
        assert forall k :: 0 <= k < |Shown(ms)| ==> Shown(ms)[k] in ms;
      }
    }
  }

  /** What `cluster_summaries.txt` holds: read back line by line, it is the
      blocks of the summarised groups in increasing label order (each a
      header with the full group size, at most five bullets, one blank line),
      and it has exactly one blank line per group. */
  lemma SummaryWrittenFacts(rows: seq<SummaryRow>, text: string)
    requires SummaryOfRows(rows) == SummaryWritten(text)
    ensures SummaryIds(rows) != []
    ensures SplitOn(text, '\n') == SummaryLines(NoiseFree(rows), SummaryIds(rows)) + [""]
    ensures BlankLines(SummaryLines(NoiseFree(rows), SummaryIds(rows))) == |SummaryIds(rows)|
  {
    SummaryLinesNoNewline(NoiseFree(rows), SummaryIds(rows));
    WriteLinesSplit(SummaryLines(NoiseFree(rows), SummaryIds(rows)));
    SummaryBlankLines(NoiseFree(rows), SummaryIds(rows));
  }

  /** Nothing is written when no group of two or more messages remains. */
  lemma NothingWrittenWithoutGroups(rows: seq<SummaryRow>)
    requires forall l :: l != Noise ==> |Members(rows, l)| <= 1
    ensures !SummaryOfRows(rows).SummaryWritten?
  {
    SummaryIdsFacts(rows);
    assert forall l :: l !in SummaryIds(rows);
    assert LargeLabels(NoiseFree(rows)) == {};
  }

  /** A table with both columns gets a summary file exactly when some label
      other than noise has at least two non-empty texts. */
  lemma RowsWrittenExactly(rows: seq<SummaryRow>)
    ensures SummaryOfRows(rows).SummaryWritten? <==>
      exists l :: l != Noise && |Members(rows, l)| >= 2
  {
    var kept := NoiseFree(rows);
    if SummaryOfRows(rows).SummaryWritten? {
      assert kept != [] && LargeLabels(kept) != {};
      var l :| l in LargeLabels(kept);
      var k :| 0 <= k < |kept| && |Members(kept, kept[k].cluster)| > 1 && kept[k].cluster == l;
      MembersNoiseFree(rows, l);
      assert l != Noise && |Members(rows, l)| >= 2;
    }
    if exists l :: l != Noise && |Members(rows, l)| >= 2 {
      var l :| l != Noise && |Members(rows, l)| >= 2;
      MembersNoiseFree(rows, l);
      MembersHaveLabel(kept, l);
      var k :| 0 <= k < |kept| && kept[k].cluster == l;
      assert l in LargeLabels(kept);
    }
  }

  /** A label other than noise with two non-empty texts is summarised. */
  lemma GroupMeansWritten(rows: seq<SummaryRow>, l: int)
    requires l != Noise && |Members(rows, l)| >= 2
    ensures SummaryOfRows(rows).SummaryWritten?
  {
    RowsWrittenExactly(rows);
  }

  /** The summary file is written only for an existing, readable CSV with
      both columns in which some label other than noise has at least two
      non-empty texts, and only when creating and writing the file succeeds;
      a missing file or column ends the call quietly, and a failing write is
      caught. */
  lemma SummaryWrittenExactly(exists_: bool, table: CsvTable, writeOk: bool)
    ensures !exists_ ==> SummaryOf(exists_, table, writeOk) == CsvMissing
    ensures exists_ && table.Table? && !(table.hasCluster && table.hasText) ==>
      SummaryOf(exists_, table, writeOk) == MissingColumns
    ensures SummaryOf(exists_, table, writeOk).SummaryWritten? <==>
      && exists_ && table.Table? && table.hasCluster && table.hasText && writeOk
      && exists l :: l != Noise && |Members(table.rows, l)| >= 2
    ensures (&& exists_ && table.Table? && table.hasCluster && table.hasText && !writeOk
             && exists l :: l != Noise && |Members(table.rows, l)| >= 2) ==>
      SummaryOf(exists_, table, writeOk) == SummaryFailed
  {
    if exists_ && table.Table? {
      RowsWrittenExactly(table.rows);
      if table.hasCluster && table.hasText {
        assert SummaryOf(exists_, table, writeOk) == AfterWrite(SummaryOfRows(table.rows), writeOk);
        if !writeOk && exists l :: l != Noise && |Members(table.rows, l)| >= 2 {
          var l :| l != Noise && |Members(table.rows, l)| >= 2;
          GroupMeansWritten(table.rows, l);
        }
      }
    }
  }
}
