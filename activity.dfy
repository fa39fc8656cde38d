/** The counting behind the two activity charts: messages per calendar day
    (`plot_message_activity`) and messages per sender (`plot_user_activity`).
    ISO date parsing is an abstract partial function; plotting is left out. */
module Activity {
  import opened Messages
  import opened Counting

  /** A calendar date, as a day number. */
  type Day = int

  /** The senders shown in the user chart. */
  const TopUsers: nat := 15

  /** The date a message contributes: a non-empty string `date` field that
      `parse` accepts.  Any other value is falsy or makes the parse raise
      inside the inner `try`, and the message is skipped. */
  function DateOf(item: Item, parse: string -> Option<Day>): Option<Day>
    requires item.Obj?
  {
    if "date" in item.fields && item.fields["date"].JStr? && item.fields["date"].s != ""
    then parse(item.fields["date"].s)
    else None
  }

  /** The dates collected from a list of objects, in message order. */
  function DatesOf(items: seq<Item>, parse: string -> Option<Day>): (dates: seq<Day>)
    requires AllObjects(items)
    ensures |dates| <= |items|
  {
    if items == [] then []
    else
      var front := DatesOf(items[..|items| - 1], parse);
      match DateOf(items[|items| - 1], parse)
      case None => front
      case Some(d) => front + [d]
  }

  /** The extraction loop: `None` when an element is not an object, which
      makes `msg.get` raise. */
  method ExtractDates(items: seq<Item>, parse: string -> Option<Day>) returns (dates: Option<seq<Day>>)
    ensures dates.Some? <==> AllObjects(items)
    ensures dates.Some? ==> dates.value == DatesOf(items, parse)
  {
    var found: seq<Day> := [];
    for i := 0 to |items|
      invariant AllObjects(items[..i])
      invariant found == DatesOf(items[..i], parse)
    {
      if items[i].NonObj? {
        return None;
      }
      assert items[..i + 1][..i] == items[..i];
      match DateOf(items[i], parse)
      case None =>
      case Some(d) => found := found + [d];
    }
    assert items[..|items|] == items;
    dates := Some(found);
  }

  /** Keys strictly increase along `s`. */
  predicate Ascending(s: seq<Entry<Day>>) {
    forall i, j :: 0 <= i < j < |s| ==> s[i].key < s[j].key
  }

  predicate DistinctKeys(s: seq<Entry<Day>>) {
    forall i, j :: 0 <= i < j < |s| ==> s[i].key != s[j].key
  }

  /** Inserts `e` before the first entry with a key at least as large. */
  function InsertByKey(e: Entry<Day>, s: seq<Entry<Day>>): (r: seq<Entry<Day>>)
    ensures multiset(r) == multiset(s) + multiset{e}
  {
    if s == [] || e.key <= s[0].key then [e] + s
    else
      assert s == [s[0]] + s[1..];
      [s[0]] + InsertByKey(e, s[1..])
  }

  /** `.sort_index()`: the entries in order of increasing key. */
  function SortByKey(es: seq<Entry<Day>>): (r: seq<Entry<Day>>)
    ensures multiset(r) == multiset(es)
  {
    if es == [] then []
    else
      assert es == [es[0]] + es[1..];
      InsertByKey(es[0], SortByKey(es[1..]))
  }

  lemma {:induction false} InsertByKeyAscending(e: Entry<Day>, s: seq<Entry<Day>>)
    requires Ascending(s)
    requires forall x :: x in s ==> x.key != e.key
    ensures Ascending(InsertByKey(e, s))
    decreases |s|
  {
    if s != [] && e.key > s[0].key {
      var rest := InsertByKey(e, s[1..]);
      InsertByKeyAscending(e, s[1..]);
      forall x | x in rest ensures s[0].key < x.key {
        assert x in multiset(rest);
        if x != e {
          var j :| 0 <= j < |s[1..]| && s[1..][j] == x;
          assert s[j + 1] == x;
        }
      }
      assert InsertByKey(e, s) == [s[0]] + rest;
    }
  }

  lemma {:induction false} SortByKeyAscending(es: seq<Entry<Day>>)
    requires DistinctKeys(es)
    ensures Ascending(SortByKey(es))
    decreases |es|
  {
    if es != [] {
      var rest := SortByKey(es[1..]);
      SortByKeyAscending(es[1..]);
      forall x | x in rest ensures x.key != es[0].key {
        assert x in multiset(es[1..]);
        var j :| 0 <= j < |es[1..]| && es[1..][j] == x;
        assert es[j + 1] == x;
      }
      InsertByKeyAscending(es[0], rest);
    }
  }

  lemma {:induction false} InsertByKeySum(e: Entry<Day>, s: seq<Entry<Day>>)
    ensures SumCounts(InsertByKey(e, s)) == e.count + SumCounts(s)
    decreases |s|
  {
    if s != [] && e.key > s[0].key {
      InsertByKeySum(e, s[1..]);
      assert ([s[0]] + InsertByKey(e, s[1..]))[1..] == InsertByKey(e, s[1..]);
    } else {
      assert ([e] + s)[1..] == s;
    }
  }

  lemma {:induction false} SortByKeySum(es: seq<Entry<Day>>)
    ensures SumCounts(SortByKey(es)) == SumCounts(es)
    decreases |es|
  {
    if es != [] {
      SortByKeySum(es[1..]);
      InsertByKeySum(es[0], SortByKey(es[1..]));
    }
  }

  /** `df['date'].value_counts().sort_index()` */
  function DayCounts(dates: seq<Day>): seq<Entry<Day>>
  {
    SortByKey(Tally(dates))
  }

  lemma TallyDistinctKeys(dates: seq<Day>)
    ensures DistinctKeys(Tally(dates))
  {
    var ks := FirstSeen(dates);
    assert forall i :: 0 <= i < |Tally(dates)| ==> Tally(dates)[i].key == ks[i];
  }

  /** The per-day table: one entry per distinct date, in increasing date
      order, each with the number of messages on that day; the counts add up
      to the number of dates, so the table is empty only when there were no
      dates at all. */
  lemma DayCountsFacts(dates: seq<Day>)
    ensures Ascending(DayCounts(dates))
    ensures forall e :: e in DayCounts(dates) ==>
      e.key in dates && e.count == Occurrences(dates, e.key) && e.count >= 1
    ensures forall d :: d in dates ==> Entry(d, Occurrences(dates, d)) in DayCounts(dates)
    ensures SumCounts(DayCounts(dates)) == |dates|
    ensures DayCounts(dates) == [] <==> dates == []
  {
    var table := DayCounts(dates);
    TallyDistinctKeys(dates);
    SortByKeyAscending(Tally(dates));
    SortByKeySum(Tally(dates));
    TallyTotal(dates);
    forall e | e in table
      ensures e.key in dates && e.count == Occurrences(dates, e.key) && e.count >= 1
    {
      assert e in multiset(Tally(dates));
      TallyMember(dates, e);
    }
    forall d | d in dates ensures Entry(d, Occurrences(dates, d)) in table {
      TallyHas(dates, d);
      assert Entry(d, Occurrences(dates, d)) in multiset(table);
    }
    if dates != [] {
      assert dates[0] in dates;
    }
  }

  datatype MessageActivity =
    | MessageActivityFailed      // an exception was caught and logged
    | NoValidDates               // no message has a parsable date
    | NoActivity                 // the grouped table is empty
    | DaysPlotted(days: seq<Entry<Day>>)   // the bars of `message_activity.png`

  /** `plot_message_activity` on the loaded list. */
  function MessageActivityOf(items: seq<Item>, parse: string -> Option<Day>): MessageActivity
  {
    if !AllObjects(items) then MessageActivityFailed
    else
      var dates := DatesOf(items, parse);
      if dates == [] then NoValidDates
      else if DayCounts(dates) == [] then NoActivity
      else DaysPlotted(DayCounts(dates))
  }

  method PlotMessageActivity(items: seq<Item>, parse: string -> Option<Day>) returns (outcome: MessageActivity)
    ensures outcome == MessageActivityOf(items, parse)
  {
    var extracted := ExtractDates(items, parse);
    if extracted.None? {
      return MessageActivityFailed;
    }
    var dates := extracted.value;
    if dates == [] {
      return NoValidDates;
    }
    var grouped := DayCounts(dates);
    if grouped == [] {
      return NoActivity;
    }
    outcome := DaysPlotted(grouped);
  }

  /** The "empty after grouping" branch cannot be taken. */
  lemma NoActivityUnreachable(items: seq<Item>, parse: string -> Option<Day>)
    ensures MessageActivityOf(items, parse) != NoActivity
  {
    if AllObjects(items) {
      DayCountsFacts(DatesOf(items, parse));
    }
  }

  /** The chart covers every message with a parsable date: one bar per day,
      in date order, with that day's number of messages. */
  lemma DaysPlottedFacts(items: seq<Item>, parse: string -> Option<Day>, days: seq<Entry<Day>>)
    requires MessageActivityOf(items, parse) == DaysPlotted(days)
    ensures AllObjects(items) && days == DayCounts(DatesOf(items, parse))
    ensures days != [] && Ascending(days)
    ensures SumCounts(days) == |DatesOf(items, parse)|
  {
    DayCountsFacts(DatesOf(items, parse));
  }

  /** `df['sender_name'].fillna("Unknown")` for one message. */
  function SenderOf(item: Item): Json
    requires item.Obj?
  {
    if "sender_name" in item.fields && !item.fields["sender_name"].JNull?
    then item.fields["sender_name"] else JStr("Unknown")
  }

  /** The `sender_name` column after `fillna("Unknown")`: one name per
      message and never null; a name that is present and not null is kept,
      and a name reads "Unknown" exactly when it is missing, null, or that
      very string. */
  function Senders(items: seq<Item>): (senders: seq<Json>)
    requires AllObjects(items)
    ensures |senders| == |items|
    ensures forall k :: 0 <= k < |items| ==> !senders[k].JNull?
    ensures forall k :: 0 <= k < |items| && "sender_name" in items[k].fields && !items[k].fields["sender_name"].JNull? ==>
      senders[k] == items[k].fields["sender_name"]
    ensures forall k :: 0 <= k < |items| ==>
      (senders[k] == JStr("Unknown") <==>
         || "sender_name" !in items[k].fields
         || items[k].fields["sender_name"] in {JNull, JStr("Unknown")})
  {
    seq(|items|, k requires 0 <= k < |items| => SenderOf(items[k]))
  }

  /** The DataFrame has a `sender_name` column when some message has that key. */
  predicate HasSenderColumn(items: seq<Item>)
    requires AllObjects(items)
  {
    exists k :: 0 <= k < |items| && "sender_name" in items[k].fields
  }

  datatype UserActivity =
    | UserActivityFailed      // an exception was caught and logged
    | NoSenderColumn          // the frame is empty or has no `sender_name`
    | NoUserActivity          // the counts are empty
    | UsersPlotted(users: seq<Entry<Json>>)   // the bars of `user_activity.png`

  /** No element is an object: `pd.DataFrame` then numbers its columns. */
  predicate NoObjects(items: seq<Item>) {
    forall k :: 0 <= k < |items| ==> !items[k].Obj?
  }

  /** `plot_user_activity` on the loaded list.  A list of objects becomes a
      frame with one column per key; a list with no object becomes a frame
      with numbered columns, so without `sender_name`; a list mixing objects
      and other values is read as a failure. */
  function UserActivityOf(items: seq<Item>): UserActivity
  {
    if items == [] || NoObjects(items) then NoSenderColumn
    else if !AllObjects(items) then UserActivityFailed
    else if !HasSenderColumn(items) then NoSenderColumn
    else
      var counts := MostCommon(Tally(Senders(items)), TopUsers);
      if counts == [] then NoUserActivity else UsersPlotted(counts)
  }

  /** The chart is skipped for want of names exactly when the frame is empty,
      holds no object, or no object has a `sender_name` key; the call fails
      exactly when the list mixes objects with other values. */
  lemma NoSenderMeaning(items: seq<Item>)
    ensures UserActivityOf(items) == NoSenderColumn <==>
      items == [] || NoObjects(items) || (AllObjects(items) && !HasSenderColumn(items))
    ensures UserActivityOf(items) == UserActivityFailed <==>
      (exists k :: 0 <= k < |items| && items[k].Obj?) && !AllObjects(items)
  {
  }

  /** The "no user activity" branch cannot be taken. */
  lemma NoUserActivityUnreachable(items: seq<Item>)
    ensures UserActivityOf(items) != NoUserActivity
  {
    if AllObjects(items) && items != [] {
      var senders := Senders(items);
      MostCommonFacts(Tally(senders), TopUsers);
      assert senders[0] in FirstSeen(senders);
    }
  }

  /** The chart shows at most fifteen senders, each with its number of
      messages (a missing or null name counted as "Unknown"), most active
      first, and no sender left out has more messages than one shown. */
  lemma UsersPlottedFacts(items: seq<Item>, users: seq<Entry<Json>>)
    requires UserActivityOf(items) == UsersPlotted(users)
    ensures AllObjects(items) && HasSenderColumn(items)
    ensures 1 <= |users| <= TopUsers
    ensures forall e :: e in users ==>
      e.key in Senders(items) && e.count == Occurrences(Senders(items), e.key) >= 1
    ensures SortedDesc(users)
    ensures forall s, k ::
      && s in Senders(items)
      && (forall e :: e in users ==> e.key != s)
      && 0 <= k < |users|
      ==> Occurrences(Senders(items), s) <= users[k].count
  {
    var senders := Senders(items);
    MostCommonFacts(Tally(senders), TopUsers);
    forall e | e in users
      ensures e.key in senders && e.count == Occurrences(senders, e.key) >= 1
    {
      TallyMember(senders, e);
    }
    forall s, k |
      && s in senders
      && (forall e :: e in users ==> e.key != s)
      && 0 <= k < |users|
      ensures Occurrences(senders, s) <= users[k].count
    {
      TallyHas(senders, s);
    }
  }
}
