/** The loaded chat export as the analysers see it: a JSON list whose
    elements are message objects or other JSON values.  Both pipelines reject
    a document that is not a non-empty list before any analyser runs, so the
    analysers are modelled on a list. */
module Messages {
  import opened Text

  /** Fewer non-blank texts than this and clustering and topic modelling are
      skipped; fewer messages than this and the analysis script stops after
      the word frequencies. */
  const MinTexts: nat := 10

  datatype Option<T> = None | Some(value: T)

  /** A JSON value, as far as the analysers tell values apart: strings,
      `null`, and everything else. */
  datatype Json = JStr(s: string) | JNull | JOther

  /** One element of the list: an object with its fields, or any other value,
      on which `.get` raises `AttributeError`. */
  datatype Item = Obj(fields: map<string, Json>) | NonObj

  predicate AllObjects(items: seq<Item>) {
    forall k :: 0 <= k < |items| ==> items[k].Obj?
  }

  /** `msg.get(key)` when it is a string. */
  function StrField(item: Item, key: string): Option<string>
    requires item.Obj?
  {
    if key in item.fields && item.fields[key].JStr? then Some(item.fields[key].s) else None
  }

  /** `isinstance(msg.get('text'), str) and msg['text'].strip()`. */
  predicate HasText(item: Item)
    requires item.Obj?
  {
    StrField(item, "text").Some? && Strip(StrField(item, "text").value) != ""
  }

  /** `[msg['text'] for msg in data if HasText(msg)]` on a list of objects. */
  function TextsOf(items: seq<Item>): (texts: seq<string>)
    requires AllObjects(items)
    ensures |texts| <= |items|
    ensures forall k :: 0 <= k < |texts| ==> Strip(texts[k]) != ""
  {
    if items == [] then []
    else
      var front := TextsOf(items[..|items| - 1]);
      var last := items[|items| - 1];
      if HasText(last) then front + [StrField(last, "text").value] else front
  }

  /** The list comprehension over the loaded data: it raises at the first
      element that is not an object, so there is a result only when every
      element is one. */
  function MessageTexts(items: seq<Item>): Option<seq<string>>
  {
    if AllObjects(items) then Some(TextsOf(items)) else None
  }

  /** No text is found exactly when no message has a non-blank string text. */
  lemma {:induction false} TextsOfEmpty(items: seq<Item>)
    requires AllObjects(items)
    ensures TextsOf(items) == [] <==> forall k :: 0 <= k < |items| ==> !HasText(items[k])
    decreases |items|
  {
    if items != [] {
      var front, last := items[..|items| - 1], items[|items| - 1];
      assert AllObjects(front) by {
        forall k | 0 <= k < |front| ensures front[k].Obj? {
          assert front[k] == items[k];
        }
      }
      TextsOfEmpty(front);
      if HasText(last) {
        assert |TextsOf(items)| == |TextsOf(front)| + 1;
      } else {
        assert TextsOf(items) == TextsOf(front);
        if forall k :: 0 <= k < |front| ==> !HasText(front[k]) {
          forall k | 0 <= k < |items| ensures !HasText(items[k]) {
            if k < |front| {
              assert items[k] == front[k];
            } else {
              assert items[k] == last;
            }
          }
        } else {
          var k :| 0 <= k < |front| && HasText(front[k]);
          assert items[k] == front[k];
        }
      }
    }
  }

  /** A selected text is the string text of a message that has a non-blank
      one, and every such message contributes its text. */
  lemma {:induction false} TextsOfMembers(items: seq<Item>, s: string)
    requires AllObjects(items)
    ensures s in TextsOf(items) <==> TextFrom(items, s)
    decreases |items|
  {
    if items != [] {
      var front, n := items[..|items| - 1], |items| - 1;
      TextsOfSnoc(items);
      TextsOfMembers(front, s);
      var own := HasText(items[n]) && StrField(items[n], "text").value == s;
      assert s in TextsOf(items) <==> s in TextsOf(front) || own;
      FromSnoc(items, s);
    }
  }

  /** A text of the longer list comes from its front or its last message. */
  lemma FromSnoc(items: seq<Item>, s: string)
    requires items != [] && AllObjects(items)
    ensures AllObjects(items[..|items| - 1])
    ensures TextFrom(items, s) <==>
      (TextFrom(items[..|items| - 1], s)
       || (HasText(items[|items| - 1]) && StrField(items[|items| - 1], "text").value == s))
  {
    AllObjectsFront(items);
    var gives := (item: Item) => item.Obj? && HasText(item) && StrField(item, "text").value == s;
    AnySnoc(items, gives);
    assert TextFrom(items, s) == AnyOf(items, gives);
    assert TextFrom(items[..|items| - 1], s) == AnyOf(items[..|items| - 1], gives);
  }

  /** Some element of `xs` satisfies `p`. */
  predicate AnyOf<T>(xs: seq<T>, p: T -> bool) {
    exists k :: 0 <= k < |xs| && p(xs[k])
  }

  /** Some element of a non-empty sequence satisfies `p` exactly when one of
      its front does or its last one does. */
  lemma AnySnoc<T>(xs: seq<T>, p: T -> bool)
    requires xs != []
    ensures AnyOf(xs, p) <==> AnyOf(xs[..|xs| - 1], p) || p(xs[|xs| - 1])
  {
    var front := xs[..|xs| - 1];
    if AnyOf(xs, p) {
      var k :| 0 <= k < |xs| && p(xs[k]);
      if k < |front| {
        assert p(front[k]);
      }
    }
    if AnyOf(front, p) {
      var k :| 0 <= k < |front| && p(front[k]);
      assert xs[k] == front[k];
    }
  }

  /** Some message has `s` as its non-blank string text. */
  predicate TextFrom(items: seq<Item>, s: string)
    requires AllObjects(items)
  {
    exists k :: 0 <= k < |items| && HasText(items[k]) && StrField(items[k], "text").value == s
  }

  /** One text is selected per message with a non-blank string text. */
  lemma {:induction false} TextsOfCount(items: seq<Item>)
    requires AllObjects(items)
    ensures |TextsOf(items)| == |TextIndices(items)|
    decreases |items|
  {
    if items == [] {
      assert TextIndices(items) == {};
    } else {
      var front := items[..|items| - 1];
      AllObjectsFront(items);
      TextsOfCount(front);
      IndicesSnoc(items);
      TextsOfSnoc(items);
      assert |front| !in TextIndices(front);
    }
  }

  /** One more message appends its text exactly when it has one. */
  lemma TextsOfSnoc(items: seq<Item>)
    requires items != [] && AllObjects(items)
    ensures AllObjects(items[..|items| - 1])
    ensures TextsOf(items) == TextsOf(items[..|items| - 1])
      + if HasText(items[|items| - 1]) then [StrField(items[|items| - 1], "text").value] else []
  {
    AllObjectsFront(items);
  }

  /** One more message adds its own position exactly when it has a text. */
  lemma IndicesSnoc(items: seq<Item>)
    requires items != [] && AllObjects(items)
    ensures AllObjects(items[..|items| - 1])
    ensures TextIndices(items) == TextIndices(items[..|items| - 1])
      + if HasText(items[|items| - 1]) then {|items| - 1} else {}
  {
    AllObjectsFront(items);
    var has := (item: Item) => item.Obj? && HasText(item);
    WhereSnoc(items, has);
    assert TextIndices(items) == Where(items, has);
    assert TextIndices(items[..|items| - 1]) == Where(items[..|items| - 1], has);
  }

  /** The positions of the elements that satisfy `p`. */
  function Where<T>(xs: seq<T>, p: T -> bool): set<int> {
    set k | 0 <= k < |xs| && p(xs[k])
  }

  lemma WhereSnoc<T>(xs: seq<T>, p: T -> bool)
    requires xs != []
    ensures Where(xs, p) == Where(xs[..|xs| - 1], p) + if p(xs[|xs| - 1]) then {|xs| - 1} else {}
  {
    var front := xs[..|xs| - 1];
    forall k | 0 <= k < |front| ensures xs[k] == front[k] {
    }
  }

  lemma AllObjectsFront(items: seq<Item>)
    requires items != [] && AllObjects(items)
    ensures AllObjects(items[..|items| - 1])
  {
    var front := items[..|items| - 1];
    forall k | 0 <= k < |front| ensures front[k].Obj? {
      assert front[k] == items[k];
    }
  }

  /** The positions of the messages with a non-blank string text. */
  function TextIndices(items: seq<Item>): set<int>
    requires AllObjects(items)
  {
    set k | 0 <= k < |items| && HasText(items[k])
  }

  /** `t` is the non-empty infix of `raw` that `str.strip()` keeps: it starts
      after the leading white space, has no white space at either end, and
      only white space follows it in `raw`. */
  predicate StrippedFrom(raw: string, t: string) {
    && StripOffset(raw) + |t| <= |raw| && t == raw[StripOffset(raw)..StripOffset(raw) + |t|]
    && t != [] && !IsSpace(t[0]) && !IsSpace(t[|t| - 1])
    && forall i :: StripOffset(raw) + |t| <= i < |raw| ==> IsSpace(raw[i])
  }

  lemma StripNonBlank(raw: string)
    requires Strip(raw) != ""
    ensures StrippedFrom(raw, Strip(raw))
  {
  }

  lemma StripAllNonBlank(raw: seq<string>)
    requires forall k :: 0 <= k < |raw| ==> Strip(raw[k]) != ""
    ensures forall k :: 0 <= k < |raw| ==> StrippedFrom(raw[k], Strip(raw[k]))
  {
    forall k | 0 <= k < |raw| ensures StrippedFrom(raw[k], Strip(raw[k])) {
      StripNonBlank(raw[k]);
    }
  }

  /** `[msg['text'].strip() for msg in data if HasText(msg)]`: the texts the
      clustering and topic models are given. */
  function StrippedTexts(items: seq<Item>): (texts: seq<string>)
    requires AllObjects(items)
    ensures |texts| == |TextsOf(items)|
    ensures forall k :: 0 <= k < |texts| ==> StrippedFrom(TextsOf(items)[k], texts[k])
  {
    var raw := TextsOf(items);
    StripAllNonBlank(raw);
    seq(|raw|, k requires 0 <= k < |raw| => Strip(raw[k]))
  }
}
