/** `preprocess_text`: lower-case the text, cut out URLs, delete every
    character that is neither a word character nor white space, and collapse
    white space into single spaces. */
module Preprocessing {
  import opened Text

  /** The argument as the function sees it: it checks `isinstance(text, str)`. */
  datatype Value = Str(s: string) | NonStr

  /** Length of the leading run of non-white-space characters (`\S*`). */
  function NonSpaceRun(s: string): (n: nat)
    ensures n <= |s|
    ensures forall i :: 0 <= i < n ==> !IsSpace(s[i])
    ensures n == |s| || IsSpace(s[n])
  {
    if s == [] || IsSpace(s[0]) then 0 else 1 + NonSpaceRun(s[1..])
  }

  /** Length of the leading run of white space (`\s*`). */
  function SpaceRun(s: string): (n: nat)
    ensures n <= |s|
    ensures forall i :: 0 <= i < n ==> IsSpace(s[i])
    ensures n == |s| || !IsSpace(s[n])
  {
    if s == [] || !IsSpace(s[0]) then 0 else 1 + SpaceRun(s[1..])
  }

  /** The pattern `http\S+|www\.\S+` matches at the start of `s`. */
  predicate UrlAt(s: string) {
    |s| > 4 && (s[..4] == "http" || s[..4] == "www.") && !IsSpace(s[4])
  }

  /** `re.sub(r"http\S+|www\.\S+", "", s)`: scanning left to right, a match
      runs greedily up to the next white space and is deleted; elsewhere the
      scan moves on one character. */
  function RemoveUrls(s: string): (r: string)
    decreases |s|
  {
    if s == [] then ""
    else if UrlAt(s) then
      var n := NonSpaceRun(s);
      assert !IsSpace(s[0]) && !IsSpace(s[1]) && !IsSpace(s[2]) && !IsSpace(s[3]) by {
        assert s[..4][0] == s[0] && s[..4][1] == s[1] && s[..4][2] == s[2] && s[..4][3] == s[3];
      }
      RemoveUrls(s[n..])
    else [s[0]] + RemoveUrls(s[1..])
  }

  /** The characters `[^\w\s...]` spares: word characters and white space
      (the Cyrillic and Latin ranges listed beside them are already in `\w`). */
  predicate KeepChar(c: char) {
    IsWordChar(c) || IsSpace(c)
  }

  /** `re.sub(r"[^\w\sа-яА-Яa-zA-Z0-9]", "", s)` */
  function RemoveSymbols(s: string): (r: string)
    ensures forall i :: 0 <= i < |r| ==> KeepChar(r[i])
  {
    if s == [] then "" else (if KeepChar(s[0]) then [s[0]] else "") + RemoveSymbols(s[1..])
  }

  /** `re.sub(r"\s+", " ", s)`: every maximal white-space run becomes one space. */
  function CollapseRuns(s: string): (r: string)
    decreases |s|
  {
    if s == [] then ""
    else if IsSpace(s[0]) then " " + CollapseRuns(s[SpaceRun(s)..])
    else
      var n := NonSpaceRun(s);
      s[..n] + CollapseRuns(s[n..])
  }

  function PreprocessText(v: Value): string
  {
    match v
    case NonStr => ""
    case Str(s) => Strip(CollapseRuns(RemoveSymbols(RemoveUrls(Lower(s)))))
  }

  // ---------------------------------------------------------------------
  // Reference definitions

  /** Python's `s.split()`: the maximal non-white-space runs, in order. */
  function Words(s: string): (ws: seq<string>)
    decreases |s|
  {
    if s == [] then []
    else if IsSpace(s[0]) then Words(s[1..])
    else
      var n := NonSpaceRun(s);
      [s[..n]] + Words(s[n..])
  }

  /** The characters of `s` that satisfy `keep`, in order. */
  function Filter(s: string, keep: char -> bool): (r: string)
    ensures |r| <= |s|
  {
    if s == [] then "" else (if keep(s[0]) then [s[0]] else "") + Filter(s[1..], keep)
  }

  predicate NotSpace(c: char) { !IsSpace(c) }

  /** `a` is obtained from `b` by deleting characters. */
  predicate IsSubsequence(a: string, b: string)
    decreases |b|
  {
    if a == [] then true
    else if b == [] then false
    else if a[0] == b[0] then IsSubsequence(a[1..], b[1..])
    else IsSubsequence(a, b[1..])
  }

  // ---------------------------------------------------------------------
  // URL removal

  /** White space is never part of a URL match, so a leading space survives. */
  lemma SpaceSurvives(s: string)
    requires s != [] && IsSpace(s[0])
    ensures RemoveUrls(s) != [] && RemoveUrls(s)[0] == s[0]
  {
    assert !UrlAt(s) by {
      if |s| > 4 { assert s[..4][0] == s[0]; }
    }
  }

  /** After a URL at the start the result is empty or starts with the
      white space that ended it. */
  lemma UrlLeavesBlank(x: string)
    requires UrlAt(x)
    ensures RemoveUrls(x) == [] || IsSpace(RemoveUrls(x)[0])
  {
    var n := NonSpaceRun(x);
    assert RemoveUrls(x) == RemoveUrls(x[n..]);
    if n < |x| {
      SpaceSurvives(x[n..]);
    } else {
      assert x[n..] == [];
    }
  }

  /** A non-white-space prefix of the result is copied from the input. */
  lemma {:induction false} NonSpacePrefixCopied(x: string, m: nat)
    requires m <= |RemoveUrls(x)|
    requires forall i :: 0 <= i < m ==> !IsSpace(RemoveUrls(x)[i])
    ensures m <= |x| && RemoveUrls(x)[..m] == x[..m]
    decreases m
  {
    if m > 0 {
      if x == [] {
      } else if UrlAt(x) {
        UrlLeavesBlank(x);
        assert false;
      } else {
        var r, rest := RemoveUrls(x), RemoveUrls(x[1..]);
        assert r == [x[0]] + rest;
        forall i | 0 <= i < m - 1 ensures !IsSpace(rest[i]) {
          assert rest[i] == r[i + 1];
        }
        NonSpacePrefixCopied(x[1..], m - 1);
        calc {
          r[..m];
          [x[0]] + rest[..m - 1];
          [x[0]] + x[1..][..m - 1];
          x[..m];
        }
      }
    }
  }

  /** No URL is left anywhere in the result: after a match the scan resumes
      at white space, so no later suffix can start a new match. */
  lemma {:induction false} NoUrlRemains(s: string)
    ensures forall i :: 0 <= i < |RemoveUrls(s)| ==> !UrlAt(RemoveUrls(s)[i..])
    decreases |s|
  {
    if s == [] {
    } else if UrlAt(s) {
      var n := NonSpaceRun(s);
      assert n > 4 by {
        assert s[..4][0] == s[0] && s[..4][1] == s[1] && s[..4][2] == s[2] && s[..4][3] == s[3];
      }
      NoUrlRemains(s[n..]);
    } else {
      var rest := RemoveUrls(s[1..]);
      var r := RemoveUrls(s);
      assert r == [s[0]] + rest;
      NoUrlRemains(s[1..]);
      forall i | 0 <= i < |r|
        ensures !UrlAt(r[i..])
      {
        if i > 0 {
          assert r[i..] == rest[i - 1..];
        } else {
          NoUrlAtHead(s);
        }
      }
    }
  }

  /** When no URL starts the input, none starts the result either. */
  lemma NoUrlAtHead(s: string)
    requires s != [] && !UrlAt(s)
    ensures !UrlAt(RemoveUrls(s))
  {
    var rest := RemoveUrls(s[1..]);
    var r := RemoveUrls(s);
    if UrlAt(r) {
      assert |rest| >= 4 && forall j :: 0 <= j < 4 ==> !IsSpace(rest[j]) by {
        assert r == [s[0]] + rest;
        UrlHeadNoSpace(r);
        assert rest[0] == r[1] && rest[1] == r[2] && rest[2] == r[3] && rest[3] == r[4];
      }
      assert UrlAt([s[0]] + rest) by {
        assert r == [s[0]] + rest;
      }
      assert [s[0]] + s[1..] == s;
      NonSpacePrefixCopied(s[1..], 4);
      UrlAtSameStart(s[0], rest, s[1..]);
      assert false;
    }
  }

  /** A URL match starts with five characters that are not white space. */
  lemma UrlHeadNoSpace(r: string)
    requires UrlAt(r)
    ensures |r| > 4 && forall j :: 0 <= j <= 4 ==> !IsSpace(r[j])
  {
    assert r[..4][0] == r[0] && r[..4][1] == r[1] && r[..4][2] == r[2] && r[..4][3] == r[3];
  }

  /** Whether a URL starts a text depends on its first five characters only. */
  lemma UrlAtSameStart(c: char, x: string, y: string)
    requires |x| >= 4 && |y| >= 4 && x[..4] == y[..4]
    ensures UrlAt([c] + x) ==> UrlAt([c] + y)
  {
    if UrlAt([c] + x) {
      assert ([c] + x)[..4] == [c] + x[..3] == [c] + y[..3] == ([c] + y)[..4];
      assert ([c] + x)[4] == x[3] == y[3];
    }
  }

  /** On text that holds no URL the removal changes nothing. */
  lemma {:induction false} RemoveUrlsIdentity(s: string)
    requires forall i :: 0 <= i < |s| ==> !UrlAt(s[i..])
    ensures RemoveUrls(s) == s
    decreases |s|
  {
    if s != [] {
      assert !UrlAt(s[0..]);
      assert s[0..] == s;
      forall i | 0 <= i < |s[1..]| ensures !UrlAt(s[1..][i..]) {
        assert s[1..][i..] == s[i + 1..];
      }
      RemoveUrlsIdentity(s[1..]);
    }
  }

  /** Removing URLs is idempotent. */
  lemma RemoveUrlsIdempotent(s: string)
    ensures RemoveUrls(RemoveUrls(s)) == RemoveUrls(s)
  {
    NoUrlRemains(s);
    RemoveUrlsIdentity(RemoveUrls(s));
  }

  /** URL removal only deletes characters. */
  lemma {:induction false} RemoveUrlsDeletesOnly(s: string)
    ensures IsSubsequence(RemoveUrls(s), s)
    decreases |s|
  {
    if s == [] {
    } else if UrlAt(s) {
      var n := NonSpaceRun(s);
      assert n > 4 by {
        assert s[..4][0] == s[0] && s[..4][1] == s[1] && s[..4][2] == s[2] && s[..4][3] == s[3];
      }
      RemoveUrlsDeletesOnly(s[n..]);
      SubsequenceOfSuffix(RemoveUrls(s[n..]), s, n);
    } else {
      RemoveUrlsDeletesOnly(s[1..]);
      assert ([s[0]] + RemoveUrls(s[1..]))[1..] == RemoveUrls(s[1..]);
    }
  }

  /** A subsequence of a suffix is a subsequence of the whole. */
  lemma {:induction false} SubsequenceOfSuffix(a: string, b: string, n: nat)
    requires n <= |b| && IsSubsequence(a, b[n..])
    ensures IsSubsequence(a, b)
    decreases n
  {
    if n > 0 {
      assert b[1..][n - 1..] == b[n..];
      SubsequenceOfSuffix(a, b[1..], n - 1);
      SubsequenceCons(a, b);
    }
  }

  /** A subsequence of `b[1..]` is a subsequence of `b`. */
  lemma {:induction false} SubsequenceCons(a: string, b: string)
    requires b != [] && IsSubsequence(a, b[1..])
    ensures IsSubsequence(a, b)
    decreases |b|, 1
  {
    if a != [] && a[0] == b[0] {
      SubsequenceDropFront(a, b[1..]);
    }
  }

  /** Dropping the first character keeps a subsequence a subsequence. */
  lemma {:induction false} SubsequenceDropFront(a: string, b: string)
    requires a != [] && IsSubsequence(a, b)
    ensures IsSubsequence(a[1..], b)
    decreases |b|, 2
  {
    if a[0] == b[0] {
      SubsequenceCons(a[1..], b);
    } else {
      SubsequenceDropFront(a, b[1..]);
      SubsequenceCons(a[1..], b);
    }
  }

  /** Deleting characters twice is deleting characters. */
  lemma {:induction false} SubsequenceTransitive(a: string, b: string, c: string)
    requires IsSubsequence(a, b) && IsSubsequence(b, c)
    ensures IsSubsequence(a, c)
    decreases |c|
  {
    if a == [] || c == [] {
    } else if b[0] == c[0] {
      if a[0] == b[0] {
        SubsequenceTransitive(a[1..], b[1..], c[1..]);
      } else {
        SubsequenceTransitive(a, b[1..], c[1..]);
        SubsequenceCons(a, c);
      }
    } else {
      SubsequenceTransitive(a, b, c[1..]);
      SubsequenceCons(a, c);
    }
  }

  /** Filtering only deletes characters. */
  lemma {:induction false} FilterDeletesOnly(s: string, keep: char -> bool)
    ensures IsSubsequence(Filter(s, keep), s)
    decreases |s|
  {
    if s != [] {
      FilterDeletesOnly(s[1..], keep);
      if keep(s[0]) {
        assert Filter(s, keep)[1..] == Filter(s[1..], keep);
      } else {
        assert Filter(s, keep) == Filter(s[1..], keep);
        SubsequenceCons(Filter(s, keep), s);
      }
    }
  }

  // ---------------------------------------------------------------------
  // Filtering

  lemma {:induction false} FilterConcat(a: string, b: string, keep: char -> bool)
    ensures Filter(a + b, keep) == Filter(a, keep) + Filter(b, keep)
    decreases |a|
  {
    if a == [] {
      assert a + b == b;
    } else {
      FilterConcat(a[1..], b, keep);
      var h := if keep(a[0]) then [a[0]] else "";
      assert (a + b)[0] == a[0] && (a + b)[1..] == a[1..] + b;
      assert Filter(a + b, keep) == h + Filter(a[1..] + b, keep);
      assert Filter(a, keep) == h + Filter(a[1..], keep);
      Reassociate(h, Filter(a[1..], keep), Filter(b, keep));
    }
  }

  lemma Reassociate(a: string, b: string, c: string)
    ensures a + (b + c) == (a + b) + c
  {
  }

  lemma {:induction false} FilterKeepsAll(a: string, keep: char -> bool)
    requires forall i :: 0 <= i < |a| ==> keep(a[i])
    ensures Filter(a, keep) == a
    decreases |a|
  {
    if a != [] {
      FilterKeepsAll(a[1..], keep);
    }
  }

  lemma {:induction false} FilterDropsAll(a: string, keep: char -> bool)
    requires forall i :: 0 <= i < |a| ==> !keep(a[i])
    ensures Filter(a, keep) == ""
    decreases |a|
  {
    if a != [] {
      FilterDropsAll(a[1..], keep);
    }
  }

  /** Collapsing white space keeps every other character, in order. */
  lemma {:induction false} CollapseKeepsNonSpace(t: string)
    ensures Filter(CollapseRuns(t), NotSpace) == Filter(t, NotSpace)
    decreases |t|
  {
    if t != [] {
      var n := if IsSpace(t[0]) then SpaceRun(t) else NonSpaceRun(t);
      var head, rest := t[..n], t[n..];
      assert t == head + rest;
      FilterConcat(head, rest, NotSpace);
      CollapseKeepsNonSpace(rest);
      if IsSpace(t[0]) {
        assert CollapseRuns(t) == " " + CollapseRuns(rest);
        FilterDropsAll(head, NotSpace);
        FilterConcat(" ", CollapseRuns(rest), NotSpace);
        assert Filter(" ", NotSpace) == "";
        calc {
          Filter(CollapseRuns(t), NotSpace);
          Filter(" ", NotSpace) + Filter(CollapseRuns(rest), NotSpace);
          Filter(rest, NotSpace);
          Filter(head, NotSpace) + Filter(rest, NotSpace);
        }
      } else {
        assert CollapseRuns(t) == head + CollapseRuns(rest);
        FilterKeepsAll(head, NotSpace);
        FilterConcat(head, CollapseRuns(rest), NotSpace);
      }
    }
  }

  lemma SplitThree(x: string, i: nat, j: nat)
    requires i <= j <= |x|
    ensures x == x[..i] + x[i..j] + x[j..]
  {
  }

  /** Stripping only removes white space. */
  lemma StripKeepsNonSpace(x: string)
    ensures Filter(Strip(x), NotSpace) == Filter(x, NotSpace)
  {
    var lo, r := StripOffset(x), Strip(x);
    SplitThree(x, lo, lo + |r|);
    FilterAroundDropped(x[..lo], r, x[lo + |r|..], NotSpace);
  }

  /** Filtering a piece flanked by dropped characters keeps only the piece's. */
  lemma FilterAroundDropped(front: string, r: string, back: string, keep: char -> bool)
    requires forall i :: 0 <= i < |front| ==> !keep(front[i])
    requires forall i :: 0 <= i < |back| ==> !keep(back[i])
    ensures Filter(front + r + back, keep) == Filter(r, keep)
  {
    FilterConcat(front + r, back, keep);
    FilterConcat(front, r, keep);
    FilterDropsAll(front, keep);
    FilterDropsAll(back, keep);
  }

  /** The non-space characters left by symbol removal are its word characters. */
  lemma {:induction false} SymbolsLeaveWordChars(u: string)
    ensures Filter(RemoveSymbols(u), NotSpace) == Filter(u, IsWordChar)
    decreases |u|
  {
    if u != [] {
      SymbolsLeaveWordChars(u[1..]);
      var head := if KeepChar(u[0]) then [u[0]] else "";
      FilterConcat(head, RemoveSymbols(u[1..]), NotSpace);
    }
  }

  // ---------------------------------------------------------------------
  // Collapsing white space

  /** `" "` when `t` starts with white space. */
  function Lead(t: string): string {
    if t != [] && IsSpace(t[0]) then " " else ""
  }

  /** `" "` when `t` ends with white space after some word. */
  function Trail(t: string): string {
    if t != [] && IsSpace(t[|t| - 1]) && Words(t) != [] then " " else ""
  }

  lemma {:induction false} WordsSkipSpaces(t: string, n: nat)
    requires n <= |t| && forall i :: 0 <= i < n ==> IsSpace(t[i])
    ensures Words(t) == Words(t[n..])
    decreases n
  {
    if n > 0 {
      assert t[1..][n - 1..] == t[n..];
      WordsSkipSpaces(t[1..], n - 1);
    }
  }

  lemma {:induction false} NoWordsAllSpace(t: string)
    requires Words(t) == []
    ensures forall i :: 0 <= i < |t| ==> IsSpace(t[i])
    decreases |t|
  {
    if t != [] {
      NoWordsAllSpace(t[1..]);
      assert forall i :: 1 <= i < |t| ==> t[i] == t[1..][i - 1];
    }
  }

  /** The regular-expression collapse equals the word list joined by single
      spaces, with one space kept for white space at either end. */
  lemma {:induction false} CollapseIsJoinedWords(t: string)
    ensures CollapseRuns(t) == Lead(t) + Join(Words(t), " ") + Trail(t)
    decreases |t|, 1
  {
    if t == [] {
    } else if IsSpace(t[0]) {
      CollapseSpaceCase(t);
    } else {
      CollapseWordCase(t);
    }
  }

  lemma {:induction false} CollapseSpaceCase(t: string)
    requires t != [] && IsSpace(t[0])
    ensures CollapseRuns(t) == Lead(t) + Join(Words(t), " ") + Trail(t)
    decreases |t|, 0
  {
    var n := SpaceRun(t);
    var t' := t[n..];
    assert CollapseRuns(t) == " " + CollapseRuns(t');
    assert Lead(t) == " ";
    WordsSkipSpaces(t, n);
    CollapseIsJoinedWords(t');
    if t' == [] {
      assert Words(t) == [];
    } else {
      SameTrail(t, n);
      assert Lead(t') == "";
      calc {
        CollapseRuns(t);
        " " + CollapseRuns(t');
        " " + ("" + Join(Words(t'), " ") + Trail(t'));
        { assert "" + Join(Words(t'), " ") == Join(Words(t'), " "); }
        " " + (Join(Words(t), " ") + Trail(t));
        { AppendAssoc(" ", Join(Words(t), " "), Trail(t)); }
        " " + Join(Words(t), " ") + Trail(t);
      }
    }
  }

  lemma AppendAssoc(a: string, b: string, c: string)
    ensures a + (b + c) == a + b + c
  {
  }

  /** Cutting leading white space off a text that keeps some character
      changes neither its words nor its trailing space. */
  lemma SameTrail(t: string, n: nat)
    requires n < |t| && Words(t) == Words(t[n..])
    ensures Trail(t[n..]) == Trail(t)
  {
    var u := t[n..];
    assert u[|u| - 1] == t[|t| - 1];
    if IsSpace(t[|t| - 1]) && Words(t) != [] {
      assert Trail(t) == " " && Trail(u) == " ";
    } else {
      assert Trail(t) == "" && Trail(u) == "";
    }
  }

  lemma {:induction false} CollapseWordCase(t: string)
    requires t != [] && !IsSpace(t[0])
    ensures CollapseRuns(t) == Lead(t) + Join(Words(t), " ") + Trail(t)
    decreases |t|, 0
  {
    var n := NonSpaceRun(t);
    var w, t' := t[..n], t[n..];
    var c' := CollapseRuns(t');
    assert CollapseRuns(t) == w + c';
    assert Lead(t) == "";
    assert Words(t) == [w] + Words(t');
    CollapseIsJoinedWords(t');
    var j := Join(Words(t), " ");
    if t' == [] {
      assert t[|t| - 1] == w[n - 1];
      assert c' == "" && j == w && Trail(t) == "";
    } else if Words(t') == [] {
      NoWordsAllSpace(t');
      assert t'[|t'| - 1] == t[|t| - 1];
      assert c' == " " && j == w && Trail(t) == " ";
    } else {
      var j' := Join(Words(t'), " ");
      JoinCons(w, Words(t'));
      WordThenTrail(t, n);
      assert c' == " " + j' + Trail(t);
      assert j == w + " " + j';
      Regroup(w, j', Trail(t));
    }
  }

  lemma Regroup(w: string, j: string, tr: string)
    ensures w + (" " + j + tr) == "" + (w + " " + j) + tr
  {
  }

  lemma JoinCons(w: string, ws: seq<string>)
    requires ws != []
    ensures Join([w] + ws, " ") == w + " " + Join(ws, " ")
  {
    assert ([w] + ws)[1..] == ws;
  }

  /** After a leading word, the rest starts with white space and, if it holds
      another word, ends the same way as the whole text. */
  lemma WordThenTrail(t: string, n: nat)
    requires t != [] && !IsSpace(t[0]) && n == NonSpaceRun(t) && n < |t|
    requires Words(t) == [t[..n]] + Words(t[n..]) && Words(t[n..]) != []
    ensures Lead(t[n..]) == " " && Trail(t) == Trail(t[n..])
  {
    assert t[n..][0] == t[n];
    assert Words(t) != [];
    assert t[n..][|t[n..]| - 1] == t[|t| - 1];
  }

  predicate AllWordChars(w: string) {
    forall i :: 0 <= i < |w| ==> IsWordChar(w[i])
  }

  /** Once only word characters and white space are left, every word is made
      of word characters. */
  lemma {:induction false} WordsOfKept(t: string)
    requires forall i :: 0 <= i < |t| ==> KeepChar(t[i])
    ensures forall k :: 0 <= k < |Words(t)| ==> Words(t)[k] != "" && AllWordChars(Words(t)[k])
    decreases |t|
  {
    if t != [] {
      var n := if IsSpace(t[0]) then 1 else NonSpaceRun(t);
      WordsOfKept(t[n..]);
    }
  }

  /** Only word characters and spaces, a word character at either end, and
      never two spaces in a row. */
  predicate Normalized(j: string) {
    && (forall i :: 0 <= i < |j| ==> IsWordChar(j[i]) || j[i] == ' ')
    && (j == [] || (IsWordChar(j[0]) && IsWordChar(j[|j| - 1])))
    && (forall i :: 0 <= i < |j| - 1 && j[i] == ' ' ==> IsWordChar(j[i + 1]))
  }

  /** Words of word characters joined by single spaces are normalized. */
  lemma {:induction false} JoinedWordsShape(ws: seq<string>)
    requires forall k :: 0 <= k < |ws| ==> ws[k] != "" && AllWordChars(ws[k])
    ensures Normalized(Join(ws, " "))
    decreases |ws|
  {
    if |ws| >= 2 {
      JoinedWordsShape(ws[1..]);
      var w, j' := ws[0], Join(ws[1..], " ");
      var j := w + " " + j';
      assert Join(ws, " ") == j;
      forall i | 0 <= i < |j|
        ensures IsWordChar(j[i]) || j[i] == ' '
      {
        if i > |w| { assert j[i] == j'[i - |w| - 1]; }
      }
      forall i | 0 <= i < |j| - 1 && j[i] == ' '
        ensures IsWordChar(j[i + 1])
      {
        if i > |w| { assert j[i] == j'[i - |w| - 1] && j[i + 1] == j'[i - |w|]; }
      }
    }
  }

  /** `preprocess_text` on a string is `" ".join(t.split())`, where `t` is the
      lower-cased text after URL and symbol removal. */
  lemma PreprocessIsJoinedWords(s: string)
    ensures PreprocessText(Str(s)) == Join(Words(RemoveSymbols(RemoveUrls(Lower(s)))), " ")
  {
    StripCollapseIsJoin(RemoveSymbols(RemoveUrls(Lower(s))));
  }

  /** On a text of word characters and white space, collapsing the runs and
      stripping gives the words joined by single spaces. */
  lemma StripCollapseIsJoin(t: string)
    requires forall i :: 0 <= i < |t| ==> KeepChar(t[i])
    ensures Strip(CollapseRuns(t)) == Join(Words(t), " ")
  {
    var j := Join(Words(t), " ");
    assert j == [] || (!IsSpace(j[0]) && !IsSpace(j[|j| - 1])) by {
      WordsOfKept(t);
      JoinedWordsShape(Words(t));
      if j != [] {
        WordCharNotSpace(j[0]);
        WordCharNotSpace(j[|j| - 1]);
      }
    }
    assert CollapseRuns(t) == Lead(t) + j + Trail(t) by {
      CollapseIsJoinedWords(t);
    }
    StripPadded(Lead(t), j, Trail(t));
  }

  /** A piece with no white space at its ends, with at most one space on
      either side, strips to the piece. */
  lemma StripPadded(lead: string, j: string, trail: string)
    requires lead == "" || lead == " "
    requires trail == "" || trail == " "
    requires j == [] || (!IsSpace(j[0]) && !IsSpace(j[|j| - 1]))
    ensures Strip(lead + j + trail) == j
  {
    var x := lead + j + trail;
    PaddedParts(lead, j, trail, x);
    TrimmedInfixIsStrip(x, |lead|, |j|);
  }

  /** Where the piece and the spaces around it sit in `lead + j + trail`. */
  lemma PaddedParts(lead: string, j: string, trail: string, x: string)
    requires lead == "" || lead == " "
    requires trail == "" || trail == " "
    requires j == [] || (!IsSpace(j[0]) && !IsSpace(j[|j| - 1]))
    requires x == lead + j + trail
    ensures |lead| + |j| <= |x| && x[|lead|..|lead| + |j|] == j
    ensures forall i :: 0 <= i < |lead| ==> IsSpace(x[i])
    ensures forall i :: |lead| + |j| <= i < |x| ==> IsSpace(x[i])
    ensures |j| == 0 || (!IsSpace(x[|lead|]) && !IsSpace(x[|lead| + |j| - 1]))
  {
    var lo := |lead|;
    assert x[lo..lo + |j|] == j;
    forall i | 0 <= i < lo ensures IsSpace(x[i]) {
      assert x[i] == lead[i];
    }
    forall i | lo + |j| <= i < |x| ensures IsSpace(x[i]) {
      assert x[i] == trail[i - lo - |j|];
    }
    if j != [] {
      assert x[lo] == j[0] && x[lo + |j| - 1] == j[|j| - 1];
    }
  }

  /** The result holds only word characters and spaces, has no space at
      either end and never two spaces in a row; a value that is not a
      string gives the empty string. */
  lemma PreprocessTextShape(v: Value)
    ensures Normalized(PreprocessText(v))
    ensures v.NonStr? ==> PreprocessText(v) == ""
  {
    if v.Str? {
      var t := RemoveSymbols(RemoveUrls(Lower(v.s)));
      PreprocessIsJoinedWords(v.s);
      WordsOfKept(t);
      JoinedWordsShape(Words(t));
    }
  }

  /** The non-space characters of the result are exactly the word characters
      left after URL removal, in order, and they come from the lower-cased
      input by deletion alone. */
  lemma PreprocessTextDeletesOnly(s: string)
    ensures var u := RemoveUrls(Lower(s));
            var r := PreprocessText(Str(s));
            && Filter(r, NotSpace) == Filter(u, IsWordChar)
            && IsSubsequence(Filter(r, NotSpace), Lower(s))
  {
    var u := RemoveUrls(Lower(s));
    var t := RemoveSymbols(u);
    StripKeepsNonSpace(CollapseRuns(t));
    CollapseKeepsNonSpace(t);
    SymbolsLeaveWordChars(u);
    FilterDeletesOnly(u, IsWordChar);
    RemoveUrlsDeletesOnly(Lower(s));
    SubsequenceTransitive(Filter(u, IsWordChar), u, Lower(s));
  }

  /** If `x` is white space around a piece with no white space at its ends,
      stripping `x` yields that piece. */
  lemma TrimmedInfixIsStrip(x: string, lo: nat, len: nat)
    requires lo + len <= |x|
    requires forall i :: 0 <= i < lo ==> IsSpace(x[i])
    requires forall i :: lo + len <= i < |x| ==> IsSpace(x[i])
    requires len == 0 || (!IsSpace(x[lo]) && !IsSpace(x[lo + len - 1]))
    ensures Strip(x) == x[lo..lo + len]
  {
    var r := Strip(x);
    var off := StripOffset(x);
    if len == 0 {
      assert forall i :: 0 <= i < |x| ==> IsSpace(x[i]);
    } else {
      assert off == lo;
      assert |r| == len;
    }
  }
}
