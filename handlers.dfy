/** `universal_handler` of the Telegram bot: one inbound text at a time,
    acting on the two module-level dictionaries `user_states` (user id to
    session) and `analysis_cache` (chat link to the paths of its results).
    The file system and the analysis call are parameters (`World`); the
    replies are returned in the order the handler sends them. */
module Handlers {
  import opened Text
  import opened Messages
  import opened Formatting
  import opened Paths

  /** The three buttons of the menu keyboard. */
  const UserActivityButton := "\U{1F4CA} User Activity"
  const MessageActivityButton := "\U{1F4DD} Message Activity"
  const RestartButton := "\U{1F504} Restart Analysis"

  /** The longest text sent in one reply. */
  const ChunkSize: nat := 4000

  const Ready := "ready"

  const LinkFirst := "Please send me a Telegram chat/group link to analyze first."
  const NoUserChart := "\U{26A0}\U{FE0F} User activity graph not found."
  const NoMessageChart := "\U{26A0}\U{FE0F} Message activity graph not found."
  const SendNewLink := "Send me a new Telegram chat/group link to analyze:"
  const ChooseOption := "Choose an option:"
  const Processing := "\U{23F3} Processing your request... Please wait a moment."
  const ReportFailed := "\U{26A0}\U{FE0F} Failed to generate the report. Please try again later."
  const AnalysisError := "\U{274C} An unexpected error occurred during analysis."
  const Greeting := "Hello, please send a valid Telegram group link (e.g., https://t.me/yourgroup)."

  /** An entry of `user_states`. */
  datatype Session = Session(status: string, userActivityPath: string, messageActivityPath: string)

  /** An entry of `analysis_cache`. */
  datatype CachedPaths = CachedPaths(reportPath: string, userActivityPath: string, messageActivityPath: string)

  datatype Reply =
    | Say(text: string)              // `message.answer(text)`
    | SayMarkdown(text: string)      // `message.answer(text, parse_mode=MARKDOWN_V2)`
    | SendPhoto(path: string)        // `message.answer_photo(FSInputFile(path))`
    | ShowMenu(text: string)         // `message.answer(text, reply_markup=menu_kb)`
    | HideMenu(text: string)         // `message.answer(text, reply_markup=ReplyKeyboardRemove())`

  /** What the handler sees outside its two dictionaries: whether a path
      exists, what reading a file gives (`None` when `open` raises), what
      the analysis call returns for a link (`None` when it raises), and the
      bot's results directory. */
  datatype World = World(fileExists: string -> bool, read: string -> Option<string>,
                         analyze: string -> Option<string>, resultsDir: string)

  /** The dictionaries after one message, the replies sent, and whether an
      exception escaped the handler. */
  datatype Step = Step(userStates: map<int, Session>, cache: map<string, CachedPaths>,
                       replies: seq<Reply>, raised: bool)

  predicate IsMenuLabel(text: string) {
    text == UserActivityButton || text == MessageActivityButton || text == RestartButton
  }

  predicate IsLink(text: string) {
    StartsWith(text, "https://t.me/") || StartsWith(text, "@")
  }

  /** `[content[i:i + n] for i in range(0, len(content), n)]` */
  function Chunks(content: string, n: nat): seq<string>
    requires n > 0
    decreases |content|
  {
    if content == [] then []
    else if |content| <= n then [content]
    else [content[..n]] + Chunks(content[n..], n)
  }

  /** One reply per chunk, plain or in MarkdownV2. */
  function SayAll(chunks: seq<string>, markdown: bool): (r: seq<Reply>)
    ensures |r| == |chunks|
    ensures forall k :: 0 <= k < |r| ==> r[k] == (if markdown then SayMarkdown(chunks[k]) else Say(chunks[k]))
  {
    if chunks == [] then []
    else SayAll(chunks[..|chunks| - 1], markdown)
         + [if markdown then SayMarkdown(chunks[|chunks| - 1]) else Say(chunks[|chunks| - 1])]
  }

  /** The photo at `path` if there is one, else the not-found line. */
  function PhotoOr(path: string, missing: string, w: World): Reply {
    if path != "" && w.fileExists(path) then SendPhoto(path) else Say(missing)
  }

  /** The session of a user whose results are at `paths`. */
  function ReadySession(paths: CachedPaths): Session {
    Session(Ready, paths.userActivityPath, paths.messageActivityPath)
  }

  /** A menu button. */
  function MenuStep(states: map<int, Session>, cache: map<string, CachedPaths>, user: int,
                    text: string, w: World): Step
  {
    if user !in states || states[user].status != Ready then Step(states, cache, [Say(LinkFirst)], false)
    else if text == UserActivityButton then
      Step(states, cache, [PhotoOr(states[user].userActivityPath, NoUserChart, w)], false)
    else if text == MessageActivityButton then
      Step(states, cache, [PhotoOr(states[user].messageActivityPath, NoMessageChart, w)], false)
    else Step(states - {user}, cache, [HideMenu(SendNewLink)], false)
  }

  /** A link already in the cache: its report is read outside the `try`. */
  function CachedStep(states: map<int, Session>, cache: map<string, CachedPaths>, user: int,
                      text: string, w: World): Step
    requires text in cache
  {
    match w.read(cache[text].reportPath)
    case None => Step(states, cache, [], true)
    case Some(content) =>
      Step(states[user := ReadySession(cache[text])], cache,
           SayAll(Chunks(content, ChunkSize), false) + [ShowMenu(ChooseOption)], false)
  }

  /** The paths cached for a freshly analysed link. */
  function FreshPaths(reportPath: string, w: World): CachedPaths {
    CachedPaths(reportPath, JoinPath(w.resultsDir, "user_activity.png"),
                JoinPath(w.resultsDir, "message_activity.png"))
  }

  /** A link not in the cache: the analysis runs inside the `try`. */
  function FreshStep(states: map<int, Session>, cache: map<string, CachedPaths>, user: int,
                     text: string, w: World): Step
  {
    var start := [Say(Processing)];
    match w.analyze(text)
    case None => Step(states, cache, start + [Say(AnalysisError)], false)
    case Some(path) =>
      if path != "" && w.fileExists(path) then
        var paths := FreshPaths(path, w);
        match w.read(path)
        case None => Step(states, cache[text := paths], start + [Say(AnalysisError)], false)
        case Some(content) =>
          Step(states[user := ReadySession(paths)], cache[text := paths],
               start + SayAll(Chunks(FormatReport(content), ChunkSize), true) + [ShowMenu(ChooseOption)], false)
      else Step(states, cache, start + [Say(ReportFailed)], false)
  }

  /** `universal_handler` for a message from `user` whose text is `raw`
      (`None` for a message without text, on which `.strip()` raises). */
  function Handle(states: map<int, Session>, cache: map<string, CachedPaths>, user: int,
                  raw: Option<string>, w: World): Step
  {
    if raw == None then Step(states, cache, [], true)
    else
      var text := Strip(raw.value);
      if IsMenuLabel(text) then MenuStep(states, cache, user, text, w)
      else if IsLink(text) then
        if text in cache then CachedStep(states, cache, user, text, w)
        else FreshStep(states, cache, user, text, w)
      else Step(states, cache, [Say(Greeting)], false)
  }

  /** The chunks put back together give the content. */
  lemma {:induction false} ChunksConcat(content: string, n: nat)
    requires n > 0
    ensures Join(Chunks(content, n), "") == content
    decreases |content|
  {
    if content != [] && |content| > n {
      var rest := Chunks(content[n..], n);
      ChunksConcat(content[n..], n);
      if rest == [] {
        assert false;
      }
      assert Join([content[..n]] + rest, "") == content[..n] + Join(rest, "") by {
        JoinCons(content[..n], rest);
      }
      assert content == content[..n] + content[n..];
    }
  }

  lemma JoinCons(p: string, rest: seq<string>)
    requires rest != []
    ensures Join([p] + rest, "") == p + Join(rest, "")
  {
    assert ([p] + rest)[1..] == rest;
  }

  /** Every chunk but the last has exactly `n` characters, the last
      between 1 and `n`. */
  lemma {:induction false} ChunkSizes(content: string, n: nat)
    requires n > 0
    ensures var c := Chunks(content, n);
      && (forall k :: 0 <= k < |c| - 1 ==> |c[k]| == n)
      && (content != [] ==> c != [] && 0 < |c[|c| - 1]| <= n)
    decreases |content|
  {
    if |content| > n {
      var rest := Chunks(content[n..], n);
      ChunkSizes(content[n..], n);
      var c := Chunks(content, n);
      assert c == [content[..n]] + rest;
      forall k | 0 <= k < |c| - 1 ensures |c[k]| == n {
        if k > 0 {
          assert c[k] == rest[k - 1];
        }
      }
    }
  }

  /** There are as many chunks as `range(0, len(content), n)` has steps:
      the fewest pieces of at most `n` characters that hold the content. */
  lemma {:induction false} ChunkCount(content: string, n: nat)
    requires n > 0
    ensures |Chunks(content, n)| * n - n < |content| <= |Chunks(content, n)| * n
    decreases |content|
  {
    if |content| > n {
      var m := |Chunks(content[n..], n)|;
      ChunkCount(content[n..], n);
      assert |Chunks(content, n)| == m + 1;
      assert (m + 1) * n == m * n + n;
    }
  }

  /** Sessions are only ever stored as `ready`. */
  ghost predicate AllReady(states: map<int, Session>) {
    forall u :: u in states ==> states[u].status == Ready
  }

  /** `s` differs from the dictionaries before at most in the session of
      `user` and the cache entry `key`, and keeps every session `ready` if
      they all were. */
  ghost predicate Framed(states: map<int, Session>, cache: map<string, CachedPaths>, user: int, key: string, s: Step) {
    && (forall u :: u != user ==> (u in s.userStates <==> u in states))
    && (forall u :: u != user && u in states ==> s.userStates[u] == states[u])
    && (forall k :: k != key ==> (k in s.cache <==> k in cache))
    && (forall k :: k != key && k in cache ==> s.cache[k] == cache[k])
    && (AllReady(states) ==> AllReady(s.userStates))
  }

  lemma MenuFramed(states: map<int, Session>, cache: map<string, CachedPaths>, user: int, text: string, w: World)
    ensures Framed(states, cache, user, text, MenuStep(states, cache, user, text, w))
  {
  }

  lemma CachedFramed(states: map<int, Session>, cache: map<string, CachedPaths>, user: int, text: string, w: World)
    requires text in cache
    ensures Framed(states, cache, user, text, CachedStep(states, cache, user, text, w))
  {
  }

  /** A step that at most sets the session of `user` to a `ready` one and
      the cache entry `key`. */
  lemma FramedBy(states: map<int, Session>, cache: map<string, CachedPaths>, user: int, key: string,
                 s: Step, session: Option<Session>, entry: Option<CachedPaths>)
    requires s.userStates == (if session.None? then states else states[user := session.value])
    requires session.Some? ==> session.value.status == Ready
    requires s.cache == (if entry.None? then cache else cache[key := entry.value])
    ensures Framed(states, cache, user, key, s)
  {
  }

  lemma FreshFramed(states: map<int, Session>, cache: map<string, CachedPaths>, user: int, text: string, w: World)
    ensures Framed(states, cache, user, text, FreshStep(states, cache, user, text, w))
  {
    var s := FreshStep(states, cache, user, text, w);
    var result := w.analyze(text);
    if result.Some? && result.value != "" && w.fileExists(result.value) {
      var paths := FreshPaths(result.value, w);
      if w.read(result.value).Some? {
        assert s.userStates == states[user := ReadySession(paths)] && s.cache == cache[text := paths];
        FramedBy(states, cache, user, text, s, Some(ReadySession(paths)), Some(paths));
      } else {
        assert s.userStates == states && s.cache == cache[text := paths];
        FramedBy(states, cache, user, text, s, None, Some(paths));
      }
    } else {
      assert s.userStates == states && s.cache == cache;
      FramedBy(states, cache, user, text, s, None, None);
    }
  }

  /** Only the sender's session and only the cache entry of the stripped
      text can change, and every stored session stays `ready`. */
  lemma HandleFrame(states: map<int, Session>, cache: map<string, CachedPaths>, user: int,
                    raw: string, w: World)
    ensures Framed(states, cache, user, Strip(raw), Handle(states, cache, user, Some(raw), w))
    ensures Handle(states, cache, user, None, w) == Step(states, cache, [], true)
  {
    var text := Strip(raw);
    if IsMenuLabel(text) {
      MenuFramed(states, cache, user, text, w);
    } else if IsLink(text) {
      if text in cache {
        CachedFramed(states, cache, user, text, w);
      } else {
        FreshFramed(states, cache, user, text, w);
      }
    }
  }

  /** A menu button from a user with no session, or one not `ready`, gets
      the link prompt and changes nothing. */
  lemma MenuNeedsReady(states: map<int, Session>, cache: map<string, CachedPaths>, user: int,
                       raw: string, w: World)
    requires IsMenuLabel(Strip(raw))
    requires user !in states || states[user].status != Ready
    ensures Handle(states, cache, user, Some(raw), w) == Step(states, cache, [Say(LinkFirst)], false)
  {
  }

  /** Restart from a `ready` user removes that user's session only. */
  lemma RestartForgetsUser(states: map<int, Session>, cache: map<string, CachedPaths>, user: int,
                           raw: string, w: World)
    requires Strip(raw) == RestartButton
    requires user in states && states[user].status == Ready
    ensures var s := Handle(states, cache, user, Some(raw), w);
      && s.userStates == states - {user}
      && user !in s.userStates
      && s.cache == cache
      && s.replies == [HideMenu(SendNewLink)]
  {
  }

  /** The two chart buttons only send the chart, or its not-found line. */
  lemma ChartButtonsReadOnly(states: map<int, Session>, cache: map<string, CachedPaths>, user: int,
                             raw: string, w: World)
    requires Strip(raw) == UserActivityButton || Strip(raw) == MessageActivityButton
    ensures var s := Handle(states, cache, user, Some(raw), w);
      && s.userStates == states && s.cache == cache && !s.raised && |s.replies| == 1
      && (user in states && states[user].status == Ready ==>
            (s.replies[0].SendPhoto? <==>
              var path := if Strip(raw) == UserActivityButton then states[user].userActivityPath
                          else states[user].messageActivityPath;
              path != "" && w.fileExists(path)))
  {
  }

  /** Text that is neither a button nor a link gets the greeting. */
  lemma OtherTextGreets(states: map<int, Session>, cache: map<string, CachedPaths>, user: int,
                        raw: string, w: World)
    requires !IsMenuLabel(Strip(raw)) && !IsLink(Strip(raw))
    ensures Handle(states, cache, user, Some(raw), w) == Step(states, cache, [Say(Greeting)], false)
  {
  }

  /** On a cache hit the analysis is not run: any other analysis function
      gives the same step, and a readable report leaves the user `ready`
      with the cached chart paths and the report sent unformatted. */
  lemma CacheHitSkipsAnalysis(states: map<int, Session>, cache: map<string, CachedPaths>, user: int,
                              raw: string, w: World, analyze: string -> Option<string>)
    requires IsLink(Strip(raw)) && !IsMenuLabel(Strip(raw)) && Strip(raw) in cache
    ensures Handle(states, cache, user, Some(raw), w) ==
            Handle(states, cache, user, Some(raw), w.(analyze := analyze))
    ensures var c := cache[Strip(raw)];
      var s := Handle(states, cache, user, Some(raw), w);
      w.read(c.reportPath).Some? ==>
        && s.userStates == states[user := Session(Ready, c.userActivityPath, c.messageActivityPath)]
        && s.cache == cache
        && s.replies == SayAll(Chunks(w.read(c.reportPath).value, ChunkSize), false) + [ShowMenu(ChooseOption)]
  {
  }

  /** A cache miss whose analysis yields an existing report caches the
      stripped link with the report and chart paths, and, when the report
      can be read, leaves the user `ready`; the cache entry is stored before
      the read, so a failed read leaves the entry but no new session. */
  lemma FreshReportCached(states: map<int, Session>, cache: map<string, CachedPaths>, user: int,
                          raw: string, w: World, path: string)
    requires IsLink(Strip(raw)) && !IsMenuLabel(Strip(raw)) && Strip(raw) !in cache
    requires w.analyze(Strip(raw)) == Some(path) && path != "" && w.fileExists(path)
    ensures var s := Handle(states, cache, user, Some(raw), w);
      && s.cache == cache[Strip(raw) := FreshPaths(path, w)]
      && !s.raised
      && (w.read(path).Some? ==> s.userStates == states[user := ReadySession(FreshPaths(path, w))])
      && (w.read(path).None? ==> s.userStates == states && s.replies == [Say(Processing), Say(AnalysisError)])
  {
    assert Handle(states, cache, user, Some(raw), w) == FreshStep(states, cache, user, Strip(raw), w);
  }

  /** A cache miss without a report, or whose analysis raises, changes
      neither dictionary. */
  lemma FreshFailureKeepsState(states: map<int, Session>, cache: map<string, CachedPaths>, user: int,
                               raw: string, w: World)
    requires IsLink(Strip(raw)) && !IsMenuLabel(Strip(raw)) && Strip(raw) !in cache
    requires w.analyze(Strip(raw)) == None || w.analyze(Strip(raw)).value == ""
             || !w.fileExists(w.analyze(Strip(raw)).value)
    ensures var s := Handle(states, cache, user, Some(raw), w);
      s.userStates == states && s.cache == cache && !s.raised
  {
  }

  lemma SayAllSnoc(chunks: seq<string>, c: string, markdown: bool)
    ensures SayAll(chunks + [c], markdown) == SayAll(chunks, markdown) + SayAll([c], markdown)
  {
    assert (chunks + [c])[..|chunks|] == chunks;
  }

  /** The bot's two dictionaries. */
  class Bot {
    var userStates: map<int, Session>
    var analysisCache: map<string, CachedPaths>

    constructor()
      ensures userStates == map[] && analysisCache == map[]
    {
      userStates := map[];
      analysisCache := map[];
    }

    /** `for chunk in chunks: await message.answer(chunk, ...)` */
    static method AnswerChunks(replies: seq<Reply>, content: string, markdown: bool) returns (r: seq<Reply>)
      ensures r == replies + SayAll(Chunks(content, ChunkSize), markdown)
    {
      var chunks := Chunks(content, ChunkSize);
      r := replies;
      for i := 0 to |chunks|
        invariant r == replies + SayAll(chunks[..i], markdown)
      {
        SayAllSnoc(chunks[..i], chunks[i], markdown);
        assert chunks[..i + 1] == chunks[..i] + [chunks[i]];
        r := r + [if markdown then SayMarkdown(chunks[i]) else Say(chunks[i])];
      }
      PrefixAll(chunks, |chunks|);
    }

    /** The menu-button branch of `universal_handler`. */
    method AnswerMenu(user: int, text: string, w: World) returns (replies: seq<Reply>)
      modifies this
      ensures var s := MenuStep(old(userStates), old(analysisCache), user, text, w);
        userStates == s.userStates && analysisCache == s.cache && replies == s.replies
    {
      if user !in userStates || userStates[user].status != Ready {
        replies := [Say(LinkFirst)];
        return;
      }
      var state := userStates[user];
      if text == UserActivityButton {
        replies := [PhotoOr(state.userActivityPath, NoUserChart, w)];
      } else if text == MessageActivityButton {
        replies := [PhotoOr(state.messageActivityPath, NoMessageChart, w)];
      } else {
        userStates := userStates - {user};
        replies := [HideMenu(SendNewLink)];
      }
    }

    /** The branch of `universal_handler` for a link already analysed. */
    method AnswerCached(user: int, text: string, w: World) returns (replies: seq<Reply>, raised: bool)
      requires text in analysisCache
      modifies this
      ensures var s := CachedStep(old(userStates), old(analysisCache), user, text, w);
        userStates == s.userStates && analysisCache == s.cache && replies == s.replies && raised == s.raised
    {
      replies, raised := [], false;
      var cached := analysisCache[text];
      var content := w.read(cached.reportPath);
      if content == None {
        raised := true;
        return;
      }
      replies := AnswerChunks(replies, content.value, false);
      userStates := userStates[user := ReadySession(cached)];
      replies := replies + [ShowMenu(ChooseOption)];
    }

    /** The branch of `universal_handler` that runs the analysis. */
    method AnswerFresh(user: int, text: string, w: World) returns (replies: seq<Reply>)
      modifies this
      ensures var s := FreshStep(old(userStates), old(analysisCache), user, text, w);
        userStates == s.userStates && analysisCache == s.cache && replies == s.replies && !s.raised
    {
      ghost var states0, cache0 := userStates, analysisCache;
      ghost var s := FreshStep(states0, cache0, user, text, w);
      replies := [Say(Processing)];
      var reportPath := w.analyze(text);
      if reportPath == None {
        replies := replies + [Say(AnalysisError)];
        assert s == Step(states0, cache0, replies, false);
        return;
      }
      if reportPath.value != "" && w.fileExists(reportPath.value) {
        var cachedPaths := FreshPaths(reportPath.value, w);
        analysisCache := analysisCache[text := cachedPaths];
        var content := w.read(reportPath.value);
        if content == None {
          replies := replies + [Say(AnalysisError)];
          assert s == Step(states0, analysisCache, replies, false);
          return;
        }
        var formatted := FormatReportMd(content.value);
        replies := AnswerChunks(replies, formatted, true);
        userStates := userStates[user := ReadySession(cachedPaths)];
        replies := replies + [ShowMenu(ChooseOption)];
        assert s == Step(userStates, analysisCache, replies, false);
      } else {
        replies := replies + [Say(ReportFailed)];
        assert s == Step(states0, cache0, replies, false);
      }
    }

    /** `universal_handler` */
    method UniversalHandler(user: int, raw: Option<string>, w: World) returns (replies: seq<Reply>, raised: bool)
      modifies this
      ensures var s := Handle(old(userStates), old(analysisCache), user, raw, w);
        userStates == s.userStates && analysisCache == s.cache && replies == s.replies && raised == s.raised
    {
      replies := [];
      raised := false;
      if raw == None {
        raised := true;
        return;
      }
      var text := Strip(raw.value);
      if IsMenuLabel(text) {
        replies := AnswerMenu(user, text, w);
      } else if IsLink(text) {
        if text in analysisCache {
          replies, raised := AnswerCached(user, text, w);
        } else {
          replies := AnswerFresh(user, text, w);
        }
      } else {
        replies := [Say(Greeting)];
      }
    }
  }
}
