/**
 * The tokeniser processor: it builds a word filter, tokenises the body of every post,
 * cleans and filters the tokens, groups the posts' token lists per time bucket while
 * streaming, saves each bucket's list when the bucket changes, and finally reports the
 * number of buckets.
 *
 * The NLP tokenisers, the stemmer, the lemmatiser, `int()` on a timestamp, `strptime` and
 * `fromtimestamp` are foreign functions passed in as `Foreign`. Saving a bucket is recorded
 * as a map from bucket key to the snapshot written.
 */
module Tokenise {
  import opened Common
  import opened Text

  /** The processor's options. */
  datatype Params = Params(
    timeframe: string,       // "all", "year", "month" or "day"
    tokenizerType: string,   // "twitter" or "regular"
    language: string,
    stem: bool,
    lemmatise: bool,
    stripSymbols: bool,
    acceptWords: string,     // comma-separated
    rejectWords: string)     // comma-separated

  datatype Date = Date(year: nat, month: nat, day: nat)

  /** The foreign calls the processor makes. */
  datatype Foreign = Foreign(
    tweetTokenize: string -> seq<string>,            // TweetTokenizer(preserve_case=False).tokenize(body)
    wordTokenize: (string, string) -> seq<string>,   // word_tokenize(body, language)
    stem: (string, string) -> string,                // SnowballStemmer(language).stem(token)
    lemmatize: string -> string,                     // WordNetLemmatizer().lemmatize(token)
    parseInt: string -> Option<int>,                 // int(s), None on ValueError
    parseTimestamp: string -> Option<int>,           // int(strptime(s, "%Y-%m-%d %H:%M:%S").timestamp()), None on ValueError
    fromTimestamp: int -> Date)                      // datetime.fromtimestamp(t)

  /** One CSV row: the `body`, `timestamp_unix` and `timestamp` columns, each present or not. */
  datatype Post = Post(body: Option<string>, timestampUnix: Option<string>, timestamp: Option<string>)

  /** The KeyError the processor can raise. */
  datatype Error = MissingTimestamp | MissingSubunit

  /** The token lists of one bucket, one list per post. */
  type Snapshot = seq<seq<string>>

  /** What has been saved: bucket key to the snapshot last written for it. */
  type Files = map<string, Snapshot>

  function SetOf(ws: seq<string>): set<string>
  {
    set w | w in ws
  }

  lemma SetOfSnoc(ws: seq<string>, w: string)
    ensures SetOf(ws + [w]) == SetOf(ws) + {w}
  {
    assert forall x :: x in ws + [w] <==> x in ws || x == w;
  }

  // ---------------------------------------------------------------- word filter

  /**
   * `[str(word).strip() for word in param.split(",")]` when the option is non-empty, else nothing:
   * one word per comma-separated field, none holding a comma or surrounding whitespace.
   */
  function WordList(param: string): (words: seq<string>)
    ensures param == "" ==> words == []
    ensures param != "" ==> |words| == |Split(param, ',')|
    ensures forall i :: 0 <= i < |words| ==> ',' !in words[i]
    ensures forall i :: 0 <= i < |words| ==> words[i] == "" || (!IsSpace(words[i][0]) && !IsSpace(words[i][|words[i]| - 1]))
    ensures param != "" ==> forall i :: 0 <= i < |words| ==> StrippedField(Split(param, ',')[i], words[i])
  {
    if param == "" then []
    else
      var fields := Split(param, ',');
      StripFields(fields);
      seq(|fields|, i requires 0 <= i < |fields| => Strip(fields[i]))
  }

  /**
   * `word` is `field` with its surrounding whitespace cut off: the piece `field[a..a + |word|]`,
   * where everything before `a` and everything from `a + |word|` on is whitespace.
   */
  predicate StrippedField(field: string, word: string)
  {
    var a := |field| - |StripLeading(field)|;
    && a + |word| <= |field| && word == field[a..a + |word|]
    && (forall k :: 0 <= k < a ==> IsSpace(field[k]))
    && (forall k :: a + |word| <= k < |field| ==> IsSpace(field[k]))
  }

  /** Stripping a comma-free field leaves a comma-free word without surrounding whitespace. */
  lemma StripFields(fields: seq<string>)
    requires forall i :: 0 <= i < |fields| ==> ',' !in fields[i]
    ensures forall i :: 0 <= i < |fields| ==> StrippedField(fields[i], Strip(fields[i]))
    ensures forall i :: 0 <= i < |fields| ==> ',' !in Strip(fields[i])
    ensures forall i :: 0 <= i < |fields| ==>
              Strip(fields[i]) == "" || (!IsSpace(Strip(fields[i])[0]) && !IsSpace(Strip(fields[i])[|Strip(fields[i])| - 1]))
  {
    forall i | 0 <= i < |fields|
      ensures StrippedField(fields[i], Strip(fields[i]))
      ensures ',' !in Strip(fields[i])
      ensures Strip(fields[i]) == "" || (!IsSpace(Strip(fields[i])[0]) && !IsSpace(Strip(fields[i])[|Strip(fields[i])| - 1]))
    {
      StripField(fields[i]);
    }
  }

  lemma StripField(field: string)
    requires ',' !in field
    ensures StrippedField(field, Strip(field))
    ensures ',' !in Strip(field)
    ensures Strip(field) == "" || (!IsSpace(Strip(field)[0]) && !IsSpace(Strip(field)[|Strip(field)| - 1]))
  {
    StripSlice(field);
    StripProperties(field);
  }

  /** Listing the words of a comma-joined list of stripped, comma-free words gives those words back. */
  lemma WordListOfJoin(words: seq<string>)
    requires |words| > 1 || (|words| == 1 && words[0] != "")
    requires forall i :: 0 <= i < |words| ==> ',' !in words[i] && Strip(words[i]) == words[i]
    ensures WordList(Join(words, ',')) == words
  {
    SplitOfJoin(words, ',');
    if |words| > 1 {
      assert Join(words, ',')[|words[0]|] == ',';
    }
  }

  /** The union of the loaded word lists. */
  function UnionAll(lists: seq<set<string>>): set<string>
    decreases |lists|
  {
    if |lists| == 0 then {} else UnionAll(lists[..|lists| - 1]) + lists[|lists| - 1]
  }

  lemma {:induction false} UnionAllMembers(lists: seq<set<string>>, w: string)
    ensures w in UnionAll(lists) <==> exists i :: 0 <= i < |lists| && w in lists[i]
    decreases |lists|
  {
    if |lists| > 0 {
      var init := lists[..|lists| - 1];
      UnionAllMembers(init, w);
      if w in UnionAll(init) {
        var i :| 0 <= i < |init| && w in init[i];
        assert w in lists[i];
      }
      if exists i :: 0 <= i < |lists| && w in lists[i] {
        var i :| 0 <= i < |lists| && w in lists[i];
        if i < |lists| - 1 { assert w in init[i]; }
      }
    }
  }

  /** The word filter as a set: (loaded lists - accepted words) + rejected words. */
  function WordFilter(lists: seq<set<string>>, acceptWords: string, rejectWords: string): set<string>
  {
    (UnionAll(lists) - SetOf(WordList(acceptWords))) + SetOf(WordList(rejectWords))
  }

  /**
   * A word is filtered exactly when it is rejected, or it is in a loaded list and not accepted.
   * Rejection wins: a word both accepted and rejected is filtered.
   */
  lemma WordFilterMembers(lists: seq<set<string>>, acceptWords: string, rejectWords: string, w: string)
    ensures w in WordFilter(lists, acceptWords, rejectWords) <==>
              w in WordList(rejectWords)
              || ((exists i :: 0 <= i < |lists| && w in lists[i]) && w !in WordList(acceptWords))
  {
    UnionAllMembers(lists, w);
  }

  /** The filter construction: load and union the lists, remove accepted words, add rejected ones. */
  method BuildWordFilter(lists: seq<set<string>>, acceptWords: string, rejectWords: string)
    returns (wordFilter: set<string>)
    ensures wordFilter == WordFilter(lists, acceptWords, rejectWords)
  {
    wordFilter := LoadLists(lists);
    var accept := WordList(acceptWords);
    if acceptWords != "" {
      wordFilter := RemoveWords(wordFilter, accept);
    } else {
      assert SetOf(accept) == {};
    }
    var reject := WordList(rejectWords);
    if rejectWords != "" {
      wordFilter := wordFilter + SetOf(reject);
    } else {
      assert SetOf(reject) == {};
    }
  }

  /** The loop over the word-list files: each loaded set is added to the filter. */
  method LoadLists(lists: seq<set<string>>) returns (wordFilter: set<string>)
    ensures wordFilter == UnionAll(lists)
  {
    wordFilter := {};
    for i := 0 to |lists|
      invariant wordFilter == UnionAll(lists[..i])
    {
      assert lists[..i + 1][..i] == lists[..i];
      wordFilter := wordFilter + lists[i];
    }
    assert lists[..|lists|] == lists;
  }

  /** The loop over the accepted words: each one present in the filter is removed from it. */
  method RemoveWords(wordFilter: set<string>, accept: seq<string>) returns (remaining: set<string>)
    ensures remaining == wordFilter - SetOf(accept)
  {
    remaining := wordFilter;
    for i := 0 to |accept|
      invariant remaining == wordFilter - SetOf(accept[..i])
    {
      assert accept[..i + 1] == accept[..i] + [accept[i]];
      SetOfSnoc(accept[..i], accept[i]);
      if accept[i] in remaining {
        remaining := remaining - {accept[i]};
      }
    }
    assert accept[..|accept|] == accept;
  }

  // ---------------------------------------------------------------- tokens

  /** The alternatives of `"|".join(re.escape(w) for w in word_filter if w)`: the non-empty words as literals. */
  function Alternatives(wordFilter: set<string>): set<string>
  {
    set w | w in wordFilter && w != ""
  }

  /**
   * `fullmatch` of an alternation of escaped literals: the whole token equals one of them.
   * With no alternatives the pattern is empty and matches only the empty string.
   */
  predicate FullMatch(alternatives: set<string>, token: string)
  {
    if alternatives == {} then token == "" else token in alternatives
  }

  /** A non-empty token is matched by the filter pattern exactly when it is a filter word. */
  lemma FilterMatch(wordFilter: set<string>, token: string)
    requires token != ""
    ensures FullMatch(Alternatives(wordFilter), token) <==> token in wordFilter
  {
  }

  /** The length of the longest run of non-whitespace characters at the start of `s`. */
  function NonSpaceRun(s: string): (n: nat)
    ensures n <= |s|
    ensures forall i :: 0 <= i < n ==> !IsSpace(s[i])
    ensures n < |s| ==> IsSpace(s[n])
    decreases |s|
  {
    if |s| > 0 && !IsSpace(s[0]) then 1 + NonSpaceRun(s[1..]) else 0
  }

  /**
   * The length of the match of `https?://[^\s]+` at the start of `s`, if any: the scheme,
   * then the longest non-empty run of non-whitespace characters.
   */
  function LinkAt(s: string): (m: Option<nat>)
    ensures m.Some? ==> 7 < m.value <= |s| && s[0] == 'h'
    ensures m.Some? ==> s[..7] == "http://" || (|s| > 8 && s[..8] == "https://")
    ensures m.Some? ==> forall i :: 7 <= i < m.value ==> !IsSpace(s[i])
    ensures m.Some? ==> m.value == |s| || IsSpace(s[m.value])
  {
    if |s| > 8 && s[..8] == "https://" && !IsSpace(s[8]) then Some(8 + NonSpaceRun(s[8..]))
    else if |s| > 7 && s[..7] == "http://" && !IsSpace(s[7]) then Some(7 + NonSpaceRun(s[7..]))
    else None
  }

  /** `link_regex.sub("", s)`: every link found scanning left to right is removed. */
  function StripLinks(s: string): (r: string)
    ensures |r| <= |s|
    ensures forall i :: 0 <= i < |r| ==> r[i] in s
    decreases |s|
  {
    if |s| == 0 then ""
    else
      match LinkAt(s)
      case Some(n) =>
        var rest := StripLinks(s[n..]);
        assert forall i :: 0 <= i < |rest| ==> rest[i] in s[n..];
        rest
      case None =>
        var rest := StripLinks(s[1..]);
        assert forall i :: 0 <= i < |rest| ==> rest[i] in s[1..];
        [s[0]] + rest
  }

  /** A body in which no link starts anywhere is passed to the tokeniser unchanged. */
  lemma {:induction false} StripLinksNoLink(s: string)
    requires forall i :: 0 <= i < |s| ==> LinkAt(s[i..]) == None
    ensures StripLinks(s) == s
    decreases |s|
  {
    if |s| > 0 {
      assert s[0..] == s;
      assert forall i :: 0 <= i < |s| - 1 ==> s[1..][i..] == s[i + 1..];
      StripLinksNoLink(s[1..]);
    }
  }

  lemma {:induction false} NonSpaceRunOf(w: string, rest: string)
    requires forall i :: 0 <= i < |w| ==> !IsSpace(w[i])
    requires rest == "" || IsSpace(rest[0])
    ensures NonSpaceRun(w + rest) == |w|
    decreases |w|
  {
    if |w| > 0 {
      assert (w + rest)[1..] == w[1..] + rest;
      NonSpaceRunOf(w[1..], rest);
    } else {
      assert w + rest == rest;
    }
  }

  /**
   * A link (scheme, then non-whitespace) followed by whitespace or the end of the body is
   * removed entirely; what follows it is kept.
   */
  lemma StripLinksDropsLink(scheme: string, w: string, rest: string)
    requires scheme == "http://" || scheme == "https://"
    requires w != "" && forall i :: 0 <= i < |w| ==> !IsSpace(w[i])
    requires rest == "" || IsSpace(rest[0])
    ensures StripLinks(scheme + w + rest) == StripLinks(rest)
  {
    var s := scheme + w + rest;
    LinkAtScheme(scheme, w + rest);
    NonSpaceRunOf(w, rest);
    assert s == scheme + (w + rest);
    assert s[|scheme| + |w|..] == rest;
  }

  /** A body starting with a scheme and then a non-space character has a link at its start. */
  lemma LinkAtScheme(scheme: string, t: string)
    requires scheme == "http://" || scheme == "https://"
    requires t != "" && !IsSpace(t[0])
    ensures LinkAt(scheme + t) == Some(|scheme| + NonSpaceRun(t))
  {
    var s := scheme + t;
    var n := |scheme|;
    assert s[..n] == scheme && s[n..] == t && s[n] == t[0];
    if n == 7 {
      assert s[4] == ':';
      assert |s| > 8 ==> s[..8][4] == ':';
    }
  }

  /** `symbol.sub("", s)` with `symbol = [^a-zA-Z0-9]`: every other character removed. */
  function StripSymbols(s: string): (r: string)
    ensures |r| <= |s|
    ensures forall i :: 0 <= i < |r| ==> IsAsciiAlnum(r[i])
    ensures forall i :: 0 <= i < |s| && IsAsciiAlnum(s[i]) ==> s[i] in r
    ensures (forall i :: 0 <= i < |s| ==> IsAsciiAlnum(s[i])) ==> r == s
    decreases |s|
  {
    if |s| == 0 then ""
    else
      var rest := StripSymbols(s[1..]);
      assert forall i :: 1 <= i < |s| ==> s[i] == s[1..][i - 1];
      if IsAsciiAlnum(s[0]) then
        assert [s[0]] + s[1..] == s;
        [s[0]] + rest
      else rest
  }

  /** Symbol removal goes character by character: it keeps `c` alone exactly when `c` is in [a-zA-Z0-9]. */
  lemma {:induction false} StripSymbolsByCharacter(a: string, b: string, c: char)
    ensures StripSymbols(a + b) == StripSymbols(a) + StripSymbols(b)
    ensures StripSymbols([c]) == if IsAsciiAlnum(c) then [c] else []
    decreases |a|
  {
    if |a| == 0 {
      assert a + b == b;
    } else {
      assert (a + b)[1..] == a[1..] + b;
      StripSymbolsByCharacter(a[1..], b, c);
    }
    assert [c][1..] == "";
  }

  /** Symbol removal keeps every ASCII letter, so the result has one exactly when the input has. */
  lemma {:induction false} StripSymbolsLetters(s: string)
    ensures (forall i :: 0 <= i < |StripSymbols(s)| ==> !IsAsciiLetter(StripSymbols(s)[i]))
            <==> (forall i :: 0 <= i < |s| ==> !IsAsciiLetter(s[i]))
    decreases |s|
  {
    if |s| > 0 {
      var rest := StripSymbols(s[1..]);
      StripSymbolsLetters(s[1..]);
      assert forall i :: 1 <= i < |s| ==> s[i] == s[1..][i - 1];
      if IsAsciiAlnum(s[0]) {
        assert StripSymbols(s) == [s[0]] + rest;
        assert forall i :: 1 <= i < |StripSymbols(s)| ==> StripSymbols(s)[i] == rest[i - 1];
      } else {
        assert StripSymbols(s) == rest && !IsAsciiLetter(s[0]);
      }
    }
  }

  /**
   * `numbers.sub("", s)` with `numbers = \b[0-9]+\b`, applied to a string of [a-zA-Z0-9]
   * only: such a string has word boundaries only at its two ends, so a digit run is
   * matched only when it is the whole string.
   */
  function DropNumber(s: string): (r: string)
    ensures r == s || (r == "" && AllDigits(s))
    ensures AllDigits(s) ==> r == ""
  {
    if s != "" && AllDigits(s) then "" else s
  }

  /** Lower-casing, then (with `strip_symbols`) symbol and number removal. */
  function CleanToken(stripSymbols: bool, token: string): (c: string)
    ensures !stripSymbols ==> c == Lower(token)
    ensures stripSymbols ==> (forall i :: 0 <= i < |c| ==> IsAsciiAlnum(c[i])) && (c != "" ==> !AllDigits(c))
    ensures stripSymbols ==> (c == "" <==> forall i :: 0 <= i < |token| ==> !IsAsciiLetter(token[i]))
    ensures stripSymbols && c != "" ==> c == StripSymbols(Lower(token))
    ensures |c| <= |token|
  {
    var t := Lower(token);
    if stripSymbols then
      StripSymbolsLetters(t);
      DropNumber(StripSymbols(t))
    else t
  }

  /** The options, the foreign calls and the word filter in force during one run. */
  datatype Ctx = Ctx(params: Params, foreign: Foreign, wordFilter: set<string>)

  /** Stemming and lemmatising of a token that was kept. */
  function Finalize(ctx: Ctx, token: string): string
  {
    var stemmed := if ctx.params.stem then ctx.foreign.stem(token, ctx.params.language) else token;
    if ctx.params.lemmatise then ctx.foreign.lemmatize(stemmed) else stemmed
  }

  /**
   * One token of a post: nothing when its cleaned form is empty or matched by the filter,
   * otherwise the stemmed and lemmatised cleaned form.
   */
  function ProcessToken(ctx: Ctx, token: string): (kept: seq<string>)
    ensures |kept| <= 1
    ensures kept == [] <==>
              CleanToken(ctx.params.stripSymbols, token) == ""
              || CleanToken(ctx.params.stripSymbols, token) in ctx.wordFilter
    ensures kept != [] ==> kept[0] == Finalize(ctx, CleanToken(ctx.params.stripSymbols, token))
  {
    var c := CleanToken(ctx.params.stripSymbols, token);
    if c == "" then []
    else
      FilterMatch(ctx.wordFilter, c);
      if FullMatch(Alternatives(ctx.wordFilter), c) then [] else [Finalize(ctx, c)]
  }

  /** The kept tokens of a token sequence, in order. */
  function KeptTokens(ctx: Ctx, tokens: seq<string>): seq<string>
    decreases |tokens|
  {
    if |tokens| == 0 then []
    else KeptTokens(ctx, tokens[..|tokens| - 1]) + ProcessToken(ctx, tokens[|tokens| - 1])
  }

  /** Token order is preserved: the kept tokens of a concatenation are the concatenation of the kept tokens. */
  lemma {:induction false} KeptTokensAppend(ctx: Ctx, a: seq<string>, b: seq<string>)
    ensures KeptTokens(ctx, a + b) == KeptTokens(ctx, a) + KeptTokens(ctx, b)
    decreases |b|
  {
    if |b| > 0 {
      var b' := b[..|b| - 1];
      assert (a + b)[..|a + b| - 1] == a + b';
      KeptTokensAppend(ctx, a, b');
    } else {
      assert a + b == a;
    }
  }

  /**
   * Without stemming or lemmatising, every kept token is non-empty and not a filter word,
   * and with `strip_symbols` it is alphanumeric and not all digits; none is invented.
   */
  lemma {:induction false} KeptTokensClean(ctx: Ctx, tokens: seq<string>)
    requires !ctx.params.stem && !ctx.params.lemmatise
    ensures |KeptTokens(ctx, tokens)| <= |tokens|
    ensures forall t :: t in KeptTokens(ctx, tokens) ==>
              && t != "" && t !in ctx.wordFilter
              && (ctx.params.stripSymbols ==> !AllDigits(t) && forall i :: 0 <= i < |t| ==> IsAsciiAlnum(t[i]))
    decreases |tokens|
  {
    if |tokens| > 0 {
      KeptTokensClean(ctx, tokens[..|tokens| - 1]);
    }
  }

  /** The tokeniser chosen by the `tokenizer_type` option; only the word tokeniser is told the language. */
  function Tokenize(ctx: Ctx, body: string): (tokens: seq<string>)
    ensures ctx.params.tokenizerType == "twitter" ==> tokens == ctx.foreign.tweetTokenize(body)
    ensures ctx.params.tokenizerType != "twitter" ==> tokens == ctx.foreign.wordTokenize(body, ctx.params.language)
  {
    if ctx.params.tokenizerType == "twitter" then ctx.foreign.tweetTokenize(body)
    else ctx.foreign.wordTokenize(body, ctx.params.language)
  }

  /** The token list of one post: links removed, tokenised, each token cleaned and filtered. */
  function PostTokens(ctx: Ctx, body: string): seq<string>
  {
    KeptTokens(ctx, Tokenize(ctx, StripLinks(body)))
  }

  /** The inner loop: tokenise one body and keep its cleaned, filtered tokens. */
  method TokenisePost(ctx: Ctx, body: string) returns (postTokens: seq<string>)
    ensures postTokens == PostTokens(ctx, body)
  {
    var text := StripLinks(body);
    var tokens;
    if ctx.params.tokenizerType == "twitter" {
      tokens := ctx.foreign.tweetTokenize(text);
    } else {
      tokens := ctx.foreign.wordTokenize(text, ctx.params.language);
    }
    postTokens := [];
    for i := 0 to |tokens|
      invariant postTokens == KeptTokens(ctx, tokens[..i])
    {
      assert tokens[..i + 1][..i] == tokens[..i];
      var kept := HandleToken(ctx, tokens[i]);
      postTokens := postTokens + kept;
    }
    assert tokens[..|tokens|] == tokens;
  }

  /** One pass of the per-token loop: the token appended to the post's list, or nothing (`continue`). */
  method HandleToken(ctx: Ctx, raw: string) returns (kept: seq<string>)
    ensures kept == ProcessToken(ctx, raw)
  {
    var token := Lower(raw);
    if ctx.params.stripSymbols {
      token := DropNumber(StripSymbols(token));
    }
    if token == "" {
      return [];
    }
    if FullMatch(Alternatives(ctx.wordFilter), token) {
      return [];
    }
    if ctx.params.stem {
      token := ctx.foreign.stem(token, ctx.params.language);
    }
    if ctx.params.lemmatise {
      token := ctx.foreign.lemmatize(token);
    }
    return [token];
  }

  // ---------------------------------------------------------------- bucket keys

  /** The post's timestamp: `timestamp_unix` when that column exists, else `timestamp`; unparsable gives 0. */
  function Timestamp(foreign: Foreign, post: Post): (t: Result<int, Error>)
    ensures t.Err? <==> post.timestampUnix.None? && post.timestamp.None?
    ensures t.Err? ==> t.error == MissingTimestamp
  {
    if post.timestampUnix.Some? then
      Ok(match foreign.parseInt(post.timestampUnix.value) case Some(t) => t case None => 0)
    else if post.timestamp.Some? then
      Ok(match foreign.parseTimestamp(post.timestamp.value) case Some(t) => t case None => 0)
    else
      Err(MissingTimestamp)
  }

  /** With a `timestamp_unix` column, the `timestamp` column is never looked at. */
  lemma TimestampPrefersUnix(foreign: Foreign, post: Post, other: Option<string>)
    requires post.timestampUnix.Some?
    ensures Timestamp(foreign, post) == Timestamp(foreign, post.(timestamp := other))
  {
  }

  /** The date fields a timeframe keeps, each as `str(n)`. */
  function DateFields(timeframe: string, date: Date): (fields: seq<string>)
    ensures 1 <= |fields| <= 3
    ensures forall i :: 0 <= i < |fields| ==> '-' !in fields[i]
  {
    NoDashInNumber(date.year);
    NoDashInNumber(date.month);
    NoDashInNumber(date.day);
    if timeframe == "year" then [NatToString(date.year)]
    else if timeframe == "month" then [NatToString(date.year), NatToString(date.month)]
    else [NatToString(date.year), NatToString(date.month), NatToString(date.day)]
  }

  /** The bucket key of a date: "overall", `Y`, `Y-M` or `Y-M-D`, without zero padding. */
  function BucketKey(timeframe: string, date: Date): (key: string)
    ensures key != ""
  {
    if timeframe == "all" then "overall" else Join(DateFields(timeframe, date), '-')
  }

  /** The joined fields are the `str(year) + "-" + str(month) ...` of the source. */
  lemma BucketKeySpelledOut(timeframe: string, date: Date)
    ensures timeframe == "year" ==> BucketKey(timeframe, date) == NatToString(date.year)
    ensures timeframe == "month" ==>
              BucketKey(timeframe, date) == NatToString(date.year) + "-" + NatToString(date.month)
    ensures timeframe != "all" && timeframe != "year" && timeframe != "month" ==>
              BucketKey(timeframe, date)
              == NatToString(date.year) + "-" + NatToString(date.month) + "-" + NatToString(date.day)
  {
    var fields := DateFields(timeframe, date);
    if |fields| == 2 {
      assert Join(fields[1..], '-') == NatToString(date.month);
    } else if |fields| == 3 {
      assert Join(fields[1..], '-') == NatToString(date.month) + "-" + NatToString(date.day);
    }
  }

  lemma NoDashInNumber(n: nat)
    ensures '-' !in NatToString(n)
  {
  }

  /** Two dates share a bucket exactly when they agree on the fields the timeframe keeps. */
  lemma BucketKeyInjective(timeframe: string, d1: Date, d2: Date)
    ensures BucketKey(timeframe, d1) == BucketKey(timeframe, d2) <==>
              && (timeframe != "all" ==> d1.year == d2.year)
              && (timeframe != "all" && timeframe != "year" ==> d1.month == d2.month)
              && (timeframe != "all" && timeframe != "year" && timeframe != "month" ==> d1.day == d2.day)
  {
    if timeframe != "all" && BucketKey(timeframe, d1) == BucketKey(timeframe, d2) {
      var f1, f2 := DateFields(timeframe, d1), DateFields(timeframe, d2);
      SplitOfJoin(f1, '-');
      SplitOfJoin(f2, '-');
      assert f1 == f2;
      NatToStringInjective(d1.year, d2.year);
      if |f1| >= 2 { NatToStringInjective(d1.month, d2.month); }
      if |f1| == 3 { NatToStringInjective(d1.day, d2.day); }
    }
  }

  /** The bucket a post goes to; with the "all" timeframe its timestamp is never looked at. */
  function PostKey(params: Params, foreign: Foreign, post: Post): (key: Result<string, Error>)
    ensures key.Ok? ==> key.value != ""
    ensures key.Err? <==> params.timeframe != "all" && post.timestampUnix.None? && post.timestamp.None?
    ensures key.Err? ==> key.error == MissingTimestamp
  {
    if params.timeframe == "all" then Ok("overall")
    else
      match Timestamp(foreign, post)
      case Err(e) => Err(e)
      case Ok(t) => Ok(BucketKey(params.timeframe, foreign.fromTimestamp(t)))
  }

  /** How the key is found: "overall" for "all"; otherwise from the parsed timestamp, 0 when unparsable. */
  lemma PostKeyCases(params: Params, foreign: Foreign, post: Post)
    ensures params.timeframe == "all" ==> PostKey(params, foreign, post) == Ok("overall")
    ensures (params.timeframe != "all" && post.timestampUnix.Some? && foreign.parseInt(post.timestampUnix.value).Some?)
              ==> PostKey(params, foreign, post)
                  == Ok(BucketKey(params.timeframe, foreign.fromTimestamp(foreign.parseInt(post.timestampUnix.value).value)))
    ensures (params.timeframe != "all" && post.timestampUnix.None? && post.timestamp.Some?
             && foreign.parseTimestamp(post.timestamp.value).Some?)
              ==> PostKey(params, foreign, post)
                  == Ok(BucketKey(params.timeframe, foreign.fromTimestamp(foreign.parseTimestamp(post.timestamp.value).value)))
    ensures (params.timeframe != "all" && post.timestampUnix.Some? && foreign.parseInt(post.timestampUnix.value) == None)
              ==> PostKey(params, foreign, post) == Ok(BucketKey(params.timeframe, foreign.fromTimestamp(0)))
    ensures (params.timeframe != "all" && post.timestampUnix.None? && post.timestamp.Some?
             && foreign.parseTimestamp(post.timestamp.value) == None)
              ==> PostKey(params, foreign, post) == Ok(BucketKey(params.timeframe, foreign.fromTimestamp(0)))
    ensures PostKey(params, foreign, post) == Err(MissingTimestamp) <==>
              params.timeframe != "all" && post.timestampUnix.None? && post.timestamp.None?
  {
  }

  // ---------------------------------------------------------------- grouping and saving

  /** The loop state: `subunits`, `current_subunit`, and what `save_subunit` has written. */
  datatype State = State(subunits: map<string, Snapshot>, current: string, saved: Files)

  /** `current_subunit` is empty (no post yet) or one of the buckets. */
  predicate Inv(st: State)
  {
    st.current == "" || st.current in st.subunits
  }

  /**
   * A post with a non-empty body and bucket `key` arrives: when the bucket changes from a
   * non-empty current one, that one is saved and its list reset; then `key` becomes current
   * and gets a list if it has none.
   */
  function SwitchTo(st: State, key: string): (st': State)
    requires Inv(st)
    ensures Inv(st') && st'.current == key && key in st'.subunits
  {
    var st1 :=
      if st.current != "" && st.current != key then
        State(st.subunits[st.current := []], st.current, st.saved[st.current := st.subunits[st.current]])
      else st;
    State(if key in st1.subunits then st1.subunits else st1.subunits[key := []], key, st1.saved)
  }

  /** The post's tokens are appended to the current bucket when there are any. */
  function Append(st: State, tokens: seq<string>): (st': State)
    requires st.current in st.subunits
    ensures Inv(st') && st'.current == st.current && st'.saved == st.saved
  {
    if |tokens| > 0 then st.(subunits := st.subunits[st.current := st.subunits[st.current] + [tokens]]) else st
  }

  function Advance(st: State, key: string, tokens: seq<string>): (st': State)
    requires Inv(st)
    ensures Inv(st') && st'.current == key && key in st'.subunits
  {
    Append(SwitchTo(st, key), tokens)
  }

  /** What one `Advance` does to the buckets and to the saved files. */
  lemma AdvanceEffect(st: State, key: string, tokens: seq<string>)
    requires Inv(st)
    ensures var st' := Advance(st, key, tokens);
            var leaves := st.current != "" && st.current != key;
            && st'.subunits.Keys == st.subunits.Keys + {key}
            && st'.saved.Keys == st.saved.Keys + (if leaves then {st.current} else {})
            && (leaves ==> st'.saved[st.current] == st.subunits[st.current] && st'.subunits[st.current] == [])
            && (forall k :: k in st.saved && !(leaves && k == st.current) ==> st'.saved[k] == st.saved[k])
            && (forall k :: k in st.subunits && k != key && !(leaves && k == st.current) ==>
                  st'.subunits[k] == st.subunits[k])
            && st'.subunits[key] == (if key in st.subunits then st.subunits[key] else [])
                                    + (if |tokens| > 0 then [tokens] else [])
  {
  }

  /** A post is grouped only when its body is present and non-empty. */
  predicate Counted(post: Post)
  {
    post.body.Some? && post.body.value != ""
  }

  /** The run so far: still going, or stopped by a KeyError with what had been saved by then. */
  datatype Progress = Running(state: State) | Stopped(error: Error, saved: Files)

  function Step(ctx: Ctx, st: State, post: Post): (p: Progress)
    requires Inv(st)
    ensures p.Running? ==> Inv(p.state)
    ensures !Counted(post) ==> p == Running(st)
    ensures p.Stopped? <==> Counted(post) && PostKey(ctx.params, ctx.foreign, post).Err?
    ensures p.Stopped? ==> p.error == MissingTimestamp && p.saved == st.saved
    ensures p.Running? && Counted(post) ==> p.state.current == PostKey(ctx.params, ctx.foreign, post).value
  {
    if !Counted(post) then Running(st)
    else
      match PostKey(ctx.params, ctx.foreign, post)
      case Err(e) => Stopped(e, st.saved)
      case Ok(key) => Running(Advance(st, key, PostTokens(ctx, post.body.value)))
  }

  /** The post loop over a prefix of the posts. */
  function Fold(ctx: Ctx, posts: seq<Post>): (p: Progress)
    ensures p.Running? ==> Inv(p.state)
    ensures p.Stopped? ==> p.error == MissingTimestamp
    decreases |posts|
  {
    if |posts| == 0 then Running(State(map[], "", map[]))
    else
      match Fold(ctx, posts[..|posts| - 1])
      case Stopped(e, saved) => Stopped(e, saved)
      case Running(st) => Step(ctx, st, posts[|posts| - 1])
  }

  lemma FoldSnoc(ctx: Ctx, posts: seq<Post>, i: nat)
    requires i < |posts|
    ensures Fold(ctx, posts[..i]).Stopped? ==> Fold(ctx, posts[..i + 1]) == Fold(ctx, posts[..i])
    ensures Fold(ctx, posts[..i]).Running? ==>
              Fold(ctx, posts[..i + 1]) == Step(ctx, Fold(ctx, posts[..i]).state, posts[i])
  {
    assert posts[..i + 1][..i] == posts[..i];
  }

  /** Once a KeyError has stopped the loop, later posts change nothing. */
  lemma {:induction false} StoppedStays(ctx: Ctx, posts: seq<Post>, i: nat)
    requires i <= |posts| && Fold(ctx, posts[..i]).Stopped?
    ensures Fold(ctx, posts) == Fold(ctx, posts[..i])
    decreases |posts| - i
  {
    if i < |posts| {
      FoldSnoc(ctx, posts, i);
      StoppedStays(ctx, posts, i + 1);
    } else {
      assert posts[..i] == posts;
    }
  }

  /** How a run ends: the value passed to `finish`, or the KeyError, and the files saved. */
  datatype RunResult = Finished(count: nat, files: Files) | Failed(error: Error, files: Files)

  /** After the loop: the last bucket is saved (a KeyError when there is none) and the buckets counted. */
  function Conclude(st: State): (r: RunResult)
    ensures r.Finished? <==> st.current in st.subunits
    ensures r.Finished? ==> && r.count == |st.subunits|
                            && r.files.Keys == st.saved.Keys + {st.current}
                            && r.files[st.current] == st.subunits[st.current]
    ensures r.Failed? ==> r.error == MissingSubunit && r.files == st.saved
  {
    if st.current in st.subunits then
      Finished(|st.subunits|, st.saved[st.current := st.subunits[st.current]])
    else
      Failed(MissingSubunit, st.saved)
  }

  function RunCtx(params: Params, foreign: Foreign, lists: seq<set<string>>): Ctx
  {
    Ctx(params, foreign, WordFilter(lists, params.acceptWords, params.rejectWords))
  }

  /** A whole run of `process()` on the loaded word lists and the posts. */
  function Run(params: Params, foreign: Foreign, lists: seq<set<string>>, posts: seq<Post>): (r: RunResult)
    ensures posts == [] ==> r == Failed(MissingSubunit, map[])
    ensures r.Finished? ==> r.count >= 1
  {
    match Fold(RunCtx(params, foreign, lists), posts)
    case Stopped(e, saved) => Failed(e, saved)
    case Running(st) => Conclude(st)
  }

  /** The bucket ("output unit") of a post with a non-empty body, or the KeyError of a missing timestamp. */
  method PostOutput(params: Params, foreign: Foreign, post: Post) returns (output: Result<string, Error>)
    ensures output == PostKey(params, foreign, post)
  {
    if params.timeframe == "all" {
      return Ok("overall");
    }
    var timestamp: int;
    if post.timestampUnix.Some? {
      var parsed := foreign.parseInt(post.timestampUnix.value);
      timestamp := if parsed.Some? then parsed.value else 0;
    } else if post.timestamp.Some? {
      var parsed := foreign.parseTimestamp(post.timestamp.value);
      timestamp := if parsed.Some? then parsed.value else 0;
    } else {
      return Err(MissingTimestamp);
    }
    var date := foreign.fromTimestamp(timestamp);
    BucketKeySpelledOut(params.timeframe, date);
    if params.timeframe == "year" {
      output := Ok(NatToString(date.year));
    } else if params.timeframe == "month" {
      output := Ok(NatToString(date.year) + "-" + NatToString(date.month));
    } else {
      output := Ok(NatToString(date.year) + "-" + NatToString(date.month) + "-" + NatToString(date.day));
    }
  }

  // ---------------------------------------------------------------- properties of a run

  /** The bucket keys of the counted posts, in order (a post whose key raises contributes none). */
  function KeySeq(params: Params, foreign: Foreign, posts: seq<Post>): seq<string>
    decreases |posts|
  {
    if |posts| == 0 then []
    else
      var p := posts[|posts| - 1];
      KeySeq(params, foreign, posts[..|posts| - 1])
      + (if Counted(p) && PostKey(params, foreign, p).Ok? then [PostKey(params, foreign, p).value] else [])
  }

  /** No counted post raises a KeyError for its timestamp. */
  predicate KeysDefined(params: Params, foreign: Foreign, posts: seq<Post>)
  {
    forall i :: 0 <= i < |posts| && Counted(posts[i]) ==> PostKey(params, foreign, posts[i]).Ok?
  }

  lemma KeysDefinedPrefix(params: Params, foreign: Foreign, posts: seq<Post>, n: nat)
    requires n <= |posts| && KeysDefined(params, foreign, posts)
    ensures KeysDefined(params, foreign, posts[..n])
  {
    assert forall i :: 0 <= i < n ==> posts[..n][i] == posts[i];
  }

  /** The state's buckets are the keys `ks` seen, the current bucket the last of them, and all others saved. */
  predicate Tracks(st: State, ks: seq<string>)
  {
    && st.subunits.Keys == SetOf(ks)
    && st.current == (if ks == [] then "" else ks[|ks| - 1])
    && st.subunits.Keys == st.saved.Keys + (if st.current == "" then {} else {st.current})
    && "" !in st.subunits
  }

  lemma {:induction false} FoldKeys(ctx: Ctx, posts: seq<Post>)
    requires KeysDefined(ctx.params, ctx.foreign, posts)
    ensures Fold(ctx, posts).Running?
    ensures Tracks(Fold(ctx, posts).state, KeySeq(ctx.params, ctx.foreign, posts))
    ensures KeySeq(ctx.params, ctx.foreign, posts) == [] <==> forall i :: 0 <= i < |posts| ==> !Counted(posts[i])
    decreases |posts|
  {
    if |posts| > 0 {
      var n := |posts| - 1;
      var init, p := posts[..n], posts[n];
      assert posts == init + [p];
      KeysDefinedPrefix(ctx.params, ctx.foreign, posts, n);
      FoldKeys(ctx, init);
      NoCountedPrefix(posts, n);
      FoldKeysStep(ctx, init, p);
    }
  }

  lemma NoCountedPrefix(posts: seq<Post>, n: nat)
    requires n + 1 == |posts|
    ensures (forall i :: 0 <= i < |posts| ==> !Counted(posts[i])) <==>
            (forall i :: 0 <= i < n ==> !Counted(posts[..n][i])) && !Counted(posts[n])
  {
    assert forall i :: 0 <= i < n ==> posts[..n][i] == posts[i];
  }

  /** The step of FoldKeys for the last post. */
  lemma FoldKeysStep(ctx: Ctx, init: seq<Post>, p: Post)
    requires Counted(p) ==> PostKey(ctx.params, ctx.foreign, p).Ok?
    requires Fold(ctx, init).Running?
    requires Tracks(Fold(ctx, init).state, KeySeq(ctx.params, ctx.foreign, init))
    ensures Fold(ctx, init + [p]).Running?
    ensures Tracks(Fold(ctx, init + [p]).state, KeySeq(ctx.params, ctx.foreign, init + [p]))
    ensures Counted(p) ==> KeySeq(ctx.params, ctx.foreign, init + [p]) != []
    ensures !Counted(p) ==> KeySeq(ctx.params, ctx.foreign, init + [p]) == KeySeq(ctx.params, ctx.foreign, init)
  {
    var posts := init + [p];
    assert posts[..|posts| - 1] == init && posts[|posts| - 1] == p;
    if Counted(p) {
      var st := Fold(ctx, init).state;
      var key := PostKey(ctx.params, ctx.foreign, p).value;
      var tokens := PostTokens(ctx, p.body.value);
      assert Fold(ctx, posts) == Running(Advance(st, key, tokens));
      assert KeySeq(ctx.params, ctx.foreign, posts) == KeySeq(ctx.params, ctx.foreign, init) + [key];
      TracksAdvance(st, KeySeq(ctx.params, ctx.foreign, init), key, tokens);
    } else {
      GroupedSkipped(ctx, init, p);
    }
  }

  lemma TracksAdvance(st: State, ks: seq<string>, key: string, tokens: seq<string>)
    requires Inv(st) && Tracks(st, ks) && key != ""
    ensures Tracks(Advance(st, key, tokens), ks + [key])
  {
    AdvanceEffect(st, key, tokens);
    SetOfSnoc(ks, key);
  }

  /**
   * The value passed to `finish` is the number of distinct bucket keys among the posts with a
   * non-empty body, and a file is saved for each of them. With no such post, the final
   * `save_subunit("")` raises and nothing has been saved.
   */
  lemma RunCount(params: Params, foreign: Foreign, lists: seq<set<string>>, posts: seq<Post>)
    requires KeysDefined(params, foreign, posts)
    ensures var r := Run(params, foreign, lists, posts);
            var keys := SetOf(KeySeq(params, foreign, posts));
            && (r.Failed? <==> forall i :: 0 <= i < |posts| ==> !Counted(posts[i]))
            && (r.Failed? ==> r.error == MissingSubunit && r.files == map[])
            && (r.Finished? ==> r.count == |keys| && r.files.Keys == keys)
  {
    FoldKeys(RunCtx(params, foreign, lists), posts);
  }

  /** The first counted post whose timestamp columns are both missing stops the run with a KeyError. */
  lemma MissingTimestampStops(params: Params, foreign: Foreign, lists: seq<set<string>>, posts: seq<Post>, i: nat)
    requires i < |posts| && KeysDefined(params, foreign, posts[..i])
    requires Counted(posts[i]) && PostKey(params, foreign, posts[i]).Err?
    ensures Run(params, foreign, lists, posts).Failed?
    ensures Run(params, foreign, lists, posts).error == MissingTimestamp
  {
    var ctx := RunCtx(params, foreign, lists);
    FoldKeys(ctx, posts[..i]);
    var st := Fold(ctx, posts[..i]).state;
    StopsAt(ctx, posts, i);
    assert Fold(ctx, posts[..i + 1]) == Stopped(MissingTimestamp, st.saved);
    StoppedStays(ctx, posts, i + 1);
    assert Fold(ctx, posts) == Stopped(MissingTimestamp, st.saved);
    assert Run(params, foreign, lists, posts) == Failed(MissingTimestamp, Fold(ctx, posts[..i]).state.saved);
  }

  /** A counted post whose key raises stops a running loop with that error. */
  lemma StopsAt(ctx: Ctx, posts: seq<Post>, i: nat)
    requires i < |posts| && Fold(ctx, posts[..i]).Running?
    requires Counted(posts[i]) && PostKey(ctx.params, ctx.foreign, posts[i]).Err?
    ensures Fold(ctx, posts[..i + 1]) == Stopped(MissingTimestamp, Fold(ctx, posts[..i]).state.saved)
  {
    FoldSnoc(ctx, posts, i);
  }

  /** All token lists of the counted posts in bucket `key` with at least one kept token, in post order. */
  function Collect(ctx: Ctx, posts: seq<Post>, key: string): Snapshot
    decreases |posts|
  {
    if |posts| == 0 then []
    else
      var p := posts[|posts| - 1];
      Collect(ctx, posts[..|posts| - 1], key)
      + (if Counted(p) && PostKey(ctx.params, ctx.foreign, p) == Ok(key) && PostTokens(ctx, p.body.value) != []
         then [PostTokens(ctx, p.body.value)] else [])
  }

  /** Each key occupies one contiguous run of the sequence (as when posts are sorted by time). */
  predicate Grouped(ks: seq<string>)
  {
    forall i, j, l :: 0 <= i < j < l < |ks| && ks[i] == ks[l] ==> ks[j] == ks[i]
  }

  /** With grouped keys, a key that is not the last one seen is new. */
  lemma GroupedSnoc(ks: seq<string>, key: string)
    requires Grouped(ks + [key]) && ks != [] && ks[|ks| - 1] != key
    ensures Grouped(ks) && key !in SetOf(ks)
  {
    var ks' := ks + [key];
    assert forall i :: 0 <= i < |ks| ==> ks'[i] == ks[i];
    assert ks'[|ks|] == key;
  }

  lemma GroupedPrefix(ks: seq<string>, key: string)
    requires Grouped(ks + [key])
    ensures Grouped(ks)
  {
    assert forall i :: 0 <= i < |ks| ==> (ks + [key])[i] == ks[i];
  }

  /** A key never seen has collected nothing. */
  lemma {:induction false} CollectUnseen(ctx: Ctx, posts: seq<Post>, key: string)
    requires key !in SetOf(KeySeq(ctx.params, ctx.foreign, posts))
    ensures Collect(ctx, posts, key) == []
    decreases |posts|
  {
    if |posts| > 0 {
      var n := |posts| - 1;
      assert SetOf(KeySeq(ctx.params, ctx.foreign, posts[..n])) <= SetOf(KeySeq(ctx.params, ctx.foreign, posts));
      CollectUnseen(ctx, posts[..n], key);
    }
  }

  /**
   * The state holds, with respect to `collected`, every bucket's complete list: a bucket left
   * behind is saved with its whole list and reset, the current one holds its whole list.
   */
  predicate CompleteWrt(st: State, collected: string -> Snapshot)
  {
    && (forall k :: k in st.subunits && k != st.current ==>
          k in st.saved && st.saved[k] == collected(k) && st.subunits[k] == [])
    && (st.current in st.subunits ==> st.subunits[st.current] == collected(st.current))
  }

  lemma CompleteAdvance(st: State, key: string, tokens: seq<string>,
                        collected: string -> Snapshot, collected': string -> Snapshot)
    requires Inv(st) && CompleteWrt(st, collected) && key != ""
    requires "" !in st.subunits
    requires key != st.current ==> key !in st.subunits && collected(key) == []
    requires forall k :: collected'(k) == collected(k) + (if k == key && |tokens| > 0 then [tokens] else [])
    ensures CompleteWrt(Advance(st, key, tokens), collected')
  {
    AdvanceEffect(st, key, tokens);
    var st' := Advance(st, key, tokens);
    forall k | k in st'.subunits && k != st'.current
      ensures k in st'.saved && st'.saved[k] == collected'(k) && st'.subunits[k] == []
    {
      assert collected'(k) == collected(k);
      if k == st.current {
        assert st.subunits[k] == collected(k);
      } else {
        assert k in st.subunits;
      }
    }
  }

  /** The counted case of GroupedStep: the post's tokens go to bucket `key`. */
  lemma GroupedCounted(ctx: Ctx, init: seq<Post>, p: Post, ks: seq<string>)
    requires Counted(p) && PostKey(ctx.params, ctx.foreign, p).Ok?
    requires ks == KeySeq(ctx.params, ctx.foreign, init)
    requires Grouped(ks + [PostKey(ctx.params, ctx.foreign, p).value])
    requires Fold(ctx, init).Running? && Tracks(Fold(ctx, init).state, ks)
    requires CompleteWrt(Fold(ctx, init).state, k => Collect(ctx, init, k))
    ensures CompleteWrt(Advance(Fold(ctx, init).state, PostKey(ctx.params, ctx.foreign, p).value, PostTokens(ctx, p.body.value)),
                        k => Collect(ctx, init + [p], k))
  {
    var st := Fold(ctx, init).state;
    var key := PostKey(ctx.params, ctx.foreign, p).value;
    var tokens := PostTokens(ctx, p.body.value);
    var posts := init + [p];
    assert posts[..|posts| - 1] == init && posts[|posts| - 1] == p;
    assert forall k :: Collect(ctx, posts, k) ==
             Collect(ctx, init, k) + (if k == key && |tokens| > 0 then [tokens] else []);
    if key != st.current {
      if ks != [] {
        GroupedSnoc(ks, key);
      }
      CollectUnseen(ctx, init, key);
    }
    var c := k => Collect(ctx, init, k);
    var c' := k => Collect(ctx, posts, k);
    CompleteAdvance(st, key, tokens, c, c');
  }

  /** The skipped case of GroupedStep: a post without a body changes neither the state nor any bucket's list. */
  lemma GroupedSkipped(ctx: Ctx, init: seq<Post>, p: Post)
    requires !Counted(p)
    ensures Fold(ctx, init + [p]) == Fold(ctx, init)
    ensures forall k :: Collect(ctx, init + [p], k) == Collect(ctx, init, k)
  {
    var posts := init + [p];
    assert posts[..|posts| - 1] == init && posts[|posts| - 1] == p;
  }

  /** The step of GroupedInvariant for the last post. */
  lemma GroupedStep(ctx: Ctx, init: seq<Post>, p: Post)
    requires Counted(p) ==> PostKey(ctx.params, ctx.foreign, p).Ok?
    requires Grouped(KeySeq(ctx.params, ctx.foreign, init + [p]))
    requires Fold(ctx, init).Running?
    requires Tracks(Fold(ctx, init).state, KeySeq(ctx.params, ctx.foreign, init))
    requires CompleteWrt(Fold(ctx, init).state, k => Collect(ctx, init, k))
    ensures Fold(ctx, init + [p]).Running?
    ensures CompleteWrt(Fold(ctx, init + [p]).state, k => Collect(ctx, init + [p], k))
  {
    var posts := init + [p];
    var st := Fold(ctx, init).state;
    assert posts[..|posts| - 1] == init && posts[|posts| - 1] == p;
    if Counted(p) {
      var key := PostKey(ctx.params, ctx.foreign, p).value;
      assert KeySeq(ctx.params, ctx.foreign, posts) == KeySeq(ctx.params, ctx.foreign, init) + [key];
      assert Fold(ctx, posts) == Running(Advance(st, key, PostTokens(ctx, p.body.value)));
      GroupedCounted(ctx, init, p, KeySeq(ctx.params, ctx.foreign, init));
    } else {
      GroupedSkipped(ctx, init, p);
    }
  }

  /**
   * With grouped keys the streaming state is complete: every bucket left behind has been
   * saved with all of its token lists and reset, and the current bucket holds all of its own.
   */
  lemma {:induction false} GroupedInvariant(ctx: Ctx, posts: seq<Post>)
    requires KeysDefined(ctx.params, ctx.foreign, posts)
    requires Grouped(KeySeq(ctx.params, ctx.foreign, posts))
    ensures Fold(ctx, posts).Running?
    ensures CompleteWrt(Fold(ctx, posts).state, k => Collect(ctx, posts, k))
    decreases |posts|
  {
    if |posts| > 0 {
      var n := |posts| - 1;
      var init, p := posts[..n], posts[n];
      assert posts == init + [p];
      KeysDefinedPrefix(ctx.params, ctx.foreign, posts, n);
      PrefixKeySeq(ctx.params, ctx.foreign, posts);
      FoldKeys(ctx, init);
      GroupedInvariant(ctx, init);
      assert Counted(p) ==> PostKey(ctx.params, ctx.foreign, p).Ok?;
      GroupedStep(ctx, init, p);
    }
  }

  /** Dropping the last post keeps the key sequence grouped. */
  lemma PrefixKeySeq(params: Params, foreign: Foreign, posts: seq<Post>)
    requires |posts| > 0 && Grouped(KeySeq(params, foreign, posts))
    ensures Grouped(KeySeq(params, foreign, posts[..|posts| - 1]))
  {
    var ks := KeySeq(params, foreign, posts[..|posts| - 1]);
    var p := posts[|posts| - 1];
    if Counted(p) && PostKey(params, foreign, p).Ok? {
      GroupedPrefix(ks, PostKey(params, foreign, p).value);
    } else {
      assert KeySeq(params, foreign, posts) == ks;
    }
  }

  /** With grouped keys every saved file holds all token lists of its bucket. */
  lemma GroupedRunComplete(params: Params, foreign: Foreign, lists: seq<set<string>>, posts: seq<Post>)
    requires KeysDefined(params, foreign, posts)
    requires Grouped(KeySeq(params, foreign, posts))
    ensures var r := Run(params, foreign, lists, posts);
            r.Finished? ==> forall k :: k in r.files ==> r.files[k] == Collect(RunCtx(params, foreign, lists), posts, k)
  {
    var ctx := RunCtx(params, foreign, lists);
    GroupedInvariant(ctx, posts);
    FoldKeys(ctx, posts);
    var st := Fold(ctx, posts).state;
    assert Run(params, foreign, lists, posts) == Conclude(st);
    ConcludeComplete(st, k => Collect(ctx, posts, k));
  }

  lemma ConcludeComplete(st: State, collected: string -> Snapshot)
    requires CompleteWrt(st, collected) && st.saved.Keys <= st.subunits.Keys
    ensures var r := Conclude(st);
            r.Finished? ==> forall k :: k in r.files ==> r.files[k] == collected(k)
  {
  }

  /**
   * A bucket that comes back after another one continues in the list reset when it was left,
   * so its final file holds only the later posts: the earlier snapshot is overwritten.
   */
  lemma ReappearingKeyKeepsLastRun(ctx: Ctx, p1: Post, p2: Post, p3: Post)
    requires Counted(p1) && Counted(p2) && Counted(p3)
    requires PostKey(ctx.params, ctx.foreign, p1).Ok? && PostKey(ctx.params, ctx.foreign, p2).Ok?
    requires PostKey(ctx.params, ctx.foreign, p3) == PostKey(ctx.params, ctx.foreign, p1)
    requires PostKey(ctx.params, ctx.foreign, p2) != PostKey(ctx.params, ctx.foreign, p1)
    requires PostTokens(ctx, p1.body.value) != [] && PostTokens(ctx, p3.body.value) != []
    ensures Fold(ctx, [p1, p2, p3]).Running?
    ensures var k := PostKey(ctx.params, ctx.foreign, p1).value;
            var r := Conclude(Fold(ctx, [p1, p2, p3]).state);
            && r.Finished? && r.count == 2
            && r.files[k] == [PostTokens(ctx, p3.body.value)]
            && Collect(ctx, [p1, p2, p3], k) == [PostTokens(ctx, p1.body.value), PostTokens(ctx, p3.body.value)]
  {
    var k := PostKey(ctx.params, ctx.foreign, p1).value;
    var k2 := PostKey(ctx.params, ctx.foreign, p2).value;
    var t1, t2, t3 := PostTokens(ctx, p1.body.value), PostTokens(ctx, p2.body.value), PostTokens(ctx, p3.body.value);
    FoldThree(ctx, p1, p2, p3);
    ReappearStates(k, k2, t1, t2, t3);
    CollectThree(ctx, p1, p2, p3);
  }

  /** Three counted posts with defined keys are three `Advance` steps from the empty state. */
  lemma FoldThree(ctx: Ctx, p1: Post, p2: Post, p3: Post)
    requires Counted(p1) && Counted(p2) && Counted(p3)
    requires PostKey(ctx.params, ctx.foreign, p1).Ok? && PostKey(ctx.params, ctx.foreign, p2).Ok?
    requires PostKey(ctx.params, ctx.foreign, p3).Ok?
    ensures Fold(ctx, [p1, p2, p3]) ==
            Running(Advance(Advance(Advance(State(map[], "", map[]),
                                            PostKey(ctx.params, ctx.foreign, p1).value, PostTokens(ctx, p1.body.value)),
                                    PostKey(ctx.params, ctx.foreign, p2).value, PostTokens(ctx, p2.body.value)),
                            PostKey(ctx.params, ctx.foreign, p3).value, PostTokens(ctx, p3.body.value)))
  {
    var posts := [p1, p2, p3];
    assert posts[..0] == [] && posts[..1] == [p1] && posts[..2] == [p1, p2] && posts[..3] == posts;
    FoldSnoc(ctx, posts, 0);
    FoldSnoc(ctx, posts, 1);
    FoldSnoc(ctx, posts, 2);
  }

  /** Bucket `k`, then `k2`, then `k` again: `k`'s file ends up holding only the third list. */
  lemma ReappearStates(k: string, k2: string, t1: seq<string>, t2: seq<string>, t3: seq<string>)
    requires k != k2 && k != "" && k2 != "" && t1 != [] && t3 != []
    ensures var r := Conclude(Advance(Advance(Advance(State(map[], "", map[]), k, t1), k2, t2), k, t3));
            r.Finished? && r.count == 2 && r.files[k] == [t3]
  {
    var st1 := Advance(State(map[], "", map[]), k, t1);
    assert st1.current == k && st1.subunits.Keys == {k} && st1.subunits[k] == [t1];
    var st2 := Advance(st1, k2, t2);
    assert st2.current == k2 && st2.subunits.Keys == {k, k2} && st2.subunits[k] == [];
    var st3 := Advance(st2, k, t3);
    assert st3.current == k && st3.subunits.Keys == {k, k2} && st3.subunits[k] == [t3];
    assert |st3.subunits.Keys| == 2;
  }

  lemma CollectThree(ctx: Ctx, p1: Post, p2: Post, p3: Post)
    requires Counted(p1) && Counted(p3)
    requires PostKey(ctx.params, ctx.foreign, p1).Ok?
    requires PostKey(ctx.params, ctx.foreign, p3) == PostKey(ctx.params, ctx.foreign, p1)
    requires PostKey(ctx.params, ctx.foreign, p2) != PostKey(ctx.params, ctx.foreign, p1)
    requires PostTokens(ctx, p1.body.value) != [] && PostTokens(ctx, p3.body.value) != []
    ensures Collect(ctx, [p1, p2, p3], PostKey(ctx.params, ctx.foreign, p1).value)
            == [PostTokens(ctx, p1.body.value), PostTokens(ctx, p3.body.value)]
  {
    var posts := [p1, p2, p3];
    var k := PostKey(ctx.params, ctx.foreign, p1).value;
    assert posts[..0] == [] && posts[..1] == [p1] && posts[..2] == [p1, p2];
    assert [p1][..0] == [] && [p1, p2][..1] == [p1];
    assert Collect(ctx, [p1], k) == [PostTokens(ctx, p1.body.value)];
    assert Collect(ctx, [p1, p2], k) == [PostTokens(ctx, p1.body.value)];
  }


  /** `process()`: build the filter, stream the posts into buckets, save as buckets change. */
  method Process(params: Params, foreign: Foreign, lists: seq<set<string>>, posts: seq<Post>)
    returns (result: RunResult)
    ensures result == Run(params, foreign, lists, posts)
  {
    var wordFilter := BuildWordFilter(lists, params.acceptWords, params.rejectWords);
    var ctx := Ctx(params, foreign, wordFilter);
    var subunits: map<string, Snapshot> := map[];
    var current := "";
    var saved: Files := map[];
    for i := 0 to |posts|
      invariant Fold(ctx, posts[..i]) == Running(State(subunits, current, saved))
    {
      FoldSnoc(ctx, posts, i);
      ghost var before := State(subunits, current, saved);
      var post := posts[i];
      if post.body.None? || post.body.value == "" {
        continue;
      }
      var key := PostOutput(params, foreign, post);
      if key.Err? {
        StoppedStays(ctx, posts, i + 1);
        return Failed(key.error, saved);
      }
      var output := key.value;
      assert Fold(ctx, posts[..i + 1]) == Running(Advance(before, output, PostTokens(ctx, post.body.value)));
      if current != "" && current != output {
        saved := saved[current := subunits[current]];   // save_subunit(current_subunit)
        subunits := subunits[current := []];            // free up memory
      }
      current := output;
      if output !in subunits {
        subunits := subunits[output := []];
      }
      assert State(subunits, current, saved) == SwitchTo(before, output);
      var postTokens := TokenisePost(ctx, post.body.value);
      if |postTokens| > 0 {
        subunits := subunits[output := subunits[output] + [postTokens]];
      }
    }
    assert posts[..|posts|] == posts;
    if current !in subunits {
      return Failed(MissingSubunit, saved);     // save_subunit("") on no bucket at all
    }
    saved := saved[current := subunits[current]];
    return Finished(|subunits|, saved);
  }
}
