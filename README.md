# 4CAT fetch worker and tokeniser, modelled in Dafny

This project models two pieces of the 4CAT data-collection backend and proves properties of them.

**The fetch worker** is `BasicHTTPScraper` and its JSON variant. A worker is bound to one claimed job. It gets the job's content either from a local file named in `details["file"]` or from a URL, optionally through a proxy drawn from a per-protocol pool. It classifies what it got: missing file, transport exception, 404, unparsable payload, or success. It then finishes or releases the job according to the job's attempt count, and hands a parsed payload to the `process` hook.

- `Scraper.Job` records the `finish()` / `release(delay)` calls made on the job.
- `Scraper.HttpScraper` is the worker class. Its `Work` method changes the job and the worker's own request/process records step by step, as the source does.
- `Work` is proved against the pure function `Scraper.WorkOutcome`, which states the whole decision table.

**The tokeniser processor** is `Tokenise.process`. It works in these steps:

1. It builds a word filter from loaded word lists, accepted words and rejected words.
2. It removes links from each post body and tokenises it with a foreign tokeniser.
3. It cleans every token: lower-casing, symbol stripping, dropping all-digit tokens. It drops empty and filtered tokens, and stems and lemmatises the rest.
4. It streams the posts into time buckets ("overall", year, year-month or year-month-day). Whenever the bucket changes, it saves the bucket being left and resets it.
5. At the end it saves the last bucket and reports the number of buckets.

The imperative parts are methods proved against specification functions:

- `BuildWordFilter` with its loops `LoadLists` and `RemoveWords`, proved against `WordFilter`;
- `TokenisePost`, the per-token loop, proved against `PostTokens`;
- `PostOutput`, the bucket key, proved against `PostKey`;
- `Process`, the post loop, proved against `Run`, a left fold of one `Step` per post.

The properties of the run are proved as lemmas about that fold. These cover:

- the bucket count;
- the KeyErrors;
- completeness of the saved files when posts arrive grouped by bucket;
- the overwrite that happens when a bucket reappears after another one.

Module layout:

- `common.dfy`: `Option` and `Result`.
- `text.dfy`: the Python string operations the two files use. These are `split`, `split(..)[0]`, `strip`, ASCII `lower` and `str()` of a natural number.
- `scraper.dfy`: the fetch worker.
- `tokenise.dfy`: the tokeniser.

The parse-failure branch of `work()` and its own log messages disagree. The code (`backend/abstract/scraper.py:90-96`) releases the job when `attempts > 2` and finishes it otherwise. The message logged on the release says the payload could not be parsed and will be retried later (line 91). The message logged on the finish says parsing failed after that many attempts and the job is aborted (lines 94-95). The transport-failure branch (lines 69-76) gives up when `attempts > 2` and retries otherwise. This model follows the code: `WorkOutcome` and `Work` encode the branches as written. The policy the messages describe is `IntendedOutcome` (see "## Findings").

## Model

| member | source | states |
|---|---|---|
| Scraper.HttpScraper.constructor | backend/abstract/scraper.py:26-31 | a new worker is bound to its job and parse hook, its prefix is `FirstField(type, '-')`, and it has issued no request and processed nothing |
| Text.FirstField | backend/abstract/scraper.py:61 | `s.split(sep)[0]` is the first field of `split(sep)`: the longest prefix of `s` without `sep`, followed by `sep` when it is shorter than `s`; used for the URL's protocol here and for the worker prefix `type.split("-")[0]` at line 31 |
| Scraper.SelectProxies | backend/abstract/scraper.py:61-65 | the proxies are `{protocol: p}` with `p` a member of the protocol's pool when the pool exists and is non-empty, and `None` otherwise |
| Scraper.LogId | backend/abstract/scraper.py:78-81 | the log id ends with `remote_id`; with a `board` detail it is `board`, then `/`, then `remote_id`, and without one it is `remote_id` |
| Scraper.ParseHooks | backend/abstract/scraper.py:116-161 | the default hook passes the body on unchanged; the JSON hook yields no value exactly when decoding fails or decodes to `null`, and otherwise yields the decoded value |
| Scraper.WorkOutcome | backend/abstract/scraper.py:33-101 | at most one job call; no call exactly when `work()` raises, which happens only for a local file on the parse-failure branch; a request exactly for URL sources; something processed exactly on success, then one payload (the parse of the content read) and a single `finish` |
| Scraper.MissingFileFinishes | backend/abstract/scraper.py:42-47 | a missing local file gives a single `finish`, no request, nothing processed and no exception |
| Scraper.TransportFailurePolicy | backend/abstract/scraper.py:69-76 | a transport exception gives a single `finish` when `attempts > 2` and `release(10)` otherwise; the request was issued and nothing is processed |
| Scraper.NotFoundFinishes | backend/abstract/scraper.py:83-86 | a 404 response gives a single `finish` through `not_found()` and nothing is processed |
| Scraper.LocalFileNeverNotFound | backend/abstract/scraper.py:49-55 | a local file is read with status 200, so it never takes the not-found branch |
| Scraper.ParseFailureAsWritten | backend/abstract/scraper.py:88-97 | an unparsable URL payload gives `release(d)` with the drawn `d` when `attempts > 2` and `finish` otherwise; nothing processed, no exception |
| Scraper.LocalParseFailureRaises | backend/abstract/scraper.py:89-95 | an unparsable local file raises before any job call, because the log message uses `id`, which only the URL branch assigns |
| Scraper.SuccessProcessesOnce | backend/abstract/scraper.py:99-101 | a payload that parses is processed exactly once, with the parsed value, and the job is then finished |
| Scraper.HttpScraper.AfterProcess | backend/abstract/scraper.py:103-107 | appends one `finish` to the job's calls and changes nothing else |
| Scraper.HttpScraper.NotFound | backend/abstract/scraper.py:109-114 | appends one `finish` to the job's calls and changes nothing else |
| Scraper.HttpScraper.Work | backend/abstract/scraper.py:33-101 | for some delay in [15, 45), the job's new calls, the newly processed payloads and the exception flag are those of `WorkOutcome`; at most one request is added, and only for a URL source; a new request carries the URL and permitted proxies; earlier requests are kept |
| Scraper.NewJsonScraper | backend/abstract/scraper.py:146-161 | the JSON worker is a fresh worker bound to the given job, job type and proxy configuration, with prefix `FirstField(type, '-')`; its parse hook is `JsonParse` of the decoder on every content; it has issued no request and processed nothing |
| Scraper.Job.Finish | backend/abstract/scraper.py:45 | a `finish()` call appends one `Finished` to the job's recorded calls |
| Scraper.Job.Release | backend/abstract/scraper.py:74 | a `release(delay)` call appends one `Released(delay)` to the job's recorded calls |
| Scraper.IntendedOutcome | backend/abstract/scraper.py:89-97 | the corrected decision always ends in exactly one job call and never raises; an unparsable payload is finished past the threshold and released with the drawn delay before it |
| Scraper.IntendedPolicy | backend/abstract/scraper.py:89-97 | the corrected decision agrees with the code on every branch but the parse failure; there, it retries in [15, 45) while `attempts <= 2` and gives up past it |
| Scraper.ParseFailureInverted | backend/abstract/scraper.py:90-96 | on a concrete unparsable URL payload, the code drops the job on attempt 1 and retries it on attempt 5, the reverse of the corrected decision |
| Scraper.LocalParseFailureCounterexample | backend/abstract/scraper.py:89-95 | on a concrete unparsable local file, the code raises with no job call, while the corrected decision releases the job |
| Text.StripSlice | processors/text-analysis/tokenise.py:132 | `strip()` yields the contiguous piece `s[i..j]` of its input, where everything before `i` and everything from `j` on is whitespace, so nothing inside the string is removed |
| Text.StripProperties | processors/text-analysis/tokenise.py:132 | `strip()` leaves a result that starts and ends with non-whitespace; it is empty exactly when the input is all whitespace; a string without surrounding whitespace is unchanged |
| Text.StripIdempotent | processors/text-analysis/tokenise.py:139 | stripping an already stripped word changes nothing |
| Text.Split | processors/text-analysis/tokenise.py:132 | `split(",")` gives at least one field; no field contains the separator; joining the fields with the separator gives back the input |
| Text.SplitOfJoin | processors/text-analysis/tokenise.py:139 | splitting the join of separator-free fields gives back those fields |
| Text.Lower | processors/text-analysis/tokenise.py:234 | lower-casing keeps the length, turns each ASCII capital into its own lower-case letter (`'A'` to `'a'` and so on), keeps every other character, and so leaves no ASCII capital |
| Text.NatToString | processors/text-analysis/tokenise.py:200-204 | `str(n)` is a non-empty string of decimal digits, with a leading `0` only for `n == 0` |
| Text.NatToStringRoundTrip | processors/text-analysis/tokenise.py:200-204 | reading the digits of `str(n)` back as a number gives `n` |
| Tokenise.WordList | processors/text-analysis/tokenise.py:132 | an empty option gives no words; otherwise one word per comma-separated field, in order, and word `i` is field `i` with the whitespace before and after it cut off and nothing inside removed; no word holds a comma or surrounding whitespace |
| Tokenise.WordListOfJoin | processors/text-analysis/tokenise.py:139 | listing a comma-joined list of stripped, comma-free words gives those words back, unless the list is the single empty word (an empty option lists nothing) |
| Tokenise.UnionAllMembers | processors/text-analysis/tokenise.py:124-127 | a word is in the union of the loaded lists exactly when some list holds it |
| Tokenise.WordFilterMembers | processors/text-analysis/tokenise.py:124-140 | a word is filtered exactly when it is rejected, or it is in a loaded list and not accepted; a word both accepted and rejected is filtered |
| Tokenise.BuildWordFilter | processors/text-analysis/tokenise.py:124-140 | the filter built is `(union of lists - accepted words) + rejected words`, with the word lists comma-split and stripped, and empty options skipped |
| Tokenise.LoadLists | processors/text-analysis/tokenise.py:124-127 | the loop over the word lists yields their union |
| Tokenise.RemoveWords | processors/text-analysis/tokenise.py:131-135 | the loop over the accepted words removes exactly those words from the filter |
| Tokenise.FilterMatch | processors/text-analysis/tokenise.py:143 | a non-empty token fully matches the alternation of escaped non-empty filter words exactly when it is a filter word, so an empty filter drops nothing |
| Tokenise.StripLinks | processors/text-analysis/tokenise.py:224 | removing links shortens the body or leaves it as long as before, and adds no character that was not in it |
| Tokenise.StripLinksNoLink | processors/text-analysis/tokenise.py:224 | a body in which no link starts is passed to the tokeniser unchanged |
| Tokenise.StripLinksDropsLink | processors/text-analysis/tokenise.py:112 | an `http://` or `https://` link followed by whitespace or the end is removed up to the whitespace, which is kept |
| Tokenise.StripSymbols | processors/text-analysis/tokenise.py:113 | removing `[^a-zA-Z0-9]` keeps only alphanumerics, keeps every alphanumeric, and leaves an all-alphanumeric token unchanged |
| Tokenise.StripSymbolsByCharacter | processors/text-analysis/tokenise.py:237 | symbol removal distributes over concatenation and keeps a single character exactly when it is in `[a-zA-Z0-9]`, so order and multiplicity of the kept characters are those of the input |
| Tokenise.StripSymbolsLetters | processors/text-analysis/tokenise.py:237 | the result of symbol removal holds an ASCII letter exactly when the input does |
| Tokenise.DropNumber | processors/text-analysis/tokenise.py:114 | removing `\b[0-9]+\b` from an alphanumeric token either keeps it as it is or empties an all-digit token, and every all-digit token is emptied |
| Tokenise.CleanToken | processors/text-analysis/tokenise.py:234-240 | without `strip_symbols` the token is only lower-cased; with it, the cleaned token is alphanumeric and, when non-empty, not all digits; it is empty exactly when the token has no ASCII letter, and otherwise it is the lower-cased token with its symbols removed |
| Tokenise.ProcessToken | processors/text-analysis/tokenise.py:233-252 | a token yields at most one kept token; it yields none exactly when its cleaned form is empty or a filter word, and otherwise the stemmed and lemmatised cleaned form |
| Tokenise.KeptTokensAppend | processors/text-analysis/tokenise.py:233-252 | token order is preserved: the kept tokens of a concatenation are the concatenation of the kept tokens |
| Tokenise.KeptTokensClean | processors/text-analysis/tokenise.py:236-252 | without stemming or lemmatising, no more tokens are kept than were produced, and every kept token is non-empty and not a filter word; with `strip_symbols` it is also alphanumeric and not all digits |
| Tokenise.Tokenize | processors/text-analysis/tokenise.py:227-230 | `tokenizer_type == "twitter"` selects the tweet tokeniser, which is not told the language; any other value selects the word tokeniser with the `language` option |
| Tokenise.HandleToken | processors/text-analysis/tokenise.py:233-252 | one pass of the per-token loop appends exactly `ProcessToken` of the token: nothing when it `continue`s, else the cleaned, stemmed and lemmatised token |
| Tokenise.TokenisePost | processors/text-analysis/tokenise.py:221-252 | the per-token loop yields exactly `PostTokens` of the body: links removed, tokenised by the chosen tokeniser, cleaned and filtered token by token |
| Tokenise.DateFields | processors/text-analysis/tokenise.py:199-204 | a timeframe keeps one, two or three date fields, none containing `-` |
| Tokenise.BucketKeySpelledOut | processors/text-analysis/tokenise.py:199-204 | the key is `str(year)` for "year", `year-month` for "month" and `year-month-day` otherwise, without zero padding |
| Tokenise.BucketKeyInjective | processors/text-analysis/tokenise.py:199-204 | under one timeframe, two dates get the same key exactly when they agree on the fields that timeframe keeps |
| Tokenise.Timestamp | processors/text-analysis/tokenise.py:188-197 | the timestamp is missing (a KeyError) exactly when neither `timestamp_unix` nor `timestamp` exists |
| Tokenise.PostKey | processors/text-analysis/tokenise.py:185-204 | a post's key is never empty; it is a KeyError exactly when the timeframe is not "all" and neither timestamp column exists, and that error is the missing timestamp |
| Tokenise.PostKeyCases | processors/text-analysis/tokenise.py:185-204 | the key is "overall" for "all"; otherwise it comes from `timestamp_unix` when that column exists and from `timestamp` otherwise, with 0 for an unparsable value; a KeyError results when neither column exists |
| Tokenise.PostOutput | processors/text-analysis/tokenise.py:185-204 | the method computing a post's bucket yields exactly `PostKey` |
| Tokenise.AdvanceEffect | processors/text-analysis/tokenise.py:208-256 | leaving a non-empty current bucket saves its list and resets it; then the new key becomes current, gets a list if it had none, and receives the post's tokens if there are any; other buckets and saved files are unchanged |
| Tokenise.Step | processors/text-analysis/tokenise.py:178-256 | one post: a post with a missing or empty body changes nothing; a counted post stops the loop exactly when its key fails, keeping the files saved so far; otherwise its key becomes the current bucket |
| Tokenise.Fold | processors/text-analysis/tokenise.py:178-256 | the post loop keeps the current bucket empty or one of the buckets, and the only error that stops it is the missing timestamp |
| Tokenise.Conclude | processors/text-analysis/tokenise.py:258-273 | after the loop, the run finishes exactly when the current bucket exists; the count is the number of buckets and the files are those saved plus the current bucket; otherwise `save_subunit` raises a KeyError with the files saved so far |
| Tokenise.Run | processors/text-analysis/tokenise.py:105-273 | with no posts the run raises the KeyError of `save_subunit("")` having saved nothing; a finished run reports at least one bucket |
| Tokenise.StoppedStays | processors/text-analysis/tokenise.py:178-197 | once a KeyError has stopped the loop, later posts change nothing |
| Tokenise.FoldKeys | processors/text-analysis/tokenise.py:156-217 | while no KeyError occurs, the buckets are exactly the keys of the posts with a body; the current bucket is the last such key, or "" when there is none; every other bucket has been saved |
| Tokenise.RunCount | processors/text-analysis/tokenise.py:156-273 | `finish` receives the number of distinct bucket keys among posts with a body, and a file is saved for each key; with no such post, `save_subunit("")` raises and nothing has been saved |
| Tokenise.MissingTimestampStops | processors/text-analysis/tokenise.py:188-197 | the first post with a body but neither timestamp column stops the run with a KeyError |
| Tokenise.GroupedInvariant | processors/text-analysis/tokenise.py:206-256 | when each key's posts are contiguous, every bucket left behind is saved with all of its non-empty token lists, in post order, and reset; the current bucket holds all of its own |
| Tokenise.GroupedRunComplete | processors/text-analysis/tokenise.py:206-265 | when each key's posts are contiguous, every saved file holds all non-empty token lists of its bucket, in post order |
| Tokenise.ReappearingKeyKeepsLastRun | processors/text-analysis/tokenise.py:208-217 | a key that comes back after another key continues in the list reset when it was left; its final file holds only the later posts, although its posts had two non-empty lists |
| Tokenise.Process | processors/text-analysis/tokenise.py:105-273 | the whole processor yields exactly `Run`: the filter, the post loop, the final save and the bucket count, or the KeyError with the files saved so far |

## Left out

- The job queue (claiming, exclusivity, attempt counting) is not part of this model. A job is an object that records its `finish` / `release` calls and carries a fixed attempt count.
- File system and network: `os.path.exists`, `open().read()`, `requests.get` and its timeout are inputs to `Work`. These are `fileExists`, `fileContent` and `response`. A response is a status and a body, or a caught transport exception.
- `get_url()` and `process()` are subclass hooks. The URL is an input to `Work`. `process` is recorded as the list of payloads handed to it; it is taken to make no job call of its own.
- Exceptions other than the ones the code catches (e.g. a missing `remote_id`) are not modelled, and neither are subclasses overriding `not_found` or `after_process`.
- The randomness of `random.choice` is not modelled: the proxy is some member of the pool and the delay some value in [15, 45).
- Logging is left out, except that the one log message reading an unassigned `id` raises.
- `json.loads` is a foreign decoder. It yields a value, `null` or a decode error, and `null` takes the parse-failure branch like an error.
- The NLTK tokenisers, stemmer and lemmatiser, `strptime`, `fromtimestamp` and `int()` on a timestamp column are foreign functions in `Tokenise.Foreign`.
- Loading the word-list files (`open`, `pickle.load`) is not modelled: the processor receives the loaded sets.
- `Response.content` is bytes in `requests`, while a local file is read as text (lines 52, 88). Both are modelled as `string`, and decoding bytes is left to the parse hook.
- Text.Lower: `str.lower` is modelled for ASCII letters only; letters outside ASCII are left as they are.
- Text.IsSpace: the set of whitespace characters is Python's `str.isspace` set, written out. The same set is used for `\s` in the link pattern.
- Tokenise.DropNumber: `\b[0-9]+\b` is modelled only on strings of `[a-zA-Z0-9]`, which is all it ever receives. There, a digit run is bounded by word boundaries only when it is the whole string.
- `zipfile`, `shutil`, the temporary directory and `update_status` are left out. Saving a bucket is recorded as the map entry key → snapshot written. The archive holds one entry per bucket with its last saved snapshot, which is that map.
- `self.parameters["stem"]` and `["lemmatise"]` (lines 245, 248) raise a KeyError when the option is absent. All options are taken as given in `Tokenise.Params`.
- Scraper.WorkOutcome: it does not state that every run ends in exactly one job call, because as written an unparsable local file raises first. `IntendedOutcome` states it for the corrected decision.

## Findings

| source | as written | input that shows it | evidently intended | confidence | as-written member | corrected member |
|---|---|---|---|---|---|---|
| backend/abstract/scraper.py:90-96 | an unparsable payload is released (retried) when `attempts > 2` and finished (dropped) otherwise | a URL job with `attempts == 1` whose body does not parse is finished; the same job with `attempts == 5` is released | retry while `attempts <= 2`, then give up; this matches the log texts "retrying later" / "could not be parsed after N attempts, aborting", and the transport-failure policy at lines 69-76 | high, not executed | Scraper.ParseFailureInverted | Scraper.IntendedPolicy |
| backend/abstract/scraper.py:89-95 | the log message of the parse-failure branch formats `id`, which only the URL branch assigns, so a local file source raises UnboundLocalError before any job call | `details == {"file": "dump.json"}`, the file exists, and its content does not parse | the job is finished or released like a URL job | high, not executed | Scraper.LocalParseFailureCounterexample | Scraper.IntendedOutcome |
