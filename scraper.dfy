/**
 * The fetch worker: one claimed job becomes exactly one `finish()` or `release(delay)`
 * on that job, decided by where the content comes from (a local file that exists or not,
 * or a URL), whether the transport raised, the HTTP status, what the parse hook returns
 * and the job's attempt count.
 *
 * The job queue itself (claiming, attempt counting) is not part of this model: a job is an
 * object that records the `finish`/`release` calls made on it. File system, network, the
 * URL hook and the `process` hook are inputs; random choices are `:|` choices.
 */
module Scraper {
  import opened Common
  import opened Text

  /** A call the worker makes on its job. */
  datatype JobCall = Finished | Released(delay: int)

  /** The job as the worker sees it, recording the outcome calls made on it. */
  class Job {
    /** `job.details`, read-only to workers */
    const details: map<string, string>
    /** `job.data["remote_id"]` */
    const remoteId: string
    /** `job.data["attempts"]`, maintained by the queue */
    const attempts: int
    /** the `finish()` / `release(delay)` calls made on this job, in order */
    var calls: seq<JobCall>

    constructor (details: map<string, string>, remoteId: string, attempts: int)
      ensures this.details == details && this.remoteId == remoteId && this.attempts == attempts
      ensures calls == []
    {
      this.details := details;
      this.remoteId := remoteId;
      this.attempts := attempts;
      calls := [];
    }

    method Finish()
      modifies this
      ensures calls == old(calls) + [Finished]
    {
      calls := calls + [Finished];
    }

    method Release(delay: int)
      modifies this
      ensures calls == old(calls) + [Released(delay)]
    {
      calls := calls + [Released(delay)];
    }
  }

  /** Retry policy constants of `work()`. */
  const AttemptsThreshold: int := 2      // `attempts > 2` gives up (or, for parse failures, see below)
  const TransportRetryDelay: int := 10   // `release(delay=10)`
  const ParseRetryDelayLow: int := 15    // `random.choice(range(15, 45))`
  const ParseRetryDelayHigh: int := 45   // exclusive

  /** What the network request produced: a caught transport exception or a response. */
  datatype Fetched = TransportError | Response(status: int, content: string)

  /** One `requests.get(url, proxies=...)` call. */
  datatype Request = Request(url: string, proxies: Option<map<string, string>>)

  /** The branch of `work()` that was taken. */
  datatype Branch = MissingFile | TransportFailed | NotFound | Unparsable | Processed

  /**
   * Everything `work()` does that is visible from outside: the branch, the calls on the job,
   * whether a request was issued, the payloads handed to `process`, and whether it raised.
   */
  datatype Outcome<P> = Outcome(branch: Branch, calls: seq<JobCall>, requested: bool,
                                processed: seq<P>, raised: bool)

  /**
   * The `proxies` argument the request may receive: `{protocol: p}` with `p` one of the
   * configured proxies when the protocol has a non-empty pool, and `None` otherwise.
   */
  predicate ProxiesAllowed(url: string, config: map<string, seq<string>>,
                           proxies: Option<map<string, string>>)
  {
    var protocol := FirstField(url, ':');   // url.split(":")[0]
    if protocol in config && |config[protocol]| > 0 then
      proxies.Some? && proxies.value.Keys == {protocol} && proxies.value[protocol] in config[protocol]
    else
      proxies == None
  }

  /** Proxy selection before the request; `random.choice` is an arbitrary member of the pool. */
  method SelectProxies(url: string, config: map<string, seq<string>>)
    returns (proxies: Option<map<string, string>>)
    ensures ProxiesAllowed(url, config, proxies)
  {
    var protocol := FirstField(url, ':');   // url.split(":")[0]
    if protocol in config && |config[protocol]| > 0 {
      assert config[protocol][0] in config[protocol];
      var proxy :| proxy in config[protocol];
      proxies := Some(map[protocol := proxy]);
    } else {
      proxies := None;
    }
  }

  /** The identifier used in log messages: `board + "/" + remote_id`, or `remote_id`. */
  function LogId(details: map<string, string>, remoteId: string): (id: string)
    ensures |id| >= |remoteId| && id[|id| - |remoteId|..] == remoteId
    ensures "board" in details ==>
              |id| == |details["board"]| + 1 + |remoteId|
              && id[..|details["board"]|] == details["board"] && id[|details["board"]|] == '/'
    ensures "board" !in details ==> id == remoteId
  {
    if "board" in details then details["board"] + "/" + remoteId else remoteId
  }

  /** The default parse hook: the body is passed on unchanged. */
  function DefaultParse(content: string): Option<string>
  {
    Some(content)
  }

  /** What `json.loads` does with a string: raise a decode error, return None (for `null`), or a value. */
  datatype Decoded<V> = DecodeError | JsonNull | JsonValue(value: V)

  /** The JSON parse hook: a decode error becomes None instead of propagating. */
  function JsonParse<V>(loads: string -> Decoded<V>, content: string): Option<V>
  {
    match loads(content)
    case DecodeError => None
    case JsonNull => None
    case JsonValue(v) => Some(v)
  }

  lemma ParseHooks<V>(loads: string -> Decoded<V>, content: string)
    ensures DefaultParse(content) == Some(content)
    ensures JsonParse(loads, content).None? <==> loads(content).DecodeError? || loads(content).JsonNull?
    ensures loads(content).JsonValue? ==> JsonParse(loads, content) == Some(loads(content).value)
  {
  }

  /**
   * What `work()` does, as written. `fileExists`/`fileContent` are what the file system says
   * about `details["file"]`, `response` is what the request produced (both only consulted on
   * their own branch), `parse` is the parse hook and `retryDelay` the value drawn from
   * `range(15, 45)`.
   *
   * Two things follow the code and not its log messages:
   *  - on a parse failure, `attempts > 2` RELEASES the job (the message says "retrying
   *    later") and otherwise the job is FINISHED (the message says "aborting after N
   *    attempts"), the opposite of the transport-failure policy;
   *  - the log message of that branch names `id`, which is only assigned on the URL branch,
   *    so with a local file source it raises (UnboundLocalError) before any job call.
   */
  function WorkOutcome<P>(details: map<string, string>, remoteId: string, attempts: int,
                          fileExists: bool, fileContent: string, response: Fetched,
                          parse: string -> Option<P>, retryDelay: int): (o: Outcome<P>)
    ensures |o.calls| <= 1
    ensures o.raised <==> o.calls == []
    ensures o.raised ==> "file" in details && o.branch == Unparsable
    ensures o.requested <==> "file" !in details
    ensures o.processed != [] <==> o.branch == Processed
    ensures o.branch == Processed ==>
              o.calls == [Finished] && |o.processed| == 1
              && ("file" in details ==> parse(fileContent) == Some(o.processed[0]))
              && ("file" !in details ==> response.Response? && parse(response.content) == Some(o.processed[0]))
  {
    var local := "file" in details;
    if local && !fileExists then
      Outcome(MissingFile, [Finished], false, [], false)
    else if !local && response.TransportError? then
      Outcome(TransportFailed,
              if attempts > AttemptsThreshold then [Finished] else [Released(TransportRetryDelay)],
              true, [], false)
    else
      var status := if local then 200 else response.status;
      var content := if local then fileContent else response.content;
      if status == 404 then
        Outcome(NotFound, [Finished], !local, [], false)
      else
        match parse(content)
        case None =>
          if local then Outcome(Unparsable, [], false, [], true)
          else if attempts > AttemptsThreshold then Outcome(Unparsable, [Released(retryDelay)], true, [], false)
          else Outcome(Unparsable, [Finished], true, [], false)
        case Some(payload) =>
          Outcome(Processed, [Finished], !local, [payload], false)
  }

  /** A local source file that does not exist finishes the job; nothing is requested, parsed or processed. */
  lemma MissingFileFinishes<P>(details: map<string, string>, remoteId: string, attempts: int,
                               fileContent: string, response: Fetched,
                               parse: string -> Option<P>, retryDelay: int)
    requires "file" in details
    ensures var o := WorkOutcome(details, remoteId, attempts, false, fileContent, response, parse, retryDelay);
            o.branch == MissingFile && o.calls == [Finished] && !o.requested && o.processed == [] && !o.raised
  {
  }

  /** A transport exception finishes past the threshold and otherwise releases after 10; no parse or process. */
  lemma TransportFailurePolicy<P>(details: map<string, string>, remoteId: string, attempts: int,
                                  fileExists: bool, fileContent: string,
                                  parse: string -> Option<P>, retryDelay: int)
    requires "file" !in details
    ensures var o := WorkOutcome(details, remoteId, attempts, fileExists, fileContent, TransportError, parse, retryDelay);
            o.branch == TransportFailed && o.processed == [] && o.requested
            && o.calls == (if attempts > 2 then [Finished] else [Released(10)])
  {
  }

  /** A 404 response goes through `not_found()`, which finishes the job without parsing. */
  lemma NotFoundFinishes<P>(details: map<string, string>, remoteId: string, attempts: int,
                            fileExists: bool, fileContent: string, content: string,
                            parse: string -> Option<P>, retryDelay: int)
    requires "file" !in details
    ensures var o := WorkOutcome(details, remoteId, attempts, fileExists, fileContent, Response(404, content), parse, retryDelay);
            o.branch == NotFound && o.calls == [Finished] && o.processed == []
  {
  }

  /** A local file is read with status 200, so it never takes the not-found path. */
  lemma LocalFileNeverNotFound<P>(details: map<string, string>, remoteId: string, attempts: int,
                                  fileExists: bool, fileContent: string, response: Fetched,
                                  parse: string -> Option<P>, retryDelay: int)
    requires "file" in details
    ensures WorkOutcome(details, remoteId, attempts, fileExists, fileContent, response, parse, retryDelay).branch != NotFound
  {
  }

  /**
   * A URL payload the hook cannot parse, as written: released after the drawn delay when
   * `attempts > 2`, finished otherwise; never processed.
   */
  lemma ParseFailureAsWritten<P>(details: map<string, string>, remoteId: string, attempts: int,
                                 fileExists: bool, fileContent: string, status: int, content: string,
                                 parse: string -> Option<P>, retryDelay: int)
    requires "file" !in details && status != 404 && parse(content) == None
    ensures var o := WorkOutcome(details, remoteId, attempts, fileExists, fileContent, Response(status, content), parse, retryDelay);
            o.branch == Unparsable && o.processed == [] && !o.raised
            && o.calls == (if attempts > 2 then [Released(retryDelay)] else [Finished])
  {
  }

  /** A local file whose content the hook cannot parse raises before the job is finished or released. */
  lemma LocalParseFailureRaises<P>(details: map<string, string>, remoteId: string, attempts: int,
                                   fileContent: string, response: Fetched,
                                   parse: string -> Option<P>, retryDelay: int)
    requires "file" in details && parse(fileContent) == None
    ensures var o := WorkOutcome(details, remoteId, attempts, true, fileContent, response, parse, retryDelay);
            o.raised && o.calls == []
  {
  }

  /** A successful parse is processed exactly once, with the parsed value, and then the job is finished. */
  lemma SuccessProcessesOnce<P>(details: map<string, string>, remoteId: string, attempts: int,
                                fileExists: bool, fileContent: string, response: Fetched,
                                parse: string -> Option<P>, retryDelay: int, payload: P)
    requires "file" in details ==> fileExists
    requires "file" !in details ==> response.Response? && response.status != 404
    requires parse(if "file" in details then fileContent else response.content) == Some(payload)
    ensures var o := WorkOutcome(details, remoteId, attempts, fileExists, fileContent, response, parse, retryDelay);
            o.branch == Processed && o.processed == [payload] && o.calls == [Finished]
  {
  }

  /**
   * The decision the log messages and the transport policy describe:
   * past the threshold an unparsable payload is given up on, before it the job is retried,
   * and a local source is identified by its remote id in the log.
   */
  function IntendedOutcome<P>(details: map<string, string>, remoteId: string, attempts: int,
                              fileExists: bool, fileContent: string, response: Fetched,
                              parse: string -> Option<P>, retryDelay: int): (o: Outcome<P>)
    ensures |o.calls| == 1 && !o.raised
    ensures o.branch == Unparsable ==>
              o.calls == (if attempts > AttemptsThreshold then [Finished] else [Released(retryDelay)])
  {
    var written := WorkOutcome(details, remoteId, attempts, fileExists, fileContent, response, parse, retryDelay);
    if written.branch == Unparsable then
      written.(calls := if attempts > AttemptsThreshold then [Finished] else [Released(retryDelay)], raised := false)
    else
      written
  }

  /**
   * The intended decision ends every run with exactly one job call, gives up on an unparsable
   * payload past the threshold and otherwise retries within [15, 45), and agrees with the code
   * as written on every other branch.
   */
  lemma IntendedPolicy<P>(details: map<string, string>, remoteId: string, attempts: int,
                          fileExists: bool, fileContent: string, response: Fetched,
                          parse: string -> Option<P>, retryDelay: int)
    requires ParseRetryDelayLow <= retryDelay < ParseRetryDelayHigh
    ensures var i := IntendedOutcome(details, remoteId, attempts, fileExists, fileContent, response, parse, retryDelay);
            var w := WorkOutcome(details, remoteId, attempts, fileExists, fileContent, response, parse, retryDelay);
            && i.branch == w.branch && i.processed == w.processed && i.requested == w.requested
            && (i.branch != Unparsable ==> i == w)
            && (i.branch == Unparsable && attempts <= 2 ==> i.calls[0].Released? && 15 <= i.calls[0].delay < 45)
            && (i.branch == Unparsable && attempts > 2 ==> i.calls == [Finished])
  {
  }

  /** As written, an unparsable payload on the first attempt is dropped at once while later attempts keep retrying. */
  lemma ParseFailureInverted()
    ensures var parse := (s: string) => None;
            && WorkOutcome<string>(map[], "r1", 1, false, "", Response(200, "{"), parse, 20).calls == [Finished]
            && IntendedOutcome<string>(map[], "r1", 1, false, "", Response(200, "{"), parse, 20).calls == [Released(20)]
            && WorkOutcome<string>(map[], "r1", 5, false, "", Response(200, "{"), parse, 20).calls == [Released(20)]
            && IntendedOutcome<string>(map[], "r1", 5, false, "", Response(200, "{"), parse, 20).calls == [Finished]
  {
  }

  /** As written, an unparsable local file leaves the job neither finished nor released. */
  lemma LocalParseFailureCounterexample()
    ensures var parse := (s: string) => None;
            && WorkOutcome<string>(map["file" := "dump.json"], "r1", 1, true, "not json", TransportError, parse, 20).raised
            && WorkOutcome<string>(map["file" := "dump.json"], "r1", 1, true, "not json", TransportError, parse, 20).calls == []
            && IntendedOutcome<string>(map["file" := "dump.json"], "r1", 1, true, "not json", TransportError, parse, 20).calls == [Released(20)]
  {
  }

  /** `BasicHTTPScraper`: a fetch worker bound to one claimed job. */
  class HttpScraper<P> {
    const job: Job
    /** the worker's job type, `self.type` */
    const jobType: string
    /** `self.prefix` */
    const prefix: string
    /** the parse hook (`DefaultParse` for the base class, `JsonParse` for the JSON scraper) */
    const parse: string -> Option<P>
    /** `config.SCRAPE_PROXIES` */
    const proxyConfig: map<string, seq<string>>
    /** the requests issued so far */
    var requests: seq<Request>
    /** the payloads handed to `process` so far */
    var processed: seq<P>

    constructor (job: Job, jobType: string, parse: string -> Option<P>, proxyConfig: map<string, seq<string>>)
      ensures this.job == job && this.jobType == jobType && this.parse == parse && this.proxyConfig == proxyConfig
      ensures prefix == FirstField(jobType, '-')
      ensures requests == [] && processed == []
    {
      this.job := job;
      this.jobType := jobType;
      this.prefix := FirstField(jobType, '-');   // type.split("-")[0]
      this.parse := parse;
      this.proxyConfig := proxyConfig;
      requests := [];
      processed := [];
    }

    /** After processing, declare the job finished. */
    method AfterProcess()
      modifies job
      ensures job.calls == old(job.calls) + [Finished]
    {
      job.Finish();
    }

    /** A 404 response: by default the resource is gone and the job is finished. */
    method NotFound()
      modifies job
      ensures job.calls == old(job.calls) + [Finished]
    {
      job.Finish();
    }

    /**
     * `work()`: fetch the content (local file or URL), classify it and finish or release the
     * job. `fileExists` and `fileContent` answer `os.path.exists` and `read()` for
     * `details["file"]`, `url` is what `get_url()` returns and `response` what the request
     * produced. `raised` tells that the method ended with an exception.
     */
    method Work(fileExists: bool, fileContent: string, url: string, response: Fetched)
      returns (raised: bool)
      modifies this, job
      ensures exists retryDelay :: ParseRetryDelayLow <= retryDelay < ParseRetryDelayHigh
                && var o := WorkOutcome(job.details, job.remoteId, job.attempts, fileExists, fileContent,
                                        response, parse, retryDelay);
                   && job.calls == old(job.calls) + o.calls
                   && processed == old(processed) + o.processed
                   && raised == o.raised
                   && |requests| == |old(requests)| + (if o.requested then 1 else 0)
      ensures |requests| >= |old(requests)| && requests[..|old(requests)|] == old(requests)
      ensures |requests| > |old(requests)| ==>
                requests[|old(requests)|].url == url
                && ProxiesAllowed(url, proxyConfig, requests[|old(requests)|].proxies)
    {
      var status: int;
      var content: string;
      var id: Option<string>;   // None: the local `id` was never assigned
      if "file" in job.details {
        if !fileExists {
          job.Finish();
          assert WorkOutcome(job.details, job.remoteId, job.attempts, fileExists, fileContent,
                             response, parse, ParseRetryDelayLow).calls == [Finished];
          return false;
        }
        status, content, id := 200, fileContent, None;
      } else {
        var proxies := SelectProxies(url, proxyConfig);
        requests := requests + [Request(url, proxies)];
        if response.TransportError? {
          if job.attempts > AttemptsThreshold {
            job.Finish();
          } else {
            job.Release(TransportRetryDelay);
          }
          assert WorkOutcome(job.details, job.remoteId, job.attempts, fileExists, fileContent,
                             response, parse, ParseRetryDelayLow).requested;
          return false;
        }
        status, content := response.status, response.content;
        id := Some(LogId(job.details, job.remoteId));
      }

      if status == 404 {
        NotFound();
        assert WorkOutcome(job.details, job.remoteId, job.attempts, fileExists, fileContent,
                           response, parse, ParseRetryDelayLow).calls == [Finished];
        return false;
      }
      var data := parse(content);
      if data.None? {
        if id.None? {
          // the log message refers to the unassigned `id`
          assert WorkOutcome(job.details, job.remoteId, job.attempts, fileExists, fileContent,
                             response, parse, ParseRetryDelayLow).raised;
          return true;
        }
        // as written: past the threshold the job is retried, before it the job is dropped
        if job.attempts > AttemptsThreshold {
          var retryDelay :| ParseRetryDelayLow <= retryDelay < ParseRetryDelayHigh;
          job.Release(retryDelay);
          assert WorkOutcome(job.details, job.remoteId, job.attempts, fileExists, fileContent,
                             response, parse, retryDelay).calls == [Released(retryDelay)];
        } else {
          job.Finish();
          assert WorkOutcome(job.details, job.remoteId, job.attempts, fileExists, fileContent,
                             response, parse, ParseRetryDelayLow).calls == [Finished];
        }
        return false;
      }
      processed := processed + [data.value];   // self.process(data)
      AfterProcess();
      assert WorkOutcome(job.details, job.remoteId, job.attempts, fileExists, fileContent,
                         response, parse, ParseRetryDelayLow).processed == [data.value];
      return false;
    }
  }

  /** `BasicJSONScraper`: the fetch worker whose parse hook decodes JSON. */
  method NewJsonScraper<V>(job: Job, jobType: string, loads: string -> Decoded<V>,
                           proxyConfig: map<string, seq<string>>) returns (s: HttpScraper<V>)
    ensures fresh(s) && s.job == job && s.jobType == jobType && s.prefix == FirstField(jobType, '-')
    ensures s.proxyConfig == proxyConfig
    ensures forall content :: s.parse(content) == JsonParse(loads, content)
    ensures s.requests == [] && s.processed == []
  {
    s := new HttpScraper(job, jobType, (content: string) => JsonParse(loads, content), proxyConfig);
  }
}
