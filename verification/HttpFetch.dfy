/** The one HTTP boundary: whitelisted hosts, a minimum interval per host, bounded redirects and retries
    (adapters/sources/http.py). Time is real-valued; a transport may answer anything. */
module HttpFetch {
  import opened Basics

  const MAX_REDIRECTS := 5

  /** Where requests may go. */
  function AllowedHosts(): set<string> {
    {"boards-api.greenhouse.io", "api.lever.co", "api.ashbyhq.com", "apply.workable.com", "api.smartrecruiters.com"}
  }

  /** What came back: a transport error, or a status with a body, a redirect target, and whether the body
      decodes. */
  datatype Response = Broken | Response(status: int, body: string, location: Option<string>, decodes: bool)

  datatype FetchError = Refused | NotFound | Failed

  /** One request: for which URL and to which host, when it was sent, when it was over, and what came back. */
  datatype Request = Request(url: string, host: string, sent: real, over: real, response: Response)

  /** The outside: the n-th response and how long it took, how much longer than asked the n-th sleep is,
      and how URLs are read. */
  datatype Outside = Outside(
    respond: nat -> Response, latency: nat -> real, oversleep: nat -> real,
    hostOf: string -> Option<string>, join: (string, string) -> string)

  predicate IsRedirect(r: Response) {
    r.Response? && r.status in {301, 302, 303, 307, 308}
  }

  predicate IsSuccess(r: Response) {
    r.Response? && 200 <= r.status < 300
  }

  predicate IsRetryable(r: Response) {
    r.Broken? || r.status == 429 || r.status >= 500
  }

  /** The fetch goes on after this response, limits permitting. */
  predicate GoesOn(r: Response) {
    if IsRedirect(r) then r.location.Some? else IsRetryable(r)
  }

  ghost predicate Honest(o: Outside) {
    (forall n :: o.latency(n) >= 0.0) && (forall n :: o.oversleep(n) >= 0.0)
  }

  function Power(n: nat): nat {
    if n == 0 then 1 else 2 * Power(n - 1)
  }

  /** When the last request was over; when the last one to this host was. */
  function End(log: seq<Request>): real {
    if log == [] then 0.0 else log[|log| - 1].over
  }

  function LastOver(log: seq<Request>, host: string): Option<real> {
    if log == [] then None
    else if log[|log| - 1].host == host then Some(log[|log| - 1].over)
    else LastOver(log[..|log| - 1], host)
  }

  /** q may follow the log: after everything, and the interval after the last request to its host. */
  predicate Follows(log: seq<Request>, q: Request, interval: real) {
    && q.sent <= q.over && (log != [] ==> End(log) <= q.sent)
    && (LastOver(log, q.host).Some? ==> LastOver(log, q.host).value + interval <= q.sent)
  }

  predicate Spaced(log: seq<Request>, interval: real) {
    log == [] || (Spaced(log[..|log| - 1], interval) && Follows(log[..|log| - 1], log[|log| - 1], interval))
  }

  function Bodies(log: seq<Request>): seq<(string, int)> {
    if log == [] then []
    else
      Bodies(log[..|log| - 1]) + Capture(log[|log| - 1].response)
  }

  /** Every received body goes to the capture sink, whatever its status. */
  function Capture(r: Response): seq<(string, int)> {
    if r.Response? then [(r.body, r.status)] else []
  }

  /** What the fetcher remembers fits what it did. */
  ghost predicate Recorded(
    log: seq<Request>, last: map<string, real>, captured: seq<(string, int)>, now: real, interval: real)
  {
    && interval >= 0.0 && Spaced(log, interval) && (log != [] ==> End(log) <= now) && captured == Bodies(log)
    && (forall h :: LastOver(log, h) == if h in last then Some(last[h]) else None)
    && (forall h :: h in last ==> last[h] <= now)
  }

  class HttpFetcher {
    const allowed: set<string>
    const minInterval: real
    const maxRetries: nat
    var lastRequestAt: map<string, real>
    var requestCount: nat
    var captured: seq<(string, int)>
    var now: real
    ghost var log: seq<Request>
    ghost var backedOff: nat  // seconds asked for by all backoffs
    var sleeps: nat

    ghost predicate Valid()
      reads this
    {
      Recorded(log, lastRequestAt, captured, now, minInterval) && requestCount == |log|
    }

    constructor (minInterval: real, maxRetries: nat, now: real)
      requires minInterval >= 0.0
      ensures Valid() && log == [] && this.minInterval == minInterval && this.maxRetries == maxRetries
      ensures allowed == AllowedHosts()
    {
      allowed := AllowedHosts();
      this.minInterval, this.maxRetries, this.now := minInterval, maxRetries, now;
      lastRequestAt, requestCount, captured, log, backedOff, sleeps := map[], 0, [], [], 0, 0;
    }

    /** An honest sleep: at least as long as asked. */
    method Sleep(seconds: real, o: Outside)
      requires Valid() && Honest(o) && seconds >= 0.0
      modifies this`now, this`sleeps
      ensures Valid() && now >= old(now) + seconds
    {
      now := now + seconds + o.oversleep(sleeps);
      sleeps := sleeps + 1;
    }

    method RespectInterval(host: string, o: Outside)
      requires Valid() && Honest(o)
      modifies this`now, this`sleeps
      ensures Valid() && now >= old(now)
      ensures host in lastRequestAt ==> now >= lastRequestAt[host] + minInterval
    {
      if host in lastRequestAt {
        var elapsed := now - lastRequestAt[host];
        if elapsed < minInterval {
          Sleep(minInterval - elapsed, o);
        }
      }
    }

    /** One request, polite and recorded. */
    method Send(url: string, host: string, o: Outside) returns (r: Response, ghost q: Request)
      requires Valid() && Honest(o)
      modifies this
      ensures Valid() && backedOff == old(backedOff)
      ensures log == old(log) + [q] && q.url == url && q.host == host
      ensures q.response == r == o.respond(old(requestCount)) && q.sent >= old(now) && now == q.over
    {
      RespectInterval(host, o);
      r := o.respond(requestCount);
      var over := now + o.latency(requestCount);
      q := Request(url, host, now, over, r);
      LogOn(log, lastRequestAt, captured, now, minInterval, q);
      requestCount, now := requestCount + 1, over;
      lastRequestAt := lastRequestAt[host := over];
      captured := captured + Capture(r);
      log := log + [q];
    }

    method RequireAllowed(url: string, o: Outside) returns (host: Option<string>)
      ensures host == if o.hostOf(url).Some? && o.hostOf(url).value in allowed then o.hostOf(url) else None
    {
      host := o.hostOf(url);
      if host.Some? && host.value !in allowed {
        host := None;
      }
    }

    /** Fetch a URL. Whatever comes back, it ends within the limits, and contacts allowed hosts only. */
    method FetchJson(url: string, o: Outside) returns (r: Result<string, FetchError>, ghost asked: seq<Request>)
      requires Valid() && Honest(o)
      modifies this
      ensures Valid() && log == old(log) + asked
      ensures Asked(asked, maxRetries, allowed) && Answers(r, asked)
      ensures backedOff <= old(backedOff) + Power(maxRetries + 1) - 2
      ensures Followed(o, url, asked) && Paced(asked) && Responded(o, old(requestCount), asked)
      ensures Concluded(o, url, asked, r, maxRetries, allowed)
    {
      PowersGrow(1, maxRetries + 1);
      var host := RequireAllowed(url, o);
      if host.None? {
        return Err(Refused), [];
      }
      ghost var q;
      r, asked, q := Chase(url, host.value, o);
      RunMeans(o, url, requestCount - |asked| - 1, maxRetries, allowed, asked, q, r);
      asked := asked + [q];
    }

    /** Where a fetch stands: requests made, each to go on from, and the time backed off so far. */
    ghost predicate Underway(url: string, before: seq<Request>, asked: seq<Request>, at: Stand, start: nat, o: Outside)
      reads this
    {
      && Valid() && log == before + asked && Ran(o, url, |before|, maxRetries, allowed, asked)
      && at == StandAfter(o, url, asked) && (asked != [] ==> now >= asked[|asked| - 1].over + Pause(asked))
      && backedOff == start + Power(at.attempt + 1) - 2
    }

    /** The same after a failure that may pass, with the pause still to come. */
    ghost predicate PauseDue(url: string, before: seq<Request>, asked: seq<Request>, at: Stand, start: nat, o: Outside)
      reads this
    {
      && Valid() && log == before + asked && Ran(o, url, |before|, maxRetries, allowed, asked)
      && StandAfter(o, url, asked) == Stand(at.target, at.attempt + 1, at.redirects)
      && asked != [] && Pause(asked) == Power(at.attempt + 1) as real && now >= asked[|asked| - 1].over
      && backedOff == start + Power(at.attempt + 1) - 2
    }

    /** From an allowed host on, through redirects and retries: the requests to go on from, and the last. */
    method Chase(url: string, first: string, o: Outside)
      returns (r: Result<string, FetchError>, ghost asked: seq<Request>, ghost q: Request)
      requires Valid() && Honest(o) && first in allowed && o.hostOf(url) == Some(first)
      modifies this
      ensures Valid() && log == old(log) + (asked + [q])
      ensures Ran(o, url, |old(log)|, maxRetries, allowed, asked)
      ensures Sent(o, url, |old(log)|, maxRetries, allowed, asked, q)
      ensures Ended(o, url, maxRetries, allowed, asked, q, r)
      ensures backedOff <= old(backedOff) + Power(maxRetries + 1) - 2
    {
      asked := [];
      var target, host := url, first;
      var attempt, redirects := 0, 0;
      ghost var before, start := log, backedOff;
      while true
        invariant Underway(url, before, asked, Stand(target, attempt, redirects), start, o)
        invariant attempt <= maxRetries && redirects <= MAX_REDIRECTS
        invariant host in allowed && o.hostOf(target) == Some(host)
        decreases maxRetries - attempt + (MAX_REDIRECTS - redirects)
      {
        PowersGrow(attempt + 1, maxRetries + 1);
        var next;
        next, q := Ask(url, before, asked, Stand(target, attempt, redirects), start, host, o);
        match next
        case Finish(result) => return result, asked, q;
        case Follow(location) =>
          redirects := redirects + 1;
          target := o.join(target, location);
          var allowedHost := RequireAllowed(target, o);
          if allowedHost.None? {
            return Err(Refused), asked, q;
          }
          host := allowedHost.value;
          asked := asked + [q];
        case Again =>
          asked := asked + [q];
          TryAgain(url, before, asked, Stand(target, attempt, redirects), start, attempt + 1, o);
          attempt := attempt + 1;
      }
    }

    /** One request of a fetch, and what its response calls for. */
    method Ask(ghost url: string, ghost before: seq<Request>, ghost asked: seq<Request>, at: Stand, ghost start: nat,
               host: string, o: Outside)
      returns (next: Next, ghost q: Request)
      requires Underway(url, before, asked, at, start, o) && Honest(o)
      requires at.attempt <= maxRetries && at.redirects <= MAX_REDIRECTS
      requires host in allowed && o.hostOf(at.target) == Some(host)
      modifies this
      ensures Valid() && log == before + (asked + [q]) && backedOff == old(backedOff) && now == q.over
      ensures Sent(o, url, |before|, maxRetries, allowed, asked, q)
      ensures next == Decide(q.response, at.attempt, at.redirects, maxRetries)
      ensures next.Follow? ==>
        var led := Stand(o.join(at.target, next.location), at.attempt, at.redirects + 1);
        at.redirects < MAX_REDIRECTS && Underway(url, before, asked + [q], led, start, o)
      ensures next.Again? ==> at.attempt < maxRetries && PauseDue(url, before, asked + [q], at, start, o)
    {
      var response;
      response, q := Send(at.target, host, o);
      Appended(before, asked, q);
      RanOn(o, url, |before|, maxRetries, allowed, asked, q);
      return Decide(response, at.attempt, at.redirects, maxRetries), q;
    }

    /** Wait out the pause. */
    method TryAgain(ghost url: string, ghost before: seq<Request>, ghost asked: seq<Request>, ghost at: Stand,
                    ghost start: nat, attempt: nat, o: Outside)
      requires PauseDue(url, before, asked, at, start, o) && Honest(o) && attempt == at.attempt + 1
      modifies this`now, this`sleeps, this`backedOff
      ensures Underway(url, before, asked, Stand(at.target, attempt, at.redirects), start, o)
    {
      BackOff(attempt, o);
      PowerDoubles(attempt);
    }

    method BackOff(attempt: nat, o: Outside)
      requires Valid() && Honest(o)
      modifies this`now, this`sleeps, this`backedOff
      ensures Valid() && now >= old(now) + Power(attempt) as real
      ensures backedOff == old(backedOff) + Power(attempt)
    {
      Sleep(Power(attempt) as real, o);
      backedOff := backedOff + Power(attempt);
    }
  }

  datatype Next = Finish(result: Result<string, FetchError>) | Follow(location: string) | Again

  /** What a response calls for, within the limits. */
  function Decide(response: Response, attempt: nat, redirects: nat, maxRetries: nat): Next {
    if IsRedirect(response) then
      if response.location.None? || redirects + 1 > MAX_REDIRECTS then Finish(Err(Failed))
      else Follow(response.location.value)
    else if response.Response? && response.status == 404 then Finish(Err(NotFound))
    else if IsSuccess(response) then Finish(if response.decodes then Ok(response.body) else Err(Failed))
    else if !IsRetryable(response) || attempt + 1 > maxRetries then Finish(Err(Failed))
    else Again
  }

  lemma DecidedWell(asked: seq<Request>, q: Request, attempt: nat, redirects: nat, maxRetries: nat)
    ensures match Decide(q.response, attempt, redirects, maxRetries)
      case Finish(r) => Answers(r, asked + [q])
      case Follow(location) => GoesOn(q.response) && redirects < MAX_REDIRECTS && Answers(Err(Refused), asked + [q])
      case Again => GoesOn(q.response) && attempt < maxRetries
  {
  }

  /** Two seconds before the first retry, and twice as long before each one after. */
  lemma BackoffsDouble(n: nat)
    ensures Power(1) == 2 && Power(2) == 4 && Power(3) == 8 && Power(n + 1) == 2 * Power(n)
  {
  }

  /** In plain statuses: a redirect with a target is followed up to the fifth, a connection error, a 429 or a server
      error is tried again while retries are left, a body that decodes is the answer, and all else is a failure. */
  lemma StatusesMean(r: Response, attempt: nat, redirects: nat, maxRetries: nat)
    ensures var next, failed := Decide(r, attempt, redirects, maxRetries), Finish(Err(Failed));
      && (r.Broken? ==> next == if attempt < maxRetries then Again else failed)
      && (r.Response? ==>
            && (r.status in {301, 302, 303, 307, 308} ==>
                  next == if r.location.Some? && redirects < 5 then Follow(r.location.value) else failed)
            && (r.status == 404 ==> next == Finish(Err(NotFound)))
            && (r.status == 429 || r.status >= 500 ==> next == if attempt < maxRetries then Again else failed)
            && (200 <= r.status <= 299 ==> next == if r.decodes then Finish(Ok(r.body)) else failed)
            && ((r.status < 200 || 300 <= r.status < 500) && r.status !in {301, 302, 303, 307, 308, 404, 429} ==>
                  next == failed))
  {
  }

  lemma Appended(log: seq<Request>, asked: seq<Request>, q: Request)
    ensures (log + asked) + [q] == log + (asked + [q])
  {
  }

  lemma PowerDoubles(n: nat)
    ensures Power(n + 1) == Power(n) + Power(n)
  {
  }

  lemma AskedOn(asked: seq<Request>, q: Request, allowed: set<string>, maxRetries: nat)
    requires GoingOn(asked, allowed) && q.host in allowed && |asked| <= maxRetries + MAX_REDIRECTS
    ensures Asked(asked + [q], maxRetries, allowed)
    ensures GoesOn(q.response) ==> GoingOn(asked + [q], allowed)
  {
  }

  /** A request sent after everything so far, and long enough after the last to its host, keeps the record. */
  lemma LogOn(log: seq<Request>, last: map<string, real>, captured: seq<(string, int)>, now: real, interval: real,
              q: Request)
    requires Recorded(log, last, captured, now, interval) && now <= q.sent <= q.over
    requires q.host in last ==> q.sent >= last[q.host] + interval
    ensures Recorded(log + [q], last[q.host := q.over],
      captured + Capture(q.response), q.over, interval)
  {
    assert (log + [q])[..|log|] == log;
  }

  /** Requests to allowed hosts, each answered by something to go on from. */
  ghost predicate GoingOn(requests: seq<Request>, allowed: set<string>) {
    forall i :: 0 <= i < |requests| ==> requests[i].host in allowed && GoesOn(requests[i].response)
  }

  /** The requests of one fetch: within the limits, to allowed hosts, all but the last one to go on from. */
  ghost predicate Asked(requests: seq<Request>, maxRetries: nat, allowed: set<string>) {
    && |requests| <= maxRetries + MAX_REDIRECTS + 1
    && (forall i :: 0 <= i < |requests| ==> requests[i].host in allowed)
    && (forall i :: 0 <= i < |requests| - 1 ==> GoesOn(requests[i].response))
  }

  /** The result is the one the last response calls for. */
  ghost predicate Answers(r: Result<string, FetchError>, requests: seq<Request>) {
    if requests == [] then r == Err(Refused)
    else
      var last := requests[|requests| - 1].response;
      match r
      case Ok(body) => IsSuccess(last) && last.decodes && body == last.body
      case Err(NotFound) => last.Response? && last.status == 404
      case Err(Refused) => IsRedirect(last) && last.location.Some?
      case Err(Failed) => !(IsSuccess(last) && last.decodes) && !(last.Response? && last.status == 404)
  }

  // ----- where a fetch goes, and what ends it -----

  /** The statuses that send a fetch elsewhere. */
  predicate SendsOn(r: Response) {
    r.Response? && (r.status == 301 || r.status == 302 || r.status == 303 || r.status == 307 || r.status == 308)
  }

  function RedirectsIn(asked: seq<Request>): (n: nat)
    ensures n <= |asked|
  {
    if asked == [] then 0
    else RedirectsIn(asked[..|asked| - 1]) + if SendsOn(asked[|asked| - 1].response) then 1 else 0
  }

  /** The URL asked next: a redirect is resolved against the URL that answered it. */
  function UrlAfter(o: Outside, q: Request): string {
    if SendsOn(q.response) && q.response.location.Some? then o.join(q.url, q.response.location.value) else q.url
  }

  function Target(o: Outside, url: string, asked: seq<Request>): string {
    if asked == [] then url else UrlAfter(o, asked[|asked| - 1])
  }

  predicate Leads(o: Outside, asked: seq<Request>, i: int)
    requires 1 <= i < |asked|
  {
    asked[i].url == UrlAfter(o, asked[i - 1])
  }

  /** From URL to URL, each request to the host of its own. */
  ghost predicate Followed(o: Outside, url: string, asked: seq<Request>) {
    && (asked != [] ==> asked[0].url == url)
    && (forall i :: 1 <= i < |asked| ==> Leads(o, asked, i))
    && (forall i :: 0 <= i < |asked| ==> o.hostOf(asked[i].url) == Some(asked[i].host))
  }

  /** After the n-th failure that is retried, two to the n seconds pass before the next request. */
  function Pause(asked: seq<Request>): real {
    if asked == [] || SendsOn(asked[|asked| - 1].response) then 0.0
    else Power(|asked| - RedirectsIn(asked)) as real
  }

  ghost predicate Paced(asked: seq<Request>) {
    forall i :: 1 <= i < |asked| ==> Paused(asked, i)
  }

  predicate Paused(asked: seq<Request>, i: int)
    requires 1 <= i < |asked|
  {
    asked[i].sent >= asked[i - 1].over + Pause(asked[..i])
  }

  ghost predicate Responded(o: Outside, first: nat, asked: seq<Request>) {
    forall i :: 0 <= i < |asked| ==> asked[i].response == o.respond(first + i)
  }

  /** Why a fetch ended as it did, in terms of its last response and of how many redirects and failures there were
      by then. */
  ghost predicate Concluded(o: Outside, url: string, asked: seq<Request>, r: Result<string, FetchError>,
                            maxRetries: nat, allowed: set<string>)
  {
    if asked == [] then r == Err(Refused) && !Permitted(o, url, allowed)
    else
      var last, redirects := asked[|asked| - 1].response, RedirectsIn(asked);
      if SendsOn(last) then
        if last.location.None? || redirects > 5 then r == Err(Failed)
        else r == Err(Refused) && !Permitted(o, Target(o, url, asked), allowed)
      else if last.Response? && last.status == 404 then r == Err(NotFound)
      else if last.Response? && 200 <= last.status < 300 then r == if last.decodes then Ok(last.body) else Err(Failed)
      else r == Err(Failed) && (MayPass(last) ==> |asked| - redirects == maxRetries + 1)
  }

  predicate Permitted(o: Outside, url: string, allowed: set<string>) {
    o.hostOf(url).Some? && o.hostOf(url).value in allowed
  }

  /** A failure that may pass: no response at all, too many requests, or the other side's own trouble. */
  predicate MayPass(r: Response) {
    r.Broken? || r.status == 429 || r.status >= 500
  }

  /** Where a fetch stands: the URL in force, and how many failures and redirects there were. */
  datatype Stand = Stand(target: string, attempt: nat, redirects: nat)

  function StandAfter(o: Outside, url: string, asked: seq<Request>): Stand {
    if asked == [] then Stand(url, 0, 0)
    else
      var s, r := StandAfter(o, url, asked[..|asked| - 1]), asked[|asked| - 1].response;
      if IsRedirect(r) && r.location.Some? then Stand(o.join(s.target, r.location.value), s.attempt, s.redirects + 1)
      else Stand(s.target, s.attempt + 1, s.redirects)
  }

  /** The request comes where the fetch stands, once the pause is over, within the limits. */
  ghost predicate Sent(o: Outside, url: string, first: nat, maxRetries: nat, allowed: set<string>, asked: seq<Request>,
                       q: Request)
  {
    var s := StandAfter(o, url, asked);
    && q.url == s.target && q.host in allowed && o.hostOf(q.url) == Some(q.host)
    && s.attempt <= maxRetries && s.redirects <= MAX_REDIRECTS
    && q.response == o.respond(first + |asked|)
    && (asked != [] ==> q.sent >= asked[|asked| - 1].over + Pause(asked))
  }

  /** Each request so sent, and each response one to go on from. */
  ghost predicate Ran(o: Outside, url: string, first: nat, maxRetries: nat, allowed: set<string>, asked: seq<Request>) {
    asked == [] ||
      var init, q := asked[..|asked| - 1], asked[|asked| - 1];
      var s := StandAfter(o, url, init);
      && Ran(o, url, first, maxRetries, allowed, init) && Sent(o, url, first, maxRetries, allowed, init, q)
      && !Decide(q.response, s.attempt, s.redirects, maxRetries).Finish?
  }

  /** What the last response calls for: the result, or a refusal to go where it points. */
  ghost predicate Ended(o: Outside, url: string, maxRetries: nat, allowed: set<string>, asked: seq<Request>, q: Request,
                        r: Result<string, FetchError>)
  {
    var s := StandAfter(o, url, asked);
    match Decide(q.response, s.attempt, s.redirects, maxRetries)
    case Finish(result) => r == result
    case Follow(location) => r == Err(Refused) && !Permitted(o, o.join(s.target, location), allowed)
    case Again => false
  }

  lemma RanOn(o: Outside, url: string, first: nat, maxRetries: nat, allowed: set<string>, asked: seq<Request>,
              q: Request)
    requires Ran(o, url, first, maxRetries, allowed, asked) && Sent(o, url, first, maxRetries, allowed, asked, q)
    ensures var s := StandAfter(o, url, asked);
      match Decide(q.response, s.attempt, s.redirects, maxRetries)
      case Finish(_) => true
      case Follow(location) =>
        && Ran(o, url, first, maxRetries, allowed, asked + [q]) && Pause(asked + [q]) == 0.0
        && StandAfter(o, url, asked + [q]) == Stand(o.join(s.target, location), s.attempt, s.redirects + 1)
      case Again =>
        && Ran(o, url, first, maxRetries, allowed, asked + [q])
        && Pause(asked + [q]) == Power(s.attempt + 1) as real
        && StandAfter(o, url, asked + [q]) == Stand(s.target, s.attempt + 1, s.redirects)
  {
    assert (asked + [q])[..|asked|] == asked;
    StandCounts(o, url, first, maxRetries, allowed, asked);
  }

  /** The stand counts what was asked. */
  lemma {:induction false} StandCounts(o: Outside, url: string, first: nat, maxRetries: nat, allowed: set<string>,
                                       asked: seq<Request>)
    requires Ran(o, url, first, maxRetries, allowed, asked)
    ensures var s := StandAfter(o, url, asked);
      s.target == Target(o, url, asked) && s.redirects == RedirectsIn(asked) && s.attempt + s.redirects == |asked|
  {
    if asked != [] {
      StandCounts(o, url, first, maxRetries, allowed, asked[..|asked| - 1]);
    }
  }

  /** What the course of a fetch comes to. */
  lemma {:induction false} RanMeans(o: Outside, url: string, first: nat, maxRetries: nat, allowed: set<string>,
                                    asked: seq<Request>)
    requires Ran(o, url, first, maxRetries, allowed, asked)
    ensures Followed(o, url, asked) && Paced(asked) && Responded(o, first, asked) && GoingOn(asked, allowed)
  {
    if asked != [] {
      var init, q := asked[..|asked| - 1], asked[|asked| - 1];
      RanMeans(o, url, first, maxRetries, allowed, init);
      StandCounts(o, url, first, maxRetries, allowed, init);
      assert asked == init + [q];
      PacedOn(init, q);
      FollowedOn(o, url, init, q);
    }
  }

  lemma RunMeans(o: Outside, url: string, first: nat, maxRetries: nat, allowed: set<string>, asked: seq<Request>,
                 q: Request, r: Result<string, FetchError>)
    requires Ran(o, url, first, maxRetries, allowed, asked) && Sent(o, url, first, maxRetries, allowed, asked, q)
    requires Ended(o, url, maxRetries, allowed, asked, q, r)
    ensures Asked(asked + [q], maxRetries, allowed) && Answers(r, asked + [q])
    ensures Followed(o, url, asked + [q]) && Paced(asked + [q]) && Responded(o, first, asked + [q])
    ensures Concluded(o, url, asked + [q], r, maxRetries, allowed)
  {
    StandCounts(o, url, first, maxRetries, allowed, asked);
    assert GoingOn(asked, allowed) && Followed(o, url, asked + [q]) && Paced(asked + [q])
      && Responded(o, first, asked + [q])
    by {
      RanMeans(o, url, first, maxRetries, allowed, asked);
      PacedOn(asked, q);
      FollowedOn(o, url, asked, q);
    }
    AskedOn(asked, q, allowed, maxRetries);
    EndMeans(o, url, maxRetries, allowed, asked, q, r);
  }

  lemma EndMeans(o: Outside, url: string, maxRetries: nat, allowed: set<string>, asked: seq<Request>, q: Request,
                 r: Result<string, FetchError>)
    requires Ended(o, url, maxRetries, allowed, asked, q, r)
    requires var s := StandAfter(o, url, asked);
      && q.url == s.target && s.redirects == RedirectsIn(asked) && s.attempt + s.redirects == |asked|
      && s.attempt <= maxRetries
    ensures Answers(r, asked + [q]) && Concluded(o, url, asked + [q], r, maxRetries, allowed)
  {
    var s := StandAfter(o, url, asked);
    DecidedWell(asked, q, s.attempt, s.redirects, maxRetries);
    if Decide(q.response, s.attempt, s.redirects, maxRetries).Finish? {
      ConcludedWell(o, url, asked, q, s.attempt, s.redirects, maxRetries, allowed);
    } else {
      ConcludedAway(o, url, asked, q, s.redirects, maxRetries, allowed);
    }
  }

  lemma PacedOn(asked: seq<Request>, q: Request)
    requires Paced(asked) && (asked != [] ==> q.sent >= asked[|asked| - 1].over + Pause(asked))
    ensures Paced(asked + [q])
  {
    var more := asked + [q];
    forall i | 1 <= i < |more| ensures Paused(more, i) {
      if i < |asked| {
        assert Paused(asked, i) && more[..i] == asked[..i];
      } else {
        assert more[..i] == asked;
      }
    }
  }

  lemma FollowedOn(o: Outside, url: string, asked: seq<Request>, q: Request)
    requires Followed(o, url, asked) && q.url == Target(o, url, asked) && o.hostOf(q.url) == Some(q.host)
    ensures Followed(o, url, asked + [q])
  {
    var more := asked + [q];
    forall i | 1 <= i < |more| ensures Leads(o, more, i) {
      if i < |asked| {
        assert Leads(o, asked, i);
      }
    }
  }

  lemma ConcludedWell(o: Outside, url: string, asked: seq<Request>, q: Request, attempt: nat, redirects: nat,
                      maxRetries: nat, allowed: set<string>)
    requires redirects == RedirectsIn(asked) && |asked| == attempt + redirects && attempt <= maxRetries
    ensures var next := Decide(q.response, attempt, redirects, maxRetries);
      next.Finish? ==> Concluded(o, url, asked + [q], next.result, maxRetries, allowed)
  {
    assert (asked + [q])[..|asked|] == asked;
  }

  lemma ConcludedAway(o: Outside, url: string, asked: seq<Request>, q: Request, redirects: nat, maxRetries: nat,
                      allowed: set<string>)
    requires redirects == RedirectsIn(asked) && redirects < 5
    requires SendsOn(q.response) && q.response.location.Some?
    requires !Permitted(o, UrlAfter(o, q), allowed)
    ensures Concluded(o, url, asked + [q], Err(Refused), maxRetries, allowed)
  {
    assert (asked + [q])[..|asked|] == asked;
  }

  lemma {:induction false} PowersGrow(a: nat, b: nat)
    ensures a <= b ==> Power(a) <= Power(b)
    ensures Power(a) >= 1
    ensures a >= 1 ==> Power(a) >= 2
  {
    if b > 0 && a < b {
      PowersGrow(a, b - 1);
    }
    if a > 0 {
      PowersGrow(a - 1, a - 1);
    }
  }

  // ----- politeness -----

  lemma {:induction false} EndIsLatest(log: seq<Request>, interval: real, i: nat)
    requires Spaced(log, interval) && i < |log|
    ensures log[i].sent <= log[i].over <= End(log)
    ensures LastOver(log, log[i].host).Some? && log[i].over <= LastOver(log, log[i].host).value <= End(log)
  {
    var n := |log| - 1;
    if i < n {
      EndIsLatest(log[..n], interval, i);
    }
  }

  /** In the whole life of a fetcher two requests to one host are at least the interval apart, and no two
      requests overlap. */
  lemma {:induction false} RequestsAreSpaced(log: seq<Request>, interval: real, i: nat, j: nat)
    requires interval >= 0.0 && Spaced(log, interval) && i < j < |log|
    ensures log[i].over <= log[j].sent
    ensures log[i].host == log[j].host ==> log[i].over + interval <= log[j].sent
  {
    var n := |log| - 1;
    if j < n {
      RequestsAreSpaced(log[..n], interval, i, j);
    } else {
      EndIsLatest(log[..n], interval, i);
    }
  }
}
