/** The redirect loop of web_fetch (api/web_tools/outbound.py). The network is a function of the
    hop number, so it may answer differently every time it is asked. */
module WebFetch {
  import opened Base
  import opened StreamReads

  type Url = string
  type Address(==)

  datatype Reply = Reply(status: int, location: Option<string>, url: Url, chunks: seq<seq<Byte>>)

  /** `resolve` is the egress check with its DNS answer (None: violation); `respond` is the reply to
      a request pinned to the given addresses; `join` and `strip` are the library functions. */
  datatype Network = Network(
    resolve: (nat, Url) -> Option<seq<Address>>,
    respond: (nat, Url, seq<Address>) -> Reply,
    join: (Url, string) -> Url,
    strip: string -> string)

  datatype Outcome =
    | Page(url: Url, body: seq<Byte>)
    | EgressViolation
    | TooManyRedirects
    | MissingLocation
    | HttpError(status: int)

  datatype Request = Request(url: Url, addresses: seq<Address>)

  const MAX_REDIRECTS: nat := 10
  const MAX_RESPONSE_BYTES := 2 * 1024 * 1024

  predicate IsRedirect(status: int) {
    status in {301, 302, 303, 307, 308}
  }

  function Target(net: Network, reply: Reply): Option<Url> {
    if reply.location.Some? && reply.location.value != "" && net.strip(reply.location.value) != ""
    then Some(net.join(reply.url, net.strip(reply.location.value))) else None
  }

  /** The next URL is the stripped location, joined to the URL that answered. */
  ghost predicate Follows(net: Network, reply: Reply, next: Url) {
    && reply.status in {301, 302, 303, 307, 308}
    && reply.location.Some? && net.strip(reply.location.value) != ""
    && next == net.join(reply.url, net.strip(reply.location.value))
  }

  /** The first n hops all passed the check, were redirects, and said where to. */
  ghost predicate Chain(net: Network, urls: seq<Url>, n: nat) {
    && n < |urls|
    && (forall k :: 0 <= k < n ==>
          && net.resolve(k, urls[k]).Some?
          && IsRedirect(ReplyTo(net, urls, k).status)
          && Target(net, ReplyTo(net, urls, k)) == Some(urls[k + 1]))
  }

  function ReplyTo(net: Network, urls: seq<Url>, k: nat): Reply
    requires k < |urls| && net.resolve(k, urls[k]).Some?
  {
    net.respond(k, urls[k], net.resolve(k, urls[k]).value)
  }

  /** What the fetch reports when hop n is its last. */
  ghost predicate EndsWith(net: Network, urls: seq<Url>, n: nat, r: Outcome)
    requires n < |urls|
  {
    if net.resolve(n, urls[n]).None? then r == EgressViolation
    else
      var reply := ReplyTo(net, urls, n);
      if !IsRedirect(reply.status) then
        r == if reply.status >= 400 then HttpError(reply.status)
             else Page(reply.url, Capped(Flatten(reply.chunks), MAX_RESPONSE_BYTES))
      else if n >= MAX_REDIRECTS then r == TooManyRedirects
      else r == MissingLocation && Target(net, reply).None?
  }

  /** Every request went to the URL its predecessor named, and only to addresses that the check
      of that very hop had passed. */
  ghost predicate Pinned(net: Network, urls: seq<Url>, requests: seq<Request>) {
    && |requests| <= |urls|
    && (forall k :: 0 <= k < |requests| ==>
          net.resolve(k, urls[k]) == Some(requests[k].addresses) && requests[k].url == urls[k])
  }

  lemma ChainExtends(net: Network, urls: seq<Url>, n: nat, next: Url)
    requires Chain(net, urls, n) && |urls| == n + 1 && net.resolve(n, urls[n]).Some?
    requires IsRedirect(ReplyTo(net, urls, n).status) && Target(net, ReplyTo(net, urls, n)) == Some(next)
    ensures Chain(net, urls + [next], n + 1)
  {
    var more := urls + [next];
    forall k | 0 <= k <= n
      ensures && net.resolve(k, more[k]).Some? && IsRedirect(ReplyTo(net, more, k).status)
              && Target(net, ReplyTo(net, more, k)) == Some(more[k + 1])
    {
      assert more[k] == urls[k] && ReplyTo(net, more, k) == ReplyTo(net, urls, k);
    }
  }

  /** The loop, which also returns its trace: the URL of each hop and the requests sent. */
  method RunWebFetch(net: Network, url: Url) returns (r: Outcome, urls: seq<Url>, requests: seq<Request>)
    ensures urls != [] && urls[0] == url && |urls| <= MAX_REDIRECTS + 1
    ensures Chain(net, urls, |urls| - 1) && EndsWith(net, urls, |urls| - 1, r)
    ensures forall k :: 0 <= k < |urls| - 1 ==> Follows(net, ReplyTo(net, urls, k), urls[k + 1])
    ensures Pinned(net, urls, requests)
    ensures |requests| == if r == EgressViolation then |urls| - 1 else |urls|
  {
    var currentUrl, redirectHops := url, 0;
    urls, requests := [url], [];
    while true
      invariant 0 <= redirectHops <= MAX_REDIRECTS
      invariant |urls| == redirectHops + 1 && |requests| == redirectHops
      invariant urls[0] == url && urls[redirectHops] == currentUrl
      invariant Chain(net, urls, redirectHops) && Pinned(net, urls, requests)
      decreases MAX_REDIRECTS - redirectHops
    {
      var resolved := net.resolve(redirectHops, currentUrl);
      if resolved.None? {
        return EgressViolation, urls, requests;
      }
      var response := net.respond(redirectHops, currentUrl, resolved.value);
      requests := requests + [Request(currentUrl, resolved.value)];
      if !IsRedirect(response.status) {
        if response.status >= 400 {
          return HttpError(response.status), urls, requests;
        }
        var body, _ := ReadAiohttpBodyCapped(response.chunks, MAX_RESPONSE_BYTES);
        return Page(response.url, body), urls, requests;
      }
      if redirectHops >= MAX_REDIRECTS {
        return TooManyRedirects, urls, requests;
      }
      var target := Target(net, response);
      if target.None? {
        return MissingLocation, urls, requests;
      }
      ChainExtends(net, urls, redirectHops, target.value);
      currentUrl := target.value;
      redirectHops := redirectHops + 1;
      urls := urls + [currentUrl];
    }
  }

  /** One chain is a prefix of the other: the way through the network is determined. */
  lemma {:induction false} ChainsAgree(net: Network, a: seq<Url>, m: nat, b: seq<Url>, n: nat, k: nat)
    requires Chain(net, a, m) && Chain(net, b, n) && a[0] == b[0] && k <= m && k <= n
    ensures a[k] == b[k]
  {
    if k > 0 {
      ChainsAgree(net, a, m, b, n, k - 1);
      assert Target(net, ReplyTo(net, a, k - 1)) == Some(a[k]);
      assert Target(net, ReplyTo(net, b, k - 1)) == Some(b[k]);
    }
  }

  /** No fetch ends at a hop from which a chain goes on. */
  lemma ChainGoesOn(net: Network, urls: seq<Url>, n: nat, k: nat, other: seq<Url>, r: Outcome)
    requires Chain(net, urls, n) && k < n <= MAX_REDIRECTS && k < |other| && other[k] == urls[k]
    ensures !EndsWith(net, other, k, r)
  {
    assert net.resolve(k, urls[k]).Some?;
    var reply := ReplyTo(net, urls, k);
    assert ReplyTo(net, other, k) == reply;
    assert IsRedirect(reply.status) && Target(net, reply) == Some(urls[k + 1]);
  }

  /** The contract of the fetch leaves exactly one outcome and one number of hops. */
  lemma OutcomeDetermined(net: Network, a: seq<Url>, r: Outcome, b: seq<Url>, s: Outcome)
    requires a != [] && b != [] && a[0] == b[0] && |a| <= MAX_REDIRECTS + 1 && |b| <= MAX_REDIRECTS + 1
    requires Chain(net, a, |a| - 1) && EndsWith(net, a, |a| - 1, r)
    requires Chain(net, b, |b| - 1) && EndsWith(net, b, |b| - 1, s)
    ensures |a| == |b| && r == s
  {
    var k := if |a| <= |b| then |a| - 1 else |b| - 1;
    ChainsAgree(net, a, |a| - 1, b, |b| - 1, k);
    if |a| < |b| {
      ChainGoesOn(net, b, |b| - 1, k, a, r);
    } else if |b| < |a| {
      ChainGoesOn(net, a, |a| - 1, k, b, s);
    }
  }

  /** The limit is reported iff the network offers one redirect too many: ten located redirects,
      and then another one. */
  lemma TooManyIff(net: Network, urls: seq<Url>, r: Outcome)
    requires urls != [] && |urls| <= MAX_REDIRECTS + 1
    requires Chain(net, urls, |urls| - 1) && EndsWith(net, urls, |urls| - 1, r)
    ensures r == TooManyRedirects
       <==> exists more :: |more| == MAX_REDIRECTS + 1 && more[0] == urls[0] && Chain(net, more, MAX_REDIRECTS)
                           && net.resolve(MAX_REDIRECTS, more[MAX_REDIRECTS]).Some?
                           && IsRedirect(ReplyTo(net, more, MAX_REDIRECTS).status)
  {
    if r == TooManyRedirects {
      assert |urls| == MAX_REDIRECTS + 1;
    }
    if more: seq<Url> :| |more| == MAX_REDIRECTS + 1 && more[0] == urls[0] && Chain(net, more, MAX_REDIRECTS)
                           && net.resolve(MAX_REDIRECTS, more[MAX_REDIRECTS]).Some?
                           && IsRedirect(ReplyTo(net, more, MAX_REDIRECTS).status) {
      OutcomeDetermined(net, urls, r, more, TooManyRedirects);
    }
  }
}
