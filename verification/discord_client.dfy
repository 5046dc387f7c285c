/** The Discord side (src/discord_client.rs): rate-limit descriptors read from
    response headers, the per-channel info cache with a time-to-live, and the two
    requests the bot makes. HTTP is not performed here: every answer the server
    would give is a parameter, and the requests issued are recorded in order. */
module DiscordClient {
  import opened Wrappers
  import Utils

  /** A Discord channel id: a non-zero 64-bit integer. */
  type ChannelId = n: nat | 0 < n < Utils.U64_LIMIT witness 1

  /** What the bot reads of a channel. `defaultAutoArchiveDuration` is in minutes. */
  datatype ChannelInfo = ChannelInfo(id: ChannelId, defaultAutoArchiveDuration: Option<nat>)

  /** A failed HTTP exchange. `retryAfterMillis` is `Some` exactly when Discord
      answered with a rate-limit error, and then holds its retry-after. */
  datatype HttpFailure = HttpFailure(retryAfterMillis: Option<nat>, detail: string)

  datatype DiscordError =
    | HttpError(failure: HttpFailure)
    | ValidationError(message: string)
    | DeserializeBodyError(detail: string)

  /** A rate-limit descriptor; the reset-after is kept in milliseconds. */
  datatype RateLimitInfo = RateLimitInfo(bucket: string, resetAfterMillis: nat, remaining: nat)

  /** A header value, as the outcome of decoding its bytes as UTF-8. */
  datatype HeaderValue = Utf8(text: string) | NotUtf8

  datatype Header = Header(name: string, value: HeaderValue)

  const REMAINING: string := "x-ratelimit-remaining"
  const RESET_AFTER: string := "x-ratelimit-reset-after"
  const BUCKET: string := "x-ratelimit-bucket"

  function BucketValue(v: HeaderValue): Option<string>
  {
    if v.Utf8? then Some(v.text) else None
  }

  function RemainingValue(v: HeaderValue): (r: Option<nat>)
    ensures r.Some? ==> r.value < Utils.U64_LIMIT
  {
    if v.Utf8? && Utils.ParseU64(v.text).Ok? then Some(Utils.ParseU64(v.text).value) else None
  }

  /** The reset-after is a decimal number of seconds; reading it and converting
      it to milliseconds is the parameter `parseResetAfter`. */
  function ResetAfterValue(v: HeaderValue, parseResetAfter: string -> Option<nat>): Option<nat>
  {
    if v.Utf8? then parseResetAfter(v.text) else None
  }

  /** The last value successfully read from a header called `name`. */
  function LastParsed<T>(headers: seq<Header>, name: string, parse: HeaderValue -> Option<T>): Option<T>
  {
    if headers == [] then None
    else
      var h := headers[|headers| - 1];
      if h.name == name && parse(h.value).Some? then parse(h.value)
      else LastParsed(headers[..|headers| - 1], name, parse)
  }

  /** The descriptor `from_headers` yields for a response's headers. */
  function Described(headers: seq<Header>, parseResetAfter: string -> Option<nat>): (r: Option<RateLimitInfo>)
    ensures var bucket := LastParsed(headers, BUCKET, BucketValue);
      var resetAfter := LastParsed(headers, RESET_AFTER, v => ResetAfterValue(v, parseResetAfter));
      var remaining := LastParsed(headers, REMAINING, RemainingValue);
      && (r.Some? <==> bucket.Some? && resetAfter.Some? && remaining.Some?)
      && (r.Some? ==> r.value == RateLimitInfo(bucket.value, resetAfter.value, remaining.value))
  {
    Assemble(
      LastParsed(headers, BUCKET, BucketValue),
      LastParsed(headers, RESET_AFTER, v => ResetAfterValue(v, parseResetAfter)),
      LastParsed(headers, REMAINING, RemainingValue))
  }

  function Assemble(bucket: Option<string>, resetAfter: Option<nat>, remaining: Option<nat>): Option<RateLimitInfo>
  {
    if bucket.Some? && resetAfter.Some? && remaining.Some?
    then Some(RateLimitInfo(bucket.value, resetAfter.value, remaining.value))
    else None
  }

  /** `RateLimitInfoBuilder`: each setter records a value only when it can be
      read, and otherwise leaves the field as it was. */
  class RateLimitInfoBuilder {
    var bucket: Option<string>
    var resetAfter: Option<nat>
    var remaining: Option<nat>

    constructor ()
      ensures bucket == None && resetAfter == None && remaining == None
    {
      bucket, resetAfter, remaining := None, None, None;
    }

    method SetBucket(v: HeaderValue)
      modifies this
      ensures bucket == if v.Utf8? then Some(v.text) else old(bucket)
      ensures resetAfter == old(resetAfter) && remaining == old(remaining)
    {
      if v.Utf8? {
        bucket := Some(v.text);
      }
    }

    method SetResetAfter(v: HeaderValue, parseResetAfter: string -> Option<nat>)
      modifies this
      ensures resetAfter == if ResetAfterValue(v, parseResetAfter).Some?
        then ResetAfterValue(v, parseResetAfter) else old(resetAfter)
      ensures bucket == old(bucket) && remaining == old(remaining)
    {
      if v.Utf8? {
        var parsed := parseResetAfter(v.text);
        if parsed.Some? {
          resetAfter := parsed;
        }
      }
    }

    method SetRemaining(v: HeaderValue)
      modifies this
      ensures remaining == if RemainingValue(v).Some? then RemainingValue(v) else old(remaining)
      ensures bucket == old(bucket) && resetAfter == old(resetAfter)
    {
      if v.Utf8? {
        var parsed := Utils.ParseU64(v.text);
        if parsed.Ok? {
          remaining := Some(parsed.value);
        }
      }
    }

    /** `build`: a descriptor only when all three fields were read. */
    function Build(): (r: Option<RateLimitInfo>)
      reads this
      ensures r.Some? <==> bucket.Some? && resetAfter.Some? && remaining.Some?
      ensures r.Some? ==> r.value == RateLimitInfo(bucket.value, resetAfter.value, remaining.value)
    {
      Assemble(bucket, resetAfter, remaining)
    }
  }

  /** `RateLimitInfo::from_headers`: one pass over the headers, feeding the three
      rate-limit headers to the builder and skipping every other header. */
  method FromHeaders(headers: seq<Header>, parseResetAfter: string -> Option<nat>)
    returns (r: Option<RateLimitInfo>)
    ensures r == Described(headers, parseResetAfter)
  {
    var resetParse := v => ResetAfterValue(v, parseResetAfter);
    var builder := new RateLimitInfoBuilder();
    for i := 0 to |headers|
      invariant builder.bucket == LastParsed(headers[..i], BUCKET, BucketValue)
      invariant builder.resetAfter == LastParsed(headers[..i], RESET_AFTER, resetParse)
      invariant builder.remaining == LastParsed(headers[..i], REMAINING, RemainingValue)
    {
      var h := headers[i];
      assert headers[..i + 1][..i] == headers[..i];
      if h.name == REMAINING {
        builder.SetRemaining(h.value);
      } else if h.name == RESET_AFTER {
        builder.SetResetAfter(h.value, parseResetAfter);
      } else if h.name == BUCKET {
        builder.SetBucket(h.value);
      }
    }
    assert headers[..|headers|] == headers;
    r := builder.Build();
  }

  /** A header with any other name changes nothing, wherever it stands. */
  lemma {:induction false} LastParsedSkipsOtherNames<T>(a: seq<Header>, h: Header, b: seq<Header>, name: string, parse: HeaderValue -> Option<T>)
    requires h.name != name
    ensures LastParsed(a + [h] + b, name, parse) == LastParsed(a + b, name, parse)
  {
    if b == [] {
      assert (a + [h] + b)[..|a| ] == a;
      assert a + b == a;
    } else {
      var b0 := b[..|b| - 1];
      assert (a + [h] + b)[..|a + [h] + b| - 1] == a + [h] + b0;
      assert (a + b)[..|a + b| - 1] == a + b0;
      LastParsedSkipsOtherNames(a, h, b0, name, parse);
    }
  }

  lemma IgnoresOtherHeaders(a: seq<Header>, h: Header, b: seq<Header>, parseResetAfter: string -> Option<nat>)
    requires h.name != REMAINING && h.name != RESET_AFTER && h.name != BUCKET
    ensures Described(a + [h] + b, parseResetAfter) == Described(a + b, parseResetAfter)
  {
    LastParsedSkipsOtherNames(a, h, b, BUCKET, BucketValue);
    LastParsedSkipsOtherNames(a, h, b, RESET_AFTER, v => ResetAfterValue(v, parseResetAfter));
    LastParsedSkipsOtherNames(a, h, b, REMAINING, RemainingValue);
  }

  /** The last readable value of a header wins over every earlier one, and no
      unreadable value after it can displace it. */
  lemma {:induction false} LastReadableWins<T>(a: seq<Header>, h: Header, b: seq<Header>, name: string, parse: HeaderValue -> Option<T>)
    requires h.name == name && parse(h.value).Some?
    requires forall j :: 0 <= j < |b| && b[j].name == name ==> parse(b[j].value).None?
    ensures LastParsed(a + [h] + b, name, parse) == parse(h.value)
  {
    if b != [] {
      var b0 := b[..|b| - 1];
      assert (a + [h] + b)[..|a + [h] + b| - 1] == a + [h] + b0;
      LastReadableWins(a, h, b0, name, parse);
    } else {
      assert a + [h] + b == a + [h];
    }
  }

  /** A rate-limit header whose value cannot be read leaves the descriptor as it
      was before it. */
  lemma UnreadableValueIgnored(hs: seq<Header>, h: Header, parseResetAfter: string -> Option<nat>)
    requires h.name == BUCKET ==> BucketValue(h.value).None?
    requires h.name == RESET_AFTER ==> ResetAfterValue(h.value, parseResetAfter).None?
    requires h.name == REMAINING ==> RemainingValue(h.value).None?
    ensures Described(hs + [h], parseResetAfter) == Described(hs, parseResetAfter)
  {
    assert (hs + [h])[..|hs|] == hs;
  }

  // ---------------------------------------------------------------------------
  // The channel info cache

  /** Time since `since`, saturating at zero as a monotonic clock's difference does. */
  function Elapsed(now: int, since: int): nat
  {
    if now >= since then now - since else 0
  }

  /** `Fetched<T>`: a value and the time it was fetched. */
  datatype Fetched<T> = Fetched(item: T, fetched: int) {
    /** Expired once strictly more than `ttl` has elapsed since the fetch. */
    predicate IsExpired(now: int, ttl: nat)
      ensures IsExpired(now, ttl) <==> now > fetched + ttl
    {
      Elapsed(now, fetched) > ttl
    }

    /** `replace`: a new value, fetched now. */
    function Replace(newItem: T, now: int): (r: Fetched<T>)
      ensures r.item == newItem && r.fetched == now
      ensures !r.IsExpired(now, 0)
    {
      this.(item := newItem, fetched := now)
    }

    /** `new`: a value fetched now. */
    static function New(newItem: T, now: int): (r: Fetched<T>)
      ensures r.item == newItem && r.fetched == now
      ensures !r.IsExpired(now, 0)
    {
      Fetched(newItem, now)
    }
  }

  /** An entry expires exactly when the clock has passed its fetch time by
      more than the time-to-live; a clock reading earlier than the fetch time
      counts as no time elapsed. */
  lemma ExpiredIffOlderThanTtl<T>(f: Fetched<T>, now: int, ttl: nat)
    ensures !f.IsExpired(f.fetched + ttl, ttl) && f.IsExpired(f.fetched + ttl + 1, ttl)
    ensures forall earlier :: earlier <= f.fetched ==> !f.IsExpired(earlier, ttl)
  {
  }

  /** The outcome of one cache lookup: the new cache, the channel info or the
      fetch error, and whether the channel was fetched from Discord. */
  datatype Lookup = Lookup(
    cache: map<ChannelId, Fetched<ChannelInfo>>,
    item: Result<ChannelInfo, DiscordError>,
    fetched: bool)

  /** The cache logic of `channel`. `fetch` is Discord's answer to a channel
      request, used only if one is made. */
  function ChannelLookup(
    cache: map<ChannelId, Fetched<ChannelInfo>>, id: ChannelId, ttl: nat, now: int,
    fetch: Result<ChannelInfo, DiscordError>): (r: Lookup)
    ensures r.fetched <==> id !in cache || cache[id].IsExpired(now, ttl)
    ensures !r.fetched ==> r.cache == cache && r.item == Ok(cache[id].item)
    ensures r.fetched && fetch.Err? ==> r.cache == cache && r.item == fetch
    ensures r.fetched && fetch.Ok? ==>
      r.item == fetch && id in r.cache && r.cache[id] == Fetched(fetch.value, now)
    ensures forall k :: k != id ==> (k in r.cache <==> k in cache)
    ensures forall k :: k != id && k in cache ==> r.cache[k] == cache[k]
  {
    if id in cache then
      var f := cache[id];
      if f.IsExpired(now, ttl) then
        match fetch
        case Ok(c) => Lookup(cache[id := f.Replace(c, now)], Ok(c), true)
        case Err(e) => Lookup(cache, Err(e), true)
      else Lookup(cache, Ok(f.item), false)
    else
      match fetch
      case Ok(c) => Lookup(cache[id := Fetched.New(c, now)], Ok(c), true)
      case Err(e) => Lookup(cache, Err(e), true)
  }

  /** After a successful lookup, asking again within the time-to-live makes no
      request and gives the same channel info. */
  lemma LookupAgainIsCached(
    cache: map<ChannelId, Fetched<ChannelInfo>>, id: ChannelId, ttl: nat, now: int, later: int,
    fetch: Result<ChannelInfo, DiscordError>, fetch2: Result<ChannelInfo, DiscordError>)
    requires ChannelLookup(cache, id, ttl, now, fetch).item.Ok?
    requires ChannelLookup(cache, id, ttl, now, fetch).fetched ==> now <= later <= now + ttl
    requires !ChannelLookup(cache, id, ttl, now, fetch).fetched ==> later == now
    ensures var first := ChannelLookup(cache, id, ttl, now, fetch);
      var second := ChannelLookup(first.cache, id, ttl, later, fetch2);
      !second.fetched && second.item == first.item && second.cache == first.cache
  {
  }

  /** A failed fetch leaves the cache as it was, stale entry included. */
  lemma FailedFetchKeepsCache(
    cache: map<ChannelId, Fetched<ChannelInfo>>, id: ChannelId, ttl: nat, now: int, e: DiscordError)
    ensures var l := ChannelLookup(cache, id, ttl, now, Err(e));
      l.cache == cache && (l.fetched ==> l.item == Err(e))
  {
  }

  // ---------------------------------------------------------------------------
  // The client

  /** A request sent to Discord. */
  datatype Request =
    | FetchChannel(channel: ChannelId)
    | CreateThreadRequest(parent: ChannelId, name: string, autoArchiveDuration: Option<nat>)
    | CreateMessageRequest(channel: ChannelId, content: string)

  /** Discord's side of one `create_thread` call: the clock, the answer to the
      channel request (used only if one is made), the request builder's verdict
      on the thread name, the response headers and the decoded thread channel. */
  datatype ThreadAnswers = ThreadAnswers(
    now: int,
    channelFetch: Result<ChannelInfo, DiscordError>,
    buildError: Option<string>,
    exec: Result<seq<Header>, DiscordError>,
    body: Result<ChannelInfo, string>)

  /** Discord's side of one `create_message` call: the request builder's
      verdict on the content and the response headers. */
  datatype MessageAnswers = MessageAnswers(
    buildError: Option<string>,
    exec: Result<seq<Header>, DiscordError>)

  /** What `create_thread` returns. A refused name is a `ValidationError`; the
      rate-limit descriptor is read from the headers of a successful response.
      The archive-duration lookup has no part in it. */
  function ThreadOutcome(a: ThreadAnswers, parseResetAfter: string -> Option<nat>)
    : (r: Result<(Option<RateLimitInfo>, ChannelInfo), DiscordError>)
    ensures a.buildError.Some? ==> r == Err(ValidationError(a.buildError.value))
    ensures a.buildError.None? && a.exec.Err? ==> r == Err(a.exec.error)
    ensures a.buildError.None? && a.exec.Ok? && a.body.Err? ==> r == Err(DeserializeBodyError(a.body.error))
    ensures r.Ok? <==> a.buildError.None? && a.exec.Ok? && a.body.Ok?
    ensures r.Ok? ==> r.value == (Described(a.exec.value, parseResetAfter), a.body.value)
  {
    if a.buildError.Some? then Err(ValidationError(a.buildError.value))
    else if a.exec.Err? then Err(a.exec.error)
    else if a.body.Err? then Err(DeserializeBodyError(a.body.error))
    else Ok((Described(a.exec.value, parseResetAfter), a.body.value))
  }

  /** What `create_message` returns. */
  function MessageOutcome(a: MessageAnswers, parseResetAfter: string -> Option<nat>)
    : (r: Result<Option<RateLimitInfo>, DiscordError>)
    ensures a.buildError.Some? ==> r == Err(ValidationError(a.buildError.value))
    ensures a.buildError.None? && a.exec.Err? ==> r == Err(a.exec.error)
    ensures r.Ok? <==> a.buildError.None? && a.exec.Ok?
    ensures r.Ok? ==> r.value == Described(a.exec.value, parseResetAfter)
  {
    if a.buildError.Some? then Err(ValidationError(a.buildError.value))
    else if a.exec.Err? then Err(a.exec.error)
    else Ok(Described(a.exec.value, parseResetAfter))
  }

  /** The requests one `create_thread` call sends: the channel request when the
      cache lookup `l` needed one, then the thread request unless the name was
      refused. The thread gets the channel's archive duration when the lookup
      produced one, and no duration otherwise. */
  function ThreadRequests(l: Lookup, parent: ChannelId, name: string, a: ThreadAnswers): (rs: seq<Request>)
    ensures |rs| <= 2
    ensures a.buildError.None? ==> |rs| > 0
    ensures a.buildError.None? ==> rs[|rs| - 1] == CreateThreadRequest(parent, name,
      if l.item.Ok? then l.item.value.defaultAutoArchiveDuration else None)
    ensures a.buildError.Some? ==> forall q :: q in rs ==> q.FetchChannel?
  {
    (if l.fetched then [FetchChannel(parent)] else [])
    + (if a.buildError.None?
       then [CreateThreadRequest(parent, name, if l.item.Ok? then l.item.value.defaultAutoArchiveDuration else None)]
       else [])
  }

  /** The requests one `create_message` call sends: the message, unless the
      content was refused. */
  function MessageRequests(channel: ChannelId, content: string, a: MessageAnswers): (rs: seq<Request>)
    ensures rs == [] <==> a.buildError.Some?
    ensures forall q :: q in rs ==> q == CreateMessageRequest(channel, content)
  {
    if a.buildError.None? then [CreateMessageRequest(channel, content)] else []
  }

  /** Failing to read the queue channel does not stop thread creation: the
      thread request is still sent, without an archive duration. (That the
      outcome does not depend on the lookup holds by construction: the
      outcome does not read it.) */
  lemma ArchiveLookupFailureIgnored(
    cache: map<ChannelId, Fetched<ChannelInfo>>, parent: ChannelId, ttl: nat, name: string,
    a: ThreadAnswers, e: DiscordError)
    requires a.buildError.None? && a.channelFetch == Err(e)
    requires parent !in cache || cache[parent].IsExpired(a.now, ttl)
    ensures var l := ChannelLookup(cache, parent, ttl, a.now, a.channelFetch);
      ThreadRequests(l, parent, name, a) == [FetchChannel(parent), CreateThreadRequest(parent, name, None)]
  {
  }

  /** `BotDiscordClient`: the queue channel, the channel info cache and its
      time-to-live; `requests` records what was sent to Discord, in order. */
  class BotDiscordClient {
    const channelId: ChannelId
    const channelInfoTtl: nat
    var channels: map<ChannelId, Fetched<ChannelInfo>>
    var requests: seq<Request>

    constructor (channelId: ChannelId, channelInfoTtl: nat)
      ensures this.channelId == channelId && this.channelInfoTtl == channelInfoTtl
      ensures channels == map[] && requests == []
    {
      this.channelId := channelId;
      this.channelInfoTtl := channelInfoTtl;
      channels := map[];
      requests := [];
    }

    /** `channel`: reads a channel's info through the cache and applies `fn_` to it. */
    method Channel<O>(id: ChannelId, fn_: ChannelInfo -> O, now: int, fetch: Result<ChannelInfo, DiscordError>)
      returns (r: Result<O, DiscordError>)
      modifies this
      ensures var l := ChannelLookup(old(channels), id, channelInfoTtl, now, fetch);
        && channels == l.cache
        && requests == old(requests) + (if l.fetched then [FetchChannel(id)] else [])
        && r == match l.item { case Ok(c) => Ok(fn_(c)) case Err(e) => Err(e) }
    {
      if id in channels {
        var f := channels[id];
        if f.IsExpired(now, channelInfoTtl) {
          requests := requests + [FetchChannel(id)];
          if fetch.Err? {
            return Err(fetch.error);
          }
          f := f.Replace(fetch.value, now);
          channels := channels[id := f];
        }
        r := Ok(fn_(f.item));
      } else {
        requests := requests + [FetchChannel(id)];
        if fetch.Err? {
          return Err(fetch.error);
        }
        var c := fetch.value;
        var out := fn_(c);
        channels := channels[id := Fetched.New(c, now)];
        r := Ok(out);
      }
    }

    /** `create_thread`. The queue channel's default archive duration is read
        through the cache; failing to read it is ignored and the request is
        still made, with no duration. */
    method CreateThread(name: string, a: ThreadAnswers, parseResetAfter: string -> Option<nat>)
      returns (r: Result<(Option<RateLimitInfo>, ChannelInfo), DiscordError>)
      modifies this
      ensures var l := ChannelLookup(old(channels), channelId, channelInfoTtl, a.now, a.channelFetch);
        && channels == l.cache
        && requests == old(requests) + ThreadRequests(l, channelId, name, a)
        && r == ThreadOutcome(a, parseResetAfter)
    {
      var duration := Channel(channelId, (c: ChannelInfo) => c.defaultAutoArchiveDuration, a.now, a.channelFetch);
      var archive := if duration.Ok? then duration.value else None;
      if a.buildError.Some? {
        return Err(ValidationError(a.buildError.value));
      }
      requests := requests + [CreateThreadRequest(channelId, name, archive)];
      if a.exec.Err? {
        return Err(a.exec.error);
      }
      var rli := FromHeaders(a.exec.value, parseResetAfter);
      if a.body.Err? {
        return Err(DeserializeBodyError(a.body.error));
      }
      return Ok((rli, a.body.value));
    }

    /** `create_message`. */
    method CreateMessage(channel: ChannelId, content: string, a: MessageAnswers, parseResetAfter: string -> Option<nat>)
      returns (r: Result<Option<RateLimitInfo>, DiscordError>)
      modifies this
      ensures channels == old(channels)
      ensures requests == old(requests) + MessageRequests(channel, content, a)
      ensures r == MessageOutcome(a, parseResetAfter)
    {
      if a.buildError.Some? {
        return Err(ValidationError(a.buildError.value));
      }
      requests := requests + [CreateMessageRequest(channel, content)];
      if a.exec.Err? {
        return Err(a.exec.error);
      }
      var rli := FromHeaders(a.exec.value, parseResetAfter);
      r := Ok(rli);
    }
  }
}
