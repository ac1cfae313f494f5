/** The customer-name cache of `RtTicketDistiller.blobify`
    (distil/rt_ticket.py): a Redis key space of strings that expire, read
    with `get` and written with `setex`, and the lookup that fills it from
    the customer API on a miss. Time is an explicit parameter `now`. */
module NameCache {
  import opened Common

  /** `CUSTOMER_NAME_CACHE_TTL`: one week, in seconds. */
  const CustomerNameCacheTtl: int := 7 * 24 * 60 * 60

  /** The value cached for a customer the API could not name. */
  const NotFound: string := "__NOT_FOUND__"

  /** `cn_key(customer_id)`. */
  function CacheKey(customerId: string): string {
    "customer_id:" + customerId
  }

  /** A stored value and the instant it expires at. */
  datatype Entry = Entry(value: string, expiresAt: int)

  /** Redis `get`: the value of a key that has not yet expired. A key
      that was never stored, or whose expiry has come, reads as nil. */
  function Lookup(entries: map<string, Entry>, key: string, now: int): (r: Option<string>)
    ensures r.Some? <==> key in entries && now < entries[key].expiresAt
    ensures r.Some? ==> r.value == entries[key].value
  {
    if key in entries && now < entries[key].expiresAt then Some(entries[key].value) else None
  }

  /** A value stored with time to live `ttl` is read back at every instant
      before `ttl` seconds have passed, and is gone from then on. */
  lemma LookupAfterStore(entries: map<string, Entry>, key: string, value: string, ttl: int, now: int, t: int)
    requires now <= t
    ensures t < now + ttl ==> Lookup(entries[key := Entry(value, now + ttl)], key, t) == Some(value)
    ensures t >= now + ttl ==> Lookup(entries[key := Entry(value, now + ttl)], key, t).None?
  {
  }

  /** Storing under one key leaves every other key as it was. */
  lemma LookupOtherKey(entries: map<string, Entry>, key: string, other: string, e: Entry, now: int)
    requires other != key
    ensures Lookup(entries[key := e], other, now) == Lookup(entries, other, now)
  {
  }

  class CustomerNameCache {
    var entries: map<string, Entry>

    /** `StrictRedis(host='localhost', port=6379, db=0)`: a connection to a
        server that still holds whatever earlier runs stored in it. */
    constructor(stored: map<string, Entry>)
      ensures entries == stored
    {
      entries := stored;
    }

    /** `get(key)` at time `now`: never an expired entry, and the value of
        every live one. */
    function Get(key: string, now: int): (r: Option<string>)
      reads this
      ensures r.Some? <==> key in entries && now < entries[key].expiresAt
      ensures r.Some? ==> r.value == entries[key].value
    {
      Lookup(entries, key, now)
    }

    /** `setex(key, ttl, value)` at time `now`; Redis refuses a time to live
        that is not positive. */
    method SetEx(key: string, ttl: int, value: string, now: int)
      requires ttl > 0
      modifies this
      ensures entries == old(entries)[key := Entry(value, now + ttl)]
      ensures Get(key, now) == Some(value)
    {
      entries := entries[key := Entry(value, now + ttl)];
    }
  }

  /** The name taken from the customer API response: the sentinel unless
      the status is 200 and the record has a `description`. The response
      body is the record's `description`, `None` when the key is absent. */
  function RetrievedName(resp: HttpResponse<Option<string>>): (r: string)
    ensures resp.status != 200 ==> r == NotFound
    ensures resp.status == 200 && resp.body.Some? ==> r == resp.body.value
    ensures resp.status == 200 && resp.body.None? ==> r == NotFound
  {
    if resp.status != 200 then NotFound else resp.body.GetOr(NotFound)
  }

  /** What the lookup for one customer amounts to: the name it settles on,
      the cache afterwards, and whether the customer API was asked. */
  datatype Resolution = Resolution(name: Option<string>, entries: map<string, Entry>, fetched: bool)

  /** Lines 188-207: when the id is truthy, a cache miss fetches the name
      and stores it for a week; the cached value is then used unless it is
      the sentinel. */
  function Resolve(entries: map<string, Entry>, customerId: Option<string>,
                   resp: HttpResponse<Option<string>>, now: int): (r: Resolution)
    ensures !Truthy(customerId) ==> r == Resolution(None, entries, false)
    ensures Truthy(customerId) ==> var key := CacheKey(customerId.value);
      && (r.fetched <==> Lookup(entries, key, now).None?)
      && (r.fetched ==> r.entries == entries[key := Entry(RetrievedName(resp), now + CustomerNameCacheTtl)])
      && (!r.fetched ==> r.entries == entries)
      && Lookup(r.entries, key, now).Some?
      && (r.name.Some? <==> Lookup(r.entries, key, now) != Some(NotFound))
      && (r.name.Some? ==> r.name == Lookup(r.entries, key, now))
    ensures r.name != Some(NotFound)
  {
    if !Truthy(customerId) then Resolution(None, entries, false)
    else
      var key := CacheKey(customerId.value);
      var fetched := Lookup(entries, key, now).None?;
      var after := if fetched then entries[key := Entry(RetrievedName(resp), now + CustomerNameCacheTtl)] else entries;
      var cached := Lookup(after, key, now);
      Resolution(if cached != Some(NotFound) then cached else None, after, fetched)
  }

  /** A miss stores the fetched name for a week and uses it, unless the API
      had no name for the customer. */
  lemma ResolveOnMiss(entries: map<string, Entry>, id: string, resp: HttpResponse<Option<string>>, now: int)
    requires id != "" && Lookup(entries, CacheKey(id), now).None?
    ensures var r := Resolve(entries, Some(id), resp, now);
      && r.fetched
      && r.entries[CacheKey(id)] == Entry(RetrievedName(resp), now + CustomerNameCacheTtl)
      && (resp.status == 200 && resp.body.Some? && resp.body.value != NotFound ==> r.name == resp.body)
      && (resp.status != 200 ==> r.name.None?)
  {
  }

  /** A second lookup of the same customer at the same instant hits the
      cache, asks nothing and settles on the same name. */
  lemma ResolveTwice(entries: map<string, Entry>, id: Option<string>,
                     resp: HttpResponse<Option<string>>, resp2: HttpResponse<Option<string>>, now: int)
    ensures var r := Resolve(entries, id, resp, now);
      var r2 := Resolve(r.entries, id, resp2, now);
      && !r2.fetched && r2.entries == r.entries && r2.name == r.name
  {
  }

  /** A name fetched at `now` is served from the cache until the week is
      over; the first lookup at or after its end asks the customer API
      again. */
  lemma ResolveAgainLater(entries: map<string, Entry>, id: Option<string>,
                          resp: HttpResponse<Option<string>>, resp2: HttpResponse<Option<string>>,
                          now: int, t: int)
    requires Truthy(id) && now <= t
    ensures var r := Resolve(entries, id, resp, now);
      r.fetched ==> (Resolve(r.entries, id, resp2, t).fetched <==> t >= now + CustomerNameCacheTtl)
  {
    var r := Resolve(entries, id, resp, now);
    if r.fetched {
      LookupAfterStore(entries, CacheKey(id.value), RetrievedName(resp), CustomerNameCacheTtl, now, t);
    }
  }

  /** `cn_get` and `setex` around the customer API call, against the cache
      object. `fetched` says whether the customer API was asked. */
  method ResolveCustomerName(cache: CustomerNameCache, customerId: Option<string>,
                             resp: HttpResponse<Option<string>>, now: int)
    returns (name: Option<string>, fetched: bool)
    modifies cache
    ensures var r := Resolve(old(cache.entries), customerId, resp, now);
      name == r.name && cache.entries == r.entries && fetched == r.fetched
  {
    name := None;
    fetched := false;
    if Truthy(customerId) {
      var key := CacheKey(customerId.value);
      if cache.Get(key, now).None? {
        fetched := true;
        var retrieved := RetrievedName(resp);
        cache.SetEx(key, CustomerNameCacheTtl, retrieved, now);
      }
      var maybeName := cache.Get(key, now);
      if maybeName != Some(NotFound) {
        name := maybeName;
      }
    }
  }
}
