/**
 * The image-resource cache of `src/utils/load-image.tsx`.
 *
 * A process-wide table maps an image URL to the state of its one load:
 * pending, succeeded, or failed with a `BadImageError` naming the URL.
 * `getResource` is get-or-create on that table; the end of a load (the
 * browser's `load` or `error` event) is the external event `Complete`;
 * `loadImage` sorts the current entry three ways.
 *
 * The first half of the module states the table's behaviour as functions
 * and proves what holds over any run of requests and completions; the
 * class `ResourceCache` is the mutable table itself, whose methods are
 * proved against those functions.
 */
module LoadImage {
  import opened Basics

  /** An `Error` object; only its message is observable. */
  datatype ImageError = ImageError(message: string)

  const MessagePrefix: string := "Cannot load image from source '"

  /** The URL a `BadImageError` message names, or `None` when `msg` is not such a message. */
  function SourceNamed(msg: string): (r: Option<string>)
    ensures r.Some? ==> msg == MessagePrefix + r.value + "'"
  {
    if |msg| > |MessagePrefix| && msg[..|MessagePrefix|] == MessagePrefix && msg[|msg| - 1] == '\''
    then
      var url := msg[|MessagePrefix|..|msg| - 1];
      assert msg == msg[..|MessagePrefix|] + url + [msg[|msg| - 1]];
      Some(url)
    else None
  }

  /** `new BadImageError(source)`: the error a failed load stores. */
  function BadImageError(source: string): (e: ImageError)
    ensures SourceNamed(e.message) == Some(source)
  {
    var msg := MessagePrefix + source + "'";
    assert msg[..|MessagePrefix|] == MessagePrefix;
    assert msg[|MessagePrefix|..|msg| - 1] == source;
    ImageError(msg)
  }

  /** Different URLs give different errors: the message identifies the URL. */
  lemma BadImageErrorInjective(a: string, b: string)
    requires BadImageError(a) == BadImageError(b)
    ensures a == b
  {
    assert Some(a) == SourceNamed(BadImageError(a).message);
  }

  /** The identity of the one in-flight image load for a URL (the promise). */
  datatype Load = Load(source: string)

  datatype Resource =
    | Pending(promise: Load)
    | Success
    | Failure(error: ImageError)

  /** The contents of `RESOURCES`. */
  type Table = map<string, Resource>

  /** The entry `r` could stand under key `url`: a pending load is that URL's, a failure names it. */
  predicate EntryFor(url: string, r: Resource)
  {
    match r
    case Pending(p) => p == Load(url)
    case Success => true
    case Failure(e) => e == BadImageError(url)
  }

  ghost predicate WellFormed(m: Table)
  {
    forall url :: url in m ==> EntryFor(url, m[url])
  }

  /** The table after `getResource(url)`: a present key short-circuits; an absent one gets a pending entry. */
  function Requested(m: Table, url: string): (m': Table)
    ensures m'.Keys == m.Keys + {url}
    ensures forall u :: u in m ==> m'[u] == m[u]
    ensures url !in m ==> m'[url] == Pending(Load(url))
  {
    if url in m then m else m[url := Pending(Load(url))]
  }

  /** The table after the load of `url` settles: `ok` is the browser's `load` event, otherwise `error`. */
  function Completed(m: Table, url: string, ok: bool): (m': Table)
    requires url in m
    ensures m'.Keys == m.Keys
    ensures forall u :: u in m && u != url ==> m'[u] == m[u]
    ensures m'[url].Success? <==> ok
    ensures !ok ==> m'[url] == Failure(BadImageError(url))
  {
    m[url := if ok then Success else Failure(BadImageError(url))]
  }

  /** What `loadImage` does with an entry. */
  datatype Outcome =
    | Throws(error: ImageError)   // throws the stored error
    | Suspends(promise: Load)     // throws the pending promise
    | Returns                     // returns normally

  function Dispatch(r: Resource): (o: Outcome)
    ensures o.Throws? <==> r.Failure?
    ensures o.Suspends? <==> r.Pending?
    ensures o.Returns? <==> r.Success?
    ensures o.Throws? ==> o.error == r.error
    ensures o.Suspends? ==> o.promise == r.promise
  {
    match r
    case Failure(e) => Throws(e)
    case Pending(p) => Suspends(p)
    case Success => Returns
  }

  // ---------------------------------------------------------------------
  // Runs: any interleaving of requests and load completions
  // ---------------------------------------------------------------------

  datatype Event =
    | Request(url: string)             // getResource(url), alone or inside loadImage(url)
    | Complete(url: string, ok: bool)  // the load of url settles

  /** The table after one event; `None` when the event cannot happen (no load of that URL is in flight). */
  function Step(m: Table, e: Event): (r: Option<Table>)
  {
    match e
    case Request(url) => Some(Requested(m, url))
    case Complete(url, ok) =>
      if url in m && m[url].Pending? then Some(Completed(m, url, ok)) else None
  }

  /** The image loads one event starts: one for a request of an absent URL, none otherwise. */
  function StartedBy(m: Table, e: Event): (loads: seq<string>)
    ensures |loads| <= 1
    ensures loads != [] <==> e.Request? && e.url !in m
    ensures loads != [] ==> loads[0] == e.url
  {
    if e.Request? && e.url !in m then [e.url] else []
  }

  /** The final table and the loads started, in order, along the events `es`; `None` if one cannot happen. */
  function Run(m: Table, es: seq<Event>): (r: Option<(Table, seq<string>)>)
    decreases |es|
  {
    if es == [] then Some((m, []))
    else
      match Step(m, es[0])
      case None => None
      case Some(m1) =>
        match Run(m1, es[1..])
        case None => None
        case Some(rest) => Some((rest.0, StartedBy(m, es[0]) + rest.1))
  }

  /** Each URL is loaded at most once, and only if it had no entry to begin with. */
  lemma {:induction false} RunLoadsEachUrlOnce(m: Table, es: seq<Event>)
    requires Run(m, es).Some?
    ensures Distinct(Run(m, es).value.1)
    ensures forall u :: u in Run(m, es).value.1 ==> u !in m
    ensures forall u :: u in Run(m, es).value.0 <==> u in m || u in Run(m, es).value.1
    decreases |es|
  {
    if es != [] {
      var m1 := Step(m, es[0]).value;
      RunLoadsEachUrlOnce(m1, es[1..]);
      var rest := Run(m1, es[1..]).value.1;
      var first := StartedBy(m, es[0]);
      assert Run(m, es).value.1 == first + rest;
      assert forall u :: u in m ==> u in m1;
      forall u | u in first + rest ensures u !in m {
        if u in first { assert u == es[0].url; }
      }
      if first != [] {
        assert first[0] in m1;
      }
    }
  }

  /** The key set only grows: no event removes a key. */
  lemma {:induction false} RunOnlyGrows(m: Table, es: seq<Event>)
    requires Run(m, es).Some?
    ensures m.Keys <= Run(m, es).value.0.Keys
    decreases |es|
  {
    if es != [] {
      RunOnlyGrows(Step(m, es[0]).value, es[1..]);
    }
  }

  /** A settled entry (success or failure) never changes again; in particular it never regresses to pending. */
  lemma {:induction false} RunKeepsSettled(m: Table, es: seq<Event>, url: string)
    requires Run(m, es).Some?
    requires url in m && !m[url].Pending?
    ensures url in Run(m, es).value.0 && Run(m, es).value.0[url] == m[url]
    decreases |es|
  {
    if es != [] {
      var m1 := Step(m, es[0]).value;
      assert url in m1 && m1[url] == m[url];
      RunKeepsSettled(m1, es[1..], url);
    }
  }

  /** Every entry stays well formed: a pending load is its URL's, a stored failure names its URL. */
  lemma {:induction false} RunKeepsWellFormed(m: Table, es: seq<Event>)
    requires WellFormed(m)
    requires Run(m, es).Some?
    ensures WellFormed(Run(m, es).value.0)
    decreases |es|
  {
    if es != [] {
      var m1 := Step(m, es[0]).value;
      assert WellFormed(m1) by {
        forall u | u in m1 ensures EntryFor(u, m1[u]) {
          if u in m && u != es[0].url { assert m1[u] == m[u]; }
        }
      }
      RunKeepsWellFormed(m1, es[1..]);
    }
  }

  /** `n` requests for one URL: a single table update and at most one load, whatever `n` is. */
  function Requests(url: string, n: nat): (es: seq<Event>)
    ensures |es| == n && forall i :: 0 <= i < n ==> es[i] == Request(url)
  {
    if n == 0 then [] else [Request(url)] + Requests(url, n - 1)
  }

  lemma {:induction false} RepeatedRequestsLoadOnce(m: Table, url: string, n: nat)
    requires n > 0
    ensures Run(m, Requests(url, n)) == Some((Requested(m, url), if url in m then [] else [url]))
    decreases n
  {
    var es := Requests(url, n);
    assert es[0] == Request(url) && es[1..] == Requests(url, n - 1);
    var m1 := Requested(m, url);
    assert Step(m, es[0]) == Some(m1);
    if n > 1 {
      RepeatedRequestsLoadOnce(m1, url, n - 1);
      assert url in m1 && Requested(m1, url) == m1;
    } else {
      assert es[1..] == [];
    }
    assert Run(m1, es[1..]) == Some((m1, []));
    assert StartedBy(m, es[0]) + [] == if url in m then [] else [url];
    assert Run(m, es) == Some((m1, StartedBy(m, es[0]) + []));
  }

  /**
   * The module-level `RESOURCES` map, with the loads it has started.
   * `started` is bookkeeping for the proof only: the URLs whose image load
   * `getResource` began, in order.
   */
  class ResourceCache {
    var resources: Table
    ghost var started: seq<string>

    /** One load per URL ever, exactly for the URLs that have an entry, and every entry well formed. */
    ghost predicate Valid()
      reads this
    {
      && WellFormed(resources)
      && Distinct(started)
      && (forall url :: url in resources <==> url in started)
    }

    constructor ()
      ensures Valid()
      ensures resources == map[] && started == []
    {
      resources := map[];
      started := [];
    }

    /** `getResource(source)`: the cached entry if there is one, otherwise a new pending entry and one new load. */
    method GetResource(source: string) returns (r: Resource)
      requires Valid()
      modifies this
      ensures Valid()
      ensures resources == Requested(old(resources), source)
      ensures started == old(started) + StartedBy(old(resources), Request(source))
      ensures source in old(resources) ==> r == old(resources)[source] && resources == old(resources)
      ensures source !in old(resources) ==> r == Pending(Load(source))
      ensures r == resources[source]
    {
      if source in resources {
        return resources[source];
      }
      r := Pending(Load(source));
      resources := resources[source := r];
      started := started + [source];
    }

    /** The settlement handlers of the load promise: `set` to success, or to failure holding a `BadImageError`. */
    method Complete(source: string, ok: bool)
      requires Valid()
      requires source in resources && resources[source].Pending?
      modifies this`resources
      ensures Valid()
      ensures resources == Completed(old(resources), source, ok)
    {
      if ok {
        resources := resources[source := Success];
      } else {
        resources := resources[source := Failure(BadImageError(source))];
      }
    }

    /** `loadImage(source)`: throw the stored error, suspend on the pending load, or return. */
    method LoadImage(source: string) returns (o: Outcome)
      requires Valid()
      modifies this
      ensures Valid()
      ensures resources == Requested(old(resources), source)
      ensures started == old(started) + StartedBy(old(resources), Request(source))
      ensures o == Dispatch(resources[source])
      ensures source !in old(resources) ==> o == Suspends(Load(source))
      ensures o.Throws? ==> SourceNamed(o.error.message) == Some(source)
      ensures o.Suspends? ==> o.promise == Load(source)
    {
      var resource := GetResource(source);
      match resource
      case Failure(e) => o := Throws(e);
      case Pending(p) => o := Suspends(p);
      case Success => o := Returns;
    }
  }

  /** A client of the cache: two components ask for one URL whose load then fails. */
  method FailedLoadScenario()
  {
    var cache := new ResourceCache();
    var url := "photo_534.jpg";
    var first := cache.LoadImage(url);
    var second := cache.LoadImage(url);
    assert first == second == Suspends(Load(url));
    assert cache.started == [url];
    cache.Complete(url, false);
    var third := cache.LoadImage(url);
    assert third == Throws(BadImageError(url));
    assert cache.started == [url];
  }
}
