/**
 * The event feed and `EventIterator`, which walks it page by page by
 * following the `rel="next"` entry of each page's Link header.
 */
module Events {
  import opened Wrappers

  /** A commit as listed in a push event's payload (not yet resolved to its files). */
  datatype CommitRef = CommitRef(authorName: string, sha: string)

  /**
   * One feed event: its `type`, `actor.login`, `repo.name` and, for push
   * events, `payload.commits`.
   */
  datatype Event = Event(kind: string, actorLogin: string, repoName: string, commits: seq<CommitRef>)

  /** One parsed entry of a Link header; `rel` is absent when the entry has none. */
  datatype Link = Link(url: string, rel: Option<string>)

  /** The JSON body (a list of events) and the parsed Link header of one page. */
  datatype Page = Page(events: seq<Event>, links: seq<Link>)

  /** A response of the events endpoint: whether its status is a success, and its page. */
  datatype Response = Response(ok: bool, page: Page)

  /** The error `raise_for_status` raises for the first page. */
  datatype Error = HttpError

  /** What a GET of a URL returns. */
  type Fetch = string -> Response

  /** `link.get('rel') == 'next'`. */
  predicate IsNext(link: Link) {
    link.rel == Some("next")
  }

  /** The URL of the first link whose relation is `next`, if any. */
  function NextUrl(links: seq<Link>): (url: Option<string>)
    decreases |links|
  {
    if links == [] then None
    else if IsNext(links[0]) then Some(links[0].url)
    else NextUrl(links[1..])
  }

  /** `i` is the position of the first `next` link. */
  predicate IsFirstNext(links: seq<Link>, i: int) {
    && 0 <= i < |links|
    && IsNext(links[i])
    && forall j :: 0 <= j < i ==> !IsNext(links[j])
  }

  /**
   * `NextUrl` is found at the first `next` link, and is absent exactly when
   * no link has relation `next`.
   */
  lemma {:induction false} NextUrlIsFirstNext(links: seq<Link>)
    ensures NextUrl(links).None? <==> forall j :: 0 <= j < |links| ==> !IsNext(links[j])
    ensures forall i :: IsFirstNext(links, i) ==> NextUrl(links) == Some(links[i].url)
    decreases |links|
  {
    if links != [] {
      NextUrlIsFirstNext(links[1..]);
      forall i | IsFirstNext(links, i) && i > 0
        ensures IsFirstNext(links[1..], i - 1)
      {
      }
      if !IsNext(links[0]) {
        assert forall j :: 1 <= j < |links| ==> links[j] == links[1..][j - 1];
      }
    }
  }

  /**
   * The events of the pages reached from `links` by following `next`
   * links, in order, or `None` when `fuel` pages do not reach the end of
   * the chain.
   */
  function Rest(get: Fetch, links: seq<Link>, fuel: nat): (rest: Option<seq<Event>>)
    decreases fuel
  {
    match NextUrl(links)
    case None => Some([])
    case Some(url) =>
      if fuel == 0 then None
      else
        var page := get(url).page;
        var tail := Rest(get, page.links, fuel - 1);
        if tail.None? then None else Some(page.events + tail.value)
  }

  /** Once the chain's end is reached, more fuel changes nothing. */
  lemma {:induction false} RestFuelIrrelevant(get: Fetch, links: seq<Link>, n: nat, m: nat)
    requires Rest(get, links, n).Some? && n <= m
    ensures Rest(get, links, m) == Rest(get, links, n)
    decreases n
  {
    if NextUrl(links).Some? {
      RestFuelIrrelevant(get, get(NextUrl(links).value).page.links, n - 1, m - 1);
    }
  }

  /** All events of a sequence of pages, page after page. */
  function Flatten(pages: seq<Page>): (events: seq<Event>)
    decreases |pages|
  {
    if pages == [] then [] else pages[0].events + Flatten(pages[1..])
  }

  /** `p`'s `next` link leads to `q`. */
  predicate LeadsTo(get: Fetch, p: Page, q: Page) {
    NextUrl(p.links).Some? && get(NextUrl(p.links).value).page == q
  }

  /**
   * For a feed of N pages where each page links to the following one and
   * the last links nowhere, the first page's events followed by the rest of
   * the chain are exactly the concatenation of all N pages' events.
   */
  lemma {:induction false} ChainIsConcatenation(get: Fetch, pages: seq<Page>)
    requires |pages| >= 1
    requires forall i :: 0 <= i < |pages| - 1 ==> LeadsTo(get, pages[i], pages[i + 1])
    requires NextUrl(pages[|pages| - 1].links).None?
    ensures Rest(get, pages[0].links, |pages| - 1).Some?
    ensures pages[0].events + Rest(get, pages[0].links, |pages| - 1).value == Flatten(pages)
    decreases |pages|
  {
    if |pages| > 1 {
      var tail := pages[1..];
      assert forall i :: 0 <= i < |tail| ==> tail[i] == pages[i + 1];
      ChainIsConcatenation(get, tail);
      assert LeadsTo(get, pages[0], pages[1]);
    }
  }

  /**
   * An iterator over the events of a feed. `get` is the session's GET,
   * `headers` the current page's parsed Link header, `events` what is left
   * of the current page.
   */
  class EventIterator {
    const get: Fetch
    var headers: seq<Link>
    var events: seq<Event>
    /** A bound on the pages still to be fetched; the chain ends within it. */
    ghost var fuel: nat

    ghost predicate Valid()
      reads this
    {
      Rest(get, headers, fuel).Some?
    }

    /** The events of the pages not yet fetched. */
    ghost function Upcoming(): (events: seq<Event>)
      reads this
      requires Valid()
    {
      Rest(get, headers, fuel).value
    }

    /** Everything the iterator has still to produce, in order. */
    ghost function Remaining(): (events: seq<Event>)
      reads this
      requires Valid()
    {
      events + Upcoming()
    }

    /** The state after a successful first response: its events and Link header. */
    constructor (get: Fetch, page: Page, ghost fuel: nat)
      requires Rest(get, page.links, fuel).Some?
      ensures Valid() && this.get == get && headers == page.links && events == page.events
      ensures Remaining() == page.events + Rest(get, page.links, fuel).value
    {
      this.get := get;
      headers := page.links;
      events := page.events;
      this.fuel := fuel;
    }

    /**
     * Wraps the first response; a non-success status raises before any
     * event is produced.
     */
    static method Open(get: Fetch, response: Response, ghost fuel: nat) returns (r: Result<EventIterator, Error>)
      requires response.ok ==> Rest(get, response.page.links, fuel).Some?
      ensures r.Failure? <==> !response.ok
      ensures r.Success? ==> && fresh(r.value) && r.value.Valid() && r.value.get == get
                             && r.value.Remaining() == response.page.events + Rest(get, response.page.links, fuel).value
    {
      if !response.ok {
        return Failure(HttpError);
      }
      var it := new EventIterator(get, response.page, fuel);
      r := Success(it);
    }

    /**
     * Produces the next event: the front of the current page, after
     * fetching following pages while the current one is used up; `None`
     * (StopIteration) once no page is left.
     */
    method Next() returns (e: Option<Event>)
      requires Valid()
      modifies this
      ensures Valid()
      ensures e.None? <==> old(Remaining()) == []
      ensures e.Some? ==> e.value == old(Remaining())[0]
      ensures Remaining() == if e.None? then [] else old(Remaining())[1..]
    {
      while events == []
        invariant Valid() && Remaining() == old(Remaining())
        decreases fuel
      {
        var more := Refresh();
        if !more {
          return None;
        }
      }
      e := Some(events[0]);
      assert Remaining()[1..] == events[1..] + Upcoming();
      events := events[1..];
    }

    /**
     * Follows the first `next` link: the fetched page's events and Link
     * header replace the current ones. Returns false (StopIteration), with
     * nothing changed, when no link has relation `next`.
     */
    method Refresh() returns (more: bool)
      requires Valid()
      modifies this
      ensures Valid()
      ensures more <==> NextUrl(old(headers)).Some?
      ensures !more ==> headers == old(headers) && events == old(events) && fuel == old(fuel)
      ensures more ==> && headers == get(NextUrl(old(headers)).value).page.links
                       && events == get(NextUrl(old(headers)).value).page.events
                       && Remaining() == old(Upcoming())
                       && fuel < old(fuel)
    {
      var nextUrl: Option<string> := None;
      var i := 0;
      while i < |headers|
        invariant 0 <= i <= |headers|
        invariant forall j :: 0 <= j < i ==> !IsNext(headers[j])
        invariant nextUrl.None?
      {
        if IsNext(headers[i]) {
          nextUrl := Some(headers[i].url);
          break;
        }
        i := i + 1;
      }
      NextUrlIsFirstNext(headers);
      if nextUrl.None? {
        return false;
      }
      assert IsFirstNext(headers, i);
      var response := get(nextUrl.value);
      headers := response.page.links;
      events := response.page.events;
      fuel := fuel - 1;
      more := true;
    }
  }
}
