/**
 * `get_stats`: walks the user's event feed, keeps the push events and
 * commits of the target user, classifies every changed file and sums the
 * additions and deletions per language.
 */
module GitLang {
  import opened Wrappers
  import opened Languages
  import opened Tracking
  import opened Events

  const BASE_URL := "https://api.github.com"

  /**
   * What `get_stats` uses of the authenticated session: the login of its
   * credentials (`session.auth[0]`), the feed pages a GET returns, and the
   * `files` list of a commit-detail response (`None` when it has no `files` key).
   */
  datatype Session = Session(
    authLogin: string,
    get: Fetch,
    commitFiles: string -> Option<seq<FileCommitData>>)

  function EventsUrl(user: string): (url: string) {
    BASE_URL + "/users/" + user + "/events"
  }

  function CommitUrl(repo: string, sha: string): (url: string) {
    BASE_URL + "/repos/" + repo + "/commits/" + sha
  }

  /** `user or session.auth[0]`: a missing or empty user means the session's own login. */
  function Target(session: Session, user: Option<string>): (target: string)
    ensures user.None? || user.value == "" ==> target == session.authLogin
    ensures user.Some? && user.value != "" ==> target == user.value
  {
    if user.Some? && user.value != "" then user.value else session.authLogin
  }

  /** The events whose commits are looked at: pushes by the target user. */
  predicate IsCountedEvent(e: Event, target: string) {
    e.kind == "PushEvent" && e.actorLogin == target
  }

  /** The commits whose files are counted: those whose author name is the target user. */
  predicate IsCountedCommit(c: CommitRef, target: string) {
    c.authorName == target
  }

  /** `commit_response.json().get('files', [])`. */
  function CommitFiles(session: Session, repo: string, c: CommitRef): (files: seq<FileCommitData>) {
    match session.commitFiles(CommitUrl(repo, c.sha))
    case None => []
    case Some(files) => files
  }

  /** The file records contributed by the commits of one push event, in order. */
  function CommitsFiles(session: Session, target: string, repo: string, commits: seq<CommitRef>): (files: seq<FileCommitData>)
    decreases |commits|
  {
    if commits == [] then []
    else
      var c := commits[|commits| - 1];
      CommitsFiles(session, target, repo, commits[..|commits| - 1])
        + (if IsCountedCommit(c, target) then CommitFiles(session, repo, c) else [])
  }

  /** Looking at one more commit appends that commit's contribution. */
  lemma CommitsFilesSnoc(session: Session, target: string, repo: string, commits: seq<CommitRef>, i: nat)
    requires i < |commits|
    ensures CommitsFiles(session, target, repo, commits[..i + 1])
         == CommitsFiles(session, target, repo, commits[..i])
            + (if IsCountedCommit(commits[i], target) then CommitFiles(session, repo, commits[i]) else [])
  {
    assert commits[..i + 1][..i] == commits[..i];
  }

  /** The file records one event contributes. */
  function EventFiles(session: Session, target: string, e: Event): (files: seq<FileCommitData>) {
    if IsCountedEvent(e, target) then CommitsFiles(session, target, e.repoName, e.commits) else []
  }

  /** The file records all of `events` contribute, in feed order. */
  function CountedFiles(session: Session, target: string, events: seq<Event>): (files: seq<FileCommitData>)
    decreases |events|
  {
    if events == [] then []
    else
      CountedFiles(session, target, events[..|events| - 1])
        + EventFiles(session, target, events[|events| - 1])
  }

  /** The files of a concatenation of event lists are those of each part in turn. */
  lemma {:induction false} CountedFilesAppend(session: Session, target: string, a: seq<Event>, b: seq<Event>)
    ensures CountedFiles(session, target, a + b)
         == CountedFiles(session, target, a) + CountedFiles(session, target, b)
    decreases |b|
  {
    if b == [] {
      assert a + b == a;
    } else {
      var ab := a + b;
      assert ab[..|ab| - 1] == a + b[..|b| - 1];
      assert ab[|ab| - 1] == b[|b| - 1];
      CountedFilesAppend(session, target, a, b[..|b| - 1]);
    }
  }

  /** Looking at one more event appends that event's contribution. */
  lemma CountedFilesSnoc(session: Session, target: string, events: seq<Event>, e: Event)
    ensures CountedFiles(session, target, events + [e])
         == CountedFiles(session, target, events) + EventFiles(session, target, e)
    ensures !IsCountedEvent(e, target)
        ==> CountedFiles(session, target, events + [e]) == CountedFiles(session, target, events)
  {
    assert (events + [e])[..|events|] == events;
  }

  /** The files of a list of events: those of its first event, then those of the others. */
  lemma CountedFilesCons(session: Session, target: string, e: Event, events: seq<Event>)
    ensures CountedFiles(session, target, [e] + events)
         == EventFiles(session, target, e) + CountedFiles(session, target, events)
  {
    CountedFilesAppend(session, target, [e], events);
    assert [e][..0] == [];
  }

  /** The bookkeeping of one round of the event loop of `get_stats`. */
  lemma CountedFilesStep(session: Session, target: string, counted: seq<FileCommitData>, events: seq<Event>)
    ensures events == [] ==> counted + CountedFiles(session, target, events) == counted
    ensures events != [] ==>
      counted + CountedFiles(session, target, events)
      == (counted + EventFiles(session, target, events[0])) + CountedFiles(session, target, events[1..])
  {
    if events == [] {
      assert counted + [] == counted;
    } else {
      assert events == [events[0]] + events[1..];
      CountedFilesCons(session, target, events[0], events[1..]);
    }
  }

  /**
   * The final dictionary: every language of the table whose totals over
   * `files` are not both zero, with those totals.
   */
  function Report(files: seq<FileCommitData>): (report: map<string, Counts>) {
    map lang | lang in EXTENSION_MAPPING.Values && Totals(files, lang) != ZERO :: Totals(files, lang)
  }

  /** `{l: s for l, s in stats.items() if s.added or s.deleted}`. */
  function Prune(totals: map<string, Counts>): (pruned: map<string, Counts>)
    ensures forall l :: l in pruned <==> l in totals && totals[l] != ZERO
    ensures forall l :: l in pruned ==> pruned[l] == totals[l]
  {
    map l | l in totals && (totals[l].added != 0 || totals[l].deleted != 0) :: totals[l]
  }

  /** Pruning one total per language of the table gives the report. */
  lemma PruneIsReport(totals: map<string, Counts>, files: seq<FileCommitData>)
    requires totals.Keys == EXTENSION_MAPPING.Values
    requires forall l :: l in totals ==> totals[l] == Totals(files, l)
    ensures Prune(totals) == Report(files)
  {
    var pruned, report := Prune(totals), Report(files);
    assert pruned.Keys == report.Keys;
    assert forall l :: l in pruned ==> pruned[l] == report[l];
  }

  /** The session's feed for `user` ends within `fuel` pages after the first. */
  predicate FeedEnds(session: Session, user: string, fuel: nat) {
    var first := session.get(EventsUrl(user));
    first.ok ==> Rest(session.get, first.page.links, fuel).Some?
  }

  /** What `get_stats` returns, or the error it raises. */
  function Stats(session: Session, user: Option<string>, fuel: nat): (result: Result<map<string, Counts>, Error>)
    requires FeedEnds(session, Target(session, user), fuel)
  {
    var target := Target(session, user);
    var first := session.get(EventsUrl(target));
    if !first.ok then Failure(HttpError)
    else
      var events := first.page.events + Rest(session.get, first.page.links, fuel).value;
      Success(Report(CountedFiles(session, target, events)))
  }

  /** One tracker per language of the table, no two the same object. */
  ghost predicate Trackers(stats: map<string, StatTracker>) {
    && stats.Keys == EXTENSION_MAPPING.Values
    && forall l1, l2 :: l1 in stats && l2 in stats && l1 != l2 ==> stats[l1] != stats[l2]
  }

  /** Every tracker holds its language's totals over `files`. */
  ghost predicate Tally(stats: map<string, StatTracker>, files: seq<FileCommitData>)
    reads stats.Values
  {
    forall l {:trigger Totals(files, l)} :: l in stats ==> stats[l].Value() == Totals(files, l)
  }

  /** `{lang: StatTracker() for lang in EXTENSION_MAPPING.values()}`. */
  method NewTrackers() returns (stats: map<string, StatTracker>)
    ensures Trackers(stats) && fresh(stats.Values) && Tally(stats, [])
  {
    stats := map[];
    var pending := EXTENSION_MAPPING.Values;
    while pending != {}
      invariant stats.Keys + pending == EXTENSION_MAPPING.Values
      invariant stats.Keys !! pending
      invariant forall l1, l2 :: l1 in stats && l2 in stats && l1 != l2 ==> stats[l1] != stats[l2]
      invariant fresh(stats.Values)
      invariant forall l :: l in stats ==> stats[l].Value() == ZERO
      decreases pending
    {
      var lang :| lang in pending;
      var tracker := new StatTracker();
      ghost var trackers := stats.Values;
      stats := stats[lang := tracker];
      assert forall t :: t in stats.Values ==> t in trackers || t == tracker;
      pending := pending - {lang};
    }
  }

  /**
   * The body of the innermost loop of `get_stats`: classify one file and,
   * when it has a language, update that language's tracker.
   */
  method CountFile(stats: map<string, StatTracker>, f: FileCommitData, ghost done: seq<FileCommitData>)
    requires Trackers(stats) && Tally(stats, done)
    modifies stats.Values
    ensures Tally(stats, done + [f])
  {
    var language := Language(f.fileName);
    if language.Some? {
      var tracker := stats[language.value];
      tracker.Update(f);
      assert forall l :: l in stats && l != language.value ==> stats[l] != tracker;
    }
    forall l | l in stats
      ensures stats[l].Value() == Totals(done + [f], l)
    {
      TotalsSnoc(done, f, l);
    }
  }

  /** The innermost loop of `get_stats`: every file of one commit. */
  method CountFiles(stats: map<string, StatTracker>, files: seq<FileCommitData>, ghost done: seq<FileCommitData>)
    requires Trackers(stats) && Tally(stats, done)
    modifies stats.Values
    ensures Tally(stats, done + files)
  {
    var k := 0;
    assert done + files[..k] == done;
    while k < |files|
      invariant 0 <= k <= |files|
      invariant Tally(stats, done + files[..k])
    {
      assert done + files[..k + 1] == (done + files[..k]) + [files[k]];
      CountFile(stats, files[k], done + files[..k]);
      k := k + 1;
    }
    assert files[..k] == files;
  }

  /**
   * The body of the event loop of `get_stats`: a push event of the target
   * user has the files of each of its commits by that user counted; any
   * other event is skipped.
   */
  method CountEvent(
    stats: map<string, StatTracker>, session: Session, target: string,
    event: Event, ghost done: seq<FileCommitData>)
    requires Trackers(stats) && Tally(stats, done)
    modifies stats.Values
    ensures Tally(stats, done + EventFiles(session, target, event))
  {
    if event.kind != "PushEvent" || event.actorLogin != target {
      assert done + EventFiles(session, target, event) == done;
      return;
    }
    var repo := event.repoName;
    var commits := event.commits;
    var i := 0;
    ghost var counted := done;
    assert counted == done + CommitsFiles(session, target, repo, commits[..i]);
    while i < |commits|
      invariant 0 <= i <= |commits|
      invariant counted == done + CommitsFiles(session, target, repo, commits[..i])
      invariant Tally(stats, counted)
    {
      var commit := commits[i];
      CommitsFilesSnoc(session, target, repo, commits, i);
      if commit.authorName == target {
        var detail := session.commitFiles(CommitUrl(repo, commit.sha));
        var files := if detail.Some? then detail.value else [];
        CountFiles(stats, files, counted);
        counted := counted + files;
      }
      i := i + 1;
    }
    assert commits[..i] == commits;
  }

  /**
   * The event loop of `get_stats`: pulls every remaining event from `feed`
   * and counts the commits of the target user's push events.
   */
  method CountEvents(
    stats: map<string, StatTracker>, session: Session, target: string,
    feed: EventIterator, ghost all: seq<Event>, ghost done: seq<FileCommitData>)
    requires feed.Valid() && feed.Remaining() == all
    requires Trackers(stats) && Tally(stats, done)
    modifies feed, stats.Values
    ensures feed.Valid() && feed.Remaining() == []
    ensures Tally(stats, done + CountedFiles(session, target, all))
  {
    ghost var counted := done;
    ghost var rest := all;
    while true
      invariant feed.Valid() && feed.Remaining() == rest
      invariant counted + CountedFiles(session, target, rest) == done + CountedFiles(session, target, all)
      invariant Tally(stats, counted)
      decreases |rest|
    {
      var next := feed.Next();
      CountedFilesStep(session, target, counted, rest);
      if next.None? {
        break;
      }
      var event := next.value;
      CountEvent(stats, session, target, event, counted);
      counted := counted + EventFiles(session, target, event);
      rest := rest[1..];
    }
  }

  /**
   * `get_stats(session, user)`: the per-language totals of the target
   * user's pushed commits, with all-zero languages dropped; fails when the
   * first page of the feed is not a success.
   */
  method GetStats(session: Session, user: Option<string>, ghost fuel: nat)
    returns (r: Result<map<string, Counts>, Error>)
    requires FeedEnds(session, Target(session, user), fuel)
    ensures r == Stats(session, user, fuel)
  {
    var target := Target(session, user);
    var stats := NewTrackers();
    var response := session.get(EventsUrl(target));
    var start := EventIterator.Open(session.get, response, fuel);
    if start.Failure? {
      assert start.error == HttpError;
      return Failure(start.error);
    }
    var feed := start.value;
    ghost var events := feed.Remaining();
    CountEvents(stats, session, target, feed, events, []);
    assert [] + CountedFiles(session, target, events) == CountedFiles(session, target, events);
    var totals := map l | l in stats :: stats[l].Value();
    PruneIsReport(totals, CountedFiles(session, target, events));
    r := Success(Prune(totals));
  }
}
