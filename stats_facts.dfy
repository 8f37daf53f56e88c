/**
 * What the result of `get_stats` means: which events, commits and files it
 * counts, which languages it reports, and that neither the order of the
 * feed nor the order of the files matters.
 */
module StatsFacts {
  import opened Wrappers
  import opened Languages
  import opened Tracking
  import opened Events
  import opened GitLang
  import Seqs

  /**
   * A language is reported exactly when it is a language of the table and
   * some counted file classified as it adds or deletes a line; its entry is
   * the sum over those files.
   */
  lemma ReportContents(files: seq<FileCommitData>, lang: string)
    ensures lang in Report(files) ==> lang in EXTENSION_MAPPING.Values && Report(files)[lang] == Totals(files, lang)
    ensures lang in Report(files) <==>
              && lang in EXTENSION_MAPPING.Values
              && exists i :: 0 <= i < |files| && IsOf(files[i], lang) && (files[i].additions != 0 || files[i].deletions != 0)
  {
    TotalsIsZero(files, lang);
  }

  /** Reordering the counted files does not change the report. */
  lemma ReportPermutation(a: seq<FileCommitData>, b: seq<FileCommitData>)
    requires multiset(a) == multiset(b)
    ensures Report(a) == Report(b)
  {
    forall lang | lang in EXTENSION_MAPPING.Values
      ensures Totals(a, lang) == Totals(b, lang)
    {
      TotalsPermutation(a, b, lang);
    }
  }

  /** The file records of the commits of a concatenation are those of each part in turn. */
  lemma {:induction false} CommitsFilesAppend(
    session: Session, target: string, repo: string, a: seq<CommitRef>, b: seq<CommitRef>)
    ensures CommitsFiles(session, target, repo, a + b)
         == CommitsFiles(session, target, repo, a) + CommitsFiles(session, target, repo, b)
    decreases |b|
  {
    if b == [] {
      assert a + b == a;
    } else {
      var ab := a + b;
      assert ab[..|ab| - 1] == a + b[..|b| - 1];
      assert ab[|ab| - 1] == b[|b| - 1];
      CommitsFilesAppend(session, target, repo, a, b[..|b| - 1]);
    }
  }

  /**
   * A commit whose author is not the target user, or whose detail has no
   * `files` list, contributes nothing wherever it stands.
   */
  lemma IgnoredCommit(
    session: Session, target: string, repo: string, before: seq<CommitRef>, c: CommitRef, after: seq<CommitRef>)
    requires !IsCountedCommit(c, target) || session.commitFiles(CommitUrl(repo, c.sha)).None?
    ensures CommitsFiles(session, target, repo, before + [c] + after)
         == CommitsFiles(session, target, repo, before + after)
  {
    CommitsFilesAppend(session, target, repo, before + [c], after);
    CommitsFilesAppend(session, target, repo, before, after);
    assert (before + [c])[..|before|] == before;
    assert CommitsFiles(session, target, repo, before + [c]) == CommitsFiles(session, target, repo, before) + [];
  }

  /**
   * An event that is not a push by the target user contributes nothing
   * wherever it stands in the feed.
   */
  lemma IgnoredEvent(session: Session, target: string, before: seq<Event>, e: Event, after: seq<Event>)
    requires !IsCountedEvent(e, target)
    ensures CountedFiles(session, target, before + [e] + after) == CountedFiles(session, target, before + after)
  {
    CountedFilesAppend(session, target, before + [e], after);
    CountedFilesAppend(session, target, before, after);
    CountedFilesSnoc(session, target, before, e);
  }

  /**
   * Every counted file record comes from a commit by the target user inside
   * a push event by the target user.
   */
  lemma {:induction false} CountedFilesOrigin(session: Session, target: string, events: seq<Event>, f: FileCommitData)
    requires f in CountedFiles(session, target, events)
    ensures exists i, j :: && 0 <= i < |events| && 0 <= j < |events[i].commits|
                           && IsCountedEvent(events[i], target)
                           && IsCountedCommit(events[i].commits[j], target)
                           && f in CommitFiles(session, events[i].repoName, events[i].commits[j])
    decreases |events|
  {
    var init := events[..|events| - 1];
    var e := events[|events| - 1];
    if f in CountedFiles(session, target, init) {
      CountedFilesOrigin(session, target, init, f);
      var i, j :| && 0 <= i < |init| && 0 <= j < |init[i].commits|
                  && IsCountedEvent(init[i], target)
                  && IsCountedCommit(init[i].commits[j], target)
                  && f in CommitFiles(session, init[i].repoName, init[i].commits[j]);
      assert events[i] == init[i];
    } else {
      assert f in EventFiles(session, target, e);
      CommitsFilesOrigin(session, target, e.repoName, e.commits, f);
      var j :| 0 <= j < |e.commits| && IsCountedCommit(e.commits[j], target)
               && f in CommitFiles(session, e.repoName, e.commits[j]);
      assert events[|events| - 1] == e;
    }
  }

  /** Every file record of a push comes from one of its commits by the target user. */
  lemma {:induction false} CommitsFilesOrigin(
    session: Session, target: string, repo: string, commits: seq<CommitRef>, f: FileCommitData)
    requires f in CommitsFiles(session, target, repo, commits)
    ensures exists j :: 0 <= j < |commits| && IsCountedCommit(commits[j], target)
                        && f in CommitFiles(session, repo, commits[j])
    decreases |commits|
  {
    var init := commits[..|commits| - 1];
    var c := commits[|commits| - 1];
    if f in CommitsFiles(session, target, repo, init) {
      CommitsFilesOrigin(session, target, repo, init, f);
      var j :| 0 <= j < |init| && IsCountedCommit(init[j], target) && f in CommitFiles(session, repo, init[j]);
      assert commits[j] == init[j];
    } else {
      assert commits[|commits| - 1] == c;
    }
  }

  /** Every file record of a commit by the target user is among the files of its push. */
  lemma {:induction false} CommitsFilesComplete(
    session: Session, target: string, repo: string, commits: seq<CommitRef>, j: nat, f: FileCommitData)
    requires j < |commits| && IsCountedCommit(commits[j], target)
    requires f in CommitFiles(session, repo, commits[j])
    ensures f in CommitsFiles(session, target, repo, commits)
  {
    CommitsFilesSnoc(session, target, repo, commits, j);
    CommitsFilesAppend(session, target, repo, commits[..j + 1], commits[j + 1..]);
    assert commits[..j + 1] + commits[j + 1..] == commits;
  }

  /**
   * Conversely to `CountedFilesOrigin`, every file record of a commit by the
   * target user inside a push by the target user is counted.
   */
  lemma {:induction false} CountedFilesComplete(
    session: Session, target: string, events: seq<Event>, i: nat, j: nat, f: FileCommitData)
    requires i < |events| && j < |events[i].commits|
    requires IsCountedEvent(events[i], target) && IsCountedCommit(events[i].commits[j], target)
    requires f in CommitFiles(session, events[i].repoName, events[i].commits[j])
    ensures f in CountedFiles(session, target, events)
  {
    var e := events[i];
    CommitsFilesComplete(session, target, e.repoName, e.commits, j, f);
    var upTo := events[..i + 1];
    assert upTo[..i] == events[..i] && upTo[i] == e;
    assert f in CountedFiles(session, target, upTo);
    CountedFilesAppend(session, target, upTo, events[i + 1..]);
    assert upTo + events[i + 1..] == events;
  }

  /** Taking one event out of the feed takes its file records out of the count. */
  lemma CountedFilesWithout(session: Session, target: string, lo: seq<Event>, e: Event, hi: seq<Event>)
    ensures multiset(CountedFiles(session, target, lo + [e] + hi))
         == multiset(CountedFiles(session, target, lo + hi)) + multiset(EventFiles(session, target, e))
  {
    CountedFilesAppend(session, target, lo + [e], hi);
    CountedFilesSnoc(session, target, lo, e);
    CountedFilesAppend(session, target, lo, hi);
    var l, mid, h := CountedFiles(session, target, lo), EventFiles(session, target, e), CountedFiles(session, target, hi);
    assert multiset(l + mid + h) == multiset(l) + multiset(mid) + multiset(h);
    assert multiset(l + h) == multiset(l) + multiset(h);
  }

  /** Reordering the events of the feed reorders the counted files and no more. */
  lemma {:induction false} CountedFilesPermutation(session: Session, target: string, a: seq<Event>, b: seq<Event>)
    requires multiset(a) == multiset(b)
    ensures multiset(CountedFiles(session, target, a)) == multiset(CountedFiles(session, target, b))
    decreases |a|
  {
    if a == [] {
      Seqs.PermutationOfEmpty(b);
    } else {
      var i := Seqs.PermutationSplit(a, b);
      var init, e, lo, hi := a[..|a| - 1], b[i], b[..i], b[i + 1..];
      CountedFilesPermutation(session, target, init, lo + hi);
      CountedFilesSnoc(session, target, init, e);
      CountedFilesWithout(session, target, lo, e, hi);
      assert multiset(CountedFiles(session, target, init + [e]))
          == multiset(CountedFiles(session, target, init)) + multiset(EventFiles(session, target, e));
    }
  }

  /** The statistics do not depend on the order in which the feed delivers events. */
  lemma EventOrderIrrelevant(session: Session, target: string, a: seq<Event>, b: seq<Event>)
    requires multiset(a) == multiset(b)
    ensures Report(CountedFiles(session, target, a)) == Report(CountedFiles(session, target, b))
  {
    CountedFilesPermutation(session, target, a, b);
    ReportPermutation(CountedFiles(session, target, a), CountedFiles(session, target, b));
  }

  /**
   * Over a feed whose first page is a success and whose `next` links run
   * through `pages` and stop at the last one, `get_stats` reports on the
   * events of all pages, page after page.
   */
  lemma StatsOfChain(session: Session, user: Option<string>, pages: seq<Page>)
    requires |pages| >= 1
    requires session.get(EventsUrl(Target(session, user))) == Response(true, pages[0])
    requires forall i :: 0 <= i < |pages| - 1 ==> LeadsTo(session.get, pages[i], pages[i + 1])
    requires NextUrl(pages[|pages| - 1].links).None?
    ensures FeedEnds(session, Target(session, user), |pages| - 1)
    ensures Stats(session, user, |pages| - 1)
         == Success(Report(CountedFiles(session, Target(session, user), Flatten(pages))))
  {
    ChainIsConcatenation(session.get, pages);
  }

  /**
   * The ghost bound on the feed's length only has to be large enough: any
   * larger bound gives the same result.
   */
  lemma StatsFuelIrrelevant(session: Session, user: Option<string>, n: nat, m: nat)
    requires FeedEnds(session, Target(session, user), n) && n <= m
    ensures FeedEnds(session, Target(session, user), m)
    ensures Stats(session, user, m) == Stats(session, user, n)
  {
    var first := session.get(EventsUrl(Target(session, user)));
    if first.ok {
      RestFuelIrrelevant(session.get, first.page.links, n, m);
    }
  }

  /** A first page that is not a success makes `get_stats` fail, whatever follows. */
  lemma StatsFailure(session: Session, user: Option<string>, fuel: nat)
    requires FeedEnds(session, Target(session, user), fuel)
    ensures Stats(session, user, fuel).Failure? <==> !session.get(EventsUrl(Target(session, user))).ok
    ensures Stats(session, user, fuel).Success? ==>
              forall lang :: lang in Stats(session, user, fuel).value ==>
                lang in EXTENSION_MAPPING.Values && Stats(session, user, fuel).value[lang] != ZERO
  {
  }

  /**
   * A push by alice of one commit touching `a.py` (+10/-0) and `b.js`
   * (+0/-4) is reported as Python (10, 0) and Javascript (0, 4), and
   * nothing else.
   */
  lemma PushScenario(stemPy: string, stemJs: string)
    ensures var r := Report([FileCommitData(stemPy + ".py", 10, 0), FileCommitData(stemJs + ".js", 0, 4)]);
            && "Python" in r && r["Python"] == Counts(10, 0)
            && "Javascript" in r && r["Javascript"] == Counts(0, 4)
            && forall lang :: lang in r ==> lang == "Python" || lang == "Javascript"
  {
    var py, js := FileCommitData(stemPy + ".py", 10, 0), FileCommitData(stemJs + ".js", 0, 4);
    MappedExtensionExamples(stemPy);
    MappedExtensionExamples(stemJs);
    assert |"Python"| != |"Javascript"|;
    forall lang
      ensures Totals([py, js], lang)
           == if lang == "Python" then Counts(10, 0) else if lang == "Javascript" then Counts(0, 4) else ZERO
    {
      TotalsOfTwo(py, js, lang);
    }
  }

  /**
   * Two Python records (+10/-2 and +5/-0) followed by one Javascript
   * record (+0/-3) are reported as Python (15, 2) and Javascript (0, 3),
   * and nothing else.
   */
  lemma MergeScenario(stem1: string, stem2: string, stem3: string)
    ensures var r := Report([FileCommitData(stem1 + ".py", 10, 2),
                             FileCommitData(stem2 + ".py", 5, 0),
                             FileCommitData(stem3 + ".js", 0, 3)]);
            && "Python" in r && r["Python"] == Counts(15, 2)
            && "Javascript" in r && r["Javascript"] == Counts(0, 3)
            && forall lang :: lang in r ==> lang == "Python" || lang == "Javascript"
  {
    var py1, py2, js := FileCommitData(stem1 + ".py", 10, 2), FileCommitData(stem2 + ".py", 5, 0), FileCommitData(stem3 + ".js", 0, 3);
    MappedExtensionExamples(stem1);
    MappedExtensionExamples(stem2);
    MappedExtensionExamples(stem3);
    assert |"Python"| != |"Javascript"|;
    // The two Python records together count as one record of +15/-2.
    var merged := FileCommitData(stem1 + ".py", 15, 2);
    var ordered := [py1, py2] + [js];
    assert ordered == [py1, py2, js];
    var pair := [merged] + [js];
    assert pair == [merged, js];
    forall lang
      ensures Totals(ordered, lang)
           == if lang == "Python" then Counts(15, 2) else if lang == "Javascript" then Counts(0, 3) else ZERO
    {
      TotalsAppend([py1, py2], [js], lang);
      TotalsAppend([merged], [js], lang);
      TotalsOfSameLanguage(py1, py2, lang);
      TotalsOfTwo(merged, js, lang);
    }
  }

  /** The records of `MergeScenario` in any order give the same report. */
  lemma OrderScenario(stem1: string, stem2: string, stem3: string, files: seq<FileCommitData>)
    requires multiset(files) == multiset([FileCommitData(stem1 + ".py", 10, 2),
                                          FileCommitData(stem2 + ".py", 5, 0),
                                          FileCommitData(stem3 + ".js", 0, 3)])
    ensures var r := Report(files);
            && "Python" in r && r["Python"] == Counts(15, 2)
            && "Javascript" in r && r["Javascript"] == Counts(0, 3)
            && forall lang :: lang in r ==> lang == "Python" || lang == "Javascript"
  {
    ReportPermutation(files, [FileCommitData(stem1 + ".py", 10, 2),
                              FileCommitData(stem2 + ".py", 5, 0),
                              FileCommitData(stem3 + ".js", 0, 3)]);
    MergeScenario(stem1, stem2, stem3);
  }

  /** The push of `FeedScenario` contributes exactly the files of alice's commit. */
  lemma PushOfAliceAndBob(session: Session, sha1: string, sha2: string, files: seq<FileCommitData>)
    requires session.commitFiles(CommitUrl("alice/site", sha1)) == Some(files)
    ensures EventFiles(session, "alice",
                       Event("PushEvent", "alice", "alice/site", [CommitRef("alice", sha1), CommitRef("bob", sha2)]))
         == files
  {
    var c1, c2 := CommitRef("alice", sha1), CommitRef("bob", sha2);
    assert !IsCountedCommit(c2, "alice");
    CommitsFilesSnoc(session, "alice", "alice/site", [c1, c2], 0);
    CommitsFilesSnoc(session, "alice", "alice/site", [c1, c2], 1);
    assert [c1, c2][..2] == [c1, c2];
    assert [c1, c2][..0] == [];
  }

  /** The feed of `FeedScenario` counts exactly the files of alice's commit. */
  lemma FeedOfWatchAndPush(session: Session, sha1: string, sha2: string, files: seq<FileCommitData>)
    requires session.commitFiles(CommitUrl("alice/site", sha1)) == Some(files)
    ensures CountedFiles(session, "alice",
                         [Event("WatchEvent", "alice", "alice/site", []),
                          Event("PushEvent", "alice", "alice/site", [CommitRef("alice", sha1), CommitRef("bob", sha2)])])
         == files
  {
    var watch := Event("WatchEvent", "alice", "alice/site", []);
    var push := Event("PushEvent", "alice", "alice/site", [CommitRef("alice", sha1), CommitRef("bob", sha2)]);
    PushOfAliceAndBob(session, sha1, sha2, files);
    assert !IsCountedEvent(watch, "alice");
    CountedFilesSnoc(session, "alice", [], watch);
    CountedFilesSnoc(session, "alice", [watch], push);
    assert [] + [watch] == [watch];
    assert [watch] + [push] == [watch, push];
  }

  /**
   * alice's feed is one page: a watch event, then a push of two commits,
   * the first by alice touching `a.py` (+10/-0) and `b.js` (+0/-4), the
   * second by bob. `get_stats` for alice reports Python (10, 0) and
   * Javascript (0, 4) only. The page's Link header is present but holds no
   * entries (`[]`); a response with no Link header at all, which is what a
   * one-page GitHub feed usually returns, hands `None` to
   * `parse_header_links` at gitlang.py:95, and that case is outside the model.
   */
  lemma FeedScenario(session: Session, sha1: string, sha2: string, stemPy: string, stemJs: string)
    requires var watch := Event("WatchEvent", "alice", "alice/site", []);
             var push := Event("PushEvent", "alice", "alice/site", [CommitRef("alice", sha1), CommitRef("bob", sha2)]);
             session.get(EventsUrl("alice")) == Response(true, Page([watch, push], []))
    requires session.commitFiles(CommitUrl("alice/site", sha1))
          == Some([FileCommitData(stemPy + ".py", 10, 0), FileCommitData(stemJs + ".js", 0, 4)])
    ensures FeedEnds(session, "alice", 0)
    ensures Stats(session, Some("alice"), 0).Success?
    ensures var r := Stats(session, Some("alice"), 0).value;
            && "Python" in r && r["Python"] == Counts(10, 0)
            && "Javascript" in r && r["Javascript"] == Counts(0, 4)
            && forall lang :: lang in r ==> lang == "Python" || lang == "Javascript"
  {
    var watch := Event("WatchEvent", "alice", "alice/site", []);
    var push := Event("PushEvent", "alice", "alice/site", [CommitRef("alice", sha1), CommitRef("bob", sha2)]);
    var files := [FileCommitData(stemPy + ".py", 10, 0), FileCommitData(stemJs + ".js", 0, 4)];
    assert Target(session, Some("alice")) == "alice";
    assert NextUrl([]) == None;
    FeedOfWatchAndPush(session, sha1, sha2, files);
    assert [watch, push] + [] == [watch, push];
    assert Stats(session, Some("alice"), 0) == Success(Report(files));
    PushScenario(stemPy, stemJs);
  }
}
