/**
 * Per-file change records and the running (added, deleted) totals that
 * `StatTracker` keeps for one language.
 */
module Tracking {
  import opened Wrappers
  import Languages
  import Seqs

  /**
   * One entry of a commit's `files` list (`FileCommitData.__init__` reads
   * these three keys of the JSON record; the model takes the record as
   * already well-formed).
   */
  datatype FileCommitData = FileCommitData(fileName: string, additions: nat, deletions: nat)

  /** The value of a tracker: lines added and lines deleted. */
  datatype Counts = Counts(added: nat, deleted: nat) {
    function Plus(other: Counts): (sum: Counts) {
      Counts(added + other.added, deleted + other.deleted)
    }
  }

  const ZERO := Counts(0, 0)

  /**
   * The totals left by feeding `files`, in order, to `update` of a fresh
   * tracker: the sum of their additions and of their deletions.
   */
  function Sum(files: seq<FileCommitData>): (total: Counts)
    decreases |files|
  {
    if files == [] then ZERO
    else
      var before := Sum(files[..|files| - 1]);
      var f := files[|files| - 1];
      Counts(before.added + f.additions, before.deleted + f.deletions)
  }

  /** Summing a concatenation is adding the two sums. */
  lemma {:induction false} SumAppend(a: seq<FileCommitData>, b: seq<FileCommitData>)
    ensures Sum(a + b) == Sum(a).Plus(Sum(b))
    decreases |b|
  {
    if b == [] {
      assert a + b == a;
    } else {
      var ab := a + b;
      var b' := b[..|b| - 1];
      assert ab[..|ab| - 1] == a + b';
      assert ab[|ab| - 1] == b[|b| - 1];
      SumAppend(a, b');
    }
  }

  /** Adding counts in either order gives the same totals. */
  lemma PlusSwap(a: Counts, b: Counts, c: Counts)
    ensures a.Plus(b).Plus(c) == a.Plus(c).Plus(b)
  {
  }

  /** Adding nothing changes no total. */
  lemma PlusZero(a: Counts)
    ensures ZERO.Plus(a) == a && a.Plus(ZERO) == a
  {
  }

  /** Taking one record out of a sequence takes its counts out of the sum. */
  lemma {:induction false} SumWithout(lo: seq<FileCommitData>, f: FileCommitData, hi: seq<FileCommitData>)
    ensures Sum(lo + [f] + hi) == Sum(lo + hi).Plus(Sum([f]))
  {
    SumAppend(lo, [f]);
    SumAppend(lo + [f], hi);
    SumAppend(lo, hi);
    PlusSwap(Sum(lo), Sum([f]), Sum(hi));
  }

  /** The totals do not depend on the order in which the records are applied. */
  lemma {:induction false} SumPermutation(a: seq<FileCommitData>, b: seq<FileCommitData>)
    requires multiset(a) == multiset(b)
    ensures Sum(a) == Sum(b)
    decreases |a|
  {
    if a == [] {
      Seqs.PermutationOfEmpty(b);
    } else {
      var i := Seqs.PermutationSplit(a, b);
      var lo, hi := b[..i], b[i + 1..];
      SumPermutation(a[..|a| - 1], lo + hi);
      SumAppend(a[..|a| - 1], [a[|a| - 1]]);
      SumWithout(lo, b[i], hi);
    }
  }

  /** The totals are zero exactly when every record adds and deletes nothing. */
  lemma {:induction false} SumIsZero(files: seq<FileCommitData>)
    ensures Sum(files) == ZERO
        <==> forall i :: 0 <= i < |files| ==> files[i].additions == 0 && files[i].deletions == 0
    decreases |files|
  {
    if files != [] {
      var rest := files[..|files| - 1];
      SumIsZero(rest);
      assert forall i :: 0 <= i < |rest| ==> rest[i] == files[i];
    }
  }

  /** True when the record's file name is classified as `lang`. */
  predicate IsOf(f: FileCommitData, lang: string) {
    Languages.Language(f.fileName) == Some(lang)
  }

  /** The records classified as `lang`, in their original order. */
  function OfLanguage(files: seq<FileCommitData>, lang: string): (kept: seq<FileCommitData>)
    decreases |files|
  {
    if files == [] then []
    else
      var f := files[|files| - 1];
      OfLanguage(files[..|files| - 1], lang) + (if IsOf(f, lang) then [f] else [])
  }

  /** Filtering a concatenation filters each part. */
  lemma {:induction false} OfLanguageAppend(a: seq<FileCommitData>, b: seq<FileCommitData>, lang: string)
    ensures OfLanguage(a + b, lang) == OfLanguage(a, lang) + OfLanguage(b, lang)
    decreases |b|
  {
    if b != [] {
      OfLanguageAppend(a, b[..|b| - 1], lang);
      assert (a + b)[..|a + b| - 1] == a + b[..|b| - 1];
    } else {
      assert a + b == a;
    }
  }

  /**
   * The filter keeps every record classified as `lang`, as often as it
   * occurs, and no other record.
   */
  lemma {:induction false} OfLanguageCount(files: seq<FileCommitData>, lang: string, f: FileCommitData)
    ensures multiset(OfLanguage(files, lang))[f] == if IsOf(f, lang) then multiset(files)[f] else 0
    decreases |files|
  {
    if files != [] {
      var rest := files[..|files| - 1];
      OfLanguageCount(rest, lang, f);
      assert files == rest + [files[|files| - 1]];
    }
  }

  /** Filtering maps permutations to permutations. */
  lemma OfLanguagePermutation(a: seq<FileCommitData>, b: seq<FileCommitData>, lang: string)
    requires multiset(a) == multiset(b)
    ensures multiset(OfLanguage(a, lang)) == multiset(OfLanguage(b, lang))
  {
    forall f: FileCommitData
      ensures multiset(OfLanguage(a, lang))[f] == multiset(OfLanguage(b, lang))[f]
    {
      OfLanguageCount(a, lang, f);
      OfLanguageCount(b, lang, f);
    }
  }

  /** The totals that `lang`'s tracker reaches after all of `files` are processed. */
  function Totals(files: seq<FileCommitData>, lang: string): (totals: Counts) {
    Sum(OfLanguage(files, lang))
  }

  /** Totals over a concatenation add up. */
  lemma TotalsAppend(a: seq<FileCommitData>, b: seq<FileCommitData>, lang: string)
    ensures Totals(a + b, lang) == Totals(a, lang).Plus(Totals(b, lang))
  {
    OfLanguageAppend(a, b, lang);
    SumAppend(OfLanguage(a, lang), OfLanguage(b, lang));
  }

  /** Processing one more record changes only the totals of its own language. */
  lemma TotalsSnoc(files: seq<FileCommitData>, f: FileCommitData, lang: string)
    ensures Totals(files + [f], lang)
         == if IsOf(f, lang) then Totals(files, lang).Plus(Counts(f.additions, f.deletions))
            else Totals(files, lang)
  {
    var kept := OfLanguage(files, lang);
    assert (files + [f])[..|files|] == files;
    if IsOf(f, lang) {
      assert (kept + [f])[..|kept|] == kept;
    } else {
      assert kept + [] == kept;
    }
  }

  /** A single record counts for its own language only. */
  lemma TotalsOfOne(f: FileCommitData, lang: string)
    ensures Totals([f], lang) == if IsOf(f, lang) then Counts(f.additions, f.deletions) else ZERO
  {
    TotalsSnoc([], f, lang);
    assert [] + [f] == [f];
    PlusZero(Counts(f.additions, f.deletions));
  }

  /** Two records of two different languages are each counted for their own language only. */
  lemma TotalsOfTwo(f: FileCommitData, g: FileCommitData, lang: string)
    requires Languages.Language(f.fileName).Some? && Languages.Language(g.fileName).Some?
    requires Languages.Language(f.fileName) != Languages.Language(g.fileName)
    ensures Totals([f, g], lang)
         == if Languages.Language(f.fileName) == Some(lang) then Counts(f.additions, f.deletions)
            else if Languages.Language(g.fileName) == Some(lang) then Counts(g.additions, g.deletions)
            else ZERO
  {
    assert [f] + [g] == [f, g];
    TotalsAppend([f], [g], lang);
    TotalsOfOne(f, lang);
    TotalsOfOne(g, lang);
    if IsOf(f, lang) {
      PlusZero(Counts(f.additions, f.deletions));
    } else if IsOf(g, lang) {
      PlusZero(Counts(g.additions, g.deletions));
    } else {
      PlusZero(ZERO);
    }
  }

  /** Two records of the same language count as one record carrying both their changes. */
  lemma TotalsOfSameLanguage(f: FileCommitData, g: FileCommitData, lang: string)
    requires Languages.Language(f.fileName) == Languages.Language(g.fileName)
    ensures Totals([f, g], lang)
         == Totals([FileCommitData(f.fileName, f.additions + g.additions, f.deletions + g.deletions)], lang)
  {
    var both := FileCommitData(f.fileName, f.additions + g.additions, f.deletions + g.deletions);
    assert [f] + [g] == [f, g];
    TotalsAppend([f], [g], lang);
    TotalsOfOne(f, lang);
    TotalsOfOne(g, lang);
    TotalsOfOne(both, lang);
    if !IsOf(f, lang) {
      PlusZero(ZERO);
    }
  }

  /** A language's totals do not depend on the order of the records. */
  lemma TotalsPermutation(a: seq<FileCommitData>, b: seq<FileCommitData>, lang: string)
    requires multiset(a) == multiset(b)
    ensures Totals(a, lang) == Totals(b, lang)
  {
    OfLanguagePermutation(a, b, lang);
    SumPermutation(OfLanguage(a, lang), OfLanguage(b, lang));
  }

  /**
   * A language's totals are zero exactly when no record classified as it
   * adds or deletes a line.
   */
  lemma TotalsIsZero(files: seq<FileCommitData>, lang: string)
    ensures Totals(files, lang) == ZERO
        <==> forall i :: 0 <= i < |files| && IsOf(files[i], lang) ==>
               files[i].additions == 0 && files[i].deletions == 0
  {
    var kept := OfLanguage(files, lang);
    SumIsZero(kept);
    forall g: FileCommitData
      ensures g in kept <==> g in files && IsOf(g, lang)
    {
      OfLanguageCount(files, lang, g);
    }
    if Totals(files, lang) == ZERO {
      forall i | 0 <= i < |files| && IsOf(files[i], lang)
        ensures files[i].additions == 0 && files[i].deletions == 0
      {
        assert files[i] in kept;
      }
    } else {
      var j :| 0 <= j < |kept| && !(kept[j].additions == 0 && kept[j].deletions == 0);
      assert kept[j] in files;
      var i :| 0 <= i < |files| && files[i] == kept[j];
      assert IsOf(files[i], lang);
    }
  }

  /** The mutable accumulator of one language. */
  class StatTracker {
    var added: nat
    var deleted: nat

    /** The tracker's current totals. */
    function Value(): (counts: Counts)
      reads this
    {
      Counts(added, deleted)
    }

    /** A new tracker starts at zero. */
    constructor ()
      ensures added == 0 && deleted == 0
    {
      added := 0;
      deleted := 0;
    }

    /** Adds the record's additions and deletions; nothing else changes. */
    method Update(f: FileCommitData)
      modifies this
      ensures added == old(added) + f.additions
      ensures deleted == old(deleted) + f.deletions
    {
      added := added + f.additions;
      deleted := deleted + f.deletions;
    }
  }
}
