/**
 Fetching commits page by page (deploy-board/deploy_board/webapp/common.py:85-121). Pages
 overlap by one commit, and the fetch stops once enough commits are there.
 */
module Commits {
  import opened Wrappers

  const DEFAULT_COMMITS_SIZE := 30

  predicate Distinct(log: seq<string>) { forall i, j :: 0 <= i < j < |log| ==> log[i] != log[j] }

  /** Where a commit is in the log of a repository, newest first. */
  function IndexOf(log: seq<string>, sha: string): (i: nat)
    ensures i <= |log| && (i < |log| ==> log[i] == sha) && forall j :: 0 <= j < i ==> log[j] != sha
  {
    if log == [] || log[0] == sha then 0 else 1 + IndexOf(log[1..], sha)
  }

  /** All commits from `start`, inclusive, to `end`, exclusive. */
  function Range(log: seq<string>, start: string, end: string): seq<string> {
    var i, j := IndexOf(log, start), IndexOf(log, end);
    if i <= j then log[i..j] else []
  }

  /** The backend: the first commits of the range, at most `size`. */
  function Page(log: seq<string>, start: string, end: string, size: nat): seq<string> {
    var range := Range(log, start, end);
    if |range| <= size then range else range[..size]
  }

  /** One page, without its first commit if that was on the page before; whether there may be more, and from where. */
  method GetCommitsBatch(log: seq<string>, start: string, end: string, size: nat, keepFirst: bool)
    returns (commits: seq<string>, truncated: bool, newStart: Option<string>)
    requires size >= 1
    ensures var page := Page(log, start, end, size);
            && commits == (if keepFirst || page == [] then page else page[1..])
            && (truncated <==> |page| == size)
            && newStart == (if |page| == size then Some(page[size - 1]) else None)
  {
    commits := Page(log, start, end, size);
    truncated, newStart := false, None;
    if |commits| >= size {
      newStart := Some(commits[|commits| - 1]);
      truncated := true;
    }
    if !keepFirst && commits != [] {
      commits := commits[1..];
    }
  }

  /** A later commit of a range starts the rest of it. */
  lemma RangeFrom(log: seq<string>, start: string, end: string, k: nat)
    requires Distinct(log) && k < |Range(log, start, end)|
    ensures Range(log, Range(log, start, end)[k], end) == Range(log, start, end)[k..]
  {
    var i := IndexOf(log, start);
    var sha := Range(log, start, end)[k];
    assert log[i + k] == sha;
    var found := IndexOf(log, sha);
    assert found <= i + k && log[found] == sha;
    assert found == i + k;
  }

  /** The next page, but for its first commit, goes on where the commits so far ended. */
  lemma PageGoesOn(log: seq<string>, start: string, end: string, size: nat, total: seq<string>)
    requires Distinct(log) && size >= 2
    requires total <= Range(log, start, end) && total != []
    ensures var all := Range(log, start, end);
            var page := Page(log, total[|total| - 1], end, size);
            && page != [] && |page| <= size && total + page[1..] <= all
            && (if |page| == size then
                  total + page[1..] != total && (total + page[1..])[|total| + size - 2] == page[size - 1]
                else total + page[1..] == all)
  {
    hide Distinct;
    var all := Range(log, start, end);
    RangeFrom(log, start, end, |total| - 1);
    var rest := all[|total| - 1..];
    var page := Page(log, total[|total| - 1], end, size);
    assert total == all[..|total|] && rest[0] == total[|total| - 1];
    assert total + page[1..] == all[..|total| - 1 + |page|];
  }

  lemma FirstPage(log: seq<string>, start: string, end: string, size: nat)
    requires size >= 1
    ensures var all, page := Range(log, start, end), Page(log, start, end, size);
            page <= all && |page| <= size && (|page| < size ==> page == all)
  {
  }

  lemma RangeIsDistinct(log: seq<string>, start: string, end: string)
    requires Distinct(log)
    ensures Distinct(Range(log, start, end))
  {
  }

  /**
   The commits of a range: a prefix of it, without gaps and without repetitions, all of it
   if it is shorter than `max`, and at least `max` commits otherwise, less than a page more.
   */
  method GetCommitsBetween(log: seq<string>, start: string, end: string, max: int) returns (total: seq<string>)
    requires Distinct(log)
    ensures total <= Range(log, start, end) && Distinct(total)
    ensures max <= 0 ==> total == []
    ensures |Range(log, start, end)| < max ==> total == Range(log, start, end)
    ensures 0 < max <= |Range(log, start, end)| ==> max <= |total| < max + DEFAULT_COMMITS_SIZE
  {
    hide Distinct;
    hide Range;
    hide Page;
    ghost var all := Range(log, start, end);
    RangeIsDistinct(log, start, end);
    total := [];
    var keepFirst := true;
    var newStart := start;
    var truncated := true;
    while truncated && |total| < max
      invariant total <= all
      invariant keepFirst ==> total == [] && truncated && newStart == start
      invariant truncated && !keepFirst ==> total != [] && newStart == total[|total| - 1]
      invariant max <= 0 ==> total == []
      invariant 0 < max ==> |total| < max + DEFAULT_COMMITS_SIZE
      invariant !truncated ==> total == all
      decreases |all| - |total|, truncated
    {
      if keepFirst {
        FirstPage(log, start, end, DEFAULT_COMMITS_SIZE);
      } else {
        PageGoesOn(log, start, end, DEFAULT_COMMITS_SIZE, total);
      }
      var commits, start';
      commits, truncated, start' := GetCommitsBatch(log, newStart, end, DEFAULT_COMMITS_SIZE, keepFirst);
      keepFirst := false;
      total := total + commits;
      if truncated {
        newStart := start'.value;
      }
    }
    DistinctPrefix(all, total);
  }

  lemma DistinctPrefix(all: seq<string>, part: seq<string>)
    requires Distinct(all) && part <= all
    ensures Distinct(part)
  {
  }

  /** With pages of one commit the fetch would stand still: such a page starts where the next one starts. */
  lemma PagesOfOneStandStill(log: seq<string>, start: string, end: string)
    requires Range(log, start, end) != []
    ensures var page := Page(log, start, end, 1); |page| == 1 && page[0] == start && page[1..] == []
  {
  }
}
