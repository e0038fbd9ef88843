/** What repeated runs of the bot do to the account. The bot is run once per
    schedule tick; its only memory between runs is the account's newest post,
    which the next run looks up to decide whether the feed has moved on. */
module Runs {
  import opened Wrappers
  import opened Config
  import opened Feed
  import opened Atproto
  import opened Bot

  /** The account after one run per element of `faults`, the feed and the
      environment staying the same. */
  function RunAll(env: map<string, string>, documents: map<string, seq<Entry>>, web: map<string, Bytes>,
                  faults: seq<Faults>, repo: Repo): Repo
    decreases |faults|
  {
    if faults == [] then repo
    else RunAll(env, documents, web, faults[1..], Run(env, documents, web, faults[0], repo).repo)
  }

  /** The account's newest post already carries the summary of the feed's
      newest entry. */
  ghost predicate CaughtUp(env: map<string, string>, documents: map<string, seq<Entry>>, repo: Repo)
  {
    repo.posts != [] &&
    (NewestEntry(env, documents).Some? && NewestEntry(env, documents).value.summary.Some? ==>
       NewestEntry(env, documents).value.summary.value == repo.posts[|repo.posts| - 1].text)
  }

  /** Once caught up, a run whose last-post lookup works posts nothing and
      leaves the account untouched. */
  lemma CaughtUpRunIsIdle(env: map<string, string>, documents: map<string, seq<Entry>>, web: map<string, Bytes>,
                          faults: Faults, repo: Repo)
    requires !faults.list
    requires CaughtUp(env, documents, repo)
    ensures !Run(env, documents, web, faults, repo).outcome.Succeeded?
    ensures Run(env, documents, web, faults, repo).repo == repo
  {
  }

  /** A successful run leaves the account caught up with the feed. */
  lemma SuccessfulRunCatchesUp(env: map<string, string>, documents: map<string, seq<Entry>>, web: map<string, Bytes>,
                               faults: Faults, repo: Repo)
    requires Run(env, documents, web, faults, repo).outcome.Succeeded?
    ensures CaughtUp(env, documents, Run(env, documents, web, faults, repo).repo)
  {
  }

  /** Caught up stays caught up: no later run with a working lookup posts. */
  lemma {:induction false} CaughtUpStaysIdle(env: map<string, string>, documents: map<string, seq<Entry>>,
                                             web: map<string, Bytes>, faults: seq<Faults>, repo: Repo)
    requires forall i :: 0 <= i < |faults| ==> !faults[i].list
    requires CaughtUp(env, documents, repo)
    ensures RunAll(env, documents, web, faults, repo) == repo
    decreases |faults|
  {
    if faults != [] {
      CaughtUpRunIsIdle(env, documents, web, faults[0], repo);
      CaughtUpStaysIdle(env, documents, web, faults[1..], repo);
    }
  }

  /** However often the bot runs on an unchanged feed, it posts the newest
      entry at most once, as long as every last-post lookup works; the posts
      already there stay as they were. */
  lemma {:induction false} RepeatedRunsPostAtMostOnce(env: map<string, string>, documents: map<string, seq<Entry>>,
                                                      web: map<string, Bytes>, faults: seq<Faults>, repo: Repo)
    requires forall i :: 0 <= i < |faults| ==> !faults[i].list
    ensures |RunAll(env, documents, web, faults, repo).posts| <= |repo.posts| + 1
    ensures repo.posts <= RunAll(env, documents, web, faults, repo).posts
    decreases |faults|
  {
    if faults != [] {
      var r := Run(env, documents, web, faults[0], repo);
      if r.outcome.Succeeded? {
        SuccessfulRunCatchesUp(env, documents, web, faults[0], repo);
        CaughtUpStaysIdle(env, documents, web, faults[1..], r.repo);
      } else {
        RepeatedRunsPostAtMostOnce(env, documents, web, faults[1..], r.repo);
      }
    }
  }

  /** The lookup is the only guard against reposting: when it raises, the
      marker is "" and a run right after a successful one posts the same
      entry again (unless its summary is empty). */
  lemma LookupFailureRepostsNewestEntry(env: map<string, string>, documents: map<string, seq<Entry>>,
                                        web: map<string, Bytes>, first: Faults, repo: Repo)
    requires Run(env, documents, web, first, repo).outcome.Succeeded?
    requires NewestEntry(env, documents).Some? && NewestEntry(env, documents).value.summary != Some("")
    ensures var again := Faults(false, true, false, false);
      var r1 := Run(env, documents, web, first, repo);
      var r2 := Run(env, documents, web, again, r1.repo);
      r2.outcome.Succeeded? && |r2.repo.posts| == |repo.posts| + 2 &&
      r2.repo.posts[|repo.posts|].text == r2.repo.posts[|repo.posts| + 1].text
  {
  }

  /** An account without posts makes the lookup return None, which equals no
      summary: a complete newest entry always reaches the posting stage. */
  lemma EmptyHistoryTreatsEntryAsNew(env: map<string, string>, documents: map<string, seq<Entry>>,
                                     web: map<string, Bytes>, faults: Faults, repo: Repo)
    requires repo.posts == [] && !faults.list
    requires Username in env && Password in env && LoginAccepted(repo, faults, env[Username], env[Password])
    requires NewestEntry(env, documents).Some? && Complete(NewestEntry(env, documents).value)
    ensures Run(env, documents, web, faults, repo).outcome in {Succeeded, FailedAt(PostStage)}
  {
  }
}
