/**
 * The summary statistics of the report generator over classified records:
 * the counts, the risk histogram, the production sub-counts, the usage
 * ranking, the per-repository mean score and the ten riskiest repositories.
 * The averages are exact reals.
 */
module Statistics {
  import opened Wrappers
  import opened YamlValue
  import opened Ranking
  import opened References
  import opened Classifier

  /**
   * The records have been through the classifier: `risk_score` and
   * `risk_level`, which the statistics read without a default, are present.
   */
  predicate AllClassified(actions: seq<Action>)
  {
    forall k | 0 <= k < |actions| :: actions[k].derived.riskScore.Some? && actions[k].derived.riskLevel.Some?
  }

  // ---- the per-record conditions counted (`a.get(key, False)` for the derived flags)

  predicate Pinned(a: Action) { a.ref.isPinned }
  predicate Unpinned(a: Action) { !a.ref.isPinned }
  predicate WithSecrets(a: Action) { a.ref.hasSecrets }
  predicate Privileged(a: Action) { a.derived.privileged.GetOr(false) }
  predicate FileSystemAccess(a: Action) { a.derived.fileSystemAccess.GetOr(false) }
  predicate NetworkAccess(a: Action) { a.derived.networkAccess.GetOr(false) }
  predicate Deprecated(a: Action) { a.derived.deprecated.GetOr(false) }
  predicate Production(a: Action) { a.derived.productionWorkflow.GetOr(false) }
  predicate HighRisk(a: Action) { a.derived.riskLevel == Some(High) }
  predicate MediumRisk(a: Action) { a.derived.riskLevel == Some(Medium) }
  predicate LowRisk(a: Action) { a.derived.riskLevel == Some(Low) }
  predicate ProductionHighRisk(a: Action) { Production(a) && HighRisk(a) }
  predicate ProductionUnpinned(a: Action) { Production(a) && Unpinned(a) }
  predicate ProductionWithSecrets(a: Action) { Production(a) && WithSecrets(a) }

  function Names(actions: seq<Action>): seq<string>
  {
    seq(|actions|, k requires 0 <= k < |actions| => actions[k].ref.actionName)
  }

  function Repos(actions: seq<Action>): seq<string>
  {
    seq(|actions|, k requires 0 <= k < |actions| => actions[k].ref.repository)
  }

  // ---- grouping the scores by repository (`defaultdict(list)`)

  /** (repository, scores) pairs, one per repository, in the order repositories were first seen. */
  type Groups = seq<(string, seq<nat>)>

  function GroupNames(g: Groups): seq<string>
  {
    seq(|g|, k requires 0 <= k < |g| => g[k].0)
  }

  /** `repo_risk[repo].append(score)` */
  function AddScore(g: Groups, repo: string, score: nat): Groups
  {
    if |g| == 0 then [(repo, [score])]
    else if g[0].0 == repo then [(repo, g[0].1 + [score])] + g[1..]
    else [g[0]] + AddScore(g[1..], repo, score)
  }

  /** Appending a score adds the repository at the end exactly when it is new. */
  lemma {:induction false} AddScoreNames(g: Groups, repo: string, score: nat)
    ensures GroupNames(AddScore(g, repo, score)) == if repo in GroupNames(g) then GroupNames(g) else GroupNames(g) + [repo]
  {
    if |g| > 0 {
      assert GroupNames(g) == [g[0].0] + GroupNames(g[1..]);
      if g[0].0 != repo {
        AddScoreNames(g[1..], repo, score);
        assert GroupNames(AddScore(g, repo, score)) == [g[0].0] + GroupNames(AddScore(g[1..], repo, score));
      } else {
        assert GroupNames(AddScore(g, repo, score)) == GroupNames(g);
      }
    }
  }

  /** Appending a score extends the list of its own repository and no other. */
  lemma {:induction false} AddScoreLists(g: Groups, repo: string, score: nat)
    requires NoDuplicates(GroupNames(g))
    ensures forall k :: 0 <= k < |AddScore(g, repo, score)| ==>
      AddScore(g, repo, score)[k].1 == (if k < |g| then g[k].1 else []) + (if AddScore(g, repo, score)[k].0 == repo then [score] else [])
  {
    if |g| > 0 && g[0].0 != repo {
      var r, rest := AddScore(g, repo, score), AddScore(g[1..], repo, score);
      assert GroupNames(g[1..]) == GroupNames(g)[1..];
      AddScoreLists(g[1..], repo, score);
      forall k | 0 < k < |r|
        ensures r[k].1 == (if k < |g| then g[k].1 else []) + (if r[k].0 == repo then [score] else [])
      {
        assert r[k] == rest[k - 1];
      }
    } else if |g| > 0 {
      forall k | 0 < k < |g| ensures g[k].0 != repo {
        assert GroupNames(g)[k] != GroupNames(g)[0];
      }
    }
  }

  /** The groups after the loop over `actions`. */
  function Grouped(actions: seq<Action>): Groups
    requires AllClassified(actions)
  {
    if |actions| == 0 then []
    else
      var last := actions[|actions| - 1];
      AddScore(Grouped(actions[..|actions| - 1]), last.ref.repository, last.derived.riskScore.value)
  }

  /** The scores of the records of `repo`, in record order: the reference definition of a group. */
  function ScoresFor(actions: seq<Action>, repo: string): seq<nat>
    requires AllClassified(actions)
  {
    if |actions| == 0 then []
    else
      var last := actions[|actions| - 1];
      ScoresFor(actions[..|actions| - 1], repo) + (if last.ref.repository == repo then [last.derived.riskScore.value] else [])
  }

  lemma ReposSnoc(actions: seq<Action>)
    requires |actions| > 0
    ensures Repos(actions) == Repos(actions[..|actions| - 1]) + [actions[|actions| - 1].ref.repository]
  {
  }

  /** A repository has scores exactly when some record belongs to it. */
  lemma {:induction false} ScoresForNonEmpty(actions: seq<Action>, repo: string)
    requires AllClassified(actions)
    ensures |ScoresFor(actions, repo)| > 0 <==> repo in Repos(actions)
  {
    if |actions| > 0 {
      ScoresForNonEmpty(actions[..|actions| - 1], repo);
      ReposSnoc(actions);
    }
  }

  /** Each score of a group is at most `b` when every record's is. */
  lemma {:induction false} ScoresForBound(actions: seq<Action>, repo: string, b: nat)
    requires AllClassified(actions)
    requires forall k | 0 <= k < |actions| :: actions[k].derived.riskScore.value <= b
    ensures forall j | 0 <= j < |ScoresFor(actions, repo)| :: ScoresFor(actions, repo)[j] <= b
  {
    if |actions| > 0 {
      ScoresForBound(actions[..|actions| - 1], repo, b);
    }
  }

  /**
   * The groups list each repository once, in first-seen order, each with
   * the scores of that repository's records in record order.
   */
  lemma {:induction false} GroupedSpec(actions: seq<Action>)
    requires AllClassified(actions)
    ensures GroupNames(Grouped(actions)) == Dedup(Repos(actions))
    ensures forall k :: 0 <= k < |Grouped(actions)| ==> Grouped(actions)[k].1 == ScoresFor(actions, Grouped(actions)[k].0)
  {
    if |actions| > 0 {
      var init, last := actions[..|actions| - 1], actions[|actions| - 1];
      var repo, score := last.ref.repository, last.derived.riskScore.value;
      GroupedSpec(init);
      var g := Grouped(init);
      DedupSpec(Repos(init));
      AddScoreNames(g, repo, score);
      AddScoreLists(g, repo, score);
      ReposSnoc(actions);
      var r := Grouped(actions);
      assert r == AddScore(g, repo, score);
      forall k | 0 <= k < |r|
        ensures r[k].1 == ScoresFor(actions, r[k].0)
      {
        assert r[k].0 == GroupNames(r)[k];
        if k < |g| {
          assert r[k].0 == GroupNames(g)[k] == g[k].0;
        } else {
          assert r[k].0 == repo && repo !in Repos(init);
          ScoresForNonEmpty(init, repo);
        }
      }
    }
  }

  /** No group is empty. */
  lemma GroupsNonEmpty(actions: seq<Action>)
    requires AllClassified(actions)
    ensures forall k :: 0 <= k < |Grouped(actions)| ==> |Grouped(actions)[k].1| > 0
  {
    var r := Grouped(actions);
    GroupedSpec(actions);
    DedupSpec(Repos(actions));
    forall k | 0 <= k < |r|
      ensures |r[k].1| > 0
    {
      assert r[k].0 == GroupNames(r)[k];
      ScoresForNonEmpty(actions, r[k].0);
    }
  }

  /** The loop that builds `repo_risk`. */
  method GroupScores(actions: seq<Action>) returns (groups: Groups)
    requires AllClassified(actions)
    ensures groups == Grouped(actions)
  {
    groups := [];
    for i := 0 to |actions|
      invariant groups == Grouped(actions[..i])
    {
      assert actions[..i + 1][..i] == actions[..i];
      groups := AddScore(groups, actions[i].ref.repository, actions[i].derived.riskScore.value);
    }
    assert actions[..|actions|] == actions;
  }

  // ---- the per-repository mean

  function Sum(s: seq<nat>): nat
  {
    if |s| == 0 then 0 else Sum(s[..|s| - 1]) + s[|s| - 1]
  }

  /** `sum(scores) / len(scores)` in exact arithmetic; every group is non-empty, so the guard is never taken. */
  function Mean(s: seq<nat>): real
  {
    if |s| == 0 then 0.0 else Sum(s) as real / |s| as real
  }

  lemma {:induction false} SumBound(s: seq<nat>, b: nat)
    requires forall k | 0 <= k < |s| :: s[k] <= b
    ensures Sum(s) <= b * |s|
  {
    if |s| > 0 {
      SumBound(s[..|s| - 1], b);
    }
  }

  /** A mean of scores in [0, b] lies in [0, b]. */
  lemma MeanBound(s: seq<nat>, b: nat)
    requires forall k | 0 <= k < |s| :: s[k] <= b
    ensures 0.0 <= Mean(s) <= b as real
  {
    if |s| > 0 {
      SumBound(s, b);
      var x, n := Sum(s) as real, |s| as real;
      assert x <= b as real * n;
      assert x / n * n == x;
    }
  }

  /** `{repo: sum(scores) / len(scores) for repo, scores in repo_risk.items()}` */
  function Averages(g: Groups): seq<(string, real)>
  {
    seq(|g|, k requires 0 <= k < |g| => (g[k].0, Mean(g[k].1)))
  }

  function AverageKey(entry: (string, real)): real
  {
    entry.1
  }

  // ---- the statistics

  datatype Stats = Stats(
    totalActions: nat,
    uniqueActions: nat,
    pinnedActions: nat,
    unpinnedActions: nat,
    actionsWithSecrets: nat,
    privilegedActions: nat,
    fileSystemAccessActions: nat,
    networkAccessActions: nat,
    deprecatedActions: nat,
    high: nat,
    medium: nat,
    low: nat,
    repositories: nat,
    actionUsageCount: Tally,
    productionWorkflowActions: nat,
    productionHighRisk: nat,
    productionUnpinned: nat,
    productionWithSecrets: nat,
    topActions: Tally,
    repositoryRisk: seq<(string, real)>,
    highRiskRepositories: seq<(string, real)>)

  /** What `generate_statistics` returns for the classified records `actions`. */
  function Statistics(actions: seq<Action>): Stats
    requires AllClassified(actions)
  {
    var usage := Tallied(Names(actions));
    var production := Filter(actions, Production);
    var risk := Averages(Grouped(actions));
    Stats(
      |actions|, |set n | n in Names(actions)|,
      Count(actions, Pinned), Count(actions, Unpinned), Count(actions, WithSecrets),
      Count(actions, Privileged), Count(actions, FileSystemAccess), Count(actions, NetworkAccess),
      Count(actions, Deprecated),
      Count(actions, HighRisk), Count(actions, MediumRisk), Count(actions, LowRisk),
      |set r | r in Repos(actions)|, usage,
      |production|, Count(production, HighRisk), Count(production, Unpinned), Count(production, WithSecrets),
      TopN(usage, UsageKey, 20), risk, TopN(risk, AverageKey, 10))
  }

  /** `generate_statistics`: the comprehensions, then the grouping loop, the means and the two rankings. */
  method GenerateStatistics(actions: seq<Action>) returns (stats: Stats)
    requires AllClassified(actions)
    ensures stats == Statistics(actions)
  {
    var usage := Tallied(Names(actions));
    var production := Filter(actions, Production);
    stats := Stats(
      |actions|, |set n | n in Names(actions)|,
      Count(actions, Pinned), Count(actions, Unpinned), Count(actions, WithSecrets),
      Count(actions, Privileged), Count(actions, FileSystemAccess), Count(actions, NetworkAccess),
      Count(actions, Deprecated),
      Count(actions, HighRisk), Count(actions, MediumRisk), Count(actions, LowRisk),
      |set r | r in Repos(actions)|, usage,
      |production|, Count(production, HighRisk), Count(production, Unpinned), Count(production, WithSecrets),
      [], [], []);
    stats := stats.(topActions := TopN(usage, UsageKey, 20));
    var groups := GroupScores(actions);
    var risk := Averages(groups);
    stats := stats.(repositoryRisk := risk, highRiskRepositories := TopN(risk, AverageKey, 10));
  }

  // ---- what the statistics mean

  /**
   * Every record is pinned or not, and every classified record has exactly
   * one tier; the production sub-counts count records that are both
   * production ones and of the sub-count's kind, so none exceeds the
   * production count.
   */
  lemma CountStatistics(actions: seq<Action>)
    requires AllClassified(actions)
    ensures var st := Statistics(actions);
      && st.pinnedActions + st.unpinnedActions == st.totalActions
      && st.high + st.medium + st.low == st.totalActions
      && st.productionHighRisk <= st.productionWorkflowActions
      && st.productionUnpinned <= st.productionWorkflowActions
      && st.productionWithSecrets <= st.productionWorkflowActions
      && st.productionHighRisk == Count(actions, ProductionHighRisk)
      && st.productionUnpinned == Count(actions, ProductionUnpinned)
      && st.productionWithSecrets == Count(actions, ProductionWithSecrets)
  {
    CountComplement(actions, Pinned, Unpinned);
    forall k | 0 <= k < |actions| ensures HighRisk(actions[k]) || MediumRisk(actions[k]) || LowRisk(actions[k]) {
      var t := actions[k].derived.riskLevel.value;
      assert t == High || t == Medium || t == Low;
    }
    CountPartition3(actions, HighRisk, MediumRisk, LowRisk);
    CountWithin(actions, Production, HighRisk, ProductionHighRisk);
    CountWithin(actions, Production, Unpinned, ProductionUnpinned);
    CountWithin(actions, Production, WithSecrets, ProductionWithSecrets);
  }

  /** The number of distinct elements of `s` is the length of its de-duplication. */
  lemma DistinctCount(s: seq<string>)
    ensures |set x | x in s| == |Dedup(s)|
  {
    DedupSpec(s);
    DistinctCard(Dedup(s));
    assert (set x | x in s) == (set x | x in Dedup(s));
  }

  /**
   * `unique_actions` is the number of names in the usage tally and
   * `repositories` the number of per-repository averages; each tally entry
   * counts the records of its name.
   */
  lemma DistinctStatistics(actions: seq<Action>)
    requires AllClassified(actions)
    ensures var st := Statistics(actions);
      && st.uniqueActions == |st.actionUsageCount| <= st.totalActions
      && st.repositories == |st.repositoryRisk|
      && forall k | 0 <= k < |st.actionUsageCount| ::
           st.actionUsageCount[k].1 == multiset(Names(actions))[st.actionUsageCount[k].0] > 0
  {
    var names := Names(actions);
    TalliedSpec(names);
    DedupSpec(names);
    DistinctCount(names);
    DistinctCount(Repos(actions));
    GroupedSpec(actions);
    var t := Tallied(names);
    assert |TallyNames(t)| == |t|;
    assert |GroupNames(Grouped(actions))| == |Grouped(actions)|;
    forall k | 0 <= k < |t| ensures t[k].1 > 0 {
      assert TallyNames(t)[k] == t[k].0;
      assert t[k].0 in names;
    }
  }

  /**
   * `repository_risk` lists every repository once, in first-seen order, with
   * the mean of its records' scores; with scores of at most 100 (as the
   * classifier gives) every mean lies in [0, 100].
   */
  lemma RepositoryRiskSpec(actions: seq<Action>)
    requires AllClassified(actions)
    ensures var risk := Statistics(actions).repositoryRisk;
      && |risk| == |Dedup(Repos(actions))|
      && forall k | 0 <= k < |risk| ::
           && risk[k].0 == Dedup(Repos(actions))[k]
           && |ScoresFor(actions, risk[k].0)| > 0
           && risk[k].1 == Sum(ScoresFor(actions, risk[k].0)) as real / |ScoresFor(actions, risk[k].0)| as real
    ensures (forall k | 0 <= k < |actions| :: actions[k].derived.riskScore.value <= 100) ==>
      forall k | 0 <= k < |Statistics(actions).repositoryRisk| :: 0.0 <= Statistics(actions).repositoryRisk[k].1 <= 100.0
  {
    var g := Grouped(actions);
    GroupedSpec(actions);
    GroupsNonEmpty(actions);
    assert forall k | 0 <= k < |g| :: GroupNames(g)[k] == g[k].0;
    if forall k | 0 <= k < |actions| :: actions[k].derived.riskScore.value <= 100 {
      forall k | 0 <= k < |g| ensures 0.0 <= Mean(g[k].1) <= 100.0 {
        ScoresForBound(actions, g[k].0, 100);
        MeanBound(g[k].1, 100);
      }
    }
  }

  /**
   * `top_actions` holds the twenty most used entries of the tally and
   * `high_risk_repositories` the ten repositories with the highest mean
   * score (all of them when there are fewer), each in non-increasing order.
   * No entry left out ranks above one kept, and among entries with equal
   * keys those kept are the first in input order.
   */
  lemma RankingStatistics(actions: seq<Action>, c: real)
    requires AllClassified(actions)
    ensures var st := Statistics(actions);
      var usage, top := st.actionUsageCount, st.topActions;
      && |top| == (if |usage| <= 20 then |usage| else 20) && NonIncreasing(top, UsageKey)
      && multiset(top) <= multiset(usage)
      && (forall x, k | x in multiset(usage) - multiset(top) && 0 <= k < |top| :: UsageKey(x) <= UsageKey(top[k]))
      && TieClass(top, UsageKey, c) <= TieClass(usage, UsageKey, c)
    ensures var st := Statistics(actions);
      var risk, high := st.repositoryRisk, st.highRiskRepositories;
      && |high| == (if |risk| <= 10 then |risk| else 10) && NonIncreasing(high, AverageKey)
      && multiset(high) <= multiset(risk)
      && (forall x, k | x in multiset(risk) - multiset(high) && 0 <= k < |high| :: AverageKey(x) <= AverageKey(high[k]))
      && TieClass(high, AverageKey, c) <= TieClass(risk, AverageKey, c)
  {
    var st := Statistics(actions);
    RankedBy(st.actionUsageCount, st.topActions, UsageKey, 20, c);
    RankedBy(st.repositoryRisk, st.highRiskRepositories, AverageKey, 10, c);
  }

  /** TopNSpec, for a ranking already known to be `TopN(s, key, n)`. */
  lemma RankedBy<T>(s: seq<T>, r: seq<T>, key: T -> real, n: nat, c: real)
    requires r == TopN(s, key, n)
    ensures && |r| == (if |s| <= n then |s| else n) && NonIncreasing(r, key)
      && multiset(r) <= multiset(s)
      && (forall x, k | x in multiset(s) - multiset(r) && 0 <= k < |r| :: key(x) <= key(r[k]))
      && TieClass(r, key, c) <= TieClass(s, key, c)
  {
    TopNSpec(s, key, n);
  }

  // ---- the pipeline: classification, then statistics

  /** Every record the classifier produces carries a score of at most 100 and a tier. */
  lemma ClassifiedRecords(actions: seq<Action>, repr: Value -> string)
    ensures var c := seq(|actions|, k requires 0 <= k < |actions| => Classify(actions[k], repr));
      && AllClassified(c)
      && forall k | 0 <= k < |c| :: c[k].derived.riskScore.value <= 100
  {
    forall k | 0 <= k < |actions| ensures RiskScore(actions[k].ref) <= 100 {
      ScoreRange(FactorsOf(actions[k].ref));
    }
  }

  /** `main` without the files: classify the inventory in place, then summarise it. */
  method ClassifyAndSummarize(actions: array<Action>, repr: Value -> string) returns (stats: Stats)
    modifies actions
    ensures forall i | 0 <= i < actions.Length :: actions[i] == Classify(old(actions[i]), repr)
    ensures AllClassified(actions[..]) && stats == Statistics(actions[..])
  {
    ghost var before := actions[..];
    ClassifyActions(actions, repr);
    ClassifiedRecords(before, repr);
    assert actions[..] == seq(|before|, k requires 0 <= k < |before| => Classify(before[k], repr));
    stats := GenerateStatistics(actions[..]);
  }
}
