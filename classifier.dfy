/**
 * The risk classifier of the report generator: the additive risk score over
 * fixed pattern tables, the Low/Medium/High tier, the three table-driven
 * capability detectors with their reasons, the deprecation heuristic and the
 * production-workflow tagging pass, applied in place to every record of the
 * inventory.
 *
 * Every table pattern is a literal, so `re.search(p, s, re.IGNORECASE)` is a
 * substring test on lower-cased strings (`MatchesCI`); the one exception,
 * `v[0-9]+.*`, is modelled as the regex it is and shown to be "v or V
 * followed by a digit".
 */
module Classifier {
  import opened Wrappers
  import opened Text
  import opened YamlValue
  import opened Ranking
  import opened References

  // ---- the pattern tables

  const HighRiskPatterns: seq<string> := [
    "docker://", "run:", "setup-", "checkout@", "upload-", "download-", "deploy-",
    "aws-", "gcp-", "azure-", "terraform-", "kubernetes-", "docker", "ssh-"]

  const ProductionIndicators: seq<string> := [
    "prod", "release", "deploy", "publish", "main", "master", "live",
    "kubesealer", "docker-publish", "delivery"]

  /** A capability table: (pattern, reason) pairs in the order of the dictionary literal. */
  type Table = seq<(string, string)>

  const PrivilegedPatterns: Table := [
    ("docker", "container manipulation privileges"),
    ("kube", "kubernetes api access"),
    ("admin", "administrative access"),
    ("root", "root/elevated permissions"),
    ("privileged", "explicitly marked as privileged"),
    ("sudo", "sudo/superuser execution")]

  const FsAccessPatterns: Table := [
    ("checkout", "source code access"),
    ("upload", "file upload capabilities"),
    ("download", "file download capabilities"),
    ("artifact", "artifact manipulation"),
    ("cache", "cache access"),
    ("file", "file operations"),
    ("path", "path manipulation"),
    ("dir", "directory operations"),
    ("directory", "directory operations")]

  const NetworkPatterns: Table := [
    ("http", "http requests"),
    ("curl", "curl commands"),
    ("wget", "wget downloads"),
    ("api", "api access"),
    ("request", "network requests"),
    ("fetch", "data fetching"),
    ("download", "download capability"),
    ("deploy", "deployment (potentially remote)"),
    ("publish", "publishing (potentially remote)")]

  // ---- classified records

  datatype Tier = High | Medium | Low

  /**
   * The keys the classifier adds to a record; `None` is a key that is absent.
   * A `*Reasons` key is written only when its detector found something, so a
   * value already there otherwise stays.
   */
  datatype Derived = Derived(
    riskScore: Option<nat>,
    riskLevel: Option<Tier>,
    privileged: Option<bool>,
    privilegedReasons: Option<seq<string>>,
    fileSystemAccess: Option<bool>,
    fsAccessReasons: Option<seq<string>>,
    networkAccess: Option<bool>,
    networkAccessReasons: Option<seq<string>>,
    deprecated: Option<bool>,
    productionWorkflow: Option<bool>,
    productionIndicators: Option<seq<string>>)

  const Unclassified := Derived(None, None, None, None, None, None, None, None, None, None, None)

  /** One record of the inventory: the extractor's fields and the classifier's. */
  datatype Action = Action(ref: Reference, derived: Derived)

  // ---- the risk score

  /** Some pattern occurs, case-insensitively, in `a` or in `b`. */
  predicate AnyMatch(patterns: seq<string>, a: string, b: string)
  {
    exists k | 0 <= k < |patterns| :: MatchesCI(patterns[k], a) || MatchesCI(patterns[k], b)
  }

  /** The five independent risk signals of one reference. */
  datatype Factors = Factors(unpinned: bool, secrets: bool, highRisk: bool, thirdParty: bool, production: bool)

  function FactorsOf(r: Reference): Factors
  {
    Factors(!r.isPinned, r.hasSecrets, AnyMatch(HighRiskPatterns, r.actionName, r.fullReference),
            r.isThirdParty, AnyMatch(ProductionIndicators, r.workflowFile, r.workflowPath))
  }

  /** 30, 25, 15, 20 and 10 points for the signals present, capped at 100. */
  function Score(f: Factors): nat
  {
    var sum := (if f.unpinned then 30 else 0) + (if f.secrets then 25 else 0)
             + (if f.highRisk then 15 else 0) + (if f.thirdParty then 20 else 0)
             + (if f.production then 10 else 0);
    if sum < 100 then sum else 100
  }

  function RiskScore(r: Reference): nat
  {
    Score(FactorsOf(r))
  }

  /** The score lies in [0, 100], and the cap never changes it: all five signals together give exactly 100. */
  lemma ScoreRange(f: Factors)
    ensures 0 <= Score(f) <= 100
    ensures Score(f) == (if f.unpinned then 30 else 0) + (if f.secrets then 25 else 0)
                      + (if f.highRisk then 15 else 0) + (if f.thirdParty then 20 else 0)
                      + (if f.production then 10 else 0)
    ensures Score(f) == 100 <==> f == Factors(true, true, true, true, true)
  {
  }

  /** Switching signals on never lowers the score. */
  lemma ScoreMonotone(f: Factors, g: Factors)
    requires f.unpinned ==> g.unpinned
    requires f.secrets ==> g.secrets
    requires f.highRisk ==> g.highRisk
    requires f.thirdParty ==> g.thirdParty
    requires f.production ==> g.production
    ensures Score(f) <= Score(g)
  {
  }

  /** The job name plays no part in the score. */
  lemma ScoreIgnoresJobName(r: Reference, jobName: string)
    ensures RiskScore(r.(jobName := jobName)) == RiskScore(r)
  {
  }

  /** The loop over `patterns` with `break` at the first hit: whether any pattern occurs in `a` or `b`. */
  method FirstMatch(patterns: seq<string>, a: string, b: string) returns (hit: bool)
    ensures hit == AnyMatch(patterns, a, b)
  {
    hit := false;
    var k := 0;
    while k < |patterns|
      invariant 0 <= k <= |patterns|
      invariant forall j | 0 <= j < k :: !(MatchesCI(patterns[j], a) || MatchesCI(patterns[j], b))
    {
      if MatchesCI(patterns[k], a) || MatchesCI(patterns[k], b) {
        hit := true;
        break;
      }
      k := k + 1;
    }
  }

  /** `calculate_risk_score`: the points accumulated step by step, then `min(base_score, 100)`. */
  method CalculateRiskScore(r: Reference) returns (score: nat)
    ensures score == RiskScore(r)
  {
    var base := 0;
    if !r.isPinned {
      base := base + 30;
    }
    if r.hasSecrets {
      base := base + 25;
    }
    var risky := FirstMatch(HighRiskPatterns, r.actionName, r.fullReference);
    if risky {
      base := base + 15;
    }
    if r.isThirdParty {
      base := base + 20;
    }
    var production := FirstMatch(ProductionIndicators, r.workflowFile, r.workflowPath);
    if production {
      base := base + 10;
    }
    score := if base < 100 then base else 100;
  }

  // ---- the tier

  function TierOf(score: int): Tier
  {
    if score >= 70 then High else if score >= 40 then Medium else Low
  }

  function TierRank(t: Tier): nat
  {
    match t
    case Low => 0
    case Medium => 1
    case High => 2
  }

  /** The bands are [70, ∞) High, [40, 70) Medium and below 40 Low; a higher score never gets a lower tier. */
  lemma TierBands(score: int, other: int)
    ensures TierOf(score) == High <==> score >= 70
    ensures TierOf(score) == Medium <==> 40 <= score < 70
    ensures TierOf(score) == Low <==> score < 40
    ensures score <= other ==> TierRank(TierOf(score)) <= TierRank(TierOf(other))
  {
  }

  lemma TierBoundaries()
    ensures TierOf(70) == High && TierOf(69) == Medium && TierOf(40) == Medium && TierOf(39) == Low
  {
  }

  // ---- the capability detectors

  /** `f"{reason} ({pattern})"` */
  function Reason(entry: (string, string)): string
  {
    entry.1 + " (" + entry.0 + ")"
  }

  predicate EntryMatches(entry: (string, string), name: string, params: string)
  {
    MatchesCI(entry.0, name) || MatchesCI(entry.0, params)
  }

  /** The reasons of the table entries whose pattern occurs in the name or the rendered `with` parameters, in table order. */
  function Reasons(table: Table, name: string, params: string): (rs: seq<string>)
    ensures |rs| <= |table|
  {
    if |table| == 0 then []
    else Reasons(table[..|table| - 1], name, params)
         + (if EntryMatches(table[|table| - 1], name, params) then [Reason(table[|table| - 1])] else [])
  }

  /** A reason is listed exactly when some matching entry of the table gives it. */
  lemma {:induction false} ReasonsSpec(table: Table, name: string, params: string)
    ensures forall x :: x in Reasons(table, name, params) <==>
      exists k | 0 <= k < |table| :: EntryMatches(table[k], name, params) && x == Reason(table[k])
    ensures |Reasons(table, name, params)| > 0 <==> exists k | 0 <= k < |table| :: EntryMatches(table[k], name, params)
  {
    if |table| > 0 {
      var init := table[..|table| - 1];
      ReasonsSpec(init, name, params);
      assert forall k | 0 <= k < |init| :: init[k] == table[k];
    }
  }

  /**
   * The loop of `determine_privileged`, `determine_file_system_access` and
   * `determine_network_access`: one reason per matching entry, and whether
   * there was any.
   */
  method Detect(table: Table, name: string, params: string) returns (found: bool, reasons: seq<string>)
    ensures reasons == Reasons(table, name, params)
    ensures found <==> |reasons| > 0
  {
    reasons := [];
    var k := 0;
    while k < |table|
      invariant 0 <= k <= |table|
      invariant reasons == Reasons(table[..k], name, params)
    {
      assert table[..k + 1][..k] == table[..k];
      if MatchesCI(table[k].0, name) || MatchesCI(table[k].0, params) {
        reasons := reasons + [Reason(table[k])];
      }
      k := k + 1;
    }
    assert table[..|table|] == table;
    found := |reasons| > 0;
  }

  // ---- deprecation

  /** `v[0-9]+.*` matches at `i`, under IGNORECASE: a `v` or `V`, a run of digits up to `j`, then anything. */
  predicate VersionRunAt(s: string, i: int, j: int)
  {
    0 <= i && i + 1 < j <= |s| && LowerChar(s[i]) == 'v' && forall k | i < k < j :: IsDigit(s[k])
  }

  /** `re.search(r"v[0-9]+.*", s, re.IGNORECASE)` */
  predicate VersionPattern(s: string)
  {
    exists i, j | 0 <= i < j <= |s| :: VersionRunAt(s, i, j)
  }

  /** The version pattern says no more than "a `v` or `V` immediately followed by a digit". */
  lemma VersionPatternSimplifies(s: string)
    ensures VersionPattern(s) <==> exists i | 0 <= i < |s| - 1 :: (s[i] == 'v' || s[i] == 'V') && IsDigit(s[i + 1])
  {
    if VersionPattern(s) {
      var i, j :| 0 <= i < j <= |s| && VersionRunAt(s, i, j);
      assert IsDigit(s[i + 1]);
    }
    if exists i | 0 <= i < |s| - 1 :: (s[i] == 'v' || s[i] == 'V') && IsDigit(s[i + 1]) {
      var i :| 0 <= i < |s| - 1 && (s[i] == 'v' || s[i] == 'V') && IsDigit(s[i + 1]);
      assert VersionRunAt(s, i, i + 2);
    }
  }

  /** `determine_deprecated`: "deprecated", the version pattern or "legacy", case-insensitively. */
  predicate IsDeprecated(name: string)
  {
    MatchesCI("deprecated", name) || VersionPattern(name) || MatchesCI("legacy", name)
  }

  /** An action name is flagged exactly when it contains, case-insensitively, "deprecated", "legacy", or a `v` followed by a digit. */
  lemma DeprecatedSpec(name: string)
    ensures IsDeprecated(name) <==>
      || MatchesCI("deprecated", name) || MatchesCI("legacy", name)
      || exists i | 0 <= i < |name| - 1 :: (name[i] == 'v' || name[i] == 'V') && IsDigit(name[i + 1])
  {
    VersionPatternSimplifies(name);
  }

  /** Almost every versioned name is flagged: `actions/checkout-v2` is "deprecated". */
  lemma VersionedNameIsDeprecated()
    ensures IsDeprecated("actions/checkout-v2")
  {
    assert VersionRunAt("actions/checkout-v2", 17, 19);
  }

  // ---- classifying one record

  /** The classification of one record (the loop body of `classify_actions`). */
  function Classified(a: Action, repr: Value -> string): Action
  {
    var r := a.ref;
    var score := RiskScore(r);
    var params := repr(r.withParams);
    var privileged := Reasons(PrivilegedPatterns, r.actionName, params);
    var fsAccess := Reasons(FsAccessPatterns, r.actionName, params);
    var network := Reasons(NetworkPatterns, r.actionName, params);
    Action(r, a.derived.(
      riskScore := Some(score),
      riskLevel := Some(TierOf(score)),
      privileged := Some(|privileged| > 0),
      privilegedReasons := if |privileged| > 0 then Some(privileged) else a.derived.privilegedReasons,
      fileSystemAccess := Some(|fsAccess| > 0),
      fsAccessReasons := if |fsAccess| > 0 then Some(fsAccess) else a.derived.fsAccessReasons,
      networkAccess := Some(|network| > 0),
      networkAccessReasons := if |network| > 0 then Some(network) else a.derived.networkAccessReasons,
      deprecated := Some(IsDeprecated(r.actionName))))
  }

  /** One record through the loop body of `classify_actions`: score, tier, the three detectors, deprecation. */
  method ClassifyOne(a: Action, repr: Value -> string) returns (b: Action)
    ensures b == Classified(a, repr)
  {
    var r := a.ref;
    var score := CalculateRiskScore(r);
    var params := repr(r.withParams);
    var privileged, privilegedReasons := Detect(PrivilegedPatterns, r.actionName, params);
    var fsAccess, fsAccessReasons := Detect(FsAccessPatterns, r.actionName, params);
    var network, networkReasons := Detect(NetworkPatterns, r.actionName, params);
    var d := a.derived.(riskScore := Some(score), riskLevel := Some(TierOf(score)));
    d := d.(privileged := Some(privileged));
    if privileged {
      d := d.(privilegedReasons := Some(privilegedReasons));
    }
    d := d.(fileSystemAccess := Some(fsAccess));
    if fsAccess {
      d := d.(fsAccessReasons := Some(fsAccessReasons));
    }
    d := d.(networkAccess := Some(network));
    if network {
      d := d.(networkAccessReasons := Some(networkReasons));
    }
    d := d.(deprecated := Some(IsDeprecated(r.actionName)));
    b := Action(r, d);
  }

  // ---- production tagging

  /** An indicator occurs in the workflow file, the workflow path or a non-empty job name. */
  predicate IndicatorMatches(p: string, r: Reference)
  {
    MatchesCI(p, r.workflowFile) || MatchesCI(p, r.workflowPath) || (|r.jobName| > 0 && MatchesCI(p, r.jobName))
  }

  /** The indicators found for a reference, in table order. */
  function MatchedIndicators(r: Reference): seq<string>
  {
    Filter(ProductionIndicators, p => IndicatorMatches(p, r))
  }

  /** The record after `identify_production_workflows`. */
  function ProductionTagged(a: Action): Action
  {
    var m := MatchedIndicators(a.ref);
    a.(derived := a.derived.(productionWorkflow := Some(|m| > 0), productionIndicators := Some(m)))
  }

  lemma ProductionTableDistinct()
    ensures NoDuplicates(ProductionIndicators)
  {
  }

  /**
   * A record is a production one exactly when some indicator was found; the
   * indicators are exactly the table entries found, each once.
   */
  lemma ProductionTagSpec(a: Action)
    ensures ProductionTagged(a).derived.productionWorkflow == Some(ProductionTagged(a).derived.productionIndicators.value != [])
    ensures forall p :: p in ProductionTagged(a).derived.productionIndicators.value <==>
      p in ProductionIndicators && IndicatorMatches(p, a.ref)
    ensures NoDuplicates(ProductionTagged(a).derived.productionIndicators.value)
    ensures ProductionTagged(a).ref == a.ref
  {
    FilterMembers(ProductionIndicators, p => IndicatorMatches(p, a.ref));
    ProductionTableDistinct();
    FilterNoDuplicates(ProductionIndicators, p => IndicatorMatches(p, a.ref));
  }

  /** `any(re.search(pattern, text, re.IGNORECASE) for pattern in PRODUCTION_INDICATORS)` for one or two texts. */
  method AnyIndicator(a: string, b: string) returns (hit: bool)
    ensures hit == AnyMatch(ProductionIndicators, a, b)
  {
    hit := FirstMatch(ProductionIndicators, a, b);
  }

  /** The two `any` searches together find an indicator exactly when the collecting loop keeps one. */
  lemma IndicatorSearches(patterns: seq<string>, r: Reference)
    ensures (AnyMatch(patterns, r.workflowFile, r.workflowPath) || (|r.jobName| > 0 && AnyMatch(patterns, r.jobName, r.jobName)))
      <==> |Filter(patterns, p => IndicatorMatches(p, r))| > 0
  {
    FilterNonEmpty(patterns, p => IndicatorMatches(p, r));
  }

  /** The loop collecting the matched indicators, over any pattern list. */
  method CollectIndicators(patterns: seq<string>, r: Reference) returns (matched: seq<string>)
    ensures matched == Filter(patterns, p => IndicatorMatches(p, r))
  {
    matched := [];
    var k := 0;
    while k < |patterns|
      invariant 0 <= k <= |patterns|
      invariant matched == Filter(patterns[..k], p => IndicatorMatches(p, r))
    {
      assert patterns[..k + 1][..k] == patterns[..k];
      var p := patterns[k];
      if MatchesCI(p, r.workflowFile) || MatchesCI(p, r.workflowPath) || (|r.jobName| > 0 && MatchesCI(p, r.jobName)) {
        matched := matched + [p];
      }
      k := k + 1;
    }
    assert patterns[..|patterns|] == patterns;
  }

  /** The loop body of `identify_production_workflows`. */
  method TagProduction(a: Action) returns (b: Action)
    ensures b == ProductionTagged(a)
  {
    var r := a.ref;
    var isProd := AnyIndicator(r.workflowFile, r.workflowPath);
    if |r.jobName| > 0 {
      var byJob := AnyIndicator(r.jobName, r.jobName);
      isProd := isProd || byJob;
    }
    IndicatorSearches(ProductionIndicators, r);
    if isProd {
      var matched := CollectIndicators(ProductionIndicators, r);
      b := a.(derived := a.derived.(productionWorkflow := Some(true), productionIndicators := Some(matched)));
    } else {
      b := a.(derived := a.derived.(productionWorkflow := Some(false), productionIndicators := Some([])));
    }
  }

  /** `identify_production_workflows`: every record tagged in place. */
  method IdentifyProductionWorkflows(actions: array<Action>)
    modifies actions
    ensures forall i | 0 <= i < actions.Length :: actions[i] == ProductionTagged(old(actions[i]))
  {
    for i := 0 to actions.Length
      invariant forall j | 0 <= j < i :: actions[j] == ProductionTagged(old(actions[j]))
      invariant forall j | i <= j < actions.Length :: actions[j] == old(actions[j])
    {
      actions[i] := TagProduction(actions[i]);
    }
  }

  // ---- classify_actions

  /** What `classify_actions` makes of one record: the per-record loop, then the production pass. */
  function Classify(a: Action, repr: Value -> string): Action
  {
    ProductionTagged(Classified(a, repr))
  }

  /** `classify_actions`: every record classified in place, then tagged. */
  method ClassifyActions(actions: array<Action>, repr: Value -> string)
    modifies actions
    ensures forall i | 0 <= i < actions.Length :: actions[i] == Classify(old(actions[i]), repr)
  {
    for i := 0 to actions.Length
      invariant forall j | 0 <= j < i :: actions[j] == Classified(old(actions[j]), repr)
      invariant forall j | i <= j < actions.Length :: actions[j] == old(actions[j])
    {
      actions[i] := ClassifyOne(actions[i], repr);
    }
    IdentifyProductionWorkflows(actions);
  }

  /**
   * Classification reads only the extractor's fields and writes only its own:
   * the extractor's fields are untouched, and every classified field is what
   * those fields determine.
   */
  lemma ClassifySpec(a: Action, repr: Value -> string)
    ensures Classify(a, repr).ref == a.ref
    ensures Classify(a, repr).derived.riskScore == Some(RiskScore(a.ref))
    ensures Classify(a, repr).derived.riskLevel == Some(TierOf(RiskScore(a.ref)))
    ensures Classify(a, repr).derived.privileged == Some(Reasons(PrivilegedPatterns, a.ref.actionName, repr(a.ref.withParams)) != [])
    ensures Classify(a, repr).derived.fileSystemAccess == Some(Reasons(FsAccessPatterns, a.ref.actionName, repr(a.ref.withParams)) != [])
    ensures Classify(a, repr).derived.networkAccess == Some(Reasons(NetworkPatterns, a.ref.actionName, repr(a.ref.withParams)) != [])
    ensures Classify(a, repr).derived.deprecated == Some(IsDeprecated(a.ref.actionName))
    ensures Classify(a, repr).derived.productionWorkflow == Some(MatchedIndicators(a.ref) != [])
    ensures var rs := Reasons(PrivilegedPatterns, a.ref.actionName, repr(a.ref.withParams));
      Classify(a, repr).derived.privilegedReasons == if rs != [] then Some(rs) else a.derived.privilegedReasons
    ensures var rs := Reasons(FsAccessPatterns, a.ref.actionName, repr(a.ref.withParams));
      Classify(a, repr).derived.fsAccessReasons == if rs != [] then Some(rs) else a.derived.fsAccessReasons
    ensures var rs := Reasons(NetworkPatterns, a.ref.actionName, repr(a.ref.withParams));
      Classify(a, repr).derived.networkAccessReasons == if rs != [] then Some(rs) else a.derived.networkAccessReasons
  {
  }

  /** Running the classifier twice leaves every field as running it once. */
  lemma ClassifyIdempotent(a: Action, repr: Value -> string)
    ensures Classify(Classify(a, repr), repr) == Classify(a, repr)
  {
  }

  // ---- examples

  /**
   * The end-to-end example: an unpinned third-party docker action that needs
   * a secret, in the workflow file `deploy.yml`, scores 30+25+15+20+10 = 100
   * and is High.
   */
  lemma DockerBuildPushScores100(r: Reference)
    requires r.actionName == "docker/build-push-action"
    requires !r.isPinned && r.hasSecrets && r.isThirdParty
    requires r.workflowFile == "deploy.yml"
    ensures RiskScore(r) == 100
    ensures TierOf(RiskScore(r)) == High
  {
    assert Lower(HighRiskPatterns[12]) == "docker";
    assert OccursAt(Lower(HighRiskPatterns[12]), Lower(r.actionName), 0);
    assert Lower(ProductionIndicators[2]) == "deploy";
    assert OccursAt(Lower(ProductionIndicators[2]), Lower(r.workflowFile), 0);
  }

  const DockerConfig: Fields := [
    ("uses", Str("docker/build-push-action@v5")),
    ("with", Mapping([("password", Str(SecretExpression("DOCKER_PW")))]))]

  /**
   * The end-to-end example built from its step: `docker/build-push-action@v5`
   * with the password `${{ secrets.DOCKER_PW }}`, in job `build` of the
   * workflow `deploy.yml`, is unpinned, needs exactly DOCKER_PW, is
   * third-party, scores 100 and is High.
   */
  lemma DockerStepEndToEnd(repository: string, workflowPath: string)
    ensures var r := MakeReference(repository, "deploy.yml", workflowPath, "build", Str("step-1"),
                                   "docker/build-push-action@v5", DockerConfig);
      && r.actionName == "docker/build-push-action" && r.actionVersion == "v5"
      && !r.isPinned && r.requiredSecrets == ["DOCKER_PW"] && r.hasSecrets && r.isThirdParty
      && RiskScore(r) == 100 && TierOf(RiskScore(r)) == High
  {
    var name := "docker/build-push-action";
    DockerReferenceSplits();
    DockerStepSecrets();
    var r := MakeReference(repository, "deploy.yml", workflowPath, "build", Str("step-1"),
                           "docker/build-push-action@v5", DockerConfig);
    assert r.actionName == name && r.actionVersion == "v5";
    assert r.requiredSecrets == ["DOCKER_PW"];
    assert !IsPinned("v5");
    assert !IsFirstParty(name) by {
      assert name[..8][0] == 'd';
      assert name[..7][0] == 'd';
    }
    DockerBuildPushScores100(r);
  }

  /** `docker/build-push-action@v5` splits into its name and the tag `v5`. */
  lemma DockerReferenceSplits()
    ensures SplitReference("docker/build-push-action@v5") == ("docker/build-push-action", "v5")
  {
    var name, version := "docker/build-push-action", "v5";
    assert "docker/build-push-action@v5" == name + ['@'] + version;
    SplitOnce(name, '@', version);
  }

  /** The step's only secret is the one named in its `with` password. */
  lemma DockerStepSecrets()
    ensures RequiredSecrets(DockerConfig) == ["DOCKER_PW"]
  {
    assert IsSecretName("DOCKER_PW");
    SingleSecretStep("docker/build-push-action@v5", "password", "DOCKER_PW");
  }

  /**
   * A job name can make a record a production one without the +10: the
   * score consults only the workflow file and path.
   */
  lemma JobNameTagsWithoutBonus(r: Reference)
    requires r.jobName == "deploy"
    requires !AnyMatch(ProductionIndicators, r.workflowFile, r.workflowPath)
    ensures "deploy" in MatchedIndicators(r)
    ensures !FactorsOf(r).production
  {
    assert Lower(ProductionIndicators[2]) == "deploy";
    assert OccursAt(Lower(ProductionIndicators[2]), Lower(r.jobName), 0);
    assert IndicatorMatches(ProductionIndicators[2], r);
    FilterMembers(ProductionIndicators, p => IndicatorMatches(p, r));
    assert ProductionIndicators[2] == "deploy";
  }
}
