/**
 * `extract_actions`: the walk over repositories, workflows, jobs and steps,
 * and the corpus counters that `process_action` keeps up to date while
 * appending one reference per invocation site.
 *
 * The walk is first described by pure functions that follow Python's
 * semantics operation by operation (`in`, `[]`, `.items()`, `enumerate`),
 * including where Python raises: an exception inside a workflow is caught
 * once per workflow, so the sites visited before it stay in the inventory
 * and the rest of that workflow is skipped. The class `Inventory` then does
 * the same walk step by step and is proved to match.
 */
module Extractor {
  import opened Wrappers
  import opened Text
  import opened YamlValue
  import opened Ranking
  import opened References

  /** One invocation site: the job, the step label, the `uses` string and the mapping that holds it. */
  datatype Site = Site(jobName: string, stepName: Value, uses: string, config: Fields)

  /** The sites visited, and whether an exception ended the walk of the workflow. */
  datatype Scan = Scan(sites: seq<Site>, aborted: bool)

  const Done := Scan([], false)
  const Abort := Scan([], true)

  /** Walking `b` after `a`; nothing after an exception. */
  function Then(a: Scan, b: Scan): Scan
  {
    if a.aborted then a else Scan(a.sites + b.sites, b.aborted)
  }

  /**
   * `if "uses" in node: node["uses"]` followed by `.split`: no `uses`, the
   * reference string, or an exception (`in` or `[]` on the wrong type, or a
   * `uses` value that is not a string).
   */
  function UsesOf(node: Value): Py<Option<string>>
  {
    match In("uses", node)
    case Raised => Raised
    case Ok(false) => Ok(None)
    case Ok(true) =>
      match Index(node, "uses")
      case Ok(Str(ref)) => Ok(Some(ref))
      case _ => Raised
  }

  /**
   * The lookup finds the reference string exactly on a mapping whose `uses`
   * value is a string, finds nothing exactly when `"uses" in node` is false,
   * and raises on a node `in` cannot search, on a string or list that
   * contains "uses", and on a `uses` value that is not a string.
   */
  lemma UsesOfSpec(node: Value)
    ensures var r := UsesOf(node);
      && (r.Ok? && r.value.Some? <==>
            node.Mapping? && HasKey(node.fields, "uses") && Lookup(node.fields, "uses").value.Str?)
      && (r.Ok? && r.value.Some? ==> Lookup(node.fields, "uses") == Some(Str(r.value.value)))
      && (r == Ok(None) <==> In("uses", node) == Ok(false))
      && (r == Raised <==>
            || !(node.Mapping? || node.Str? || node.List?)
            || (node.Str? && Occurs("uses", node.s))
            || (node.List? && Str("uses") in node.items)
            || (node.Mapping? && HasKey(node.fields, "uses") && !Lookup(node.fields, "uses").value.Str?))
  {
  }

  /** The walk of one `uses` lookup: nothing, one site, or an exception. */
  function UsesScan(uses: Py<Option<string>>, jobName: string, stepName: Value, node: Value): Scan
  {
    match uses
    case Raised => Abort
    case Ok(None) => Done
    case Ok(Some(ref)) => Scan([Site(jobName, stepName, ref, if node.Mapping? then node.fields else [])], false)
  }

  /** A job's own `uses` (a reusable-workflow call): one site labelled "job-level". */
  function JobLevelScan(jobName: string, job: Value): Scan
  {
    UsesScan(UsesOf(job), jobName, Str("job-level"), job)
  }

  /** The positional label of the step at 0-based `index`. */
  function StepLabel(index: nat): string
  {
    "step-" + NatToString(index + 1)
  }

  /** `step.get("name", f"step-{step_idx+1}")`, asked only of a step that is a mapping. */
  function StepName(index: nat, step: Value): Value
  {
    if step.Mapping? then Get(step.fields, "name", Str(StepLabel(index))) else Str(StepLabel(index))
  }

  function StepScan(jobName: string, index: nat, step: Value): Scan
  {
    UsesScan(UsesOf(step), jobName, StepName(index, step), step)
  }

  /** The steps of a job, in order, until one raises. */
  function StepsScan(jobName: string, steps: seq<Value>): Scan
  {
    if |steps| == 0 then Done
    else Then(StepsScan(jobName, steps[..|steps| - 1]), StepScan(jobName, |steps| - 1, steps[|steps| - 1]))
  }

  /** `if "steps" in job_config: enumerate(job_config["steps"])`: no steps, the items iterated, or an exception. */
  function StepsOf(job: Value): Py<Option<seq<Value>>>
  {
    match In("steps", job)
    case Raised => Raised
    case Ok(false) => Ok(None)
    case Ok(true) =>
      match Index(job, "steps")
      case Raised => Raised
      case Ok(steps) =>
        match Iterate(steps)
        case Raised => Raised
        case Ok(items) => Ok(Some(items))
  }

  function StepsPartScan(jobName: string, job: Value): Scan
  {
    match StepsOf(job)
    case Raised => Abort
    case Ok(None) => Done
    case Ok(Some(items)) => StepsScan(jobName, items)
  }

  function JobScan(jobName: string, job: Value): Scan
  {
    Then(JobLevelScan(jobName, job), StepsPartScan(jobName, job))
  }

  /** The jobs of a workflow, in order, until one raises. */
  function JobsScan(jobs: seq<(string, Value)>): Scan
  {
    if |jobs| == 0 then Done
    else Then(JobsScan(jobs[..|jobs| - 1]), JobScan(jobs[|jobs| - 1].0, jobs[|jobs| - 1].1))
  }

  /** A workflow file's content as the YAML loader returns it, or loader failure. */
  datatype Document = Parsed(root: Value) | Unparsable

  /**
   * `yaml.safe_load`, `if not workflow_yaml: continue`,
   * `if "jobs" in workflow_yaml: workflow_yaml["jobs"].items()`: nothing to
   * walk, the (job name, job) pairs, or an exception.
   */
  function JobsOf(doc: Document): Py<Option<seq<(string, Value)>>>
  {
    match doc
    case Unparsable => Raised
    case Parsed(root) =>
      if !Truthy(root) then Ok(None)
      else
        match In("jobs", root)
        case Raised => Raised
        case Ok(false) => Ok(None)
        case Ok(true) =>
          match Index(root, "jobs")
          case Raised => Raised
          case Ok(jobs) =>
            match Items(jobs)
            case Raised => Raised
            case Ok(fields) => Ok(Some(fields))
  }

  function WorkflowScan(doc: Document): Scan
  {
    match JobsOf(doc)
    case Raised => Abort
    case Ok(None) => Done
    case Ok(Some(jobs)) => JobsScan(jobs)
  }

  /** One entry of the `workflows` list of a workflows.json. */
  datatype Workflow = Workflow(name: string, path: string, content: Document)

  /** A repository directory: without a workflows.json, or with the name and workflows it records. */
  datatype RepoDir = NoWorkflowsFile | RepoData(name: string, workflows: seq<Workflow>)

  function SiteReference(repo: string, wf: Workflow, site: Site): Reference
  {
    MakeReference(repo, wf.name, wf.path, site.jobName, site.stepName, site.uses, site.config)
  }

  function SiteReferences(repo: string, wf: Workflow, sites: seq<Site>): (refs: seq<Reference>)
    ensures |refs| == |sites|
  {
    seq(|sites|, k requires 0 <= k < |sites| => SiteReference(repo, wf, sites[k]))
  }

  /** The references of the workflows of one repository. */
  function WorkflowsReferences(repo: string, wfs: seq<Workflow>): seq<Reference>
  {
    if |wfs| == 0 then []
    else WorkflowsReferences(repo, wfs[..|wfs| - 1])
         + SiteReferences(repo, wfs[|wfs| - 1], WorkflowScan(wfs[|wfs| - 1].content).sites)
  }

  function RepoReferences(dir: RepoDir): seq<Reference>
  {
    match dir
    case NoWorkflowsFile => []
    case RepoData(name, wfs) => WorkflowsReferences(name, wfs)
  }

  function CorpusReferences(repos: seq<RepoDir>): seq<Reference>
  {
    if |repos| == 0 then [] else CorpusReferences(repos[..|repos| - 1]) + RepoReferences(repos[|repos| - 1])
  }

  /** A repository that is counted: a workflows.json with a non-empty workflow list. */
  predicate HasWorkflows(dir: RepoDir)
  {
    dir.RepoData? && |dir.workflows| > 0
  }

  /** Every workflow listed by the counted repositories, parsable or not. */
  function CorpusWorkflows(repos: seq<RepoDir>): nat
  {
    if |repos| == 0 then 0
    else CorpusWorkflows(repos[..|repos| - 1])
         + (if repos[|repos| - 1].RepoData? then |repos[|repos| - 1].workflows| else 0)
  }

  function ActionNames(refs: seq<Reference>): (names: seq<string>)
    ensures |names| == |refs|
  {
    if |refs| == 0 then [] else ActionNames(refs[..|refs| - 1]) + [refs[|refs| - 1].actionName]
  }

  /** `set(a["action_name"] for a in refs)` */
  function NameSet(refs: seq<Reference>): set<string>
  {
    if |refs| == 0 then {} else NameSet(refs[..|refs| - 1]) + {refs[|refs| - 1].actionName}
  }

  lemma {:induction false} NameSetSpec(refs: seq<Reference>)
    ensures forall n :: n in NameSet(refs) <==> n in ActionNames(refs)
  {
    if |refs| > 0 {
      NameSetSpec(refs[..|refs| - 1]);
    }
  }

  predicate IsPinnedRef(r: Reference)
  {
    r.isPinned
  }

  /** Concatenation is associative; stated once so that the walk never compares references element by element. */
  lemma AppendAssoc<T>(a: seq<T>, b: seq<T>, c: seq<T>)
    ensures (a + b) + c == a + (b + c)
  {
  }

  // ---- lemmas about the walk

  lemma SiteReferencesAppend(repo: string, wf: Workflow, a: seq<Site>, b: seq<Site>)
    ensures SiteReferences(repo, wf, a + b) == SiteReferences(repo, wf, a) + SiteReferences(repo, wf, b)
  {
  }

  lemma {:induction false} JobsScanStops(jobs: seq<(string, Value)>, n: nat)
    requires n <= |jobs| && JobsScan(jobs[..n]).aborted
    ensures JobsScan(jobs) == JobsScan(jobs[..n])
    decreases |jobs| - n
  {
    if n < |jobs| {
      assert jobs[..n + 1][..n] == jobs[..n];
      JobsScanStops(jobs, n + 1);
    } else {
      assert jobs[..n] == jobs;
    }
  }

  lemma {:induction false} StepsScanStops(jobName: string, steps: seq<Value>, n: nat)
    requires n <= |steps| && StepsScan(jobName, steps[..n]).aborted
    ensures StepsScan(jobName, steps) == StepsScan(jobName, steps[..n])
    decreases |steps| - n
  {
    if n < |steps| {
      assert steps[..n + 1][..n] == steps[..n];
      StepsScanStops(jobName, steps, n + 1);
    } else {
      assert steps[..n] == steps;
    }
  }

  /**
   * Documents that fail to load, that load as something falsy (empty, null),
   * or that are not a mapping with a `jobs` key yield no references.
   */
  lemma DocumentWithoutJobsYieldsNothing(doc: Document)
    requires !(doc.Parsed? && doc.root.Mapping? && HasKey(doc.root.fields, "jobs"))
    ensures WorkflowScan(doc).sites == []
  {
  }

  /**
   * A job in the shape GitHub documents: a mapping whose `uses`, if present,
   * is a string and whose `steps`, if present, is a list of mappings whose
   * `uses`, if present, is a string.
   */
  predicate WellFormedStep(step: Value)
  {
    step.Mapping? && (HasKey(step.fields, "uses") ==> Lookup(step.fields, "uses").value.Str?)
  }

  predicate WellFormedJob(job: Value)
  {
    && job.Mapping?
    && (HasKey(job.fields, "uses") ==> Lookup(job.fields, "uses").value.Str?)
    && (HasKey(job.fields, "steps") ==>
          && Lookup(job.fields, "steps").value.List?
          && forall k | 0 <= k < |Lookup(job.fields, "steps").value.items| ::
               WellFormedStep(Lookup(job.fields, "steps").value.items[k]))
  }

  /** The reference a well-formed step at 0-based position `index` gives: none without `uses`. */
  function ExpectedStepSite(jobName: string, index: nat, step: Value): seq<Site>
    requires WellFormedStep(step)
  {
    if HasKey(step.fields, "uses") then
      [Site(jobName, Get(step.fields, "name", Str(StepLabel(index))), Lookup(step.fields, "uses").value.s, step.fields)]
    else []
  }

  /** One site per step that has `uses`, in list order, counting positions from `from`. */
  function ExpectedStepSites(jobName: string, steps: seq<Value>, from: nat): seq<Site>
    requires forall k | 0 <= k < |steps| :: WellFormedStep(steps[k])
  {
    if |steps| == 0 then []
    else ExpectedStepSite(jobName, from, steps[0]) + ExpectedStepSites(jobName, steps[1..], from + 1)
  }

  /** The sites of a well-formed job: its own `uses` first, then its steps'. */
  function ExpectedJobSites(jobName: string, job: Value): seq<Site>
    requires WellFormedJob(job)
  {
    (if HasKey(job.fields, "uses")
     then [Site(jobName, Str("job-level"), Lookup(job.fields, "uses").value.s, job.fields)] else [])
    + (if HasKey(job.fields, "steps")
       then ExpectedStepSites(jobName, Lookup(job.fields, "steps").value.items, 0) else [])
  }

  lemma {:induction false} ExpectedStepSitesSnoc(jobName: string, steps: seq<Value>, x: Value, from: nat)
    requires forall k | 0 <= k < |steps| :: WellFormedStep(steps[k])
    requires WellFormedStep(x)
    ensures ExpectedStepSites(jobName, steps + [x], from)
         == ExpectedStepSites(jobName, steps, from) + ExpectedStepSite(jobName, from + |steps|, x)
  {
    if |steps| > 0 {
      assert (steps + [x])[1..] == steps[1..] + [x];
      ExpectedStepSitesSnoc(jobName, steps[1..], x, from + 1);
    }
  }

  lemma WellFormedStepScan(jobName: string, index: nat, step: Value)
    requires WellFormedStep(step)
    ensures StepScan(jobName, index, step) == Scan(ExpectedStepSite(jobName, index, step), false)
  {
  }

  lemma {:induction false} WellFormedStepsScan(jobName: string, steps: seq<Value>)
    requires forall k | 0 <= k < |steps| :: WellFormedStep(steps[k])
    ensures StepsScan(jobName, steps) == Scan(ExpectedStepSites(jobName, steps, 0), false)
  {
    if |steps| > 0 {
      var init, last := steps[..|steps| - 1], steps[|steps| - 1];
      WellFormedStepsScan(jobName, init);
      WellFormedStepScan(jobName, |init|, last);
      ExpectedStepSitesSnoc(jobName, init, last, 0);
      assert init + [last] == steps;
    }
  }

  /**
   * On a well-formed job the walk never raises and yields exactly: one
   * "job-level" site for the job's own `uses`, then one site per step that has
   * `uses`, in list order, named by the step's `name` or "step-<index+1>".
   */
  lemma WellFormedJobSites(jobName: string, job: Value)
    requires WellFormedJob(job)
    ensures JobScan(jobName, job) == Scan(ExpectedJobSites(jobName, job), false)
  {
    if HasKey(job.fields, "steps") {
      WellFormedStepsScan(jobName, Lookup(job.fields, "steps").value.items);
    }
  }

  // ---- the reference counters

  /** The per-reference counters of the extractor, gathered into one value. */
  datatype Counters = Counters(total: nat, pinned: nat, unpinned: nat, usage: Tally, unique: set<string>)

  const NoCounters := Counters(0, 0, 0, [], {})

  /** What recording one reference does to the counters. */
  function Record(c: Counters, r: Reference): Counters
  {
    Counters(c.total + 1,
             if r.isPinned then c.pinned + 1 else c.pinned,
             if r.isPinned then c.unpinned else c.unpinned + 1,
             Bump(c.usage, r.actionName),
             c.unique + {r.actionName})
  }

  /** Recording a run of references, in order. */
  function RecordAll(c: Counters, refs: seq<Reference>): Counters
  {
    if |refs| == 0 then c else Record(RecordAll(c, refs[..|refs| - 1]), refs[|refs| - 1])
  }

  /** Recording two runs one after the other is recording their concatenation. */
  lemma {:induction false} RecordAllAppend(c: Counters, a: seq<Reference>, b: seq<Reference>)
    ensures RecordAll(c, a + b) == RecordAll(RecordAll(c, a), b)
  {
    if |b| == 0 {
      assert a + b == a;
    } else {
      RecordAllAppend(c, a, b[..|b| - 1]);
      assert (a + b)[..|a + b| - 1] == a + b[..|b| - 1];
    }
  }

  /**
   * Counters recorded from nothing say, of the references recorded: how many
   * there are, how many are pinned, how many are not, how often each name
   * occurs (in first-occurrence order) and which names occur.
   */
  lemma {:induction false} RecordAllSpec(refs: seq<Reference>)
    ensures RecordAll(NoCounters, refs).total == |refs|
    ensures RecordAll(NoCounters, refs).pinned == Count(refs, IsPinnedRef)
    ensures RecordAll(NoCounters, refs).unpinned == |refs| - Count(refs, IsPinnedRef)
    ensures RecordAll(NoCounters, refs).usage == Tallied(ActionNames(refs))
    ensures RecordAll(NoCounters, refs).unique == NameSet(refs)
  {
    if |refs| > 0 {
      var init := refs[..|refs| - 1];
      RecordAllSpec(init);
      assert ActionNames(refs)[..|refs| - 1] == ActionNames(init);
    }
  }

  /** The corpus counters and the inventory, updated in place while walking. */
  class Inventory {
    var totalRepositories: nat
    var reposWithWorkflows: nat
    var totalWorkflows: nat
    var totalActions: nat
    var uniqueActions: set<string>
    var actionsUsageCount: Tally       // the defaultdict(int), in insertion order
    var unpinnedActions: nat
    var pinnedActions: nat
    var topActions: seq<(string, nat)>
    var actions: seq<Reference>        // actions_data

    /** The per-reference counters as one value. */
    function Counts(): Counters
      reads this
    {
      Counters(totalActions, pinnedActions, unpinnedActions, actionsUsageCount, uniqueActions)
    }

    /** The per-reference counters are what recording the inventory list from nothing gives. */
    ghost predicate Consistent()
      reads this
    {
      Counts() == RecordAll(NoCounters, actions)
    }

    /** Every counter is what the inventory list implies. */
    ghost predicate Valid()
      reads this
    {
      totalRepositories == reposWithWorkflows && Consistent()
    }

    constructor ()
      ensures Valid()
      ensures totalRepositories == 0 && totalWorkflows == 0 && actions == [] && topActions == []
    {
      totalRepositories, reposWithWorkflows, totalWorkflows, totalActions := 0, 0, 0, 0;
      uniqueActions, actionsUsageCount := {}, [];
      unpinnedActions, pinnedActions := 0, 0;
      topActions, actions := [], [];
    }

    /**
     * In a consistent inventory the counters are exactly what the list of
     * references implies: its length, its pinned references, its names'
     * usage counts and its set of names.
     */
    lemma CountersMatchInventory()
      requires Consistent()
      ensures totalActions == |actions|
      ensures pinnedActions == Count(actions, IsPinnedRef)
      ensures unpinnedActions == totalActions - pinnedActions
      ensures TallyNames(actionsUsageCount) == Dedup(ActionNames(actions))
      ensures forall k | 0 <= k < |actionsUsageCount| ::
        actionsUsageCount[k].1 == multiset(ActionNames(actions))[actionsUsageCount[k].0]
      ensures forall n :: n in uniqueActions <==> n in TallyNames(actionsUsageCount)
    {
      RecordAllSpec(actions);
      TalliedSpec(ActionNames(actions));
      DedupSpec(ActionNames(actions));
      NameSetSpec(actions);
    }

    /**
     * The bookkeeping half of `process_action`: total by one, exactly one of
     * pinned/unpinned by one, the name's usage by one, the name into the
     * unique set, and the record appended to the inventory.
     */
    method Append(entry: Reference)
      requires Consistent()
      modifies this`totalActions, this`pinnedActions, this`unpinnedActions
      modifies this`actionsUsageCount, this`uniqueActions, this`actions
      ensures actions == old(actions) + [entry]
      ensures Counts() == Record(old(Counts()), entry)
      ensures Consistent()
    {
      totalActions := totalActions + 1;
      uniqueActions := uniqueActions + {entry.actionName};
      actionsUsageCount := Bump(actionsUsageCount, entry.actionName);
      if entry.isPinned {
        pinnedActions := pinnedActions + 1;
      } else {
        unpinnedActions := unpinnedActions + 1;
      }
      actions := actions + [entry];
      assert actions[..|actions| - 1] == old(actions);
    }

    /** `process_action`: builds the record for one site and records it. */
    method ProcessAction(repoName: string, workflowName: string, workflowPath: string,
                         jobName: string, stepName: Value, actionRef: string, config: Fields)
      requires Consistent()
      modifies this`totalActions, this`pinnedActions, this`unpinnedActions
      modifies this`actionsUsageCount, this`uniqueActions, this`actions
      ensures actions == old(actions) + [MakeReference(repoName, workflowName, workflowPath,
                                                       jobName, stepName, actionRef, config)]
      ensures Counts() == Record(old(Counts()), actions[|actions| - 1])
      ensures Consistent()
    {
      var entry := BuildReference(repoName, workflowName, workflowPath, jobName, stepName, actionRef, config);
      Append(entry);
    }

    /**
     * A `uses` lookup on a job (a reusable-workflow call, labelled
     * "job-level") or on a step (labelled by its name): at most one
     * `process_action`; returns whether Python raised.
     */
    method ProcessUses(repoName: string, wf: Workflow, jobName: string, node: Value, stepName: Value)
      returns (aborted: bool)
      requires Consistent()
      modifies this`totalActions, this`pinnedActions, this`unpinnedActions
      modifies this`actionsUsageCount, this`uniqueActions, this`actions
      ensures aborted == UsesScan(UsesOf(node), jobName, stepName, node).aborted
      ensures actions == old(actions) + SiteReferences(repoName, wf, UsesScan(UsesOf(node), jobName, stepName, node).sites)
      ensures Consistent()
    {
      var uses := UsesOf(node);
      if uses.Raised? {
        return true;
      }
      if uses.value.Some? {
        ProcessAction(repoName, wf.name, wf.path, jobName, stepName, uses.value.value, node.fields);
      }
      return false;
    }

    /** The steps part of a job: nothing without `steps`, an exception, or the walk of its items. */
    method ProcessSteps(repoName: string, wf: Workflow, jobName: string, job: Value) returns (aborted: bool)
      requires Consistent()
      modifies this`totalActions, this`pinnedActions, this`unpinnedActions
      modifies this`actionsUsageCount, this`uniqueActions, this`actions
      ensures aborted == StepsPartScan(jobName, job).aborted
      ensures actions == old(actions) + SiteReferences(repoName, wf, StepsPartScan(jobName, job).sites)
      ensures Consistent()
    {
      var stepsPart := StepsOf(job);
      if stepsPart.Raised? {
        return true;
      }
      if stepsPart.value.None? {
        return false;
      }
      aborted := ProcessStepList(repoName, wf, jobName, stepsPart.value.value);
    }

    /** `for step_idx, step in enumerate(job_config["steps"])`, until a step raises. */
    method ProcessStepList(repoName: string, wf: Workflow, jobName: string, steps: seq<Value>) returns (aborted: bool)
      requires Consistent()
      modifies this`totalActions, this`pinnedActions, this`unpinnedActions
      modifies this`actionsUsageCount, this`uniqueActions, this`actions
      ensures aborted == StepsScan(jobName, steps).aborted
      ensures actions == old(actions) + SiteReferences(repoName, wf, StepsScan(jobName, steps).sites)
      ensures Consistent()
    {
      var k := 0;
      while k < |steps|
        invariant 0 <= k <= |steps|
        invariant !StepsScan(jobName, steps[..k]).aborted
        invariant actions == old(actions) + SiteReferences(repoName, wf, StepsScan(jobName, steps[..k]).sites)
        invariant Consistent()
      {
        ghost var done := StepsScan(jobName, steps[..k]);
        assert steps[..k + 1][..k] == steps[..k];
        var stepAborted := ProcessUses(repoName, wf, jobName, steps[k], StepName(k, steps[k]));
        SiteReferencesAppend(repoName, wf, done.sites, StepScan(jobName, k, steps[k]).sites);
        AppendAssoc(old(actions), SiteReferences(repoName, wf, done.sites),
                    SiteReferences(repoName, wf, StepScan(jobName, k, steps[k]).sites));
        if stepAborted {
          StepsScanStops(jobName, steps, k + 1);
          return true;
        }
        k := k + 1;
      }
      assert steps[..|steps|] == steps;
      return false;
    }

    /** One job: its own `uses`, then its steps; returns whether Python raised. */
    method ProcessJob(repoName: string, wf: Workflow, jobName: string, job: Value) returns (aborted: bool)
      requires Consistent()
      modifies this`totalActions, this`pinnedActions, this`unpinnedActions
      modifies this`actionsUsageCount, this`uniqueActions, this`actions
      ensures aborted == JobScan(jobName, job).aborted
      ensures actions == old(actions) + SiteReferences(repoName, wf, JobScan(jobName, job).sites)
      ensures Consistent()
    {
      aborted := ProcessUses(repoName, wf, jobName, job, Str("job-level"));
      if aborted {
        return;
      }
      ghost var jobLevel := SiteReferences(repoName, wf, JobLevelScan(jobName, job).sites);
      aborted := ProcessSteps(repoName, wf, jobName, job);
      SiteReferencesAppend(repoName, wf, JobLevelScan(jobName, job).sites, StepsPartScan(jobName, job).sites);
      AppendAssoc(old(actions), jobLevel, SiteReferences(repoName, wf, StepsPartScan(jobName, job).sites));
    }

    /** One workflow, inside its own `try`: an exception skips the rest of it. */
    method ProcessWorkflow(repoName: string, wf: Workflow)
      requires Consistent()
      modifies this`totalActions, this`pinnedActions, this`unpinnedActions
      modifies this`actionsUsageCount, this`uniqueActions, this`actions
      ensures actions == old(actions) + SiteReferences(repoName, wf, WorkflowScan(wf.content).sites)
      ensures Consistent()
    {
      var jobsPart := JobsOf(wf.content);
      if jobsPart.Raised? || jobsPart.value.None? {
        return;
      }
      ProcessJobs(repoName, wf, jobsPart.value.value);
    }

    /** `for job_name, job_config in workflow_yaml["jobs"].items()`, until a job raises. */
    method ProcessJobs(repoName: string, wf: Workflow, jobs: seq<(string, Value)>)
      requires Consistent()
      modifies this`totalActions, this`pinnedActions, this`unpinnedActions
      modifies this`actionsUsageCount, this`uniqueActions, this`actions
      ensures actions == old(actions) + SiteReferences(repoName, wf, JobsScan(jobs).sites)
      ensures Consistent()
    {
      var k := 0;
      while k < |jobs|
        invariant 0 <= k <= |jobs|
        invariant !JobsScan(jobs[..k]).aborted
        invariant actions == old(actions) + SiteReferences(repoName, wf, JobsScan(jobs[..k]).sites)
        invariant Consistent()
      {
        ghost var done := JobsScan(jobs[..k]);
        assert jobs[..k + 1][..k] == jobs[..k];
        var aborted := ProcessJob(repoName, wf, jobs[k].0, jobs[k].1);
        SiteReferencesAppend(repoName, wf, done.sites, JobScan(jobs[k].0, jobs[k].1).sites);
        AppendAssoc(old(actions), SiteReferences(repoName, wf, done.sites),
                    SiteReferences(repoName, wf, JobScan(jobs[k].0, jobs[k].1).sites));
        if aborted {
          JobsScanStops(jobs, k + 1);
          return;
        }
        k := k + 1;
      }
      assert jobs[..|jobs|] == jobs;
    }

    /** One repository directory: counted only when it lists at least one workflow. */
    method ProcessRepository(dir: RepoDir)
      requires Consistent()
      modifies this`totalRepositories, this`reposWithWorkflows, this`totalWorkflows
      modifies this`totalActions, this`pinnedActions, this`unpinnedActions
      modifies this`actionsUsageCount, this`uniqueActions, this`actions
      ensures actions == old(actions) + RepoReferences(dir)
      ensures Consistent()
      ensures totalRepositories == old(totalRepositories) + (if HasWorkflows(dir) then 1 else 0)
      ensures reposWithWorkflows == old(reposWithWorkflows) + (if HasWorkflows(dir) then 1 else 0)
      ensures totalWorkflows == old(totalWorkflows) + (if dir.RepoData? then |dir.workflows| else 0)
    {
      if dir.NoWorkflowsFile? {
        return;
      }
      if |dir.workflows| == 0 {
        return;
      }
      totalRepositories := totalRepositories + 1;
      reposWithWorkflows := reposWithWorkflows + 1;
      totalWorkflows := totalWorkflows + |dir.workflows|;
      ProcessWorkflows(dir.name, dir.workflows);
    }

    /** `for workflow in workflows_data.get("workflows", [])`, each workflow in its own `try`. */
    method ProcessWorkflows(repoName: string, workflows: seq<Workflow>)
      requires Consistent()
      modifies this`totalActions, this`pinnedActions, this`unpinnedActions
      modifies this`actionsUsageCount, this`uniqueActions, this`actions
      ensures actions == old(actions) + WorkflowsReferences(repoName, workflows)
      ensures Consistent()
    {
      var j := 0;
      while j < |workflows|
        invariant 0 <= j <= |workflows|
        invariant actions == old(actions) + WorkflowsReferences(repoName, workflows[..j])
        invariant Consistent()
      {
        assert workflows[..j + 1][..j] == workflows[..j];
        ProcessWorkflow(repoName, workflows[j]);
        AppendAssoc(old(actions), WorkflowsReferences(repoName, workflows[..j]),
                    SiteReferences(repoName, workflows[j], WorkflowScan(workflows[j].content).sites));
        j := j + 1;
      }
      assert workflows[..|workflows|] == workflows;
    }

    /** `for i, repo_dir in enumerate(repo_dirs)`: every repository directory in order. */
    method ProcessRepositories(repos: seq<RepoDir>)
      requires Valid() && actions == [] && totalWorkflows == 0
      modifies this`totalRepositories, this`reposWithWorkflows, this`totalWorkflows
      modifies this`totalActions, this`pinnedActions, this`unpinnedActions
      modifies this`actionsUsageCount, this`uniqueActions, this`actions
      ensures Valid()
      ensures actions == CorpusReferences(repos)
      ensures totalWorkflows == CorpusWorkflows(repos)
      ensures reposWithWorkflows == old(reposWithWorkflows) + Count(repos, HasWorkflows)
    {
      var i := 0;
      while i < |repos|
        invariant 0 <= i <= |repos|
        invariant Valid()
        invariant actions == CorpusReferences(repos[..i])
        invariant totalWorkflows == CorpusWorkflows(repos[..i])
        invariant reposWithWorkflows == old(reposWithWorkflows) + Count(repos[..i], HasWorkflows)
      {
        assert repos[..i + 1][..i] == repos[..i];
        ProcessRepository(repos[i]);
        i := i + 1;
      }
      assert repos[..|repos|] == repos;
    }
  }

  /**
   * `extract_actions`: every repository directory in order, then the fifty
   * most used actions.
   */
  method ExtractActions(repos: seq<RepoDir>) returns (inv: Inventory)
    ensures fresh(inv) && inv.Valid()
    ensures inv.actions == CorpusReferences(repos)
    ensures inv.totalWorkflows == CorpusWorkflows(repos)
    ensures inv.reposWithWorkflows == Count(repos, HasWorkflows)
    ensures inv.pinnedActions + inv.unpinnedActions == inv.totalActions == |inv.actions|
    ensures inv.pinnedActions == Count(inv.actions, IsPinnedRef)
    ensures inv.topActions == TopN(inv.actionsUsageCount, UsageKey, 50)
  {
    inv := new Inventory();
    inv.ProcessRepositories(repos);
    inv.topActions := TopN(inv.actionsUsageCount, UsageKey, 50);
    inv.CountersMatchInventory();
  }

  /**
   * `top_actions`: the fifty most used names, or all of them when there are
   * fewer, as (name, count) pairs in non-increasing count order, each count
   * the number of references to that name. No name left out is used more
   * often than one kept, and among names with equal counts those kept are
   * the first seen.
   */
  lemma TopActionsSpec(names: seq<string>, c: real)
    ensures var t := Tallied(names);
      var top := TopN(t, UsageKey, 50);
      && |top| == (if |t| <= 50 then |t| else 50)
      && NonIncreasing(top, UsageKey)
      && (forall k | 0 <= k < |top| :: top[k].1 == multiset(names)[top[k].0] && top[k].0 in names)
      && (forall x, k | x in multiset(t) - multiset(top) && 0 <= k < |top| :: UsageKey(x) <= UsageKey(top[k]))
      && TieClass(top, UsageKey, c) <= TieClass(t, UsageKey, c)
  {
    var t := Tallied(names);
    TalliedSpec(names);
    DedupSpec(names);
    TopNSpec(t, UsageKey, 50);
    var top := TopN(t, UsageKey, 50);
    forall k | 0 <= k < |top| ensures top[k].1 == multiset(names)[top[k].0] && top[k].0 in names {
      var j :| 0 <= j < |t| && t[j] == top[k];
      assert TallyNames(t)[j] == top[k].0;
      assert top[k].0 in Dedup(names);
    }
  }
}
