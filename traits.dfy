/**
 * Label-selector resolution across the five Kubernetes workload kinds
 * (src/traits.rs).
 *
 * `src/traits.rs` has two traits: `SpecSelector`, implemented by the five spec
 * types, and `HasSpec`, implemented by the five workload resources. Here each
 * trait's implementors are gathered into one tagged union (`WorkloadSpec`,
 * `Workload`) and each trait method becomes one function that matches on the
 * kind. Only the fields `src/traits.rs` reads are modelled: `spec`, `selector` and
 * `job_template.spec`.
 */
module Traits {
  import opened Wrappers

  /** A k8s `LabelSelector`. Resolution only moves it around and never looks inside. */
  datatype LabelSelector = LabelSelector(matchLabels: map<string, string>)

  // Spec types. Deployment, StatefulSet and DaemonSet carry a mandatory
  // selector; Job's is optional; CronJob's sits in its job template.
  datatype DeploymentSpec = DeploymentSpec(selector: LabelSelector)
  datatype StatefulSetSpec = StatefulSetSpec(selector: LabelSelector)
  datatype DaemonSetSpec = DaemonSetSpec(selector: LabelSelector)
  datatype JobSpec = JobSpec(selector: Option<LabelSelector>)
  datatype JobTemplateSpec = JobTemplateSpec(spec: Option<JobSpec>)
  datatype CronJobSpec = CronJobSpec(jobTemplate: JobTemplateSpec)

  /** The implementors of `SpecSelector`. */
  datatype WorkloadSpec =
    | OfDeployment(deployment: DeploymentSpec)
    | OfStatefulSet(statefulSet: StatefulSetSpec)
    | OfDaemonSet(daemonSet: DaemonSetSpec)
    | OfJob(job: JobSpec)
    | OfCronJob(cronJob: CronJobSpec)

  /** The implementors of `HasSpec`: each resource holds an optional spec of its own kind. */
  datatype Workload =
    | Deployment(deploymentSpec: Option<DeploymentSpec>)
    | StatefulSet(statefulSetSpec: Option<StatefulSetSpec>)
    | DaemonSet(daemonSetSpec: Option<DaemonSetSpec>)
    | Job(jobSpec: Option<JobSpec>)
    | CronJob(cronJobSpec: Option<CronJobSpec>)
  {
    /** The kinds whose `HasSpec::selector` unwraps the spec. */
    predicate UnwrapsSpec() {
      Deployment? || StatefulSet? || DaemonSet?
    }

    /** The resource's spec is present. */
    predicate HasSpecValue() {
      match this
      case Deployment(s) => s.Some?
      case StatefulSet(s) => s.Some?
      case DaemonSet(s) => s.Some?
      case Job(s) => s.Some?
      case CronJob(s) => s.Some?
    }
  }

  /** Whether a spec belongs to the same kind as a workload. */
  predicate SameKind(w: Workload, s: WorkloadSpec) {
    match w
    case Deployment(_) => s.OfDeployment?
    case StatefulSet(_) => s.OfStatefulSet?
    case DaemonSet(_) => s.OfDaemonSet?
    case Job(_) => s.OfJob?
    case CronJob(_) => s.OfCronJob?
  }

  /**
   * `SpecSelector::selector` for the five spec types. The mandatory kinds
   * always give their own selector; Job gives its optional one; CronJob gives
   * the selector of its job template's spec, which is the Job answer for that
   * spec, and nothing when the template has no spec.
   */
  function SpecSelector(s: WorkloadSpec): (r: Option<LabelSelector>)
    ensures s.OfDeployment? ==> r == Some(s.deployment.selector)
    ensures s.OfStatefulSet? ==> r == Some(s.statefulSet.selector)
    ensures s.OfDaemonSet? ==> r == Some(s.daemonSet.selector)
    ensures s.OfJob? ==> (r.None? <==> s.job.selector.None?)
    ensures s.OfJob? && r.Some? ==> s.job.selector == Some(r.value)
    ensures s.OfCronJob? && s.cronJob.jobTemplate.spec.None? ==> r.None?
    ensures s.OfCronJob? && s.cronJob.jobTemplate.spec.Some? ==>
      r == SpecSelector(OfJob(s.cronJob.jobTemplate.spec.value))
    decreases if s.OfCronJob? then 1 else 0
  {
    match s
    case OfDeployment(d) => Some(d.selector)
    case OfStatefulSet(st) => Some(st.selector)
    case OfDaemonSet(ds) => Some(ds.selector)
    case OfJob(j) => j.selector
    case OfCronJob(c) =>
      match c.jobTemplate.spec
      case None => None
      case Some(jobSpec) => jobSpec.selector
  }

  /**
   * `HasSpec::spec`: the resource's own optional spec, unchanged, tagged with
   * the resource's kind.
   */
  function Spec(w: Workload): (r: Option<WorkloadSpec>)
    ensures r.Some? <==> w.HasSpecValue()
    ensures r.Some? ==> SameKind(w, r.value)
    ensures w.Deployment? && r.Some? ==> w.deploymentSpec == Some(r.value.deployment)
    ensures w.StatefulSet? && r.Some? ==> w.statefulSetSpec == Some(r.value.statefulSet)
    ensures w.DaemonSet? && r.Some? ==> w.daemonSetSpec == Some(r.value.daemonSet)
    ensures w.Job? && r.Some? ==> w.jobSpec == Some(r.value.job)
    ensures w.CronJob? && r.Some? ==> w.cronJobSpec == Some(r.value.cronJob)
  {
    match w
    case Deployment(s) => if s.Some? then Some(OfDeployment(s.value)) else None
    case StatefulSet(s) => if s.Some? then Some(OfStatefulSet(s.value)) else None
    case DaemonSet(s) => if s.Some? then Some(OfDaemonSet(s.value)) else None
    case Job(s) => if s.Some? then Some(OfJob(s.value)) else None
    case CronJob(s) => if s.Some? then Some(OfCronJob(s.value)) else None
  }

  /**
   * `HasSpec::selector`, written as `src/traits.rs` writes each implementation
   * (not through `SpecSelector`). Deployment, StatefulSet and DaemonSet
   * unwrap their spec, which panics when it is absent: that is the
   * precondition. Job and CronJob give nothing when the spec is absent.
   */
  function Selector(w: Workload): (r: Option<LabelSelector>)
    requires w.UnwrapsSpec() ==> w.HasSpecValue()
    ensures w.UnwrapsSpec() ==> r.Some?
    ensures !w.HasSpecValue() ==> r.None?
    ensures w.HasSpecValue() ==> r == SpecSelector(Spec(w).value)
  {
    match w
    case Deployment(s) => Some(s.value.selector)
    case StatefulSet(s) => Some(s.value.selector)
    case DaemonSet(s) => Some(s.value.selector)
    case Job(s) => if s.None? then None else s.value.selector
    case CronJob(s) =>
      if s.None? then None
      else if s.value.jobTemplate.spec.None? then None
      else s.value.jobTemplate.spec.value.selector
  }

  /**
   * Consistency of the two traits: whenever a resource has a spec, resolving
   * the selector on the resource and on its spec agree, and a resource whose
   * selector is found always has a spec. A corollary of `Selector`'s
   * contract, stated on its own as the property the paired tests exercise.
   */
  lemma SelectorAgreesWithSpec(w: Workload)
    requires w.UnwrapsSpec() ==> w.HasSpecValue()
    ensures Selector(w).Some? ==> Spec(w).Some?
    ensures Spec(w).Some? ==> Selector(w) == SpecSelector(Spec(w).value)
  {
  }

  /** A mandatory-selector kind with a spec always resolves to exactly that spec's selector. */
  lemma MandatorySelectorResolves(w: Workload, sel: LabelSelector)
    requires
      || w == Deployment(Some(DeploymentSpec(sel)))
      || w == StatefulSet(Some(StatefulSetSpec(sel)))
      || w == DaemonSet(Some(DaemonSetSpec(sel)))
    ensures Selector(w) == Some(sel)
    ensures SpecSelector(Spec(w).value) == Some(sel)
  {
  }

  /**
   * A Job resource resolves to a selector exactly when it has a spec and
   * that spec has a selector, and then to that selector.
   */
  lemma JobSelectorResolves(spec: Option<JobSpec>)
    ensures Selector(Job(spec)).Some? <==> spec.Some? && spec.value.selector.Some?
    ensures Selector(Job(spec)).Some? ==> spec.value.selector == Selector(Job(spec))
  {
  }

  /**
   * A CronJob resolves through its job template: with a spec whose template
   * holds a Job spec, it gives what the Job resource holding that Job spec
   * gives; otherwise nothing.
   */
  lemma CronJobSelectorIsTemplateJobSelector(spec: Option<CronJobSpec>)
    ensures spec.None? || spec.value.jobTemplate.spec.None? ==> Selector(CronJob(spec)).None?
    ensures spec.Some? && spec.value.jobTemplate.spec.Some? ==>
      Selector(CronJob(spec)) == Selector(Job(spec.value.jobTemplate.spec))
  {
  }
}
