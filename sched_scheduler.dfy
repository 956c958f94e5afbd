/** The "Scheduling: The Ghost Scheduler" scenario
    (pkg/scenario/sched_scheduler.go): the pod "custom-pod" names a scheduler
    that does not exist. */
module SchedScheduler {
  import opened ScenarioTypes

  const SolvedMessage := "Success! Pod is running."
  const WaitingMessage := "Scheduler fixed, waiting for Pod to start..."
  const InvalidPrefix := "Pod still using invalid scheduler: "

  datatype Pod = Pod(schedulerName: string, phase: string)

  /** The seeded pod names "ghost-scheduler" and is therefore never scheduled. */
  const SeededPod := Pod("ghost-scheduler", "Pending")

  /** A scheduler name that leads to the default scheduler. */
  predicate UsesDefaultScheduler(p: Pod)
  {
    p.schedulerName == "default-scheduler" || p.schedulerName == ""
  }

  function Validate(pod: Fetch<Pod>): (r: Result)
    ensures pod.FetchErr? ==> r == Result(false, pod.err)
    ensures pod.Fetched? ==> (r.solved <==> UsesDefaultScheduler(pod.obj) && pod.obj.phase == PodRunning)
    ensures pod.Fetched? && r.solved ==> r.message == SolvedMessage
    ensures pod.Fetched? && UsesDefaultScheduler(pod.obj) && !r.solved ==> r.message == WaitingMessage
    ensures pod.Fetched? && !UsesDefaultScheduler(pod.obj) ==> r.message == InvalidPrefix + pod.obj.schedulerName
  {
    match pod
    case FetchErr(e) => Result(false, e)
    case Fetched(p) =>
      if p.schedulerName == "default-scheduler" || p.schedulerName == "" then
        if p.phase == PodRunning then Result(true, SolvedMessage) else Result(false, WaitingMessage)
      else Result(false, InvalidPrefix + p.schedulerName)
  }

  /** The seeded pod is reported by its scheduler's name. */
  lemma SeedIsUnsolved()
    ensures Validate(Fetched(SeededPod)) == Result(false, "Pod still using invalid scheduler: ghost-scheduler")
  {
  }
}
