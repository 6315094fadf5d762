/** The in-memory job registry: a map from job id to job record, and a bounded queue of
    progress samples that conversions post without waiting and that a drain step
    applies to the registry. Locking and the draining goroutine are left out; the
    registry is used by one caller at a time, the wall clock is a `now` argument and
    the fresh job id is chosen by the caller. */
module JobRegistry {
  import opened Wrappers
  import opened Models

  /** How many progress samples may wait before new ones are dropped. */
  const Capacity := 100

  const JobNotFound := "job not found"

  // ---------------------------------------------------------------------------
  // What each update does to one job

  /** A new job: pending, no progress, not finished. */
  function NewJob(id: string, originalFile: OriginalFileInfo,
                  options: map<string, OptionValue>, now: int): (job: ConversionJob)
    ensures job.id == id && job.status == Pending && job.progress == 0
    ensures job.completedAt == None && job.createdAt == now
    ensures job.resultURL == "" && job.error == ""
    ensures job.originalFile == originalFile && job.options == options
  {
    ConversionJob(id, Pending, 0, "", "", originalFile, options, now, None)
  }

  /** A status change. Nothing stops a finished job from changing status again. */
  function WithStatus(job: ConversionJob, status: JobStatus, now: int): (r: ConversionJob)
    ensures r.status == status
    ensures r.completedAt == if IsTerminal(status) then Some(now) else job.completedAt
    ensures r.progress == if status == Completed then 100 else job.progress
    ensures r.(status := job.status, completedAt := job.completedAt, progress := job.progress)
            == job
  {
    if status == Completed then job.(status := status, completedAt := Some(now), progress := 100)
    else if status == Failed then job.(status := status, completedAt := Some(now))
    else job.(status := status)
  }

  /** A progress sample; a finished job ignores it. No check that progress only grows. */
  function WithProgress(job: ConversionJob, progress: int): (r: ConversionJob)
    ensures IsTerminal(job.status) ==> r == job
    ensures !IsTerminal(job.status) ==> r.progress == progress
    ensures r.(progress := job.progress) == job
  {
    if IsTerminal(job.status) then job else job.(progress := progress)
  }

  /** A failure: the message, status Failed and the completion time together. */
  function WithError(job: ConversionJob, errorMsg: string, now: int): (r: ConversionJob)
    ensures r.error == errorMsg && r.status == Failed && r.completedAt == Some(now)
    ensures r.(error := job.error, status := job.status, completedAt := job.completedAt) == job
  {
    job.(error := errorMsg, status := Failed, completedAt := Some(now))
  }

  /** A progress sample applied to the whole map; a sample for an unknown id is lost. */
  function ApplySample(jobs: map<string, ConversionJob>, u: ProgressUpdate)
    : (r: map<string, ConversionJob>)
    ensures r.Keys == jobs.Keys
    ensures forall id :: id in jobs && id != u.jobID ==> r[id] == jobs[id]
    ensures u.jobID in jobs ==> r[u.jobID] == WithProgress(jobs[u.jobID], u.progress)
  {
    if u.jobID in jobs then jobs[u.jobID := WithProgress(jobs[u.jobID], u.progress)] else jobs
  }

  /** Samples applied in queue order, oldest first. */
  function ApplySamples(jobs: map<string, ConversionJob>, us: seq<ProgressUpdate>)
    : map<string, ConversionJob>
  {
    if |us| == 0 then jobs else ApplySample(ApplySamples(jobs, us[..|us| - 1]), us[|us| - 1])
  }

  /** The job has finished and finished before the cutoff. */
  predicate Expired(job: ConversionJob, cutoff: int) {
    job.completedAt.Some? && job.completedAt.value < cutoff
  }

  /** The jobs a cleanup keeps. */
  function Survivors(jobs: map<string, ConversionJob>, cutoff: int)
    : (r: map<string, ConversionJob>)
    ensures forall id :: id in r <==> id in jobs && !Expired(jobs[id], cutoff)
    ensures forall id :: id in r ==> r[id] == jobs[id]
  {
    map id | id in jobs && !Expired(jobs[id], cutoff) :: jobs[id]
  }

  // ---------------------------------------------------------------------------
  // The registry

  class JobManager {
    /** The jobs by id. */
    var jobs: map<string, ConversionJob>
    /** Progress samples waiting to be applied, oldest first. */
    var pending: seq<ProgressUpdate>

    /** Every job is stored under its own id, and the queue is within its capacity. */
    ghost predicate Valid()
      reads this
    {
      |pending| <= Capacity && forall id :: id in jobs ==> jobs[id].id == id
    }

    /** An empty registry with an empty queue. */
    constructor ()
      ensures Valid() && jobs == map[] && pending == []
    {
      jobs := map[];
      pending := [];
    }

    /** Registers a new pending job under a fresh id. */
    method CreateJob(id: string, originalFile: OriginalFileInfo,
                     options: map<string, OptionValue>, now: int)
      returns (job: ConversionJob)
      requires Valid() && id !in jobs
      modifies this
      ensures Valid()
      ensures job == NewJob(id, originalFile, options, now)
      ensures jobs == old(jobs)[id := job] && pending == old(pending)
    {
      job := ConversionJob(id, Pending, 0, "", "", originalFile, options, now, None);
      jobs := jobs[id := job];
    }

    /** The stored record, or the not-found error. */
    method GetJob(jobID: string) returns (r: Result<ConversionJob>)
      ensures r.Ok? <==> jobID in jobs
      ensures r.Ok? ==> r.value == jobs[jobID]
      ensures r.Err? ==> r.error == JobNotFound
    {
      if jobID in jobs {
        r := Ok(jobs[jobID]);
      } else {
        r := Err(JobNotFound);
      }
    }

    method UpdateJobStatus(jobID: string, status: JobStatus, now: int)
      returns (err: Option<string>)
      requires Valid()
      modifies this
      ensures Valid() && pending == old(pending)
      ensures err == None <==> jobID in old(jobs)
      ensures err != None ==> err == Some(JobNotFound) && jobs == old(jobs)
      ensures err == None ==> jobs == old(jobs)[jobID := WithStatus(old(jobs)[jobID], status, now)]
    {
      if jobID !in jobs {
        return Some(JobNotFound);
      }
      var job := jobs[jobID];
      job := job.(status := status);
      if status == Completed || status == Failed {
        job := job.(completedAt := Some(now));
        if status == Completed {
          job := job.(progress := 100);
        }
      }
      jobs := jobs[jobID := job];
      err := None;
    }

    method UpdateJobProgress(jobID: string, progress: int) returns (err: Option<string>)
      requires Valid()
      modifies this
      ensures Valid() && pending == old(pending)
      ensures err == None <==> jobID in old(jobs)
      ensures err != None ==> err == Some(JobNotFound) && jobs == old(jobs)
      ensures err == None ==> jobs == ApplySample(old(jobs), ProgressUpdate(jobID, progress))
    {
      if jobID !in jobs {
        return Some(JobNotFound);
      }
      var job := jobs[jobID];
      if job.status == Completed || job.status == Failed {
        return None;
      }
      jobs := jobs[jobID := job.(progress := progress)];
      err := None;
    }

    /** Records where the converted file can be downloaded; nothing else changes. */
    method UpdateJobResult(jobID: string, resultURL: string) returns (err: Option<string>)
      requires Valid()
      modifies this
      ensures Valid() && pending == old(pending)
      ensures err == None <==> jobID in old(jobs)
      ensures err != None ==> err == Some(JobNotFound) && jobs == old(jobs)
      ensures err == None ==> jobs == old(jobs)[jobID := old(jobs)[jobID].(resultURL := resultURL)]
    {
      if jobID !in jobs {
        return Some(JobNotFound);
      }
      jobs := jobs[jobID := jobs[jobID].(resultURL := resultURL)];
      err := None;
    }

    method UpdateJobError(jobID: string, errorMsg: string, now: int) returns (err: Option<string>)
      requires Valid()
      modifies this
      ensures Valid() && pending == old(pending)
      ensures err == None <==> jobID in old(jobs)
      ensures err != None ==> err == Some(JobNotFound) && jobs == old(jobs)
      ensures err == None ==> jobs == old(jobs)[jobID := WithError(old(jobs)[jobID], errorMsg, now)]
    {
      if jobID !in jobs {
        return Some(JobNotFound);
      }
      var job := jobs[jobID];
      job := job.(error := errorMsg);
      job := job.(status := Failed);
      job := job.(completedAt := Some(now));
      jobs := jobs[jobID := job];
      err := None;
    }

    /** Posts a sample without waiting: it is queued when there is room and dropped
        otherwise. */
    method SendProgressUpdate(jobID: string, progress: int) returns (queued: bool)
      requires Valid()
      modifies this
      ensures Valid() && jobs == old(jobs)
      ensures queued <==> |old(pending)| < Capacity
      ensures queued ==> pending == old(pending) + [ProgressUpdate(jobID, progress)]
      ensures !queued ==> pending == old(pending)
    {
      if |pending| < Capacity {
        pending := pending + [ProgressUpdate(jobID, progress)];
        queued := true;
      } else {
        queued := false;
      }
    }

    /** One step of the progress handler: the oldest sample is taken off the queue and
        applied as a progress update. */
    method DrainOne() returns (taken: Option<ProgressUpdate>)
      requires Valid()
      modifies this
      ensures Valid()
      ensures taken.None? <==> old(pending) == []
      ensures taken.None? ==> jobs == old(jobs) && pending == old(pending)
      ensures taken.Some? ==> taken.value == old(pending)[0] && pending == old(pending)[1..]
      ensures taken.Some? ==> jobs == ApplySample(old(jobs), taken.value)
    {
      if |pending| == 0 {
        return None;
      }
      var u := pending[0];
      pending := pending[1..];
      var _ := UpdateJobProgress(u.jobID, u.progress);
      taken := Some(u);
    }

    /** The progress handler run until the queue is empty. */
    method DrainAll()
      requires Valid()
      modifies this
      ensures Valid() && pending == []
      ensures jobs == ApplySamples(old(jobs), old(pending))
    {
      ghost var queue := pending;
      ghost var n := 0;
      while |pending| > 0
        invariant Valid()
        invariant 0 <= n <= |queue| && pending == queue[n..]
        invariant jobs == ApplySamples(old(jobs), queue[..n])
        decreases |pending|
      {
        var taken := DrainOne();
        assert queue[..n + 1][..n] == queue[..n];
        n := n + 1;
      }
      assert queue[..n] == queue;
    }

    /** Removes every job that finished before `now - maxAge`; unfinished jobs stay. */
    method CleanupOldJobs(now: int, maxAge: int)
      requires Valid()
      modifies this
      ensures Valid() && pending == old(pending)
      ensures jobs == Survivors(old(jobs), now - maxAge)
    {
      var cutoff := now - maxAge;
      var unvisited := jobs.Keys;
      while unvisited != {}
        invariant Valid() && pending == old(pending)
        invariant unvisited <= old(jobs).Keys
        invariant jobs == map id | id in old(jobs) && (id in unvisited || !Expired(old(jobs)[id], cutoff))
                            :: old(jobs)[id]
        decreases unvisited
      {
        var jobID :| jobID in unvisited;
        if jobs[jobID].completedAt.Some? && jobs[jobID].completedAt.value < cutoff {
          jobs := map id | id in jobs && id != jobID :: jobs[id];
        }
        unvisited := unvisited - {jobID};
      }
    }
  }

  // ---------------------------------------------------------------------------
  // Properties

  /** Completing a job pins its progress at 100: later samples leave it alone. */
  lemma CompletedIgnoresProgress(job: ConversionJob, now: int, progress: int)
    ensures WithProgress(WithStatus(job, Completed, now), progress).progress == 100
  {
  }

  /** A failed job can be set back to Processing; its completion time stays. */
  lemma NoTerminalGuard(job: ConversionJob, now: int, later: int)
    ensures WithStatus(WithError(job, "", now), Processing, later).status == Processing
    ensures WithStatus(WithError(job, "", now), Processing, later).completedAt == Some(now)
  {
  }

  /** Draining keeps the same set of jobs. */
  lemma {:induction false} ApplySamplesKeys(jobs: map<string, ConversionJob>,
                                            us: seq<ProgressUpdate>)
    ensures ApplySamples(jobs, us).Keys == jobs.Keys
  {
    if |us| > 0 {
      ApplySamplesKeys(jobs, us[..|us| - 1]);
    }
  }

  /** Only the progress of a job changes when samples are applied, and a finished job
      does not change at all. */
  lemma {:induction false} ApplySamplesOnlyProgress(jobs: map<string, ConversionJob>,
                                                    us: seq<ProgressUpdate>, id: string)
    requires id in jobs
    ensures id in ApplySamples(jobs, us)
    ensures ApplySamples(jobs, us)[id].(progress := jobs[id].progress) == jobs[id]
    ensures IsTerminal(jobs[id].status) ==> ApplySamples(jobs, us)[id] == jobs[id]
  {
    ApplySamplesKeys(jobs, us);
    if |us| > 0 {
      ApplySamplesOnlyProgress(jobs, us[..|us| - 1], id);
      ApplySamplesKeys(jobs, us[..|us| - 1]);
    }
  }

  /** Samples are applied in order: a job that was still running ends with the
      progress of the newest sample for it, or its old progress if there was none. */
  lemma {:induction false} NewestSampleWins(jobs: map<string, ConversionJob>,
                                            us: seq<ProgressUpdate>, id: string)
    requires id in jobs && !IsTerminal(jobs[id].status)
    ensures id in ApplySamples(jobs, us)
    ensures (forall k :: 0 <= k < |us| ==> us[k].jobID != id) ==>
              ApplySamples(jobs, us)[id].progress == jobs[id].progress
    ensures forall k :: 0 <= k < |us| && us[k].jobID == id
                        && (forall j :: k < j < |us| ==> us[j].jobID != id) ==>
              ApplySamples(jobs, us)[id].progress == us[k].progress
  {
    ApplySamplesOnlyProgress(jobs, us, id);
    if |us| > 0 {
      var init := us[..|us| - 1];
      NewestSampleWins(jobs, init, id);
      ApplySamplesOnlyProgress(jobs, init, id);
      forall k | 0 <= k < |us| && us[k].jobID == id
                 && (forall j :: k < j < |us| ==> us[j].jobID != id)
        ensures ApplySamples(jobs, us)[id].progress == us[k].progress
      {
        if k < |us| - 1 {
          assert init[k] == us[k];
          forall j | k < j < |init|
            ensures init[j].jobID != id
          {
            assert init[j] == us[j];
          }
        }
      }
      if forall k :: 0 <= k < |us| ==> us[k].jobID != id {
        forall k | 0 <= k < |init|
          ensures init[k].jobID != id
        {
          assert init[k] == us[k];
        }
      }
    }
  }

  /** Cleanup keeps every unfinished job and removes exactly the expired ones. */
  lemma CleanupKeepsUnfinished(jobs: map<string, ConversionJob>, cutoff: int, id: string)
    requires id in jobs
    ensures jobs[id].completedAt.None? ==> id in Survivors(jobs, cutoff)
    ensures id !in Survivors(jobs, cutoff) <==> Expired(jobs[id], cutoff)
  {
  }

  /** Cleaning up twice with the same cutoff removes nothing the first run kept. */
  lemma CleanupIdempotent(jobs: map<string, ConversionJob>, cutoff: int)
    ensures Survivors(Survivors(jobs, cutoff), cutoff) == Survivors(jobs, cutoff)
  {
  }
}
