/** The payment-processing queue: one job per payment, kept under a job id derived from the payment id. */
module Queue {
  import opened Rows

  /** `Dead` is a job in BullMQ's failed set, which removeOnFail: false keeps there. */
  datatype JobState = Waiting | Delayed | Active(holder: nat) | Dead

  datatype Job = Job(paymentId: nat, state: JobState, attemptsMade: nat, attempts: pos)

  function FreshJob(paymentId: nat, attempts: pos): Job {
    Job(paymentId, Waiting, 0, attempts)
  }

  /** The job under an id, if the queue holds one. */
  function JobOf<K>(jobs: map<K, Job>, id: K): Option<Job> {
    if id in jobs then Some(jobs[id]) else None
  }

  /** queue.add: a job that already exists under the id, in whatever state, makes it a no-op. */
  function AddJob<K(==)>(jobs: map<K, Job>, id: K, job: Job): map<K, Job> {
    if id in jobs then jobs else jobs[id := job]
  }

  /** queue.remove with its error swallowed: an active job is locked and stays. */
  function RemoveJob<K(==)>(jobs: map<K, Job>, id: K): map<K, Job> {
    if id in jobs && !jobs[id].state.Active? then jobs - {id} else jobs
  }

  // ---- Job ids ---------------------------------------------------------------------------------

  function Digit(d: nat): char
    requires d < 10
  {
    '0' + d as char
  }

  function Decimal(n: nat): (s: string)
    ensures |s| > 0 && forall i :: 0 <= i < |s| ==> '0' <= s[i] <= '9'
  {
    if n < 10 then [Digit(n)] else Decimal(n / 10) + [Digit(n % 10)]
  }

  function Parse(s: string): int {
    if |s| == 0 then 0 else 10 * Parse(s[..|s| - 1]) + (s[|s| - 1] as int - '0' as int)
  }

  lemma {:induction false} ParseInvertsDecimal(n: nat)
    ensures Parse(Decimal(n)) == n
  {
    if n >= 10 {
      ParseInvertsDecimal(n / 10);
      assert Decimal(n)[..|Decimal(n)| - 1] == Decimal(n / 10);
    } else {
      assert Decimal(n)[..0] == [];
    }
  }

  const JOB_PREFIX := "payment-"

  function JobIdFor(paymentId: nat): string {
    JOB_PREFIX + Decimal(paymentId)
  }

  /** Deduplication by job id is deduplication by payment. */
  lemma JobIdsAreInjective(a: nat, b: nat)
    ensures JobIdFor(a) == JobIdFor(b) ==> a == b
  {
    ParseInvertsDecimal(a);
    ParseInvertsDecimal(b);
    assert JobIdFor(a)[|JOB_PREFIX|..] == Decimal(a);
    assert JobIdFor(b)[|JOB_PREFIX|..] == Decimal(b);
  }

  /** The queue as Redis holds it, seen per payment. */
  ghost predicate Mirrors(stored: map<string, Job>, jobs: map<nat, Job>) {
    forall id: nat :: JobOf(stored, JobIdFor(id)) == JobOf(jobs, id)
  }

  /** Adding and removing under job ids touches the job of that payment and no other. */
  lemma AddAndRemoveMirror(stored: map<string, Job>, jobs: map<nat, Job>, id: nat, job: Job)
    requires Mirrors(stored, jobs)
    ensures Mirrors(AddJob(stored, JobIdFor(id), job), AddJob(jobs, id, job))
    ensures Mirrors(RemoveJob(stored, JobIdFor(id)), RemoveJob(jobs, id))
  {
    forall other: nat { JobIdsAreInjective(id, other); }
  }

  // ---- The queue object ------------------------------------------------------------------------

  class PaymentQueue {
    var jobs: map<string, Job>
    /** config.MAX_PAYMENT_ATTEMPTS */
    const attempts: pos

    /** Every job is kept under the id of the payment that it is for. */
    ghost predicate Valid()
      reads this
    {
      forall jobId :: jobId in jobs ==> jobId == JobIdFor(jobs[jobId].paymentId)
    }

    constructor (attempts: pos)
      ensures Valid() && jobs == map[] && this.attempts == attempts
    {
      jobs := map[];
      this.attempts := attempts;
    }

    method EnqueuePayment(paymentId: nat)
      requires Valid()
      modifies this
      ensures Valid()
      ensures var jobId := "payment-" + Decimal(paymentId);
              jobs == if jobId in old(jobs) then old(jobs)
                      else old(jobs)[jobId := Job(paymentId, Waiting, 0, attempts)]
      ensures jobs == AddJob(old(jobs), JobIdFor(paymentId), FreshJob(paymentId, attempts))
    {
      var jobId := JobIdFor(paymentId);
      if jobId !in jobs {
        jobs := jobs[jobId := Job(paymentId, Waiting, 0, attempts)];
      }
    }

    method Remove(jobId: string)
      requires Valid()
      modifies this
      ensures Valid()
      ensures jobId in old(jobs) && !old(jobs)[jobId].state.Active? ==> jobs == old(jobs) - {jobId}
      ensures jobId !in old(jobs) || old(jobs)[jobId].state.Active? ==> jobs == old(jobs)
      ensures jobs == RemoveJob(old(jobs), jobId)
    {
      if jobId in jobs {
        match jobs[jobId].state
        case Active(_) =>
        case _ => jobs := jobs - {jobId};
      }
    }
  }
}
