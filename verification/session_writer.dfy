// SessionWriter's job ring in xcom_core/src/runtime/xcom_core.cpp: one producer (the
// Dispatcher), one consumer (the write worker), 256 slots and two 32-bit positions.
module SessionWriter {
  import opened Bytes

  const MAX_JOBS: nat := 256         // kMaxJobs

  datatype Job = Job(block: nat, len: nat, gen: nat, autoSend: bool)

  // What try_enqueue and try_pop test on the two stored positions.
  predicate EnqueueRefuses(write: nat, read: nat) { (write - read) % U32 >= MAX_JOBS }

  predicate PopRefuses(write: nat, read: nat) { read >= write }

  // The enqueue test is exact for positions of any age.
  lemma EnqueueTestIsExact(w: nat, r: nat)
    requires r <= w <= r + MAX_JOBS
    ensures EnqueueRefuses(w % U32, r % U32) <==> w - r == MAX_JOBS
  {
    ModUnique(w % U32 - r % U32, r / U32 - w / U32, w - r);
  }

  // The pop test is not: it refuses a waiting job exactly while the write position has
  // wrapped and the read position has not.
  lemma PopTestIsExactUntilWrap(w: nat, r: nat)
    requires r <= w <= r + MAX_JOBS
    ensures PopRefuses(w % U32, r % U32) <==> w == r || w / U32 != r / U32
  {}

  // The 2^32nd job of a session is stranded.
  lemma WrapStrandsJobs()
    ensures
      var r, w := U32 - 1, U32;
      r < w && PopRefuses(w % U32, r % U32)
  {}

  // n slots from position `from` on.
  function Window(jobs: seq<Job>, from: nat, n: nat): seq<Job>
    requires |jobs| == MAX_JOBS
  {
    seq(n, i requires 0 <= i < n => jobs[(from + i) % MAX_JOBS])
  }

  lemma WindowPush(jobs: seq<Job>, from: nat, n: nat, j: Job)
    requires |jobs| == MAX_JOBS && n < MAX_JOBS
    ensures Window(jobs[(from + n) % MAX_JOBS := j], from, n + 1) == Window(jobs, from, n) + [j]
  {
    var longer := Window(jobs[(from + n) % MAX_JOBS := j], from, n + 1);
    forall i | 0 <= i < n ensures longer[i] == Window(jobs, from, n)[i] {
      SlotsDiffer(from + i, from + n);
    }
  }

  lemma WindowPop(jobs: seq<Job>, from: nat, n: nat)
    requires |jobs| == MAX_JOBS && n > 0
    ensures Window(jobs, from, n) == [jobs[from % MAX_JOBS]] + Window(jobs, from + 1, n - 1)
  {
    var all := Window(jobs, from, n);
    forall i | 1 <= i < n ensures all[i] == Window(jobs, from + 1, n - 1)[i - 1] {
      assert from + i == (from + 1) + (i - 1);
    }
  }

  class Writer {
    var jobs: array<Job>
    var write: nat
    var read: nat
    ghost var enqueued: nat          // since start()
    ghost var popped: nat

    ghost predicate Valid()
      reads this, jobs
    {
      && jobs.Length == MAX_JOBS
      && popped <= enqueued <= popped + MAX_JOBS
      && write == enqueued % U32 && read == popped % U32
    }

    // Accepted and not yet popped, oldest first.
    ghost function Waiting(): (q: seq<Job>)
      requires Valid()
      reads this, jobs
    {
      Window(jobs[..], popped, enqueued - popped)
    }

    constructor ()
      ensures Valid() && Waiting() == [] && fresh(jobs)
    {
      jobs := new Job[MAX_JOBS](_ => Job(0, 0, 0, false));
      write, read := 0, 0;
      enqueued, popped := 0, 0;
    }

    // start(): a new session's positions; the caller has joined and drained the last one.
    method Start()
      requires Valid()
      modifies this
      ensures Valid() && Waiting() == [] && jobs == old(jobs)
    {
      write, read := 0, 0;
      enqueued, popped := 0, 0;
    }

    method TryEnqueue(j: Job) returns (ok: bool)
      requires Valid()
      modifies this`write, this`enqueued, jobs
      ensures Valid()
      ensures ok <==> |old(Waiting())| < MAX_JOBS
      ensures Waiting() == if ok then old(Waiting()) + [j] else old(Waiting())
      ensures enqueued == old(enqueued) + (if ok then 1 else 0)
    {
      EnqueueTestIsExact(enqueued, popped);
      ok := (write - read) % U32 < MAX_JOBS;
      if ok {
        WindowPush(jobs[..], popped, enqueued - popped, j);
        SlotOf(enqueued);
        jobs[write % MAX_JOBS] := j;
        NextPosition(enqueued);
        write := (write + 1) % U32;
        enqueued := enqueued + 1;
      }
    }

    method TryPop() returns (job: Option<Job>)
      requires Valid()
      modifies this`read, this`popped
      ensures Valid()
      ensures job.Some? ==> old(Waiting()) == [job.value] + Waiting()
      ensures job.None? ==> Waiting() == old(Waiting()) && popped == old(popped)
      ensures job.None? <==> old(Waiting()) == [] || old(enqueued) / U32 != old(popped) / U32
      ensures old(enqueued) < U32 ==> (job.None? <==> old(Waiting()) == [])
    {
      PopTestIsExactUntilWrap(enqueued, popped);
      job := None;
      if read < write {
        WindowPop(jobs[..], popped, enqueued - popped);
        SlotOf(popped);
        job := Some(jobs[read % MAX_JOBS]);
        NextPosition(popped);
        read := (read + 1) % U32;
        popped := popped + 1;
      }
    }

    // release_leftover_jobs: every job still queued goes back, in order, each once; all of
    // them, unless the positions of this session have wrapped.
    method ReleaseLeftover() returns (released: seq<Job>)
      requires Valid()
      modifies this`read, this`popped
      ensures Valid() && released + Waiting() == old(Waiting())
      ensures old(enqueued) < U32 ==> Waiting() == [] && released == old(Waiting())
    {
      hide Window;
      released := [];
      ghost var all := Waiting();
      var next := TryPop();
      while next.Some?
        invariant Valid()
        invariant released + (if next.Some? then [next.value] else []) + Waiting() == all
        invariant next.None? && enqueued < U32 ==> Waiting() == []
        decreases |Waiting()|, if next.Some? then 1 else 0
      {
        ghost var front, rest := released + [next.value], Waiting();
        released := released + [next.value];
        next := TryPop();
        assert next.Some? ==> front + ([next.value] + Waiting()) == front + [next.value] + Waiting();
        assert next.None? ==> front + [] + Waiting() == front + rest;
      }
    }
  }

  lemma SlotOf(p: nat)
    ensures (p % U32) % MAX_JOBS == p % MAX_JOBS
  {}

  lemma NextPosition(p: nat)
    ensures (p % U32 + 1) % U32 == (p + 1) % U32
  {
    if p % U32 + 1 < U32 {
      ModUnique(p + 1, p / U32, p % U32 + 1);
    } else {
      ModUnique(p + 1, p / U32 + 1, 0);
    }
  }

  lemma SlotsDiffer(p: nat, q: nat)
    requires p < q < p + MAX_JOBS
    ensures p % MAX_JOBS != q % MAX_JOBS
  {}
}
