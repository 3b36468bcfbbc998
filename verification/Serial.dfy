/** What a queue promises: its commands run one after the other, in the order in which they came. */
module Serial {
  import opened Wrappers
  import opened Manager
  import opened Tokens
  import opened Fifo

  // ---------------------------------------------------------------------------------------------
  // A command of a queue starts only when every earlier one is over
  // ---------------------------------------------------------------------------------------------

  ghost predicate OneAfterTheOther(jobs: seq<Job>) {
    forall n, n' :: 0 <= n < n' < |jobs| && jobs[n].cmd.queue == jobs[n'].cmd.queue != "" ==> !Live(jobs[n].phase)
  }

  lemma {:induction false} MoveKeepsSerial(jobs: seq<Job>, n: nat, job: Job)
    requires OneAfterTheOther(jobs) && n < |jobs| && job.cmd == jobs[n].cmd && (Live(job.phase) ==> Live(jobs[n].phase))
    ensures OneAfterTheOther(jobs[n := job])
  {
    var jobs' := jobs[n := job];
    assert forall m :: 0 <= m < |jobs| ==>
          jobs'[m].cmd == jobs[m].cmd && (Live(jobs'[m].phase) ==> Live(jobs[m].phase));
  }

  lemma {:induction false} CallKeepsSerial(s: State, job: Job)
    requires OneAfterTheOther(s.jobs)
    requires job.cmd.queue == "" || (TokenInv(s) && Holds(s, TheProducer, job.cmd.queue))
    ensures OneAfterTheOther(s.jobs + [job])
  {
    var q := job.cmd.queue;
    forall n: nat | n < |s.jobs| && q != "" && s.jobs[n].cmd.queue == q ensures !Live(s.jobs[n].phase) {
      assert Live(s.jobs[n].phase) ==> Holds(s, TheJob(n), q);
    }
  }

  lemma {:induction false} SerialStep(maxJobs: int, s: State, a: Action)
    requires QueueInv(s) && OneAfterTheOther(s.jobs) && Enabled(maxJobs, s, a)
    ensures OneAfterTheOther(Do(maxJobs, s, a).jobs)
  {
    JobsFrame(maxJobs, s, a);
    if a.Go? {
      MoveKeepsSerial(s.jobs, a.n, JobAfter(s.jobs[a.n], s.runners, a.step));
    } else if BeginsJob(a) {
      CallKeepsSerial(s, NewJob(s, a));
    }
  }

  lemma {:induction false} RunSerial(maxJobs: int, acts: seq<Action>)
    requires Exec(maxJobs, acts).Some?
    ensures OneAfterTheOther(Exec(maxJobs, acts).value.jobs)
  {
    if acts != [] {
      var n := |acts| - 1;
      RunSerial(maxJobs, acts[..n]);
      RunQueueInv(maxJobs, acts[..n]);
      SerialStep(maxJobs, Exec(maxJobs, acts[..n]).value, acts[n]);
    }
  }

  // ---------------------------------------------------------------------------------------------
  // In the order of arrival
  // ---------------------------------------------------------------------------------------------

  ghost predicate Rising(ts: seq<nat>) {
    forall a, b :: 0 <= a < b < |ts| ==> ts[a] < ts[b]
  }

  lemma {:induction false} KeptRises(received: seq<Command>, lost: set<nat>, n: nat, q: string)
    requires n <= |received|
    ensures Rising(Kept(received, lost, n, q))
    ensures forall j :: 0 <= j < |Kept(received, lost, n, q)| ==> Kept(received, lost, n, q)[j] < n
  {
    if n > 0 {
      KeptRises(received, lost, n - 1, q);
    }
  }

  lemma {:induction false} OfRises(received: seq<Command>, ts: seq<nat>, q: string, a: nat, b: nat)
    requires Rising(Of(received, ts, q)) && a < b < |ts|
    requires Belongs(received, ts[a], q) && Belongs(received, ts[b], q)
    ensures ts[a] < ts[b]
  {
    var n := |ts| - 1;
    var rest := Of(received, ts[..n], q);
    if b < n {
      assert rest <= Of(received, ts, q);
      OfRises(received, ts[..n], q, a, b);
    } else {
      OfHolds(received, ts[..n], q, a);
      var j :| 0 <= j < |rest| && rest[j] == ts[a];
      var all := Of(received, ts, q);
      assert all == rest + [ts[b]] && all[j] < all[|rest|];
    }
  }

  lemma {:induction false} OfHolds(received: seq<Command>, ts: seq<nat>, q: string, a: nat)
    requires a < |ts| && Belongs(received, ts[a], q)
    ensures ts[a] in Of(received, ts, q)
  {
    if a < |ts| - 1 {
      OfHolds(received, ts[..|ts| - 1], q, a);
    }
  }

  /** Where job `n`'s ticket stands in the list of tickets. */
  lemma {:induction false} TicketAt(jobs: seq<Job>, n: nat)
    requires n < |jobs| && jobs[n].ticket.Some?
    ensures |Tickets(jobs[..n])| < |Tickets(jobs)| && Tickets(jobs)[|Tickets(jobs[..n])|] == jobs[n].ticket.value
  {
    var m := |jobs| - 1;
    if n < m {
      TicketAt(jobs[..m], n);
      assert jobs[..m][..n] == jobs[..n];
    }
  }

  /**
    Over every run: when two commands of a queue have been run, the one that was run first arrived
    first, and it was over before the other was started.
   */
  lemma {:induction false} SerialInOrder(maxJobs: int, acts: seq<Action>, n: nat, n': nat)
    requires Exec(maxJobs, acts).Some? && n < n' < |Exec(maxJobs, acts).value.jobs|
    requires var jobs := Exec(maxJobs, acts).value.jobs; jobs[n].cmd.queue == jobs[n'].cmd.queue != ""
    ensures var s := Exec(maxJobs, acts).value;
            && !Live(s.jobs[n].phase)
            && s.jobs[n].ticket.Some? && s.jobs[n'].ticket.Some? && s.jobs[n].ticket.value < s.jobs[n'].ticket.value
            && s.jobs[n'].ticket.value < |s.received|
            && s.jobs[n].cmd == s.received[s.jobs[n].ticket.value]
            && s.jobs[n'].cmd == s.received[s.jobs[n'].ticket.value]
  {
    var s := Exec(maxJobs, acts).value;
    RunSerial(maxJobs, acts);
    RunQueueInv(maxJobs, acts);
    RunAsHanded(maxJobs, acts);
    FirstInFirstOut(maxJobs, acts, s.jobs[n].cmd.queue);
    KeptRises(s.received, s.lost, Pushed(s), s.jobs[n].cmd.queue);
    TicketsRise(s, n, n');
  }

  lemma {:induction false} TicketsRise(s: State, n: nat, n': nat)
    requires JobsOk(s.received, s.jobs) && RunInOrder(s) && n < n' < |s.jobs|
          && s.jobs[n].cmd.queue == s.jobs[n'].cmd.queue != ""
    requires Conserved(s, s.jobs[n].cmd.queue) && Rising(Kept(s.received, s.lost, Pushed(s), s.jobs[n].cmd.queue))
    ensures s.jobs[n].ticket.Some? && s.jobs[n'].ticket.Some? && s.jobs[n].ticket.value < s.jobs[n'].ticket.value
  {
    var q := s.jobs[n].cmd.queue;
    assert Of(s.received, s.handed, q) <= Kept(s.received, s.lost, Pushed(s), q);
    TicketAt(s.jobs, n);
    TicketAt(s.jobs, n');
    TicketAt(s.jobs[..n'], n);
    assert s.jobs[..n'][..n] == s.jobs[..n];
    OfRises(s.received, s.handed, q, |Tickets(s.jobs[..n])|, |Tickets(s.jobs[..n'])|);
  }
}
