/** The job manifest: a map from event IDs to jobs, with the metrics counters it maintains. */
module Manifests {
  import opened Options
  import opened DeliveryProtocol
  import opened RabbitMQ

  class Manifest {
    var jobs: map<string, Job>
    var inserted: nat
    var deleted: nat

    constructor ()
      ensures jobs == map[] && inserted == deleted == 0
    {
      jobs, inserted, deleted := map[], 0, 0;
    }

    function Size(): nat
      reads this
    {
      |jobs|
    }

    predicate HasJob(id: string)
      reads this
    {
      id in jobs
    }

    /** A missing job reads as no job; the source returns a zero value there. */
    function GetJob(id: string): Option<Job>
      reads this
    {
      if id in jobs then Some(jobs[id]) else None
    }

    /** Does not look for an existing entry: that is up to the caller. */
    method InsertJobWithDelivery(id: string, delivery: Delivery, now: nat)
      modifies this
      ensures jobs == old(jobs)[id := Job(now, id, delivery)]
      ensures inserted == old(inserted) + 1 && deleted == old(deleted)
      ensures Size() == old(Size()) + if old(HasJob(id)) then 0 else 1
    {
      inserted := inserted + 1;
      jobs := jobs[id := Job(now, id, delivery)];
      assert jobs.Keys == old(jobs.Keys) + {id};
    }

    /** Counts a deletion even if there is no such job. */
    method DeleteJob(id: string)
      modifies this
      ensures jobs == old(jobs) - {id}
      ensures deleted == old(deleted) + 1 && inserted == old(inserted)
      ensures !HasJob(id) && Size() == old(Size()) - if old(HasJob(id)) then 1 else 0
    {
      deleted := deleted + 1;
      jobs := jobs - {id};
      assert jobs.Keys == old(jobs.Keys) - {id};
    }

    /** The reconnect routine's cleanup: drops every job that carries a delivery, which all do, and
        bypasses the deletion counter. */
    method DropStale() returns (stale: nat)
      modifies this`jobs
      ensures jobs == map[] && stale == old(Size())
    {
      stale := 0;
      var todo := jobs.Keys;
      while todo != {}
        invariant jobs.Keys == todo && stale + |todo| == old(Size())
      {
        var id :| id in todo;
        jobs := jobs - {id};
        todo := todo - {id};
        stale := stale + 1;
      }
    }
  }
}
