// internal/worker/worker.go

module DispatchWorker {
  import opened Domain
  import opened Stores
  import opened Pipeline

  class Worker {
    const jobStore: NotificationJobStore
    const nc: Broker
    // The spawned goroutines still asleep, by the message each delivers.
    var sleeping: multiset<Job>

    constructor (nc: Broker, jobStore: NotificationJobStore)
      ensures this.nc == nc && this.jobStore == jobStore && sleeping == multiset{}
    {
      this.nc, this.jobStore, sleeping := nc, jobStore, multiset{};
    }

    // The subscription callback for one message.
    method OnMessage(message: Job, env: WorkEnv)
      requires message in nc.queue
      modifies this, nc, jobStore.db`jobs, jobStore.db`stats
      ensures nc.queue == old(nc.queue) - multiset{message}
      ensures var (db, spawned) := Dispatch(old(jobStore.db.View()), message, env);
        && jobStore.db.View() == db
        && sleeping == old(sleeping) + if spawned then multiset{message} else multiset{}
    {
      nc.queue := nc.queue - multiset{message};
      var marked := jobStore.UpdateStatus(message.requestId, DISPATCHED, env.update);
      if marked {
        var counted := jobStore.IncrementStats(message.serviceId, DISPATCHED, env.now, env.count);
        sleeping := sleeping + multiset{message};
      }
    }

    // A goroutine wakes.
    method Wake(message: Job, env: WorkEnv)
      requires message in sleeping
      modifies this`sleeping, jobStore.db`jobs, jobStore.db`stats
      ensures sleeping == old(sleeping) - multiset{message}
      ensures jobStore.db.View() == Deliver(old(jobStore.db.View()), message, env)
    {
      sleeping := sleeping - multiset{message};
      var marked := jobStore.UpdateStatus(message.requestId, DELIVERED, env.update);
      var counted := jobStore.IncrementStats(message.serviceId, DELIVERED, env.now, env.count);
    }
  }
}
