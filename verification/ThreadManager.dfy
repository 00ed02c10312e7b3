/** `workerBase` and `ThreadManager` as objects, seen from the single control thread that uses them.
    A call that would block for ever returns false here; `Lifecycle` has the threads themselves and
    proves, step by step, that this is when `join` and `stopAllThreads` return. */
module Managing {

  class StopSource {
    var requested: bool

    constructor ()
      ensures !requested
    {
      requested := false;
    }

    method RequestStop()
      modifies this
      ensures requested
    {
      requested := true;
    }
  }

  class Worker {
    var running: bool            // m_running
    var joinable: bool           // m_thread owns a thread
    var internalStop: bool       // stop requested on m_thread
    var external: StopSource?    // the source of the token the body was given, if any

    ghost predicate Valid()
      reads this
    {
      running ==> joinable
    }

    /** The token of the body: combined with the external source when there is one. */
    predicate TokenStopped()
      reads this, external
    {
      internalStop || (external != null && external.requested)
    }

    twostate predicate Same()
      reads this
    {
      && running == old(running) && joinable == old(joinable)
      && internalStop == old(internalStop) && external == old(external)
    }

    constructor ()
      ensures Valid() && !running && !joinable
    {
      running, joinable, internalStop, external := false, false, false, null;
    }

    /** `ready` is the answer of isReadyToStart(), `created` whether the system made the thread.
        The move assignment joins the previous thread, which has already cleared the flag. */
    method Start(source: StopSource?, ready: bool, created: bool) returns (ok: bool)
      requires Valid()
      modifies this
      ensures Valid()
      ensures ok <==> ready && !old(running) && created
      ensures ok ==> running && joinable && !internalStop && external == source
      ensures !ok ==> Same()
    {
      if !ready {
        return false;
      }
      if running {
        return false;
      }
      running := true;
      if !created {
        running := false;
        return false;
      }
      joinable, internalStop, external := true, false, source;
      return true;
    }

    method Stop()
      modifies this`internalStop
      ensures internalStop == (old(internalStop) || joinable)
    {
      if joinable {
        internalStop := true;
      }
      WakeUp();
    }

    /** Touches no state: the run loops of the chain wait on their queues, not on this variable. */
    method WakeUp()
    {
    }

    /** Blocks for ever exactly on a running body whose token is not stopped. */
    method Join() returns (returned: bool)
      requires Valid()
      modifies this`running, this`joinable
      ensures Valid()
      ensures returned <==> !old(running) || TokenStopped()
      ensures returned ==> !running && !joinable
      ensures !returned ==> running && joinable
    {
      if !joinable {
        return true;
      }
      if running && !TokenStopped() {
        return false;
      }
      running := false;
      joinable := false;
      return true;
    }

    /** Never blocks: the request goes to the thread's own token. */
    method StopAndWait() returns (returned: bool)
      requires Valid()
      modifies this`running, this`joinable, this`internalStop
      ensures Valid() && returned && !running && !joinable
      ensures internalStop == (old(internalStop) || old(joinable))
    {
      Stop();
      returned := Join();
    }
  }

  class ThreadManager {
    var stopSource: StopSource
    var tasks: seq<Worker>

    ghost predicate Valid()
      reads this, tasks
    {
      forall t :: t in tasks ==> t.Valid()
    }

    /** The test of `Lifecycle.CanStop` on these objects. */
    ghost predicate StopReachesAll()
      reads this, tasks, set t | t in tasks && t.external != null :: t.external
    {
      forall t :: t in tasks && t.running ==> t.TokenStopped() || t.external == stopSource
    }

    constructor ()
      ensures Valid() && tasks == [] && fresh(stopSource)
    {
      stopSource := new StopSource();
      tasks := [];
    }

    method AddTask(task: Worker?, ready: bool, created: bool)
      requires Valid() && (task != null ==> task.Valid())
      modifies this`tasks, task
      ensures Valid()
      ensures if task != null && ready && created && !old(task.running)
              then tasks == old(tasks) + [task] && task.running && task.external == stopSource && !task.internalStop
              else tasks == old(tasks) && (task != null ==> task.Same())
    {
      if task == null {
        return;
      }
      var ok := task.Start(stopSource, ready, created);
      if ok {
        tasks := tasks + [task];
      }
    }

    /** A fresh source in any case; tasks still running keep the token of the old one. `startable[i]`
        says whether task `i` is ready and its thread can be created. */
    method RestartAllThreads(startable: seq<bool>)
      requires Valid() && |startable| == |tasks|
      modifies this`stopSource, tasks
      ensures Valid() && tasks == old(tasks) && fresh(stopSource) && !stopSource.requested
      ensures forall i :: 0 <= i < |tasks| && startable[i] ==> tasks[i].running
      ensures forall t :: t in tasks && old(t.running) ==> t.Same()
      ensures forall t :: t in tasks && !old(t.running) ==>
                t.Same() || (t.running && t.external == stopSource && !t.internalStop)
      ensures StopReachesAll() <==> old(forall t :: t in tasks && t.running ==> t.TokenStopped())
    {
      var source := new StopSource();
      stopSource := source;
      for i := 0 to |tasks|
        invariant Valid() && stopSource == source && !source.requested
        invariant forall s: StopSource :: old(allocated(s)) ==> s.requested == old(s.requested)
        invariant forall k :: 0 <= k < i && startable[k] ==> tasks[k].running
        invariant forall t :: t in tasks && old(t.running) ==> t.Same()
        invariant forall t :: t in tasks && !old(t.running) ==>
                    t.Same() || (t.running && t.external == stopSource && !t.internalStop)
      {
        if !tasks[i].running {
          assert tasks[i] in tasks;
          var ok := tasks[i].Start(stopSource, startable[i], true);
        }
      }
      RestartedReach(source);
    }

    twostate lemma RestartedReach(new source: StopSource)
      requires source == stopSource && fresh(source)
      requires tasks == old(tasks)
      requires forall t :: t in tasks && old(t.running) ==> t.Same()
      requires forall t :: t in tasks && !old(t.running) && t.running ==> t.external == stopSource
      requires forall s: StopSource :: old(allocated(s)) ==> s.requested == old(s.requested)
      ensures StopReachesAll() <==> old(forall t :: t in tasks && t.running ==> t.TokenStopped())
    {
      forall t | t in tasks && old(t.running)
        ensures t.external != source && (t.TokenStopped() <==> old(t.TokenStopped()))
      {
      }
    }

    /** Requests the stop, then joins in list order; hangs at the first running task that the request
        does not reach. */
    method StopAllThreads() returns (returned: bool)
      requires Valid()
      modifies stopSource, tasks
      ensures Valid() && stopSource.requested
      ensures returned <==> old(StopReachesAll())
      ensures returned ==> forall t :: t in tasks ==> !t.running && !t.joinable
      ensures forall t :: t in tasks ==> t.external == old(t.external) && t.internalStop == old(t.internalStop)
    {
      stopSource.RequestStop();
      for i := 0 to |tasks|
        invariant Valid() && stopSource.requested
        invariant forall s: StopSource :: old(allocated(s)) && s != stopSource ==> s.requested == old(s.requested)
        invariant forall t :: t in tasks ==> t.external == old(t.external) && t.internalStop == old(t.internalStop)
        invariant forall t :: t in tasks && t.running != old(t.running) ==>
                    !t.running && (old(t.TokenStopped()) || t.external == stopSource)
        invariant forall t :: t in tasks[..i] ==> !t.running && !t.joinable
      {
        var task := tasks[i];
        assert task in tasks;
        assert task.TokenStopped() ==> old(task.TokenStopped()) || task.external == stopSource;
        task.WakeUp();
        var joined := task.Join();
        if !joined {
          return false;
        }
      }
      assert tasks[..|tasks|] == tasks;
      return true;
    }

    method TerminateAllThreads() returns (returned: bool)
      requires Valid()
      modifies this`tasks, stopSource, tasks
      ensures Valid()
      ensures returned <==> old(StopReachesAll())
      ensures stopSource.requested
      ensures returned ==> tasks == [] && forall t :: t in old(tasks) ==> !t.running && !t.joinable
      ensures !returned ==> tasks == old(tasks)
    {
      returned := StopAllThreads();
      if returned {
        tasks := [];
      }
    }

    method StopLastThread()
      requires Valid()
      modifies this`tasks, tasks
      ensures Valid()
      ensures old(tasks) == [] ==> tasks == []
      ensures old(tasks) != [] ==> tasks == old(tasks)[..|old(tasks)| - 1]
      ensures old(tasks) != [] ==> !old(tasks)[|old(tasks)| - 1].running && !old(tasks)[|old(tasks)| - 1].joinable
      ensures old(tasks) != [] ==> forall t :: t in tasks && t != old(tasks)[|old(tasks)| - 1] ==> t.Same()
    {
      if tasks != [] {
        var last := tasks[|tasks| - 1];
        assert last in tasks;
        var _ := last.StopAndWait();
        tasks := tasks[..|tasks| - 1];
      }
    }
  }
}
