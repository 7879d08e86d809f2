/** TaskAccessTracker of backend/cmd/server/main.go. */
module AccessTracker {

  /** The tasks idle for longer than the timeout. */
  function Abandoned<Id>(lastAccess: map<Id, int>, timeout: int, now: int): set<Id> {
    set id | id in lastAccess && now - lastAccess[id] > timeout
  }

  /** `lastAccess`, read and changed under the mutex, so one call at a time. */
  class TaskAccessTracker {
    var lastAccess: map<string, int>
    const timeout: int

    constructor (timeoutMinutes: int)
      ensures lastAccess == map[] && timeout == timeoutMinutes * 60_000_000_000
    {
      lastAccess := map[];
      timeout := timeoutMinutes * 60_000_000_000;
    }

    method UpdateAccess(taskID: string, now: int)
      modifies this
      ensures lastAccess == old(lastAccess)[taskID := now]
    {
      lastAccess := lastAccess[taskID := now];
    }

    /** Exactly the abandoned tasks, each once; map iteration gives them in any order. */
    method GetAbandonedTasks(now: int) returns (abandoned: seq<string>)
      ensures forall id :: id in abandoned <==> id in Abandoned(lastAccess, timeout, now)
      ensures forall i, j :: 0 <= i < j < |abandoned| ==> abandoned[i] != abandoned[j]
    {
      abandoned := [];
      var rest := lastAccess.Keys;
      while rest != {}
        invariant rest <= lastAccess.Keys
        invariant forall id :: id in abandoned <==> id in Abandoned(lastAccess, timeout, now) && id !in rest
        invariant forall i, j :: 0 <= i < j < |abandoned| ==> abandoned[i] != abandoned[j]
        decreases rest
      {
        var taskID :| taskID in rest;
        rest := rest - {taskID};
        if now - lastAccess[taskID] > timeout {
          assert taskID !in abandoned;
          abandoned := abandoned + [taskID];
        }
      }
    }

    method RemoveTask(taskID: string)
      modifies this
      ensures lastAccess == old(lastAccess) - {taskID}
    {
      lastAccess := lastAccess - {taskID};
    }

    method GetTrackedCount() returns (n: nat)
      ensures n == |lastAccess|
    {
      n := |lastAccess|;
    }
  }
}
