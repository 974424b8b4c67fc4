/** The table of delay tests as the Core keeps it: a map and a slot count changed in place
    under one mutex, each method proved equal to its step of module DelayTasks. */
module DelayTaskTableModule {
  import opened Wrappers
  import opened DelayTasks
  import C = Catalog

  /** `CancelSome` as far as the loop over the table has come. */
  function CancelSeen(s: State, why: string, which: Task -> bool, seen: set<string>): State {
    s.(tasks := map t | t in s.tasks ::
         if InTable(s, t) && s.tasks[t].key in seen && which(s.tasks[t]) then Cancelled(s.tasks[t], why) else s.tasks[t])
  }

  lemma CancelNone(s: State, why: string, which: Task -> bool)
    ensures CancelSeen(s, why, which, {}) == s
  {
  }

  lemma CancelEvery(s: State, why: string, which: Task -> bool)
    ensures CancelSeen(s, why, which, s.table.Keys) == CancelSome(s, why, which)
  {
  }

  lemma CancelNext(s: State, why: string, which: Task -> bool, seen: set<string>, key: string)
    requires key in s.table && s.table[key] in s.tasks && s.tasks[s.table[key]].key == key && key !in seen
    ensures
      var now := CancelSeen(s, why, which, seen);
      var t := s.table[key];
      && now.tasks[t] == s.tasks[t]
      && CancelSeen(s, why, which, seen + {key}) ==
           (if which(s.tasks[t]) then With(now, t, Cancelled(s.tasks[t], why)) else now)
  {
  }

  class DelayTaskTable {
    var catalogs: C.Catalogs
    var cancels: set<Cancel>
    var ended: set<nat>
    var table: map<string, nat>
    var tasks: map<nat, Task>
    var slots: int

    function State(): DelayTasks.State
      reads this
    {
      DelayTasks.State(catalogs, cancels, ended, table, tasks, slots)
    }

    constructor ()
      ensures State() == EMPTY
    {
      catalogs, cancels, ended, table, tasks, slots := C.EMPTY, {}, {}, map[], map[], 0;
    }

    method TryAdmit(t: nat)
      requires t in tasks
      modifies this
      ensures State() == Admit(old(State()), t)
    {
      if slots < MAX_DELAY_TASKS {
        slots := slots + 1;
        tasks := tasks[t := tasks[t].(pc := Admitted)];
      } else {
        tasks := tasks[t := tasks[t].(pc := SlotReturned, answer := Failed("overloaded"))];
      }
    }

    method RegisterTask(t: nat)
      requires t in tasks
      modifies this
      ensures State() == Register(old(State()), t)
    {
      var task := tasks[t];
      if CannotRegister(State(), task) {
        var reason := "sessionClosed";
        if task.entry.Some? {
          reason := "catalogNotFound";
        }
        tasks := tasks[t := task.(pc := Refused, answer := Failed(reason))];
      } else if task.key in table {
        tasks := tasks[t := task.(pc := Refused, answer := Failed("duplicateRequest"))];
      } else {
        table := table[task.key := t];
        tasks := tasks[t := task.(pc := Waiting)];
      }
    }

    method BeginHistoryCommit(t: nat) returns (allowed: bool)
      requires t in tasks
      modifies this
      ensures State() == CommitHistory(old(State()), t)
      ensures allowed <==> old(tasks[t].reason == "" && !tasks[t].ctxDone)
    {
      allowed := tasks[t].reason == "" && !tasks[t].ctxDone;
      if allowed {
        tasks := tasks[t := tasks[t].(committed := true)];
      }
    }

    method Complete(t: nat)
      requires t in tasks
      modifies this
      ensures State() == Decide(old(State()), t)
    {
      var task := tasks[t];
      var answer := task.answer;
      if task.reason != "" {
        answer := Answer(-1, task.reason);
      } else if task.ctxDone && !task.committed {
        answer := Answer(-1, "deadlineExceeded");
      }
      table := table - {task.key};
      tasks := tasks[t := task.(pc := Decided, answer := answer)];
    }

    method CancelTask(t: nat, why: string)
      requires t in tasks && !tasks[t].committed
      modifies `tasks
      ensures State() == With(old(State()), t, Cancelled(old(tasks[t]), why))
    {
      var task := tasks[t];
      if task.reason == "" {
        task := task.(reason := why);
      }
      tasks := tasks[t := task.(ctxDone := true)];
    }

    method CancelOwned(key: string, why: string) returns (cancelled: bool)
      requires key in table ==> table[key] in tasks
      modifies `tasks
      ensures (State(), cancelled) == CancelKey(old(State()), key, why)
    {
      cancelled := key in table && !tasks[table[key]].committed;
      if cancelled {
        CancelTask(table[key], why);
      }
    }

    method CancelIf(key: string, why: string, which: Task -> bool, ghost before: DelayTasks.State, ghost seen: set<string>)
      requires TableOk(before) && key in before.table && key !in seen
      requires State() == CancelSeen(before, why, which, seen)
      modifies `tasks
      ensures State() == CancelSeen(before, why, which, seen + {key})
    {
      CancelNext(before, why, which, seen, key);
      var t := table[key];
      if !tasks[t].committed && which(tasks[t]) {
        CancelTask(t, why);
      } else if tasks[t].committed {
        assert With(State(), t, Cancelled(tasks[t], why)) == State();
      }
    }

    method CancelMatchingTasks(why: string, which: Task -> bool)
      requires TableOk(State())
      modifies `tasks
      ensures State() == CancelSome(old(State()), why, which)
    {
      ghost var before := State();
      var todo := table.Keys;
      CancelNone(before, why, which);
      while todo != {}
        invariant todo <= before.table.Keys
        invariant State() == CancelSeen(before, why, which, before.table.Keys - todo)
        decreases |todo|
      {
        var key :| key in todo;
        CancelIf(key, why, which, before, before.table.Keys - todo);
        assert before.table.Keys - (todo - {key}) == before.table.Keys - todo + {key};
        todo := todo - {key};
      }
      assert before.table.Keys - todo == before.table.Keys;
      CancelEvery(before, why, which);
    }
  }
}
