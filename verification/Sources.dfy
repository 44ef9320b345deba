/** backend/internal/app/sources.go: source invalidation and service configuration;
    backend/internal/app/governance.go: membership changes. */
module Sources {
  import opened Wrappers
  import opened Tables
  import Tasks

  const REMOVED_BODY := "[source content removed]"

  function Redacted(log: map<int, Event>): map<int, Event> {
    map n | n in log :: log[n].(contentRemoved := true)
  }

  /** Every effect of one watermark bump on a task of the service: a pending action is withdrawn, with
      remove the derived content is erased, and open workbenches are told by an event. */
  function InvalidatedTask(t: Task, remove: bool): Task {
    var withdrawn := t.(action := Tasks.Withdrawn(t.action));
    Announced(if remove then ErasedTask(withdrawn) else withdrawn, remove)
  }

  function Announced(t: Task, remove: bool): Task {
    var n := t.inv.seqNo + 1;
    t.(inv := t.inv.(seqNo := n), log := t.log[n := Event(SourceInvalidated, remove)])
  }

  function ErasedTask(t: Task): Task {
    t.(inv := t.inv.(report := None, manifest := None),
       action := if t.action.Some? then Some(t.action.value.(body := REMOVED_BODY)) else None,
       log := Redacted(t.log))
  }

  function InvalidateTx(db: Db, service: string, remove: bool): (r: Outcome<()>)
    requires db.Valid()
    ensures r.db.Valid()
  {
    if service !in db.services then Outcome(db, Err(NoRows))
    else
      var s := db.services[service];
      Outcome(
        db.(services := db.services[service := s.(watermark := s.watermark + 1)],
            tasks := map id | id in db.tasks ::
              if db.tasks[id].inv.service == service then InvalidatedTask(db.tasks[id], remove) else db.tasks[id]),
        Ok(()))
  }

  /** Changing the repository always invalidates, whether or not it differs. */
  function ConfigureTx(db: Db, service: string, repo: string, enabled: bool): (r: Outcome<()>)
    requires db.Valid()
    ensures r.db.Valid()
  {
    if service !in db.services then Outcome(db, Err(NoRows))
    else
      InvalidateTx(db.(services := db.services[service := db.services[service].(repo := repo, enabled := enabled)]),
                   service, false)
  }

  function SetMemberTx(db: Db, subject: string, team: string, role: Option<Role>): (r: Db)
    requires db.Valid()
    ensures r.Valid()
  {
    db.(members := if role.None? then db.members - {(subject, team)} else db.members[(subject, team) := role.value])
  }

  // ---- the handlers over the store ---------------------------------------------------

  // One function per set-oriented statement.

  function WithdrawPending(tasks: map<Id, Task>, service: string): map<Id, Task> {
    map id | id in tasks ::
      if tasks[id].inv.service == service then tasks[id].(action := Tasks.Withdrawn(tasks[id].action)) else tasks[id]
  }

  function EraseContent(tasks: map<Id, Task>, service: string): map<Id, Task> {
    map id | id in tasks :: if tasks[id].inv.service == service then ErasedTask(tasks[id]) else tasks[id]
  }

  function Announce(tasks: map<Id, Task>, service: string, remove: bool): map<Id, Task> {
    map id | id in tasks :: if tasks[id].inv.service == service then Announced(tasks[id], remove) else tasks[id]
  }

  lemma StatementsAddUp(db: Db, service: string, remove: bool)
    requires db.Valid() && service in db.services
    ensures InvalidateTx(db, service, remove).db.tasks ==
            var withdrawn := WithdrawPending(db.tasks, service);
            Announce(if remove then EraseContent(withdrawn, service) else withdrawn, service, remove)
  {
    var withdrawn := WithdrawPending(db.tasks, service);
    var erased := if remove then EraseContent(withdrawn, service) else withdrawn;
    forall id | id in db.tasks
      ensures InvalidateTx(db, service, remove).db.tasks[id] == Announce(erased, service, remove)[id]
    {
      var t := db.tasks[id];
      if t.inv.service == service {
        assert withdrawn[id] == t.(action := Tasks.Withdrawn(t.action));
        assert erased[id] == if remove then ErasedTask(withdrawn[id]) else withdrawn[id];
      }
    }
  }

  method Invalidate(st: Store, service: string, remove: bool) returns (reply: Result<(), Error>)
    requires st.Snapshot().Valid()
    modifies st
    ensures Outcome(st.Snapshot(), reply) == InvalidateTx(old(st.Snapshot()), service, remove)
  {
    if service !in st.services {
      return Err(NoRows);
    }
    StatementsAddUp(st.Snapshot(), service, remove);
    var s := st.services[service];
    st.services := st.services[service := s.(watermark := s.watermark + 1)];
    st.tasks := WithdrawPending(st.tasks, service);
    if remove {
      st.tasks := EraseContent(st.tasks, service);
    }
    st.tasks := Announce(st.tasks, service, remove);
    reply := Ok(());
  }

  method Configure(st: Store, service: string, repo: string, enabled: bool) returns (reply: Result<(), Error>)
    requires st.Snapshot().Valid()
    modifies st
    ensures Outcome(st.Snapshot(), reply) == ConfigureTx(old(st.Snapshot()), service, repo, enabled)
  {
    if service in st.services {
      st.services := st.services[service := st.services[service].(repo := repo, enabled := enabled)];
    }
    reply := Invalidate(st, service, false);
  }

  method SetMember(st: Store, subject: string, team: string, role: Option<Role>)
    requires st.Snapshot().Valid()
    modifies st
    ensures st.Snapshot() == SetMemberTx(old(st.Snapshot()), subject, team, role)
  {
    if role.None? {
      st.members := st.members - {(subject, team)};
    } else {
      st.members := st.members[(subject, team) := role.value];
    }
  }
}
