/** What admission, cancel, resume and the administrator's changes do, row by row:
    stated over the tables alone, apart from the functions that compute it. */
module TaskRules {
  import opened Wrappers
  import opened Tables
  import Tasks
  import Sources

  // ---- admission ------------------------------------------------------------------------

  /** The service is configured and enabled, the caller belongs to its team, and fewer than 200 investigations of
      the team are queued or running. */
  predicate Admissible(db: Db, u: string, service: string) {
    && service in db.services && db.services[service].enabled
    && (u, db.services[service].team) in db.members
    && var team := db.services[service].team;
       |set k | k in db.tasks && db.tasks[k].inv.team == team
                && (db.tasks[k].inv.status.Queued? || db.tasks[k].inv.status.Running?)| < 200
  }

  /** A key used before answers with its investigation when the request is the same one, and with a conflict
      otherwise; either way nothing is stored. */
  lemma UsedKeyReplays(db: Db, now: int, u: string, idem: string, hash: string, service: string, symptom: string,
      id: Id)
    requires db.Valid() && id !in db.tasks && (u, idem) in db.idems
    ensures var r := Tasks.CreateTx(db, now, u, idem, hash, service, symptom, id);
            var prior := db.idems[(u, idem)];
            && r.db == db
            && (r.reply == Ok(prior) <==> db.tasks[prior].inv.requestHash == hash)
            && (r.reply == Err(IdempotencyPayloadConflict) <==> db.tasks[prior].inv.requestHash != hash)
  {
  }

  lemma CountsAlike(tasks: map<Id, Task>, team: string)
    ensures Tasks.ActiveTasks(tasks, team)
            == set k | k in tasks && tasks[k].inv.team == team
                       && (tasks[k].inv.status.Queued? || tasks[k].inv.status.Running?)
  {
  }

  /** A new key is admitted exactly when it is admissible. The new investigation is queued on the current sources
      with its first event, the key is taken, and nothing else changes. */
  lemma NewKeyCreates(db: Db, now: int, u: string, idem: string, hash: string, service: string, symptom: string,
      id: Id)
    requires db.Valid() && id !in db.tasks && (u, idem) !in db.idems
    ensures var r := Tasks.CreateTx(db, now, u, idem, hash, service, symptom, id);
            && (r.reply == Ok(id) <==> Admissible(db, u, service))
            && (r.reply.Ok? <==> r.reply == Ok(id))
            && (r.reply.Ok? ==>
                  && r.db == Db(db.members, db.services, db.idems[(u, idem) := id], db.tasks[id := r.db.tasks[id]])
                  && r.db.tasks[id].inv
                     == Investigation(db.services[service].team, service, u, idem, hash, symptom, Queued, None, None,
                                      db.services[service].watermark, 1)
                  && r.db.tasks[id].job == Job(JobQueued, None, 0, 0, None, now, "", None, None)
                  && r.db.tasks[id].log == map[1 := Event(QueuedEvent, false)]
                  && r.db.tasks[id].action.None? && r.db.tasks[id].approvals == [])
            && (r.reply.Err? ==> r.db == db)
  {
    if service in db.services {
      CountsAlike(db.tasks, db.services[service].team);
    }
  }

  /** Why a new key is refused: the first of these that holds. */
  lemma NewKeyRefused(db: Db, now: int, u: string, idem: string, hash: string, service: string, symptom: string,
      id: Id)
    requires db.Valid() && id !in db.tasks && (u, idem) !in db.idems && !Admissible(db, u, service)
    ensures Tasks.CreateTx(db, now, u, idem, hash, service, symptom, id).reply
            == Err(if service !in db.services || !db.services[service].enabled then NoRows
                   else if (u, db.services[service].team) !in db.members then TeamForbidden else TeamQuotaExhausted)
  {
    if service in db.services {
      CountsAlike(db.tasks, db.services[service].team);
    }
  }

  // ---- cancel and resume ------------------------------------------------------------------

  /** The action of a cancelled or resumed task: withdrawn unless a request may already have left. */
  predicate WithdrawnUnlessSent(a: Option<Action>, a': Option<Action>) {
    match a
    case None => a'.None?
    case Some(x) =>
      if x.state.Executing? || x.state.Unknown? || x.state.Succeeded? then a' == a
      else a' == Some(x.(state := Invalidated))
  }

  /** Only the rows of one task changed. */
  predicate OnlyTask(db: Db, db': Db, id: Id) {
    && db'.members == db.members && db'.services == db.services && db'.idems == db.idems
    && db'.tasks.Keys == db.tasks.Keys && forall k :: k in db.tasks && k != id ==> db'.tasks[k] == db.tasks[k]
  }

  /** One more event, of this kind, under the next number. */
  predicate OneMoreEvent(t: Task, t': Task, kind: EventKind) {
    t'.inv.seqNo == t.inv.seqNo + 1 && t'.log == t.log[t.inv.seqNo + 1 := Event(kind, false)]
  }

  /** Any investigation can be cancelled, whatever state it is in: both rows are cancelled, the lease is gone and an
      unsent action is withdrawn; the rest of the task stays. */
  lemma CancelRule(db: Db, id: Id)
    requires db.Valid()
    ensures var r := Tasks.CancelTx(db, id);
            && (r.reply == Err(NoRows) <==> id !in db.tasks) && (r.reply.Err? ==> r.db == db)
            && (id in db.tasks ==>
                  && OnlyTask(db, r.db, id)
                  && var t, t' := db.tasks[id], r.db.tasks[id];
                     && t'.inv == t.inv.(status := Cancelled, seqNo := t.inv.seqNo + 1)
                     && t'.job == t.job.(state := JobCancelled, leaseUntil := None)
                     && WithdrawnUnlessSent(t.action, t'.action) && t'.approvals == t.approvals
                     && OneMoreEvent(t, t', CancelledEvent))
  {
  }

  predicate CanResume(db: Db, id: Id, information: string) {
    && |information| <= 4000 && id in db.tasks
    && var s := db.tasks[id].inv.status; s.WaitingInformation? || s.Failed? || s.Partial? || s.Completed?
  }

  /** A finished investigation is resumed: queued at once on the current sources with its attempts and the stored
      callback forgotten, the information added to the symptom, and an unsent action withdrawn. Owner, generation
      and report stay. */
  lemma ResumeRule(db: Db, now: int, id: Id, information: string)
    requires db.Valid()
    ensures var r := Tasks.ResumeTx(db, now, id, information);
            && (r.reply.Ok? <==> CanResume(db, id, information))
            && (r.reply.Err? ==>
                  r.db == db && r.reply.error == if |information| > 4000 then InformationTooLarge else NotResumable)
            && (r.reply.Ok? ==>
                  && OnlyTask(db, r.db, id)
                  && var t, t' := db.tasks[id], r.db.tasks[id];
                     && t'.inv == t.inv.(status := Queued, symptom := t.inv.symptom + "\n" + information,
                                         sourceVersion := db.services[t.inv.service].watermark,
                                         seqNo := t.inv.seqNo + 1)
                     && t'.job == t.job.(state := JobQueued, availableAt := now, attempts := 0, lastCallback := None,
                                         resultHash := None)
                     && WithdrawnUnlessSent(t.action, t'.action) && t'.approvals == t.approvals
                     && OneMoreEvent(t, t', ResumedEvent))
  {
  }

  // ---- sources, settings and members --------------------------------------------------------

  /** With remove, a task of the service loses its report and manifest, the text of its action and the content of
      every event; without, it keeps them. */
  predicate ErasedIf(remove: bool, t: Task, t': Task) {
    && t'.inv.report == (if remove then None else t.inv.report)
    && t'.inv.manifest == (if remove then None else t.inv.manifest)
    && (t.action.Some? ==>
          t'.action.Some? && t'.action.value.body == if remove then "[source content removed]" else t.action.value.body)
    && (forall n :: n in t.log && n != t.inv.seqNo + 1 ==>
          n in t'.log && t'.log[n] == if remove then Event(t.log[n].kind, true) else t.log[n])
  }

  /** What one change of sources does to a task of the service: content erased on request, an unsent action
      withdrawn, one announcing event, and everything else as it was. */
  predicate ToldOfChange(remove: bool, t: Task, t': Task) {
    && ErasedIf(remove, t, t')
    && t'.inv == t.inv.(report := t'.inv.report, manifest := t'.inv.manifest, seqNo := t.inv.seqNo + 1)
    && t'.job == t.job && t'.approvals == t.approvals
    && t'.log.Keys == t.log.Keys + {t.inv.seqNo + 1}
    && t'.log[t.inv.seqNo + 1] == Event(SourceInvalidated, remove)
    && (t'.action.Some? <==> t.action.Some?)
    && (t.action.Some? ==>
          var a, a' := t.action.value, t'.action.value;
          && a' == a.(body := a'.body, state := a'.state)
          && a'.state == if a.state.Draft? || a.state.Approved? || a.state.Rejected? then Invalidated else a.state)
  }

  /** A change of sources reaches every task of the service and no other, and moves its watermark by one. */
  predicate SourcesChanged(db: Db, db': Db, service: string, s': Service, remove: bool) {
    && db'.members == db.members && db'.idems == db.idems && db'.services == db.services[service := s']
    && db'.tasks.Keys == db.tasks.Keys
    && forall id :: id in db.tasks ==>
         if db.tasks[id].inv.service == service then ToldOfChange(remove, db.tasks[id], db'.tasks[id])
         else db'.tasks[id] == db.tasks[id]
  }

  lemma ToldRow(t: Task, remove: bool)
    ensures ToldOfChange(remove, t, Sources.InvalidatedTask(t, remove))
  {
  }

  lemma InvalidateRule(db: Db, service: string, remove: bool)
    requires db.Valid()
    ensures var r := Sources.InvalidateTx(db, service, remove);
            && (r.reply == Err(NoRows) <==> service !in db.services) && (r.reply.Err? ==> r.db == db)
            && (service in db.services ==>
                  var s := db.services[service];
                  SourcesChanged(db, r.db, service, s.(watermark := s.watermark + 1), remove))
  {
    if service in db.services {
      var r := Sources.InvalidateTx(db, service, remove).db;
      forall id | id in db.tasks && db.tasks[id].inv.service == service
        ensures ToldOfChange(remove, db.tasks[id], r.tasks[id])
      {
        ToldRow(db.tasks[id], remove);
        assert r.tasks[id] == Sources.InvalidatedTask(db.tasks[id], remove);
      }
    }
  }

  /** Saving the settings of a service always counts as a change of sources, also when they are the same. */
  lemma ConfigureRule(db: Db, service: string, repo: string, enabled: bool)
    requires db.Valid()
    ensures var r := Sources.ConfigureTx(db, service, repo, enabled);
            && (r.reply == Err(NoRows) <==> service !in db.services) && (r.reply.Err? ==> r.db == db)
            && (service in db.services ==>
                  var s := db.services[service];
                  SourcesChanged(db, r.db, service, Service(s.team, repo, s.watermark + 1, enabled), false))
  {
    if service in db.services {
      var db1 := db.(services := db.services[service := db.services[service].(repo := repo, enabled := enabled)]);
      InvalidateRule(db1, service, false);
    }
  }

  /** One membership is set to the role, or removed; all others stay. */
  lemma SetMemberRule(db: Db, subject: string, team: string, role: Option<Role>)
    requires db.Valid()
    ensures var r := Sources.SetMemberTx(db, subject, team, role);
            && r == db.(members := r.members)
            && ((subject, team) in r.members <==> role.Some?)
            && (role.Some? ==> r.members[(subject, team)] == role.value)
            && (forall k :: k != (subject, team) ==>
                  (k in r.members <==> k in db.members) && (k in r.members ==> r.members[k] == db.members[k]))
  {
  }
}
