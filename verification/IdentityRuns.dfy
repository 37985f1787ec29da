/** Identity refreshes over whole runs: a refresh reads the credential in one transaction and
    commits in another, with everything else in between (internal/control/identity_store.go,
    internal/control/credentials.go). */
module IdentityRuns {
  import opened Ids
  import opened Protocol
  import opened Tables
  import opened PolicyView
  import opened AccountTx
  import opened Transactions
  import opened Invariants
  import opened Effects
  import opened IdentityEffects
  import opened Runs
  import opened GrantRuns

  lemma NewTailnetId(env: Env, db: Database, op: Op, now: int, t: Id)
    requires Inv(env, db) && Legitimate(db, op, now) && t in db.tailnets
    ensures !(op.OnAccount? && op.account.OpAddTailnet? && op.account.id == t)
  {
    hide Stored, NodesSound, SharingSound, References;
    if op.OnAccount? && op.account.OpAddTailnet? { assert op.account.id in Draws(op); }
  }

  lemma CredentialHasTailnet(env: Env, db: Database, t: Id)
    requires Inv(env, db)
    ensures t in db.credentials || t in db.snapshots ==> t in db.tailnets
  {}

  /** A credential's version never goes back, and each start, replacement and deletion moves it on. */
  lemma VersionStep(env: Env, db: Database, op: Op, now: int, db': Database, t: Id)
    requires Inv(env, db) && Step(env, db, op, now, db') && t in db.credentials
    ensures t in db'.credentials || TailnetGone(db', t)
    ensures t in db'.credentials ==> SameVersion(db.credentials[t], db'.credentials[t]) || Later(db.credentials[t], db'.credentials[t])
    ensures t in db'.credentials && Commits(env, db, op, now, db') && NewVersion(op, t) ==> Later(db.credentials[t], db'.credentials[t])
    ensures t in db'.credentials && Commits(env, db, op, now, db') ==> CredentialFate(db, op, db', t)
  {
    hide Inv, Statements, Legitimate, Rebuild, NewVersion, Commits, CredentialFate;
    CredentialHasTailnet(env, db, t);
    StepOutcome(env, db, op, now, db');
    if Commits(env, db, op, now, db') {
      IdentityStep(env, db, op, now, db', t);
      NewTailnetId(env, db, op, now, t);
      TailnetDrawn(env, db, t);
      GoneStep(env, db, op, now, db', t);
      if t in db'.credentials { FateOrders(db, op, db', t); }
    }
  }

  lemma TailnetDrawn(env: Env, db: Database, t: Id)
    requires Inv(env, db) && t in db.tailnets
    ensures t in db.drawn
  {}

  lemma FateOrders(db: Database, op: Op, db': Database, t: Id)
    requires t in db.credentials && t in db'.credentials && CredentialFate(db, op, db', t)
    ensures SameVersion(db.credentials[t], db'.credentials[t]) || Later(db.credentials[t], db'.credentials[t])
    ensures NewVersion(op, t) ==> Later(db.credentials[t], db'.credentials[t])
  {}

  lemma {:induction false} CredentialLives(env: Env, states: seq<Database>, events: seq<Event>, i: nat, k: nat, t: Id)
    requires IsRun(env, states, events) && i <= k < |states| && t in states[i].credentials
    ensures t in states[k].credentials || TailnetGone(states[k], t)
    decreases k - i
  {
    hide Step, Inv, TailnetGone, Commits, CredentialFate, NewVersion;
    if i < k {
      CredentialLives(env, states, events, i, k - 1, t);
      InvAlways(env, states, events, k - 1);
      assert StepAt(env, states, events, k - 1);
      GrantKeyStep(env, states[k - 1], events[k - 1].op, events[k - 1].now, states[k], Pair("", t));
      if t in states[k - 1].credentials { VersionStep(env, states[k - 1], events[k - 1].op, events[k - 1].now, states[k], t); }
    }
  }

  lemma GoneHasNoCredential(env: Env, db: Database, t: Id)
    requires Inv(env, db) && TailnetGone(db, t)
    ensures t !in db.credentials
  {}

  lemma {:induction false} VersionsOrdered(env: Env, states: seq<Database>, events: seq<Event>, i: nat, j: nat, t: Id)
    requires IsRun(env, states, events) && i <= j < |states| && t in states[i].credentials && t in states[j].credentials
    ensures SameVersion(states[i].credentials[t], states[j].credentials[t]) || Later(states[i].credentials[t], states[j].credentials[t])
    decreases j - i
  {
    hide Step, Inv, TailnetGone, Commits, CredentialFate, NewVersion;
    if i < j {
      CredentialLives(env, states, events, i, j - 1, t);
      InvAlways(env, states, events, j - 1);
      InvAlways(env, states, events, j);
      assert StepAt(env, states, events, j - 1);
      GrantKeyStep(env, states[j - 1], events[j - 1].op, events[j - 1].now, states[j], Pair("", t));
      if TailnetGone(states[j], t) { GoneHasNoCredential(env, states[j], t); }
      VersionsOrdered(env, states, events, i, j - 1, t);
      VersionStep(env, states[j - 1], events[j - 1].op, events[j - 1].now, states[j], t);
    }
  }

  /** If a version survives from `i` to `j`, nothing in between started a refresh, replaced or deleted the credential. */
  lemma NothingIntervened(env: Env, states: seq<Database>, events: seq<Event>, i: nat, m: nat, j: nat, t: Id)
    requires IsRun(env, states, events) && i <= m < j < |states|
    requires t in states[i].credentials && t in states[j].credentials && SameVersion(states[i].credentials[t], states[j].credentials[t])
    ensures CommitAt(env, states, events, m) ==> !NewVersion(events[m].op, t)
  {
    hide Step, Inv, TailnetGone, CredentialFate, NewVersion, Commits;
    InvAlways(env, states, events, m);
    InvAlways(env, states, events, j);
    assert StepAt(env, states, events, m);
    CredentialStillThere(env, states, events, i, m, j, t);
    CredentialStillThere(env, states, events, i, m + 1, j, t);
    VersionsOrdered(env, states, events, i, m, t);
    VersionStep(env, states[m], events[m].op, events[m].now, states[m + 1], t);
    VersionsOrdered(env, states, events, m + 1, j, t);
  }

  lemma CredentialStillThere(env: Env, states: seq<Database>, events: seq<Event>, i: nat, m: nat, j: nat, t: Id)
    requires IsRun(env, states, events) && i <= m <= j < |states| && t in states[i].credentials && t in states[j].credentials
    ensures t in states[m].credentials
  {
    hide Step, Inv, TailnetGone;
    CredentialLives(env, states, events, i, m, t);
    if TailnetGone(states[m], t) {
      InvAlways(env, states, events, j);
      GoneForGood(env, states, events, m, j, t);
      GoneHasNoCredential(env, states[j], t);
    }
  }

  lemma {:induction false} GoneForGood(env: Env, states: seq<Database>, events: seq<Event>, i: nat, k: nat, t: Id)
    requires IsRun(env, states, events) && i <= k < |states| && TailnetGone(states[i], t)
    ensures TailnetGone(states[k], t)
    decreases k - i
  {
    hide Step, Inv, TailnetGone;
    if i < k {
      GoneForGood(env, states, events, i, k - 1, t);
      InvAlways(env, states, events, k - 1);
      assert StepAt(env, states, events, k - 1);
      GrantKeyStep(env, states[k - 1], events[k - 1].op, events[k - 1].now, states[k], Pair("", t));
    }
  }

  // Two-transaction operations.

  /** Step `b` starts a refresh of `t` and hands out version (revision, seq). */
  ghost predicate StartsRefresh(env: Env, states: seq<Database>, events: seq<Event>, b: nat, t: Id, revision: int, seq': int)
    requires b < |events| && b + 1 < |states|
  {
    && CommitAt(env, states, events, b) && events[b].op == OnAccount(OpBeginRefresh(t))
    && t in states[b + 1].credentials && states[b + 1].credentials[t].revision == revision && states[b + 1].credentials[t].refreshSeq == seq'
  }

  /** Step `c` ends a refresh of `t` and its result is accepted. */
  ghost predicate RefreshLands(env: Env, states: seq<Database>, events: seq<Event>, c: nat, t: Id)
    requires c < |events| && c + 1 < |states|
  {
    && CommitAt(env, states, events, c) && events[c].op.OnAccount? && events[c].op.account.OpCommitRefresh?
    && events[c].op.account.tailnet == t
  }

  ghost predicate FinishesRefresh(env: Env, states: seq<Database>, events: seq<Event>, c: nat, t: Id, revision: int, seq': int)
    requires c < |events| && c + 1 < |states|
  {
    && RefreshLands(env, states, events, c, t)
    && events[c].op.account.revision == revision && events[c].op.account.refreshSeq == seq'
  }

  lemma RefreshGuard(db: Database, t: Id, revision: int, seq': int, found: Option<seq<DeviceKey>>, now: int)
    requires CommitRefresh(db, t, revision, seq', found, now).Commit?
    ensures t in db.credentials && db.credentials[t].revision == revision && db.credentials[t].refreshSeq == seq'
  {}

  lemma FinishGuard(env: Env, states: seq<Database>, events: seq<Event>, c: nat, t: Id, revision: int, seq': int)
    requires |states| == |events| + 1 && c < |events| && FinishesRefresh(env, states, events, c, t, revision, seq')
    ensures t in states[c].credentials && states[c].credentials[t].revision == revision && states[c].credentials[t].refreshSeq == seq'
  {
    hide Rebuild, CommitRefresh;
    RefreshGuard(states[c], t, revision, seq', events[c].op.account.found, events[c].now);
  }

  /** A refresh in flight commits only if no refresh was started, and the credential neither
      replaced nor deleted, since it began. */
  lemma RefreshCommitsAlone(env: Env, states: seq<Database>, events: seq<Event>, b: nat, m: nat, c: nat, t: Id, revision: int, seq': int)
    requires IsRun(env, states, events) && b < m < c < |events|
    requires StartsRefresh(env, states, events, b, t, revision, seq') && FinishesRefresh(env, states, events, c, t, revision, seq')
    ensures CommitAt(env, states, events, m) ==> !NewVersion(events[m].op, t)
  {
    hide Step, Commits, NewVersion;
    FinishGuard(env, states, events, c, t, revision, seq');
    NothingIntervened(env, states, events, b + 1, m, c, t);
  }

  // After a deletion.

  /** Every refresh that finishes was started, and finishes with the version it was handed. */
  ghost predicate RefreshesStarted(env: Env, states: seq<Database>, events: seq<Event>)
    requires |states| == |events| + 1
  {
    forall c :: 0 <= c < |events| && events[c].op.OnAccount? && events[c].op.account.OpCommitRefresh? ==>
      exists b :: 0 <= b < c && StartsRefresh(env, states, events, b, events[c].op.account.tailnet, events[c].op.account.revision, events[c].op.account.refreshSeq)
  }

  ghost predicate DeletesAt(env: Env, states: seq<Database>, events: seq<Event>, d: nat, t: Id)
    requires d < |events| && d + 1 < |states|
  {
    CommitAt(env, states, events, d) && Deletes(events[d].op, t) && t in states[d].credentials
  }

  ghost predicate ReplacesAt(env: Env, states: seq<Database>, events: seq<Event>, k: nat, t: Id)
    requires k < |events| && k + 1 < |states|
  {
    CommitAt(env, states, events, k) && events[k].op.OnAccount? && events[k].op.account.OpReplaceCredential? && events[k].op.account.tailnet == t
  }

  /** At `j` the credential is missing, at a later revision than it had at `d`. */
  predicate Removed(states: seq<Database>, d: nat, j: nat, t: Id)
    requires d < |states| && j < |states| && t in states[d].credentials && t in states[j].credentials
  {
    states[j].credentials[t].status.Missing? && states[j].credentials[t].revision > states[d].credentials[t].revision
  }

  lemma DeleteRemoves(env: Env, states: seq<Database>, events: seq<Event>, d: nat, t: Id)
    requires IsRun(env, states, events) && d < |events| && DeletesAt(env, states, events, d, t)
    ensures t in states[d + 1].credentials && Removed(states, d, d + 1, t)
  {
    hide Step, Statements, Rebuild;
    var op := events[d].op;
    CommitShape(env, states[d], op, events[d].now, states[d + 1]);
    DeleteWrites(states[d], op.account.actor, t);
    StatementsOfDelete(env, states[d], op, events[d].now, t);
  }

  lemma StatementsOfDelete(env: Env, db: Database, op: Op, now: int, t: Id)
    requires Deletes(op, t)
    ensures Statements(env, db, op, now) == DeleteCredential(db, op.account.actor, t)
  {
    hide DeleteCredential;
  }

  lemma DeleteWrites(db: Database, actor: Actor, t: Id)
    requires t in db.credentials
    ensures var tx := DeleteCredential(db, actor, t);
            tx.Commit? ==> t in tx.db.credentials && tx.db.credentials[t] == Credential(Missing, db.credentials[t].revision + 1, 0)
  {
    hide TailnetOwner;
  }

  /** No refresh in flight can bring the keys back: one started before the deletion has an older
      version, and none starts while the credential is missing. */
  lemma NoLateRefresh(env: Env, states: seq<Database>, events: seq<Event>, d: nat, j: nat, t: Id)
    requires IsRun(env, states, events) && RefreshesStarted(env, states, events)
    requires d < j < |events| && DeletesAt(env, states, events, d, t)
    requires forall k :: d < k <= j && t in states[k].credentials ==> Removed(states, d, k, t)
    ensures !RefreshLands(env, states, events, j, t)
  {
    hide Step, Commits;
    if RefreshLands(env, states, events, j, t) {
      var revision, seq' := events[j].op.account.revision, events[j].op.account.refreshSeq;
      FinishGuard(env, states, events, j, t, revision, seq');
      var b: nat :| b < j && StartsRefresh(env, states, events, b, t, revision, seq');
      if b < d {
        VersionsOrdered(env, states, events, b + 1, d, t);
      } else {
        StartNeedsCredential(env, states, events, b, t);
      }
    }
  }

  lemma StartNeedsCredential(env: Env, states: seq<Database>, events: seq<Event>, b: nat, t: Id)
    requires |states| == |events| + 1 && b < |events| && CommitAt(env, states, events, b)
    requires events[b].op == OnAccount(OpBeginRefresh(t)) || Deletes(events[b].op, t)
    ensures events[b].op.account.OpBeginRefresh? ==> t in states[b].credentials && !states[b].credentials[t].status.Missing?
  {
    hide Rebuild, DeleteCredential;
  }

  /** Once a credential is deleted it stays missing, and the tailnet without keys, until a replacement commits. */
  lemma {:induction false} StaysRemoved(env: Env, states: seq<Database>, events: seq<Event>, d: nat, j: nat, t: Id)
    requires IsRun(env, states, events) && RefreshesStarted(env, states, events)
    requires d < j < |states| && DeletesAt(env, states, events, d, t)
    requires forall k :: d < k < j ==> !ReplacesAt(env, states, events, k, t)
    ensures t in states[j].credentials ==> Removed(states, d, j, t)
    ensures t in states[j].snapshots ==> states[j].snapshots[t].keys == []
    decreases j
  {
    hide Step, Commits, NewVersion, Inv, Deletes;
    if j == d + 1 {
      DeleteRemoves(env, states, events, d, t);
    } else {
      forall k | d < k <= j - 1 && t in states[k].credentials ensures Removed(states, d, k, t) {
        StaysRemoved(env, states, events, d, k, t);
      }
      if t in states[j].credentials {
        NoLateRefresh(env, states, events, d, j - 1, t);
        RemovedStep(env, states, events, d, j, t);
      }
    }
    InvAlways(env, states, events, j);
    MissingHasNoKeys(env, states, events, d, j, t);
  }

  lemma RemovedStep(env: Env, states: seq<Database>, events: seq<Event>, d: nat, j: nat, t: Id)
    requires IsRun(env, states, events) && d + 1 < j < |states| && DeletesAt(env, states, events, d, t) && t in states[j].credentials
    requires t in states[j - 1].credentials ==> Removed(states, d, j - 1, t)
    requires !ReplacesAt(env, states, events, j - 1, t)
    requires !RefreshLands(env, states, events, j - 1, t)
    ensures Removed(states, d, j, t)
  {
    hide Step, Inv, Commits;
    CredentialStillThere(env, states, events, d, j - 1, j, t);
    InvAlways(env, states, events, j - 1);
    assert StepAt(env, states, events, j - 1);
    var op := events[j - 1].op;
    VersionStep(env, states[j - 1], op, events[j - 1].now, states[j], t);
    StepOutcome(env, states[j - 1], op, events[j - 1].now, states[j]);
  }

  lemma MissingHasNoKeys(env: Env, states: seq<Database>, events: seq<Event>, d: nat, j: nat, t: Id)
    requires IsRun(env, states, events) && d <= j < |states| && t in states[d].credentials && Inv(env, states[j])
    requires t in states[j].credentials ==> states[j].credentials[t].status.Missing?
    ensures t in states[j].snapshots ==> states[j].snapshots[t].keys == []
  {
    hide Step, TokensDrawn, NodesSound, Stored;
    CredentialLives(env, states, events, d, j, t);
  }

  /** A replacement that commits after a deletion was begun after it: the revision it read did not exist before. */
  lemma ReplacementIsNewer(env: Env, states: seq<Database>, events: seq<Event>, d: nat, k: nat, b: nat, t: Id)
    requires IsRun(env, states, events) && d < k < |events| && DeletesAt(env, states, events, d, t) && ReplacesAt(env, states, events, k, t)
    requires b <= k && t in states[b].credentials && states[b].credentials[t].revision == events[k].op.account.seen
    ensures d < b
  {
    hide Step, Inv, Commits, Deletes;
    ReplaceGuard(env, states, events, k, t);
    InvAlways(env, states, events, k);
    DeleteRemoves(env, states, events, d, t);
    ReplaceHasCredential(env, states, events, d, k, t);
    VersionsOrdered(env, states, events, d + 1, k, t);
    if b <= d { VersionsOrdered(env, states, events, b, d, t); }
  }

  lemma ReplaceGuard(env: Env, states: seq<Database>, events: seq<Event>, k: nat, t: Id)
    requires |states| == |events| + 1 && k < |events| && ReplacesAt(env, states, events, k, t)
    ensures t in states[k].tailnets && CredentialRevision(states[k], t) == events[k].op.account.seen
  {
    hide Rebuild, PublishIdentity;
  }

  lemma ReplaceHasCredential(env: Env, states: seq<Database>, events: seq<Event>, d: nat, k: nat, t: Id)
    requires IsRun(env, states, events) && d <= k < |states| && t in states[d].credentials && t in states[k].tailnets
    ensures t in states[k].credentials
  {
    hide Step;
    CredentialLives(env, states, events, d, k, t);
  }
}
