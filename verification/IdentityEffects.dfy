/** What one step can do to a tailnet's credential and identity snapshot. */
module IdentityEffects {
  import opened Ids
  import opened Protocol
  import opened Tables
  import opened AccountTx
  import opened Transactions
  import opened Effects

  /** The operation publishes a complete identity for `t` if it commits. */
  predicate Publishes(op: Op, t: Id) {
    && op.OnAccount?
    && (|| (op.account.OpAddTailnet? && op.account.id == t)
        || (op.account.OpReplaceCredential? && op.account.tailnet == t)
        || (op.account.OpCommitRefresh? && op.account.tailnet == t && op.account.found.Some?))
  }

  predicate Deletes(op: Op, t: Id) {
    op.OnAccount? && op.account.OpDeleteCredential? && op.account.tailnet == t
  }

  /** Every way a tailnet's identity comes to be what it is after a transaction. */
  predicate SnapshotFate(db: Database, op: Op, now: int, mid: Database, t: Id)
    requires t in mid.snapshots
  {
    if t !in db.snapshots then
      Publishes(op, t)
    else
      || mid.snapshots[t] == db.snapshots[t]
      || (Publishes(op, t) && mid.snapshots[t].lastSuccess == now >= db.snapshots[t].lastSuccess)
      || (Deletes(op, t) && mid.snapshots[t].lastSuccess == db.snapshots[t].lastSuccess && mid.snapshots[t].keys == [])
  }

  /** The credential's version: each refresh start, replacement and deletion makes it later. */
  predicate Later(a: Credential, b: Credential) {
    a.revision < b.revision || (a.revision == b.revision && a.refreshSeq < b.refreshSeq)
  }

  predicate SameVersion(a: Credential, b: Credential) { a.revision == b.revision && a.refreshSeq == b.refreshSeq }

  /** The operation starts a refresh of `t`, replaces its credential, or deletes it. */
  predicate NewVersion(op: Op, t: Id) {
    && op.OnAccount?
    && (|| (op.account.OpBeginRefresh? && op.account.tailnet == t)
        || (op.account.OpReplaceCredential? && op.account.tailnet == t)
        || (op.account.OpDeleteCredential? && op.account.tailnet == t))
  }

  /** Every way a tailnet's credential comes to be what it is after a transaction. */
  predicate CredentialFate(db: Database, op: Op, mid: Database, t: Id)
    requires t in mid.credentials
  {
    if t !in db.credentials then
      Publishes(op, t)
    else
      var a, b := db.credentials[t], mid.credentials[t];
      || (b == a && !NewVersion(op, t))
      || (op.OnAccount? && op.account.OpCommitRefresh? && op.account.tailnet == t && SameVersion(a, b) && !b.status.Missing?
          && a.revision == op.account.revision && a.refreshSeq == op.account.refreshSeq)
      || (op.OnAccount? && op.account.OpBeginRefresh? && op.account.tailnet == t && b == a.(refreshSeq := a.refreshSeq + 1) && !a.status.Missing?)
      || (op.OnAccount? && op.account.OpReplaceCredential? && op.account.tailnet == t && op.account.seen == a.revision && b == Credential(Valid, a.revision + 1, 0))
      || (Deletes(op, t) && b == Credential(Missing, a.revision + 1, 0))
  }

  lemma AddTailnetFate(db: Database, actor: Actor, id: Id, apiId: Id, keys: seq<DeviceKey>, now: int, t: Id)
    ensures var op, tx := OnAccount(OpAddTailnet(actor, id, apiId, keys)), AddTailnet(db, actor, id, apiId, keys, now);
            tx.Commit? ==> IdentityFate(db, op, now, tx.db, t)
  {
    hide ApiIdTaken;
  }

  /** Both tables at once; a snapshot goes only with its tailnet. */
  ghost predicate IdentityFate(db: Database, op: Op, now: int, mid: Database, t: Id) {
    && (t in mid.snapshots ==> SnapshotFate(db, op, now, mid, t))
    && (t in mid.credentials && !(op.OnAccount? && op.account.OpAddTailnet? && op.account.id == t) ==> CredentialFate(db, op, mid, t))
    && (t in db.snapshots ==> t in mid.snapshots || t !in mid.tailnets)
    && (t in db.credentials ==> t in mid.credentials || t !in mid.tailnets)
  }

  lemma ReplaceCredentialFate(db: Database, actor: Actor, u: Id, seen: int, keys: seq<DeviceKey>, now: int, t: Id)
    ensures var op, tx := OnAccount(OpReplaceCredential(actor, u, seen, keys)), ReplaceCredential(db, actor, u, seen, keys, now);
            tx.Commit? ==> IdentityFate(db, op, now, tx.db, t)
  {
    hide TailnetOwner;
  }

  lemma BeginRefreshFate(db: Database, u: Id, now: int, t: Id)
    ensures var op, tx := OnAccount(OpBeginRefresh(u)), BeginRefresh(db, u);
            tx.Commit? ==> IdentityFate(db, op, now, tx.db, t)
  {}

  lemma CommitRefreshFate(db: Database, u: Id, r: int, s: int, found: Option<seq<DeviceKey>>, now: int, t: Id)
    ensures var op, tx := OnAccount(OpCommitRefresh(u, r, s, found)), CommitRefresh(db, u, r, s, found, now);
            tx.Commit? ==> IdentityFate(db, op, now, tx.db, t)
  {}

  lemma DeleteCredentialFate(db: Database, actor: Actor, u: Id, now: int, t: Id)
    ensures var op, tx := OnAccount(OpDeleteCredential(actor, u)), DeleteCredential(db, actor, u);
            tx.Commit? ==> IdentityFate(db, op, now, tx.db, t)
  {
    hide TailnetOwner;
  }

  lemma DeleteTailnetFate(db: Database, actor: Actor, u: Id, now: int, t: Id)
    ensures var op, tx := OnAccount(OpDeleteTailnet(actor, u)), DeleteTailnet(db, actor, u);
            tx.Commit? ==> IdentityFate(db, op, now, tx.db, t)
  {
    hide TailnetOwner;
  }

  lemma UntouchedFate(db: Database, op: Op, now: int, tx: Tx, t: Id)
    requires tx.Commit? ==> tx.db.credentials == db.credentials && tx.db.snapshots == db.snapshots
    requires !NewVersion(op, t)
    ensures tx.Commit? ==> IdentityFate(db, op, now, tx.db, t)
  {}

  lemma QuietOps(op: AccountOp, t: Id)
    ensures NewVersion(OnAccount(op), t) ==> op.OpBeginRefresh? || op.OpReplaceCredential? || op.OpDeleteCredential?
  {}

  /** Operations that touch neither credentials nor snapshots. */
  predicate LeavesIdentity(op: AccountOp) {
    || op.OpBeginReplace? || op.OpCreateUser? || op.OpSetUserRole? || op.OpSetUserEnabled? || op.OpSetRetentions?
    || op.OpSetTailnetEnabled? || op.OpTransferTailnet?
  }

  lemma QuietIdentity(db: Database, op: AccountOp, now: int, t: Id)
    requires LeavesIdentity(op)
    ensures var tx := AccountStatements(db, op, now); tx.Commit? ==> IdentityFate(db, OnAccount(op), now, tx.db, t)
  {
    hide IdentityFate, NewVersion, AccountStatements;
    QuietOps(op, t);
    QuietTables(db, op, now);
    UntouchedFate(db, OnAccount(op), now, AccountStatements(db, op, now), t);
  }

  lemma QuietTables(db: Database, op: AccountOp, now: int)
    requires LeavesIdentity(op)
    ensures var tx := AccountStatements(db, op, now); tx.Commit? ==> tx.db.credentials == db.credentials && tx.db.snapshots == db.snapshots
  {
    hide CreateUser, SetUserRole, SetUserEnabled, SetRetentions, AddTailnet, ReplaceCredential, DeleteCredential;
    hide SetTailnetEnabled, DeleteTailnet, TransferTailnet, BeginRefresh, CommitRefresh;
  }

  lemma AccountIdentity(db: Database, op: AccountOp, now: int, t: Id)
    ensures var tx := AccountStatements(db, op, now); tx.Commit? ==> IdentityFate(db, OnAccount(op), now, tx.db, t)
  {
    hide IdentityFate, NewVersion, Publishes, Deletes;
    hide CreateUser, SetUserRole, SetUserEnabled, SetRetentions, AddTailnet, ReplaceCredential, DeleteCredential;
    hide SetTailnetEnabled, DeleteTailnet, TransferTailnet, BeginRefresh, CommitRefresh;
    match op
    case OpAddTailnet(a, id, apiId, keys) => AddTailnetFate(db, a, id, apiId, keys, now, t);
    case OpReplaceCredential(a, u, seen, keys) => ReplaceCredentialFate(db, a, u, seen, keys, now, t);
    case OpBeginRefresh(u) => BeginRefreshFate(db, u, now, t);
    case OpCommitRefresh(u, r, s, found) => CommitRefreshFate(db, u, r, s, found, now, t);
    case OpDeleteCredential(a, u) => DeleteCredentialFate(db, a, u, now, t);
    case OpDeleteTailnet(a, u) => DeleteTailnetFate(db, a, u, now, t);
    case _ => QuietIdentity(db, op, now, t);
  }

  lemma IdentityOf(env: Env, db: Database, op: Op, now: int, t: Id)
    ensures var tx := Statements(env, db, op, now); tx.Commit? ==> IdentityFate(db, op, now, tx.db, t)
  {
    hide AccountStatements, NodeStatements, GrantStatements, IdentityFate;
    match op
    case OnAccount(a) => AccountIdentity(db, a, now, t);
    case _ => UntouchedFate(db, op, now, Statements(env, db, op, now), t);
  }

  lemma IdentityStep(env: Env, db: Database, op: Op, now: int, db': Database, t: Id)
    requires Commits(env, db, op, now, db')
    ensures IdentityFate(db, op, now, db', t)
  {
    hide Statements, IdentityFate;
    CommitShape(env, db, op, now, db');
    IdentityOf(env, db, op, now, t);
    IdentityFrame(db, op, now, Statements(env, db, op, now).db, db', t);
  }

  lemma IdentityFrame(db: Database, op: Op, now: int, mid: Database, db': Database, t: Id)
    requires mid.snapshots == db'.snapshots && mid.credentials == db'.credentials && mid.tailnets == db'.tailnets
    requires IdentityFate(db, op, now, mid, t)
    ensures IdentityFate(db, op, now, db', t)
  {}
}
