/** Accounts over whole runs: the first administrator is the only one
    (internal/control/auth.go). */
module AccountRuns {
  import opened Ids
  import opened Tables
  import opened PolicyView
  import opened AccountTx
  import opened Transactions
  import opened Effects
  import opened Runs

  /** No two users are administrators. */
  ghost predicate OneAdmin(users: map<Id, User>) {
    forall u, v :: u in users && v in users && users[u].role.Admin? && users[v].role.Admin? ==> u == v
  }

  /** A user stays, and an administrator stays one and is never demoted or promoted by a role change. */
  ghost predicate UsersStay(users: map<Id, User>, users': map<Id, User>) {
    && users.Keys <= users'.Keys
    && forall u :: u in users ==> users'[u].role.Admin? == users[u].role.Admin?
  }

  lemma CreateUserAdmins(db: Database, actor: Actor, id: Id, role: Role, initial: bool)
    requires OneAdmin(db.users) && id !in db.users
    ensures var tx := CreateUser(db, actor, id, role, initial); tx.Commit? ==> OneAdmin(tx.db.users) && UsersStay(db.users, tx.db.users)
  {
    hide ActiveActor;
  }

  lemma RoleAdmins(db: Database, actor: Actor, user: Id, role: Role, on: bool)
    requires OneAdmin(db.users)
    ensures var tx := SetUserRole(db, actor, user, role); tx.Commit? ==> OneAdmin(tx.db.users) && UsersStay(db.users, tx.db.users)
    ensures var tx := SetUserEnabled(db, actor, user, on); tx.Commit? ==> OneAdmin(tx.db.users) && UsersStay(db.users, tx.db.users)
  {
    hide ActiveActor, OwnsNodes;
  }

  lemma SameUsers(users: map<Id, User>)
    ensures UsersStay(users, users)
  {}

  lemma AccountAdmins(db: Database, op: AccountOp, now: int)
    requires OneAdmin(db.users) && (op.OpCreateUser? ==> op.id !in db.users)
    ensures var tx := AccountStatements(db, op, now); tx.Commit? ==> OneAdmin(tx.db.users) && UsersStay(db.users, tx.db.users)
  {
    hide OneAdmin, UsersStay;
    hide CreateUser, SetUserRole, SetUserEnabled, SetRetentions, AddTailnet, ReplaceCredential, BeginRefresh, CommitRefresh;
    hide DeleteCredential, SetTailnetEnabled, DeleteTailnet, TransferTailnet;
    SameUsers(db.users);
    match op
    case OpCreateUser(a, id, role, initial) => CreateUserAdmins(db, a, id, role, initial);
    case OpSetUserRole(a, u, role) => RoleAdmins(db, a, u, role, true);
    case OpSetUserEnabled(a, u, on) => RoleAdmins(db, a, u, Member, on);
    case _ =>
  }

  lemma AdminsStep(env: Env, db: Database, op: Op, now: int, db': Database)
    requires Commits(env, db, op, now, db') && OneAdmin(db.users) && (op.OnAccount? && op.account.OpCreateUser? ==> op.account.id !in db.users)
    ensures OneAdmin(db'.users) && UsersStay(db.users, db'.users)
  {
    hide OneAdmin, UsersStay, AccountStatements, NodeStatements, GrantStatements, Rebuild;
    SameUsers(db.users);
    CommitShape(env, db, op, now, db');
    if op.OnAccount? { AccountAdmins(db, op.account, now); }
  }

  lemma NewUser(env: Env, states: seq<Database>, events: seq<Event>, i: nat)
    requires IsRun(env, states, events) && i < |events|
    ensures events[i].op.OnAccount? && events[i].op.account.OpCreateUser? ==> events[i].op.account.id !in states[i].users
  {
    InvAlways(env, states, events, i);
    assert StepAt(env, states, events, i);
    if events[i].op.OnAccount? && events[i].op.account.OpCreateUser? { assert events[i].op.account.id in Draws(events[i].op); }
  }

  /** In every state of every run there is at most one administrator, and no step unmakes one. */
  lemma {:induction false} OneAdminAlways(env: Env, states: seq<Database>, events: seq<Event>, i: nat)
    requires IsRun(env, states, events) && i < |states|
    ensures OneAdmin(states[i].users)
    ensures i > 0 ==> UsersStay(states[i - 1].users, states[i].users)
    decreases i
  {
    hide Step, Commits, UsersStay;
    if i > 0 {
      OneAdminAlways(env, states, events, i - 1);
      assert StepAt(env, states, events, i - 1);
      NewUser(env, states, events, i - 1);
      StepOutcome(env, states[i - 1], events[i - 1].op, events[i - 1].now, states[i]);
      SameUsers(states[i].users);
      if states[i] != states[i - 1] { AdminsStep(env, states[i - 1], events[i - 1].op, events[i - 1].now, states[i]); }
    }
  }
}
