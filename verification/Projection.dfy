/** The sequential calls of the concurrent membership model are the services' effects on the full schema. */
module Projection {
  import opened Base
  import opened Entities
  import opened Schema
  import opened Closures
  import M = OwnershipModel

  function Memberships(t: Tables): M.Db {
    M.Db(t.users.Keys, t.workspaces.Keys, t.members)
  }

  function OwnedWorkspaces(t: Tables, u: Id): set<Id> {
    M.OwnedBy(Memberships(t), u)
  }

  lemma PruneMemberships(t: Tables, gone: set<Row>, us: set<Id>, ws: set<Id>, ks: set<Key>)
    requires forall u | u in t.users :: UserRow(u) in gone <==> u in us
    requires forall w | w in t.workspaces :: WorkspaceRow(w) in gone <==> w in ws
    requires forall k | k in t.members :: MemberRow(k) in gone <==> k in ks
    ensures Memberships(Prune(t, gone)) == M.Db(t.users.Keys - us, t.workspaces.Keys - ws, t.members - ks)
  {
    assert Prune(t, gone).users.Keys == t.users.Keys - us;
    assert Prune(t, gone).workspaces.Keys == t.workspaces.Keys - ws;
    assert Prune(t, gone).members == t.members - ks;
  }

  /** Removing the membership row with its cascade is Remove. */
  lemma RemoveProjects(t: Tables, actor: Id, k: Key)
    requires M.Verdict(M.Remove(actor, k.ws, k.user), Memberships(t)) == M.Done
    ensures Memberships(Prune(t, MemberRows(t, k))) == M.Effect(M.Remove(actor, k.ws, k.user), Memberships(t))
  {
    MemberRowsContents(t, k);
    PruneMemberships(t, MemberRows(t, k), {}, {}, {k});
  }

  /** Deleting the workspace row with its cascade is DeleteWs. */
  lemma DeleteWorkspaceProjects(t: Tables, actor: Id, w: Id)
    requires M.Verdict(M.DeleteWs(actor, w), Memberships(t)) == M.Done
    ensures Memberships(Prune(t, WorkspaceRows(t, {w}))) == M.Effect(M.DeleteWs(actor, w), Memberships(t))
  {
    hide Prune, WorkspaceRows, UserRows;
    WorkspaceRowsContents(t, {w});
    var ks := set k | k in t.members && k.ws == w;
    PruneMemberships(t, WorkspaceRows(t, {w}), {}, {w}, ks);
    assert t.members - ks == map k | k in t.members && k.ws != w :: t.members[k];
  }

  /** Deleting the owned workspaces and then the user, each with its cascade, is DeleteUser. */
  lemma DeleteUserProjects(t: Tables, u: Id)
    requires u in t.users
    ensures Memberships(Prune(t, WorkspaceRows(t, OwnedWorkspaces(t, u)) + UserRows(t, u)))
            == M.Effect(M.DeleteUser(u), Memberships(t))
  {
    hide Prune, WorkspaceRows, UserRows;
    var owned := OwnedWorkspaces(t, u);
    WorkspaceRowsContents(t, owned);
    UserRowsContents(t, u);
    var ks := set k | k in t.members && (k.ws in owned || k.user == u);
    PruneMemberships(t, WorkspaceRows(t, owned) + UserRows(t, u), {u}, owned, ks);
    assert t.members - ks == map k | k in t.members && k.ws !in owned && k.user != u :: t.members[k];
  }
}
