/** How the invariant of the full schema is taken apart and put together again. */
module Soundness {
  import opened Entities
  import opened Schema

  lemma SoundParts(t: Tables)
    requires Sound(t)
    ensures Intact(t) && EveryWorkspaceOwned(t) && AccountsMatch(t) && NobodyWritesToThemselves(t)
    ensures IdentityKeys(t) && MemberKeys(t) && SeatKeys(t) && MessageKeys(t) && CountsOk(t.messages)
  {
    hide EveryWorkspaceOwned, AccountsMatch, NobodyWritesToThemselves;
  }

  lemma AssembleSound(t: Tables, t': Tables)
    requires NobodyWritesToThemselves(t) && t'.directs == t.directs
    requires Intact(t') && AccountsMatch(t') && EveryWorkspaceOwned(t')
    ensures Sound(t')
  {
    hide Intact, AccountsMatch, EveryWorkspaceOwned;
  }

  lemma SameUsersSound(t: Tables, t': Tables)
    requires Sound(t) && Intact(t') && t'.users == t.users && t'.identities == t.identities && t'.directs == t.directs
    requires EveryWorkspaceOwned(t')
    ensures Sound(t')
  {
    hide Intact, EveryWorkspaceOwned;
    forall u | u in t'.users ensures Known(t', u) {
      assert Known(t, u);
    }
  }

  lemma SameAccounts(t: Tables, t': Tables)
    requires EveryWorkspaceOwned(t) && AccountsMatch(t)
    requires t'.users == t.users && t'.identities == t.identities
    requires t'.workspaces == t.workspaces && t'.members == t.members
    ensures EveryWorkspaceOwned(t') && AccountsMatch(t')
  {
    forall u | u in t'.users ensures Known(t', u) { assert Known(t, u); }
    forall w | w in t'.workspaces ensures Schema.Owned(t', w) { assert Schema.Owned(t, w); }
  }

  lemma SameMembersSound(t: Tables, t': Tables)
    requires Sound(t) && Intact(t') && NobodyWritesToThemselves(t')
    requires t'.users == t.users && t'.identities == t.identities
    requires t'.workspaces == t.workspaces && t'.members == t.members
    ensures Sound(t')
  {
    SoundParts(t);
    hide Intact, EveryWorkspaceOwned, AccountsMatch;
    SameAccounts(t, t');
  }

  lemma SameDirects(t: Tables, t': Tables)
    requires NobodyWritesToThemselves(t) && t'.directs == t.directs
    ensures NobodyWritesToThemselves(t')
  {
  }

  lemma NoUsersUnrestricted(t: Tables, gone: set<Row>)
    requires forall u :: UserRow(u) !in gone
    ensures Unrestricted(t, gone)
  {
  }
}
