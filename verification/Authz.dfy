/** Which actions a grant implies: a depth-first search over an implication table, with one set of
    visited actions shared by the whole search. */
module Authz {
  type Table = map<string, seq<string>>

  function Implied(table: Table, action: string): seq<string> {
    if action in table then table[action] else []
  }

  // ----- reachability -----

  ghost predicate IsPath(table: Table, path: seq<string>) {
    |path| > 0 && forall i :: 0 <= i < |path| - 1 ==> path[i + 1] in Implied(table, path[i])
  }

  ghost predicate Leads(table: Table, path: seq<string>, from: string, to: string) {
    IsPath(table, path) && path[0] == from && path[|path| - 1] == to
  }

  /** A chain of implications leads from one action to the other. */
  ghost predicate Reaches(table: Table, from: string, to: string) {
    exists path :: Leads(table, path, from, to)
  }

  lemma ReachesItself(table: Table, action: string)
    ensures Reaches(table, action, action)
  {
    assert Leads(table, [action], action, action);
  }

  lemma ReachesNext(table: Table, from: string, next: string, to: string)
    requires next in Implied(table, from) && Reaches(table, next, to)
    ensures Reaches(table, from, to)
  {
    var path :| Leads(table, path, next, to);
    assert Leads(table, [from] + path, from, to);
  }

  lemma {:induction false} ReachesOnward(table: Table, path: seq<string>, from: string, via: string, to: string)
    requires Leads(table, path, from, via) && Reaches(table, via, to)
    ensures Reaches(table, from, to)
    decreases |path|
  {
    if |path| > 1 {
      assert path[1] in Implied(table, path[0]);
      assert Leads(table, path[1..], path[1], via);
      ReachesOnward(table, path[1..], path[1], via, to);
      ReachesNext(table, from, path[1], to);
    }
  }

  lemma ReachesIsTransitive(table: Table, from: string, via: string, to: string)
    requires Reaches(table, from, via) && Reaches(table, via, to)
    ensures Reaches(table, from, to)
  {
    var path :| Leads(table, path, from, via);
    ReachesOnward(table, path, from, via, to);
  }

  /** A set of actions that no implication leaves. */
  ghost predicate Closed(table: Table, s: set<string>) {
    forall a, b :: a in s && b in Implied(table, a) ==> b in s
  }

  lemma {:induction false} ClosedKeeps(table: Table, s: set<string>, path: seq<string>, from: string, to: string)
    requires Closed(table, s) && from in s && Leads(table, path, from, to)
    ensures to in s
    decreases |path|
  {
    if |path| > 1 {
      assert path[1] in Implied(table, path[0]);
      assert Leads(table, path[1..], path[1], to);
      ClosedKeeps(table, s, path[1..], path[1], to);
    }
  }

  lemma ClosedExcludes(table: Table, s: set<string>, from: string, to: string)
    requires Closed(table, s) && from in s && to !in s
    ensures !Reaches(table, from, to)
  {
    if path :| Leads(table, path, from, to) {
      ClosedKeeps(table, s, path, from, to);
      assert false;
    }
  }

  // ----- the search -----

  /** Every action the table mentions. */
  function Mentioned(table: Table): set<string> {
    table.Keys + set a, b | a in table && b in table[a] :: b
  }

  lemma ImpliedIsMentioned(table: Table, a: string, b: string)
    requires b in Implied(table, a)
    ensures b in Mentioned(table)
  {
  }

  class Search {
    const table: Table
    var seen: set<string>

    constructor (table: Table)
      ensures this.table == table && seen == {}
    {
      this.table := table;
      seen := {};
    }

    /** The actions of `added` have all their implications among those seen. */
    ghost predicate Explored(added: set<string>)
      reads this
    {
      forall a, b :: a in added && b in Implied(table, a) ==> b in seen
    }

    /** actionImplies: a search that fails has explored every action it added, without meeting the
        requested one. */
    method Implies(granted: string, requested: string, ghost all: set<string>) returns (found: bool)
      requires granted in all && Mentioned(table) <= all && requested !in seen
      modifies this`seen
      ensures old(seen) <= seen
      ensures found ==> Reaches(table, granted, requested)
      ensures !found ==> granted in seen && requested !in seen && Explored(seen - old(seen))
      decreases all - seen
    {
      if granted == requested {
        ReachesItself(table, granted);
        return true;
      }
      if granted in seen {
        return false;
      }
      seen := seen + {granted};
      var implied := Implied(table, granted);
      for i := 0 to |implied|
        invariant old(seen) + {granted} <= seen && requested !in seen
        invariant forall j :: 0 <= j < i ==> implied[j] in seen
        invariant Explored(seen - old(seen) - {granted})
      {
        ImpliedIsMentioned(table, granted, implied[i]);
        found := Implies(implied[i], requested, all);
        if found {
          ReachesNext(table, granted, implied[i], requested);
          return;
        }
      }
      return false;
    }
  }

  /** ActionImplies, for any finite table, cyclic or not: the search ends, and it finds the
      requested action exactly when a chain of implications leads there. */
  method ActionImplies(table: Table, granted: string, requested: string) returns (found: bool)
    ensures found <==> Reaches(table, granted, requested)
  {
    var search := new Search(table);
    ghost var all := Mentioned(table) + {granted};
    found := search.Implies(granted, requested, all);
    if !found {
      ClosedExcludes(table, search.seen, granted, requested);
    }
  }

  /** A role's grants allow the action. */
  ghost predicate Allows(table: Table, grants: seq<string>, action: string) {
    exists i :: 0 <= i < |grants| && Reaches(table, grants[i], action)
  }

  /** OrgRoleAllows and ProjectRoleAllows, for any table of grants. */
  method RoleAllows(table: Table, roles: map<string, seq<string>>, role: string, action: string) returns (allowed: bool)
    ensures allowed <==> role in roles && Allows(table, roles[role], action)
  {
    if role !in roles {
      return false;
    }
    var grants := roles[role];
    for i := 0 to |grants|
      invariant forall j :: 0 <= j < i ==> !Reaches(table, grants[j], action)
    {
      var found := ActionImplies(table, grants[i], action);
      if found {
        return true;
      }
    }
    return false;
  }

  /** If each grant of one role is allowed to another, so is every action. */
  lemma GrantsSubsume(table: Table, lesser: seq<string>, greater: seq<string>, action: string)
    requires forall i :: 0 <= i < |lesser| ==> Allows(table, greater, lesser[i])
    requires Allows(table, lesser, action)
    ensures Allows(table, greater, action)
  {
    var i :| 0 <= i < |lesser| && Reaches(table, lesser[i], action);
    var j :| 0 <= j < |greater| && Reaches(table, greater[j], lesser[i]);
    ReachesIsTransitive(table, greater[j], lesser[i], action);
  }

  // ----- the server's own table -----

  const ORG_READ := "org.read"
  const ORG_MANAGE := "org.manage"
  const ORG_OWN := "org.own"
  const ORG_SECRETS_LIST := "org.secrets.list"
  const ORG_SECRETS_MANAGE := "org.secrets.manage"
  const PROJECT_READ := "project.read"
  const PROJECT_MANAGE := "project.manage"
  const PROJECT_ACCESS_MANAGE := "project.access_manage"
  const PROJECT_SECRETS_LIST := "project.secrets.list"
  const PROJECT_SECRETS_MANAGE := "project.secrets.manage"
  const AGENT_READ := "agent.read"
  const AGENT_OPERATE := "agent.operate"
  const MACHINE_READ := "machine.read"
  const MACHINE_MANAGE := "machine.manage"

  const ACTION_IMPLICATIONS: Table := map[
    ORG_OWN := [ORG_MANAGE],
    ORG_MANAGE := [ORG_READ, ORG_SECRETS_MANAGE],
    ORG_SECRETS_MANAGE := [ORG_SECRETS_LIST],
    PROJECT_MANAGE := [PROJECT_READ, PROJECT_SECRETS_MANAGE],
    PROJECT_SECRETS_MANAGE := [PROJECT_SECRETS_LIST],
    AGENT_OPERATE := [AGENT_READ],
    MACHINE_MANAGE := [MACHINE_READ]
  ]

  const OWNER_GRANTS := [ORG_OWN]
  const ADMIN_GRANTS := [ORG_MANAGE]
  const MEMBER_GRANTS := [ORG_READ]
  const PROJECT_ADMIN_GRANTS := [PROJECT_ACCESS_MANAGE, PROJECT_MANAGE, AGENT_OPERATE]
  const PROJECT_DEVELOPER_GRANTS := [PROJECT_MANAGE, AGENT_OPERATE]
  const PROJECT_OPERATOR_GRANTS := [PROJECT_READ, AGENT_OPERATE]
  const PROJECT_VIEWER_GRANTS := [PROJECT_READ, AGENT_READ]

  lemma Implications()
    ensures Implied(ACTION_IMPLICATIONS, ORG_OWN) == [ORG_MANAGE]
    ensures Implied(ACTION_IMPLICATIONS, ORG_MANAGE) == [ORG_READ, ORG_SECRETS_MANAGE]
    ensures Implied(ACTION_IMPLICATIONS, PROJECT_MANAGE) == [PROJECT_READ, PROJECT_SECRETS_MANAGE]
    ensures Implied(ACTION_IMPLICATIONS, AGENT_OPERATE) == [AGENT_READ]
  {
  }

  lemma OneStep(from: string, to: string)
    requires to in Implied(ACTION_IMPLICATIONS, from)
    ensures Reaches(ACTION_IMPLICATIONS, from, to)
  {
    ReachesItself(ACTION_IMPLICATIONS, to);
    ReachesNext(ACTION_IMPLICATIONS, from, to, to);
  }

  /** Each organisation role allows whatever the role below it allows. */
  lemma OrgRolesNest(action: string)
    ensures Allows(ACTION_IMPLICATIONS, MEMBER_GRANTS, action) ==> Allows(ACTION_IMPLICATIONS, ADMIN_GRANTS, action)
    ensures Allows(ACTION_IMPLICATIONS, ADMIN_GRANTS, action) ==> Allows(ACTION_IMPLICATIONS, OWNER_GRANTS, action)
  {
    Implications();
    OneStep(ORG_MANAGE, ORG_READ);
    OneStep(ORG_OWN, ORG_MANAGE);
    if Allows(ACTION_IMPLICATIONS, MEMBER_GRANTS, action) {
      assert Reaches(ACTION_IMPLICATIONS, ADMIN_GRANTS[0], MEMBER_GRANTS[0]);
      GrantsSubsume(ACTION_IMPLICATIONS, MEMBER_GRANTS, ADMIN_GRANTS, action);
    }
    if Allows(ACTION_IMPLICATIONS, ADMIN_GRANTS, action) {
      assert Reaches(ACTION_IMPLICATIONS, OWNER_GRANTS[0], ADMIN_GRANTS[0]);
      GrantsSubsume(ACTION_IMPLICATIONS, ADMIN_GRANTS, OWNER_GRANTS, action);
    }
  }

  lemma HasOwnGrant(grants: seq<string>, i: nat)
    requires i < |grants|
    ensures Allows(ACTION_IMPLICATIONS, grants, grants[i])
  {
    ReachesItself(ACTION_IMPLICATIONS, grants[i]);
  }

  /** Each project role allows whatever the role below it allows. */
  lemma ProjectRolesNest(action: string)
    ensures Allows(ACTION_IMPLICATIONS, PROJECT_VIEWER_GRANTS, action) ==> Allows(ACTION_IMPLICATIONS, PROJECT_OPERATOR_GRANTS, action)
    ensures Allows(ACTION_IMPLICATIONS, PROJECT_OPERATOR_GRANTS, action) ==> Allows(ACTION_IMPLICATIONS, PROJECT_DEVELOPER_GRANTS, action)
    ensures Allows(ACTION_IMPLICATIONS, PROJECT_DEVELOPER_GRANTS, action) ==> Allows(ACTION_IMPLICATIONS, PROJECT_ADMIN_GRANTS, action)
  {
    Implications();
    if Allows(ACTION_IMPLICATIONS, PROJECT_VIEWER_GRANTS, action) {
      HasOwnGrant(PROJECT_OPERATOR_GRANTS, 0);
      OneStep(AGENT_OPERATE, AGENT_READ);
      assert Reaches(ACTION_IMPLICATIONS, PROJECT_OPERATOR_GRANTS[1], AGENT_READ);
      GrantsSubsume(ACTION_IMPLICATIONS, PROJECT_VIEWER_GRANTS, PROJECT_OPERATOR_GRANTS, action);
    }
    if Allows(ACTION_IMPLICATIONS, PROJECT_OPERATOR_GRANTS, action) {
      HasOwnGrant(PROJECT_DEVELOPER_GRANTS, 1);
      OneStep(PROJECT_MANAGE, PROJECT_READ);
      assert Reaches(ACTION_IMPLICATIONS, PROJECT_DEVELOPER_GRANTS[0], PROJECT_READ);
      GrantsSubsume(ACTION_IMPLICATIONS, PROJECT_OPERATOR_GRANTS, PROJECT_DEVELOPER_GRANTS, action);
    }
    if Allows(ACTION_IMPLICATIONS, PROJECT_DEVELOPER_GRANTS, action) {
      HasOwnGrant(PROJECT_ADMIN_GRANTS, 1);
      HasOwnGrant(PROJECT_ADMIN_GRANTS, 2);
      GrantsSubsume(ACTION_IMPLICATIONS, PROJECT_DEVELOPER_GRANTS, PROJECT_ADMIN_GRANTS, action);
    }
  }

  /** A role with these grants allows exactly the actions of the set. */
  ghost predicate AllowsExactly(grants: seq<string>, actions: set<string>) {
    forall action :: Allows(ACTION_IMPLICATIONS, grants, action) <==> action in actions
  }

  /** Enough for that: no implication leaves the set, and each of its actions is granted or implied by
      another one that is reached. */
  lemma ExactlyIfClosed(grants: seq<string>, actions: set<string>)
    requires Closed(ACTION_IMPLICATIONS, actions) && forall i :: 0 <= i < |grants| ==> grants[i] in actions
    requires forall action :: action in actions ==> Allows(ACTION_IMPLICATIONS, grants, action)
    ensures AllowsExactly(grants, actions)
  {
    forall action | Allows(ACTION_IMPLICATIONS, grants, action) ensures action in actions {
      var i :| 0 <= i < |grants| && Reaches(ACTION_IMPLICATIONS, grants[i], action);
      if action !in actions {
        ClosedExcludes(ACTION_IMPLICATIONS, actions, grants[i], action);
        assert false;
      }
    }
  }

  lemma AllowsNext(grants: seq<string>, via: string, action: string)
    requires Allows(ACTION_IMPLICATIONS, grants, via) && action in Implied(ACTION_IMPLICATIONS, via)
    ensures Allows(ACTION_IMPLICATIONS, grants, action)
  {
    var i :| 0 <= i < |grants| && Reaches(ACTION_IMPLICATIONS, grants[i], via);
    OneStep(via, action);
    ReachesIsTransitive(ACTION_IMPLICATIONS, grants[i], via, action);
  }

  /** The actions from which no implication leads on. */
  lemma Leaves()
    ensures Implied(ACTION_IMPLICATIONS, ORG_READ) == [] && Implied(ACTION_IMPLICATIONS, ORG_SECRETS_LIST) == []
    ensures Implied(ACTION_IMPLICATIONS, PROJECT_READ) == [] && Implied(ACTION_IMPLICATIONS, PROJECT_SECRETS_LIST) == []
    ensures Implied(ACTION_IMPLICATIONS, AGENT_READ) == [] && Implied(ACTION_IMPLICATIONS, PROJECT_ACCESS_MANAGE) == []
    ensures Implied(ACTION_IMPLICATIONS, MACHINE_READ) == []
    ensures Implied(ACTION_IMPLICATIONS, ORG_SECRETS_MANAGE) == [ORG_SECRETS_LIST]
    ensures Implied(ACTION_IMPLICATIONS, PROJECT_SECRETS_MANAGE) == [PROJECT_SECRETS_LIST]
    ensures Implied(ACTION_IMPLICATIONS, MACHINE_MANAGE) == [MACHINE_READ]
  {
  }

  /** What each organisation role allows, action by action: the roles are strictly nested. */
  lemma OrgRolesExactly()
    ensures AllowsExactly(MEMBER_GRANTS, {"org.read"})
    ensures AllowsExactly(ADMIN_GRANTS, {"org.read", "org.manage", "org.secrets.list", "org.secrets.manage"})
    ensures AllowsExactly(OWNER_GRANTS, {"org.read", "org.manage", "org.own", "org.secrets.list", "org.secrets.manage"})
  {
    MemberExactly();
    AdminExactly();
    OwnerExactly();
  }

  lemma MemberExactly()
    ensures AllowsExactly(MEMBER_GRANTS, {ORG_READ})
  {
    Leaves();
    HasOwnGrant(MEMBER_GRANTS, 0);
    ExactlyIfClosed(MEMBER_GRANTS, {ORG_READ});
  }

  lemma ManagesOrg(grants: seq<string>)
    requires Allows(ACTION_IMPLICATIONS, grants, ORG_MANAGE)
    ensures Allows(ACTION_IMPLICATIONS, grants, ORG_READ) && Allows(ACTION_IMPLICATIONS, grants, ORG_SECRETS_MANAGE)
    ensures Allows(ACTION_IMPLICATIONS, grants, ORG_SECRETS_LIST)
  {
    Implications();
    Leaves();
    AllowsNext(grants, ORG_MANAGE, ORG_READ);
    AllowsNext(grants, ORG_MANAGE, ORG_SECRETS_MANAGE);
    AllowsNext(grants, ORG_SECRETS_MANAGE, ORG_SECRETS_LIST);
  }

  lemma AdminExactly()
    ensures AllowsExactly(ADMIN_GRANTS, {ORG_READ, ORG_MANAGE, ORG_SECRETS_LIST, ORG_SECRETS_MANAGE})
  {
    Implications();
    Leaves();
    HasOwnGrant(ADMIN_GRANTS, 0);
    ManagesOrg(ADMIN_GRANTS);
    ExactlyIfClosed(ADMIN_GRANTS, {ORG_READ, ORG_MANAGE, ORG_SECRETS_LIST, ORG_SECRETS_MANAGE});
  }

  lemma OwnerExactly()
    ensures AllowsExactly(OWNER_GRANTS, {ORG_READ, ORG_MANAGE, ORG_OWN, ORG_SECRETS_LIST, ORG_SECRETS_MANAGE})
  {
    Implications();
    Leaves();
    HasOwnGrant(OWNER_GRANTS, 0);
    AllowsNext(OWNER_GRANTS, ORG_OWN, ORG_MANAGE);
    ManagesOrg(OWNER_GRANTS);
    ExactlyIfClosed(OWNER_GRANTS, {ORG_READ, ORG_MANAGE, ORG_OWN, ORG_SECRETS_LIST, ORG_SECRETS_MANAGE});
  }

  /** What each project role allows, action by action: the roles are strictly nested. */
  lemma ProjectRolesExactly()
    ensures AllowsExactly(PROJECT_VIEWER_GRANTS, {"project.read", "agent.read"})
    ensures AllowsExactly(PROJECT_OPERATOR_GRANTS, {"project.read", "agent.read", "agent.operate"})
    ensures AllowsExactly(PROJECT_DEVELOPER_GRANTS,
      {"project.read", "project.manage", "project.secrets.list", "project.secrets.manage", "agent.read", "agent.operate"})
    ensures AllowsExactly(PROJECT_ADMIN_GRANTS,
      {"project.read", "project.manage", "project.access_manage", "project.secrets.list", "project.secrets.manage",
       "agent.read", "agent.operate"})
  {
    ViewerExactly();
    OperatorExactly();
    DeveloperExactly();
    ProjectAdminExactly();
  }

  lemma ViewerExactly()
    ensures AllowsExactly(PROJECT_VIEWER_GRANTS, {PROJECT_READ, AGENT_READ})
  {
    Leaves();
    HasOwnGrant(PROJECT_VIEWER_GRANTS, 0);
    HasOwnGrant(PROJECT_VIEWER_GRANTS, 1);
    ExactlyIfClosed(PROJECT_VIEWER_GRANTS, {PROJECT_READ, AGENT_READ});
  }

  lemma OperatorExactly()
    ensures AllowsExactly(PROJECT_OPERATOR_GRANTS, {PROJECT_READ, AGENT_READ, AGENT_OPERATE})
  {
    Implications();
    Leaves();
    HasOwnGrant(PROJECT_OPERATOR_GRANTS, 0);
    HasOwnGrant(PROJECT_OPERATOR_GRANTS, 1);
    AllowsNext(PROJECT_OPERATOR_GRANTS, AGENT_OPERATE, AGENT_READ);
    ExactlyIfClosed(PROJECT_OPERATOR_GRANTS, {PROJECT_READ, AGENT_READ, AGENT_OPERATE});
  }

  lemma ManagesProject(grants: seq<string>)
    requires Allows(ACTION_IMPLICATIONS, grants, PROJECT_MANAGE) && Allows(ACTION_IMPLICATIONS, grants, AGENT_OPERATE)
    ensures Allows(ACTION_IMPLICATIONS, grants, PROJECT_READ) && Allows(ACTION_IMPLICATIONS, grants, PROJECT_SECRETS_MANAGE)
    ensures Allows(ACTION_IMPLICATIONS, grants, PROJECT_SECRETS_LIST) && Allows(ACTION_IMPLICATIONS, grants, AGENT_READ)
  {
    Implications();
    Leaves();
    AllowsNext(grants, PROJECT_MANAGE, PROJECT_READ);
    AllowsNext(grants, PROJECT_MANAGE, PROJECT_SECRETS_MANAGE);
    AllowsNext(grants, PROJECT_SECRETS_MANAGE, PROJECT_SECRETS_LIST);
    AllowsNext(grants, AGENT_OPERATE, AGENT_READ);
  }

  lemma ClosedTogether(a: set<string>, b: set<string>)
    requires Closed(ACTION_IMPLICATIONS, a) && Closed(ACTION_IMPLICATIONS, b)
    ensures Closed(ACTION_IMPLICATIONS, a + b)
  {
  }

  lemma ProjectSetsClosed()
    ensures Closed(ACTION_IMPLICATIONS, {PROJECT_READ, PROJECT_MANAGE, PROJECT_SECRETS_LIST, PROJECT_SECRETS_MANAGE})
    ensures Closed(ACTION_IMPLICATIONS, {AGENT_READ, AGENT_OPERATE}) && Closed(ACTION_IMPLICATIONS, {PROJECT_ACCESS_MANAGE})
  {
    Implications();
    Leaves();
  }

  lemma DeveloperExactly()
    ensures AllowsExactly(PROJECT_DEVELOPER_GRANTS,
      {PROJECT_READ, PROJECT_MANAGE, PROJECT_SECRETS_LIST, PROJECT_SECRETS_MANAGE, AGENT_READ, AGENT_OPERATE})
  {
    var project, agent := {PROJECT_READ, PROJECT_MANAGE, PROJECT_SECRETS_LIST, PROJECT_SECRETS_MANAGE}, {AGENT_READ, AGENT_OPERATE};
    ProjectSetsClosed();
    ClosedTogether(project, agent);
    HasOwnGrant(PROJECT_DEVELOPER_GRANTS, 0);
    HasOwnGrant(PROJECT_DEVELOPER_GRANTS, 1);
    ManagesProject(PROJECT_DEVELOPER_GRANTS);
    ExactlyIfClosed(PROJECT_DEVELOPER_GRANTS, project + agent);
  }

  lemma AdminReaches()
    ensures forall action :: action in {PROJECT_READ, PROJECT_MANAGE, PROJECT_SECRETS_LIST, PROJECT_SECRETS_MANAGE} ==>
      Allows(ACTION_IMPLICATIONS, PROJECT_ADMIN_GRANTS, action)
    ensures forall action :: action in {AGENT_READ, AGENT_OPERATE} ==> Allows(ACTION_IMPLICATIONS, PROJECT_ADMIN_GRANTS, action)
    ensures Allows(ACTION_IMPLICATIONS, PROJECT_ADMIN_GRANTS, PROJECT_ACCESS_MANAGE)
  {
    HasOwnGrant(PROJECT_ADMIN_GRANTS, 0);
    HasOwnGrant(PROJECT_ADMIN_GRANTS, 1);
    HasOwnGrant(PROJECT_ADMIN_GRANTS, 2);
    ManagesProject(PROJECT_ADMIN_GRANTS);
  }

  lemma ProjectAdminExactly()
    ensures AllowsExactly(PROJECT_ADMIN_GRANTS,
      {PROJECT_READ, PROJECT_MANAGE, PROJECT_ACCESS_MANAGE, PROJECT_SECRETS_LIST, PROJECT_SECRETS_MANAGE, AGENT_READ, AGENT_OPERATE})
  {
    var project, agent := {PROJECT_READ, PROJECT_MANAGE, PROJECT_SECRETS_LIST, PROJECT_SECRETS_MANAGE}, {AGENT_READ, AGENT_OPERATE};
    var all := project + agent + {PROJECT_ACCESS_MANAGE};
    assert Closed(ACTION_IMPLICATIONS, all) by {
      ProjectSetsClosed();
      ClosedTogether(project, agent);
      ClosedTogether(project + agent, {PROJECT_ACCESS_MANAGE});
    }
    AdminReaches();
    ExactlyIfClosed(PROJECT_ADMIN_GRANTS, all);
  }
}
