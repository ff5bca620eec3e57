/** Which menus a role sees, and the per-role cache in front of the tree. */
module MenuCache {
  import opened Wrappers
  import opened MenuTree

  datatype Profile = Profile(code: string, active: bool)

  datatype Grant = Grant(profile: string, menu: nat, visible: bool)

  /** A menu row: only active side-bar menus are shown. */
  datatype Row = Row(menu: Menu, sideBar: bool, active: bool)

  ghost predicate UniqueRows(rows: seq<Row>) {
    && (forall j, k | 0 <= j < |rows| && 0 <= k < |rows| && rows[j].menu.id == rows[k].menu.id :: j == k)
    && (forall j, k | 0 <= j < |rows| && 0 <= k < |rows| && rows[j].menu.code == rows[k].menu.code :: j == k)
  }

  /** The menu table in the query's order. */
  type MenuTable = rows: seq<Row> | UniqueRows(rows) witness []

  datatype Database = Database(profiles: seq<Profile>, grants: seq<Grant>, menus: MenuTable)

  const WORKER := "worker"

  predicate HasActive(profiles: seq<Profile>, code: string) {
    exists p <- profiles :: p.active && p.code == code
  }

  function Codes(profiles: seq<Profile>): set<string> {
    set p <- profiles :: p.code
  }

  /** The role's own profile, else the workers', else none. */
  function ProfileFor(profiles: seq<Profile>, role: string): Option<string> {
    if HasActive(profiles, role) then Some(role)
    else if HasActive(profiles, WORKER) then Some(WORKER)
    else None
  }

  function VisibleIds(grants: seq<Grant>, profile: string): set<nat> {
    set g <- grants | g.profile == profile && g.visible :: g.menu
  }

  function Shown(rows: seq<Row>, ids: set<nat>): seq<Menu> {
    if rows == [] then []
    else
      var init, last := rows[..|rows| - 1], rows[|rows| - 1];
      if last.menu.id in ids && last.sideBar && last.active then Shown(init, ids) + [last.menu] else Shown(init, ids)
  }

  lemma {:induction false} ShownMembers(rows: seq<Row>, ids: set<nat>, m: Menu)
    ensures m in Shown(rows, ids) <==> m.id in ids && Row(m, true, true) in rows
  {
    if rows != [] {
      var init, last := rows[..|rows| - 1], rows[|rows| - 1];
      ShownMembers(init, ids, m);
      assert rows == init + [last];
    }
  }

  lemma {:induction false} ShownIsUnique(rows: seq<Row>, ids: set<nat>)
    requires UniqueRows(rows)
    ensures Unique(Shown(rows, ids))
  {
    if rows != [] {
      var init, last := rows[..|rows| - 1], rows[|rows| - 1];
      ShownIsUnique(init, ids);
      forall m <- Shown(init, ids) ensures m.id != last.menu.id && m.code != last.menu.code {
        ShownMembers(init, ids, m);
        var k :| 0 <= k < |init| && init[k] == Row(m, true, true);
        assert rows[k] == init[k];
      }
    }
  }

  function Build(db: Database, role: string): seq<Node> {
    var profile := ProfileFor(db.profiles, role);
    if profile.None? then []
    else
      var ids := VisibleIds(db.grants, profile.value);
      if ids == {} then []
      else
        ShownIsUnique(db.menus, ids);
        Tree(Shown(db.menus, ids))
  }

  /** An active side-bar menu that is granted to the profile. */
  predicate Granted(db: Database, profile: string, m: Menu) {
    Row(m, true, true) in db.menus && Grant(profile, m.id, true) in db.grants
  }

  /** From a parentless menu downwards, each the parent of the next. */
  ghost predicate Linked(chain: seq<Menu>) {
    && (chain != [] ==> chain[0].parent == None)
    && forall k | 0 < k < |chain| :: chain[k].parent == Some(chain[k - 1].id)
  }

  /** Granted menus from a parentless one down to `m`. */
  ghost predicate GrantedChain(db: Database, profile: string, chain: seq<Menu>, m: Menu) {
    && chain != [] && chain[|chain| - 1] == m && Linked(chain)
    && forall k | 0 <= k < |chain| :: Granted(db, profile, chain[k])
  }

  /** The role's own profile is used if it is active, else the workers' if that is. */
  predicate Uses(db: Database, role: string, profile: string) {
    && Profile(profile, true) in db.profiles
    && (profile == role || (profile == "worker" && Profile(role, true) !in db.profiles))
  }

  /** The menu is granted to the role's profile, and so are all its ancestors up to a parentless one. */
  ghost predicate Reachable(db: Database, role: string, m: Menu) {
    exists profile, chain :: Uses(db, role, profile) && GrantedChain(db, profile, chain, m)
  }

  lemma ProfileIsUsed(db: Database, role: string, profile: string)
    ensures ProfileFor(db.profiles, role) == Some(profile) <==> Uses(db, role, profile)
  {
    forall code: string ensures HasActive(db.profiles, code) <==> Profile(code, true) in db.profiles {
      if p :| p in db.profiles && p.active && p.code == code { assert p == Profile(code, true); }
    }
  }

  lemma ShownIsGranted(db: Database, profile: string, m: Menu)
    ensures m in Shown(db.menus, VisibleIds(db.grants, profile)) <==> Granted(db, profile, m)
  {
    ShownMembers(db.menus, VisibleIds(db.grants, profile), m);
    if m.id in VisibleIds(db.grants, profile) {
      var g :| g in db.grants && g.profile == profile && g.visible && g.menu == m.id;
      assert g == Grant(profile, m.id, true);
    }
  }

  lemma ParentAbove(chain: seq<Menu>, k: nat)
    requires k < |chain|
    ensures Below(chain[..k]) == if k == 0 then None else Some(chain[k - 1].id)
  {
  }

  lemma ChainIsLinked(list: seq<Menu>, chain: seq<Menu>)
    ensures IsChain(list, chain) <==> Linked(chain) && forall m <- chain :: m in list
  {
    forall k | 0 <= k < |chain| ensures Below(chain[..k]) == if k == 0 then None else Some(chain[k - 1].id) {
      ParentAbove(chain, k);
    }
    if IsChain(list, chain) {
      forall m <- chain ensures m in list {
        var k :| 0 <= k < |chain| && chain[k] == m;
      }
    }
  }

  lemma ChainIsGranted(db: Database, profile: string, chain: seq<Menu>, m: Menu)
    requires chain != [] && chain[|chain| - 1] == m
    ensures IsChain(Shown(db.menus, VisibleIds(db.grants, profile)), chain) <==> GrantedChain(db, profile, chain, m)
  {
    ChainIsLinked(Shown(db.menus, VisibleIds(db.grants, profile)), chain);
    forall k | 0 <= k < |chain|
      ensures chain[k] in Shown(db.menus, VisibleIds(db.grants, profile)) <==> Granted(db, profile, chain[k])
    {
      ShownIsGranted(db, profile, chain[k]);
    }
  }

  /** With the profile's shown menus in a list, the menu is rooted there. */
  lemma ReachableIffRooted(db: Database, role: string, m: Menu)
    ensures Reachable(db, role, m) <==>
            && ProfileFor(db.profiles, role).Some?
            && Rooted(Shown(db.menus, VisibleIds(db.grants, ProfileFor(db.profiles, role).value)), m)
  {
    forall profile: string ensures ProfileFor(db.profiles, role) == Some(profile) <==> Uses(db, role, profile) {
      ProfileIsUsed(db, role, profile);
    }
    if ProfileFor(db.profiles, role).Some? {
      var profile := ProfileFor(db.profiles, role).value;
      forall chain: seq<Menu> | chain != [] && chain[|chain| - 1] == m
        ensures IsChain(Shown(db.menus, VisibleIds(db.grants, profile)), chain) <==> GrantedChain(db, profile, chain, m)
      {
        ChainIsGranted(db, profile, chain, m);
      }
    }
  }

  /** Every menu of the table, shown or not: once in the role's tree if reachable, otherwise not at all. */
  lemma MenuOccursOnceIffReachable(db: Database, role: string, k: nat)
    requires k < |db.menus|
    ensures var m := db.menus[k].menu;
            InNodes(Build(db, role), m.code) == if Reachable(db, role, m) then 1 else 0
  {
    var m := db.menus[k].menu;
    ReachableIffRooted(db, role, m);
    if ProfileFor(db.profiles, role).Some? {
      var ids := VisibleIds(db.grants, ProfileFor(db.profiles, role).value);
      var list := Shown(db.menus, ids);
      ShownIsUnique(db.menus, ids);
      if m in list {
        assert ids != {} by { ShownMembers(db.menus, ids, m); }
        OccursOnceIffRooted(list, m);
      } else {
        forall x <- list ensures x.code != m.code {
          ShownMembers(db.menus, ids, x);
          var j :| 0 <= j < |db.menus| && db.menus[j] == Row(x, true, true);
        }
        OnlyListed(list, ByParent(list, None), [], m.code);
      }
    }
  }

  // ---------------------------------------------------------------------------
  // The cache
  // ---------------------------------------------------------------------------

  datatype State = State(db: Database, cache: map<string, seq<Node>>)

  function Answer(s: State, role: string): seq<Node> {
    if role in s.cache then s.cache[role] else Build(s.db, role)
  }

  /** A change of menus or visibility drops the trees of all profile codes, active or not. */
  function Invalidate(s: State): State {
    s.(cache := s.cache - Codes(s.db.profiles))
  }

  datatype Step =
    | GetTree(role: string)
    | ChangeMenus(menus: MenuTable)
    | ChangeGrants(grants: seq<Grant>)
    | ChangeProfiles(profiles: seq<Profile>)
    | Expire(role: string)

  /** A change of profiles drops nothing. */
  function Next(s: State, step: Step): State {
    match step
    case GetTree(role) => s.(cache := s.cache[role := Answer(s, role)])
    case ChangeMenus(menus) => Invalidate(s.(db := s.db.(menus := menus)))
    case ChangeGrants(grants) => Invalidate(s.(db := s.db.(grants := grants)))
    case ChangeProfiles(profiles) => s.(db := s.db.(profiles := profiles))
    case Expire(role) => s.(cache := s.cache - {role})
  }

  function Run(db: Database, steps: seq<Step>): State {
    if steps == [] then State(db, map[]) else Next(Run(db, steps[..|steps| - 1]), steps[|steps| - 1])
  }

  /** Changes of menus reach the role's cached tree, or cannot change it. */
  predicate Reached(profiles: seq<Profile>, role: string) {
    role in Codes(profiles) || !HasActive(profiles, WORKER)
  }

  /** Changes of profiles leave the role its profile, and within reach. */
  ghost predicate Steady(profiles: seq<Profile>, role: string, steps: seq<Step>) {
    forall s <- steps | s.ChangeProfiles? ::
      ProfileFor(s.profiles, role) == ProfileFor(profiles, role) && Reached(s.profiles, role)
  }

  lemma {:induction false} SteadyRunKeepsProfile(db: Database, role: string, steps: seq<Step>)
    requires Reached(db.profiles, role) && Steady(db.profiles, role, steps)
    ensures var now := Run(db, steps).db.profiles;
            ProfileFor(now, role) == ProfileFor(db.profiles, role) && Reached(now, role)
  {
    if steps != [] {
      assert steps[|steps| - 1] in steps && forall s <- steps[..|steps| - 1] :: s in steps;
      SteadyRunKeepsProfile(db, role, steps[..|steps| - 1]);
    }
  }

  /** What is cached for the role is what would be built for it now. */
  predicate Current(s: State, role: string) {
    role in s.cache ==> s.cache[role] == Build(s.db, role)
  }

  lemma StepKeepsCurrent(s: State, role: string, step: Step)
    requires Current(s, role) && Reached(s.db.profiles, role)
    requires step.ChangeProfiles? ==> ProfileFor(step.profiles, role) == ProfileFor(s.db.profiles, role)
    ensures Current(Next(s, step), role)
  {
  }

  lemma {:induction false} RoleStaysFresh(db: Database, role: string, steps: seq<Step>)
    requires Reached(db.profiles, role) && Steady(db.profiles, role, steps)
    ensures Current(Run(db, steps), role)
  {
    if steps != [] {
      assert steps[|steps| - 1] in steps && forall s <- steps[..|steps| - 1] :: s in steps;
      RoleStaysFresh(db, role, steps[..|steps| - 1]);
      SteadyRunKeepsProfile(db, role, steps[..|steps| - 1]);
      StepKeepsCurrent(Run(db, steps[..|steps| - 1]), role, steps[|steps| - 1]);
    }
  }

  const HOME := Menu(1, "home", "Home", "", "/", None)
  const FIRST_GRANT := [Grant(WORKER, 1, true)]

  /** A role served by the fallback keeps its empty menu after the first menu has been set up. */
  lemma FallbackRoleStaysStale(profiles: seq<Profile>, role: string)
    requires role !in Codes(profiles) && ProfileFor(profiles, role).Some?
    ensures var db := Database(profiles, [], []);
            var s := Run(db, [GetTree(role), ChangeGrants(FIRST_GRANT), ChangeMenus([Row(HOME, true, true)])]);
            Answer(s, role) == [] && InNodes(Build(s.db, role), HOME.code) == 1
  {
    var db := Database(profiles, [], []);
    var menus: MenuTable := [Row(HOME, true, true)];
    var steps := [GetTree(role), ChangeGrants(FIRST_GRANT), ChangeMenus(menus)];
    assert steps[..2] == [GetTree(role), ChangeGrants(FIRST_GRANT)];
    assert steps[..2][..1] == [GetTree(role)] && [GetTree(role)][..0] == [];
    assert VisibleIds([], WORKER) == {};
    assert Run(db, [GetTree(role)]) == State(db, map[role := []]);
    assert Run(db, steps[..2]).cache == map[role := []];
    var s := Run(db, steps);
    assert s == State(Database(profiles, FIRST_GRANT, menus), map[role := []]);
    HomeIsReachable(s.db, role);
    MenuOccursOnceIffReachable(s.db, role, 0);
  }

  lemma HomeIsReachable(db: Database, role: string)
    requires ProfileFor(db.profiles, role).Some?
    requires db.grants == [Grant(ProfileFor(db.profiles, role).value, 1, true)] && db.menus == [Row(HOME, true, true)]
    ensures Reachable(db, role, HOME)
  {
    var profile := ProfileFor(db.profiles, role).value;
    ProfileIsUsed(db, role, profile);
    assert db.grants[0] in db.grants && db.menus[0] in db.menus;
    assert GrantedChain(db, profile, [HOME], HOME);
  }

  /**
   Every answer for the role is current in every run whose changes of profiles are steady iff the role is a profile
   code or there is no fallback.
   */
  lemma AlwaysCurrentIff(profiles: seq<Profile>, role: string)
    ensures Reached(profiles, role) <==>
            forall grants: seq<Grant>, menus: MenuTable, steps: seq<Step> | Steady(profiles, role, steps) ::
              var s := Run(Database(profiles, grants, menus), steps);
              Answer(s, role) == Build(s.db, role)
  {
    if Reached(profiles, role) {
      forall grants: seq<Grant>, menus: MenuTable, steps: seq<Step> | Steady(profiles, role, steps)
        ensures var s := Run(Database(profiles, grants, menus), steps); Answer(s, role) == Build(s.db, role)
      {
        RoleStaysFresh(Database(profiles, grants, menus), role, steps);
      }
    } else {
      FallbackRoleStaysStale(profiles, role);
      var none: MenuTable := [];
      var steps := [GetTree(role), ChangeGrants(FIRST_GRANT), ChangeMenus([Row(HOME, true, true)])];
      assert Steady(profiles, role, steps);
      var s := Run(Database(profiles, [], none), steps);
      assert Answer(s, role) != Build(s.db, role) by { assert InNodes([], HOME.code) == 0; }
    }
  }

  /** A change of profiles leaves a cached tree current, for all grants and menus, iff the role keeps its profile. */
  lemma ProfileChangeIsHarmlessIff(profiles: seq<Profile>, changed: seq<Profile>, role: string)
    ensures ProfileFor(profiles, role) == ProfileFor(changed, role) <==>
            forall grants: seq<Grant>, menus: MenuTable ::
              Answer(AfterChange(profiles, changed, grants, menus, role), role) ==
              Build(Database(changed, grants, menus), role)
  {
    var before, after := ProfileFor(profiles, role), ProfileFor(changed, role);
    if before != after {
      var menus: MenuTable := [Row(HOME, true, true)];
      var code := if before.Some? then before.value else after.value;
      var grants := [Grant(code, 1, true)];
      OnlyItsProfileSeesHome(Database(profiles, grants, menus), role, code);
      OnlyItsProfileSeesHome(Database(changed, grants, menus), role, code);
      assert Answer(AfterChange(profiles, changed, grants, menus, role), role) !=
             Build(Database(changed, grants, menus), role);
    }
  }

  /** The tree is looked up under the old profiles; then they change. */
  function AfterChange(profiles: seq<Profile>, changed: seq<Profile>, grants: seq<Grant>, menus: MenuTable,
                       role: string): State
  {
    Next(Next(State(Database(profiles, grants, menus), map[]), GetTree(role)), ChangeProfiles(changed))
  }

  lemma OnlyItsProfileSeesHome(db: Database, role: string, code: string)
    requires db.grants == [Grant(code, 1, true)] && db.menus == [Row(HOME, true, true)]
    ensures InNodes(Build(db, role), HOME.code) == if ProfileFor(db.profiles, role) == Some(code) then 1 else 0
  {
    var profile := ProfileFor(db.profiles, role);
    MenuOccursOnceIffReachable(db, role, 0);
    if profile == Some(code) {
      HomeIsReachable(db, role);
    } else if profile.Some? {
      assert VisibleIds(db.grants, profile.value) == {};
      assert InNodes([], HOME.code) == 0;
    }
  }

  class MenuService {
    var profiles: seq<Profile>
    var grants: seq<Grant>
    var menus: MenuTable
    var cache: map<string, seq<Node>>

    ghost function Model(): State
      reads this
    {
      State(Database(profiles, grants, menus), cache)
    }

    constructor (profiles: seq<Profile>, grants: seq<Grant>, menus: MenuTable)
      ensures Model() == Run(Database(profiles, grants, menus), [])
    {
      this.profiles, this.grants, this.menus, cache := profiles, grants, menus, map[];
    }

    method BuildMenuTree(role: string) returns (nodes: seq<Node>)
      ensures nodes == Build(Model().db, role)
    {
      var profile := ProfileFor(profiles, role);
      if profile.None? {
        return [];
      }
      var ids := VisibleIds(grants, profile.value);
      if ids == {} {
        return [];
      }
      ShownIsUnique(menus, ids);
      nodes := BuildTree(Shown(menus, ids));
    }

    method GetMenuTree(role: string) returns (nodes: seq<Node>)
      modifies this`cache
      ensures nodes == Answer(old(Model()), role)
      ensures Model() == Next(old(Model()), GetTree(role))
    {
      if role in cache {
        nodes := cache[role];
        assert cache[role := nodes] == cache;
        return;
      }
      nodes := BuildMenuTree(role);
      cache := cache[role := nodes];
    }

    method InvalidateMenuTreeCache()
      modifies this`cache
      ensures Model() == Invalidate(old(Model()))
    {
      for i := 0 to |profiles|
        invariant cache == old(cache) - Codes(profiles[..i])
      {
        assert profiles[..i + 1] == profiles[..i] + [profiles[i]];
        cache := cache - {profiles[i].code};
      }
      assert profiles[..|profiles|] == profiles;
    }

    method SaveMenus(menus: MenuTable)
      modifies this
      ensures Model() == Next(old(Model()), ChangeMenus(menus))
    {
      this.menus := menus;
      InvalidateMenuTreeCache();
    }

    /** No signal listens to changes of profiles. */
    method SaveProfiles(profiles: seq<Profile>)
      modifies this`profiles
      ensures Model() == Next(old(Model()), ChangeProfiles(profiles))
    {
      this.profiles := profiles;
    }

    method SaveGrants(grants: seq<Grant>)
      modifies this
      ensures Model() == Next(old(Model()), ChangeGrants(grants))
    {
      this.grants := grants;
      InvalidateMenuTreeCache();
    }
  }
}
