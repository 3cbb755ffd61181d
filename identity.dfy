/** The part of the Keycloak admin API the plugin talks to: the groups of one
    realm, forming a forest, and the (user, group) memberships. The admin client
    calls used by the plugin are groups.find, groups.findOne,
    groups.createChildGroup, groups.del and users.addToGroup; each is a method of
    `Store` whose effect is given by a function on a snapshot `KcState`. */
module Identity {
  import opened Wrappers

  type GroupId = nat
  type UserId = string

  /** A stored group: its name, the group it was created under, and its
      children in creation order. */
  datatype Group = Group(name: string, parentId: Option<GroupId>, subGroups: seq<GroupId>)

  datatype KcState = KcState(
    groups: map<GroupId, Group>,
    members: set<(UserId, GroupId)>,
    users: set<UserId>,
    nextId: GroupId)

  /** The HTTP errors the admin API answers with: 404 and 409. */
  datatype ApiError = NotFound | Conflict

  /** GroupRepresentation: a group together with its whole subtree. */
  datatype GroupRep = GroupRep(id: GroupId, name: string, subGroups: seq<GroupRep>)

  predicate IsRoot(s: KcState, g: GroupId) {
    g in s.groups && s.groups[g].parentId.None?
  }

  /** Every listed child exists, was created after its parent and points back
      to it; siblings have distinct names. */
  predicate ChildrenOk(s: KcState, g: GroupId)
    requires g in s.groups
  {
    var kids := s.groups[g].subGroups;
    && (forall c :: c in kids ==> c in s.groups && g < c && s.groups[c].parentId == Some(g))
    && (forall a, b :: a in kids && b in kids && s.groups[a].name == s.groups[b].name ==> a == b)
  }

  /** A child list that only loses entries keeps ChildrenOk, as long as the
      entries left keep their names and parents. */
  lemma ChildrenOkShrink(s: KcState, t: KcState, g: GroupId)
    requires g in s.groups && ChildrenOk(s, g) && g in t.groups
    requires forall c :: c in t.groups[g].subGroups ==>
      && c in s.groups[g].subGroups && c in t.groups
      && t.groups[c].name == s.groups[c].name && t.groups[c].parentId == s.groups[c].parentId
    ensures ChildrenOk(t, g)
  {
  }

  /** What Keycloak maintains: ids are allocated in increasing order, children
      are consistent, and top-level names are unique. */
  predicate WellFormed(s: KcState) {
    && (forall g :: g in s.groups ==> g < s.nextId && ChildrenOk(s, g))
    && (forall a, b :: a in s.groups && b in s.groups && IsRoot(s, a) && IsRoot(s, b) && s.groups[a].name == s.groups[b].name ==> a == b)
  }

  // ---------------------------------------------------------------------------
  // Representations

  function RepOf(s: KcState, id: GroupId): (r: GroupRep)
    requires WellFormed(s) && id in s.groups
    ensures r.id == id && r.name == s.groups[id].name
    ensures |r.subGroups| == |s.groups[id].subGroups|
    ensures forall i :: 0 <= i < |r.subGroups| ==> r.subGroups[i].id == s.groups[id].subGroups[i]
    decreases s.nextId - id, 1
  {
    assert ChildrenOk(s, id);
    GroupRep(id, s.groups[id].name, RepsOf(s, id, s.groups[id].subGroups))
  }

  function RepsOf(s: KcState, above: int, ids: seq<GroupId>): (r: seq<GroupRep>)
    requires WellFormed(s)
    requires forall c :: c in ids ==> c in s.groups && above < c
    ensures |r| == |ids|
    ensures forall i :: 0 <= i < |ids| ==> r[i] == RepOf(s, ids[i])
    decreases s.nextId - above, 0, |ids|
  {
    if ids == [] then []
    else
      assert forall c :: c in ids[1..] ==> c in ids;
      var rest := RepsOf(s, above, ids[1..]);
      assert forall i :: 1 <= i < |ids| ==> ids[i] == ids[1..][i - 1];
      [RepOf(s, ids[0])] + rest
  }

  /** The top-level groups with ids below `n`, in increasing id order. */
  function RootsBelow(s: KcState, n: nat): (r: seq<GroupId>)
    ensures forall i :: 0 <= i < |r| ==> IsRoot(s, r[i]) && r[i] < n
    ensures forall g: GroupId :: IsRoot(s, g) && g < n ==> g in r
  {
    if n == 0 then []
    else RootsBelow(s, n - 1) + (if IsRoot(s, n - 1) then [n - 1] else [])
  }

  /** The top-level groups with their subtrees, in increasing id order: what
      groups.find({ search }) answers before the server trims child lists
      (see SearchAnswer). The server's own matching is not modelled; every
      caller keeps only the entries whose name equals the search string, and
      the exact match is always among the server's answers. */
  function TopLevel(s: KcState): (r: seq<GroupRep>)
    ensures forall i :: 0 <= i < |r| ==> IsRoot(s, r[i].id) && r[i] == RepOf(s, r[i].id)
    ensures forall g :: IsRoot(s, g) ==> exists i :: 0 <= i < |r| && r[i].id == g
    requires WellFormed(s)
  {
    RepsOf(s, -1, RootsBelow(s, s.nextId))
  }

  /** `list.find(g => g.name === name)`. */
  function FindNamed(reps: seq<GroupRep>, name: string): (r: Option<GroupRep>)
    ensures r.None? <==> forall i :: 0 <= i < |reps| ==> reps[i].name != name
    ensures r.Some? ==> exists i :: 0 <= i < |reps| && reps[i] == r.value && r.value.name == name
                                    && forall j :: 0 <= j < i ==> reps[j].name != name
  {
    if reps == [] then None
    else if reps[0].name == name then Some(reps[0])
    else
      var rest := FindNamed(reps[1..], name);
      assert forall i :: 1 <= i < |reps| ==> reps[i] == reps[1..][i - 1];
      rest
  }

  predicate IsChildNamed(s: KcState, parent: GroupId, c: GroupId, name: string) {
    parent in s.groups && c in s.groups[parent].subGroups && c in s.groups && s.groups[c].name == name
  }

  predicate HasChildNamed(s: KcState, parent: GroupId, name: string)
    requires WellFormed(s) && parent in s.groups
  {
    exists c :: c in s.groups[parent].subGroups && c in s.groups && s.groups[c].name == name
  }

  /** Looking a child up by name in the parent's representation finds the
      child of that name when there is one, and nothing otherwise. */
  lemma ChildLookup(s: KcState, parent: GroupId, name: string)
    requires WellFormed(s) && parent in s.groups
    ensures var f := FindNamed(RepOf(s, parent).subGroups, name);
      && (f.None? <==> !HasChildNamed(s, parent, name))
      && (f.Some? ==> && f.value.id in s.groups[parent].subGroups && f.value.id in s.groups
                      && s.groups[f.value.id].name == name && f.value == RepOf(s, f.value.id))
  {
    var kids := s.groups[parent].subGroups;
    var reps := RepOf(s, parent).subGroups;
    assert ChildrenOk(s, parent);
    assert reps == RepsOf(s, parent, kids);
    assert forall i :: 0 <= i < |kids| ==> reps[i] == RepOf(s, kids[i]);
  }

  /** The child of `parent` named `name` is unique. */
  lemma ChildNamedUnique(s: KcState, parent: GroupId, a: GroupId, b: GroupId)
    requires WellFormed(s) && parent in s.groups
    requires a in s.groups[parent].subGroups && b in s.groups[parent].subGroups
    requires a in s.groups && b in s.groups && s.groups[a].name == s.groups[b].name
    ensures a == b
  {
    assert ChildrenOk(s, parent);
    var kids := s.groups[parent].subGroups;
    var i :| 0 <= i < |kids| && kids[i] == a;
    var j :| 0 <= j < |kids| && kids[j] == b;
  }

  /** Searching the top level by exact name finds the top-level group of that
      name when there is one, and nothing otherwise. */
  lemma TopLevelLookup(s: KcState, name: string)
    requires WellFormed(s)
    ensures var f := FindNamed(TopLevel(s), name);
      && (f.None? <==> forall g :: IsRoot(s, g) ==> s.groups[g].name != name)
      && (f.Some? ==> IsRoot(s, f.value.id) && s.groups[f.value.id].name == name && f.value == RepOf(s, f.value.id))
  {
    var roots := RootsBelow(s, s.nextId);
    var reps := TopLevel(s);
    assert forall i :: 0 <= i < |roots| ==> reps[i] == RepOf(s, roots[i]);
    forall g | IsRoot(s, g) && s.groups[g].name == name
      ensures exists i :: 0 <= i < |reps| && reps[i].name == name
    {
      assert g in roots;
      var i :| 0 <= i < |roots| && roots[i] == g;
      assert reps[i].name == name;
    }
  }

  /** `groups.find({ search: name })` followed by `.find(grp => grp.name === name)`:
      the top-level group of that name, which Keycloak keeps unique. */
  function TopLevelNamed(s: KcState, name: string): (r: Option<GroupRep>)
    requires WellFormed(s)
    ensures r.None? <==> forall g :: IsRoot(s, g) ==> s.groups[g].name != name
    ensures r.Some? ==> IsRoot(s, r.value.id) && s.groups[r.value.id].name == name && r.value == RepOf(s, r.value.id)
    ensures r.Some? ==> forall g :: IsRoot(s, g) && s.groups[g].name == name ==> g == r.value.id
  {
    TopLevelLookup(s, name);
    FindNamed(TopLevel(s), name)
  }

  /** The entries of a child list that a search answer shows: the server may
      leave some out (for a search, those of branches that do not match it),
      named here by id as `unlisted`. */
  function Listed(reps: seq<GroupRep>, unlisted: set<GroupId>): (r: seq<GroupRep>)
    ensures forall x :: x in r <==> x in reps && x.id !in unlisted
  {
    if reps == [] then []
    else
      assert forall x :: x in reps <==> x == reps[0] || x in reps[1..];
      (if reps[0].id in unlisted then [] else [reps[0]]) + Listed(reps[1..], unlisted)
  }

  /** One top-level group as a search answer shows it: its children listed
      as the server chooses. No caller reads deeper than that. */
  function Answered(rep: GroupRep, unlisted: set<GroupId>): GroupRep {
    rep.(subGroups := Listed(rep.subGroups, unlisted))
  }

  /** groups.find({ search }): every top-level group, each with the children the server lists. */
  function SearchAnswer(reps: seq<GroupRep>, unlisted: set<GroupId>): (r: seq<GroupRep>)
    ensures |r| == |reps|
    ensures forall i :: 0 <= i < |reps| ==> r[i] == Answered(reps[i], unlisted)
  {
    if reps == [] then [] else [Answered(reps[0], unlisted)] + SearchAnswer(reps[1..], unlisted)
  }

  /** Looking a name up in the answer finds the answered form of the group
      that the lookup in the full list finds. */
  lemma {:induction false} FindNamedAnswer(reps: seq<GroupRep>, unlisted: set<GroupId>, name: string)
    ensures var f := FindNamed(reps, name);
      FindNamed(SearchAnswer(reps, unlisted), name) == if f.Some? then Some(Answered(f.value, unlisted)) else None
  {
    if reps != [] {
      var a := SearchAnswer(reps, unlisted);
      assert a[1..] == SearchAnswer(reps[1..], unlisted);
      FindNamedAnswer(reps[1..], unlisted, name);
    }
  }

  /** `groups.find({ search: name })` followed by `.find(grp => grp.name === name)`,
      as the answer shows it: the top-level group of that name with the
      children the server lists. */
  function SearchNamed(s: KcState, unlisted: set<GroupId>, name: string): (r: Option<GroupRep>)
    requires WellFormed(s)
    ensures r.None? <==> TopLevelNamed(s, name).None?
    ensures r.Some? ==> r == Some(Answered(TopLevelNamed(s, name).value, unlisted))
  {
    FindNamedAnswer(TopLevel(s), unlisted, name);
    FindNamed(SearchAnswer(TopLevel(s), unlisted), name)
  }

  /** Looking a child up by name in a listing of the parent's children finds
      one exactly when the child of that name exists and is listed. */
  lemma ListedChildLookup(s: KcState, parent: GroupId, unlisted: set<GroupId>, name: string)
    requires WellFormed(s) && parent in s.groups
    ensures FindNamed(Listed(RepOf(s, parent).subGroups, unlisted), name).Some?
        <==> exists c :: IsChildNamed(s, parent, c, name) && c !in unlisted
  {
    var kids := s.groups[parent].subGroups;
    var reps := RepOf(s, parent).subGroups;
    var shown := Listed(reps, unlisted);
    assert ChildrenOk(s, parent);
    assert reps == RepsOf(s, parent, kids);
    assert forall i :: 0 <= i < |kids| ==> reps[i] == RepOf(s, kids[i]);
    if FindNamed(shown, name).Some? {
      var j :| 0 <= j < |shown| && shown[j] == FindNamed(shown, name).value;
      assert shown[j] in reps;
      var i :| 0 <= i < |reps| && reps[i] == shown[j];
      assert IsChildNamed(s, parent, kids[i], name) && kids[i] !in unlisted;
    }
    if exists c :: IsChildNamed(s, parent, c, name) && c !in unlisted {
      var c :| IsChildNamed(s, parent, c, name) && c !in unlisted;
      var i :| 0 <= i < |kids| && kids[i] == c;
      assert reps[i] in shown;
    }
  }

  /** `t` is `s` after groups were only added below existing ones or given
      new children: nothing removed or renamed, child lists only extended,
      no new top-level group. */
  predicate Grows(s: KcState, t: KcState) {
    && s.groups.Keys <= t.groups.Keys
    && (forall g :: g in s.groups ==>
          && t.groups[g].name == s.groups[g].name && t.groups[g].parentId == s.groups[g].parentId
          && s.groups[g].subGroups <= t.groups[g].subGroups)
    && (forall g :: g in t.groups && g !in s.groups ==> t.groups[g].parentId.Some?)
    && t.users == s.users
  }

  lemma GrowsTrans(s: KcState, t: KcState, u: KcState)
    requires Grows(s, t) && Grows(t, u)
    ensures Grows(s, u)
  {
    forall g | g in s.groups
      ensures s.groups[g].subGroups <= u.groups[g].subGroups
    {
      var a, b, c := s.groups[g].subGroups, t.groups[g].subGroups, u.groups[g].subGroups;
      assert a == b[..|a|] && b == c[..|b|];
      assert c[..|a|] == c[..|b|][..|a|];
    }
  }

  /** A child stays a child of its parent as the realm grows. */
  lemma ChildStays(s: KcState, t: KcState, parent: GroupId, c: GroupId)
    requires Grows(s, t) && parent in s.groups && c in s.groups[parent].subGroups
    ensures c in t.groups[parent].subGroups
  {
    var a, b := s.groups[parent].subGroups, t.groups[parent].subGroups;
    var i :| 0 <= i < |a| && a[i] == c;
    assert b[i] == a[i];
  }

  /** The top-level lookup by name gives the same group as the realm grows. */
  lemma TopLevelNamedStable(s: KcState, t: KcState, name: string)
    requires WellFormed(s) && WellFormed(t) && Grows(s, t)
    ensures TopLevelNamed(s, name).None? <==> TopLevelNamed(t, name).None?
    ensures TopLevelNamed(s, name).Some? ==> TopLevelNamed(t, name).value.id == TopLevelNamed(s, name).value.id
  {
    var a, b := TopLevelNamed(s, name), TopLevelNamed(t, name);
    assert forall g :: IsRoot(t, g) ==> IsRoot(s, g);
    if a.Some? {
      assert IsRoot(t, a.value.id);
    }
  }

  // ---------------------------------------------------------------------------
  // Store primitives

  /** groups.createChildGroup({ id: parentId }, { name }): 404 for a missing
      parent, 409 when a sibling already has the name; otherwise a new empty
      group with a fresh id, appended to the parent's children. */
  function CreateChildSpec(s: KcState, parentId: GroupId, name: string): (r: (Result<GroupId, ApiError>, KcState))
    requires WellFormed(s)
    ensures WellFormed(r.1) && Grows(s, r.1) && r.1.members == s.members
    ensures parentId !in s.groups ==> r == (Failure(NotFound), s)
    ensures parentId in s.groups && HasChildNamed(s, parentId, name) ==> r == (Failure(Conflict), s)
    ensures parentId in s.groups && !HasChildNamed(s, parentId, name) ==>
      r == (Success(s.nextId), Attached(s, parentId, name))
  {
    if parentId !in s.groups then (Failure(NotFound), s)
    else if HasChildNamed(s, parentId, name) then (Failure(Conflict), s)
    else
      AttachedKeepsWellFormed(s, parentId, name);
      AttachedGrows(s, parentId, name);
      (Success(s.nextId), Attached(s, parentId, name))
  }

  /** The realm after a new empty group `name` is appended under `parentId`. */
  function Attached(s: KcState, parentId: GroupId, name: string): (t: KcState)
    requires parentId in s.groups
    ensures t.groups.Keys == s.groups.Keys + {s.nextId} && t.nextId == s.nextId + 1
    ensures t.members == s.members && t.users == s.users
    ensures t.groups[s.nextId] == Group(name, Some(parentId), [])
    ensures parentId != s.nextId ==>
      t.groups[parentId] == s.groups[parentId].(subGroups := s.groups[parentId].subGroups + [s.nextId])
    ensures forall g :: g in s.groups && g != parentId && g != s.nextId ==> t.groups[g] == s.groups[g]
  {
    var p := s.groups[parentId];
    KcState(s.groups[parentId := p.(subGroups := p.subGroups + [s.nextId])][s.nextId := Group(name, Some(parentId), [])],
            s.members, s.users, s.nextId + 1)
  }

  lemma AttachedGrows(s: KcState, parentId: GroupId, name: string)
    requires WellFormed(s) && parentId in s.groups
    ensures Grows(s, Attached(s, parentId, name))
  {
  }

  lemma AttachedChildrenOk(s: KcState, parentId: GroupId, name: string, g: GroupId)
    requires WellFormed(s) && parentId in s.groups && !HasChildNamed(s, parentId, name)
    requires g in Attached(s, parentId, name).groups
    ensures ChildrenOk(Attached(s, parentId, name), g)
  {
    var t := Attached(s, parentId, name);
    if g == s.nextId {
    } else if g == parentId {
      assert ChildrenOk(s, parentId);
      var kids := t.groups[g].subGroups;
      assert forall c :: c in kids ==> c in s.groups[parentId].subGroups || c == s.nextId;
      assert forall c :: c in s.groups[parentId].subGroups ==> c in s.groups && t.groups[c] == s.groups[c];
    } else {
      assert ChildrenOk(s, g);
      assert forall c :: c in s.groups[g].subGroups ==> c in s.groups && c != s.nextId;
    }
  }

  lemma AttachedKeepsWellFormed(s: KcState, parentId: GroupId, name: string)
    requires WellFormed(s) && parentId in s.groups && !HasChildNamed(s, parentId, name)
    ensures WellFormed(Attached(s, parentId, name))
  {
    var t := Attached(s, parentId, name);
    forall g | g in t.groups
      ensures g < t.nextId && ChildrenOk(t, g)
    {
      AttachedChildrenOk(s, parentId, name, g);
    }
    forall a, b | a in t.groups && b in t.groups && IsRoot(t, a) && IsRoot(t, b) && t.groups[a].name == t.groups[b].name
      ensures a == b
    {
      AttachedRootsUnique(s, parentId, name, a, b);
    }
  }

  /** The new group has a parent, so the roots and their names are those of `s`. */
  lemma AttachedRootsUnique(s: KcState, parentId: GroupId, name: string, a: GroupId, b: GroupId)
    requires WellFormed(s) && parentId in s.groups
    requires var t := Attached(s, parentId, name);
      IsRoot(t, a) && IsRoot(t, b) && t.groups[a].name == t.groups[b].name
    ensures a == b
  {
    var t := Attached(s, parentId, name);
    assert a != s.nextId && b != s.nextId;
    assert IsRoot(s, a) && IsRoot(s, b);
    assert s.groups[a].name == t.groups[a].name && s.groups[b].name == t.groups[b].name;
  }

  /** users.addToGroup: 404 for an unknown user or group; otherwise the
      membership holds afterwards (adding it twice changes nothing). */
  function AddToGroupSpec(s: KcState, user: UserId, groupId: GroupId): (r: (Outcome<ApiError>, KcState))
    ensures r.0.Pass? <==> user in s.users && groupId in s.groups
    ensures r.1.groups == s.groups && r.1.users == s.users && r.1.nextId == s.nextId
    ensures r.1.members == if r.0.Pass? then s.members + {(user, groupId)} else s.members
    ensures WellFormed(s) ==> WellFormed(r.1) && Grows(s, r.1)
  {
    if user !in s.users || groupId !in s.groups then (Fail(NotFound), s)
    else (Pass, s.(members := s.members + {(user, groupId)}))
  }

  function Without(ids: seq<GroupId>, x: GroupId): (r: seq<GroupId>)
    ensures forall y :: y in r <==> y in ids && y != x
    ensures forall i :: 0 <= i < |r| ==> exists j :: 0 <= j < |ids| && ids[j] == r[i]
  {
    if ids == [] then []
    else (if ids[0] == x then [] else [ids[0]]) + Without(ids[1..], x)
  }

  /** The realm after removing group `id`: it leaves the map and its parent's
      child list, and its memberships go with it. */
  function Detached(s: KcState, id: GroupId): KcState
    requires id in s.groups
  {
    var parent := s.groups[id].parentId;
    var kept := map g | g in s.groups && g != id :: s.groups[g];
    var groups := if parent.Some? && parent.value in kept
                  then kept[parent.value := kept[parent.value].(subGroups := Without(kept[parent.value].subGroups, id))]
                  else kept;
    KcState(groups, (set p | p in s.members && p.1 != id), s.users, s.nextId)
  }

  lemma DetachedFacts(s: KcState, id: GroupId)
    requires id in s.groups
    ensures var t := Detached(s, id);
      && t.nextId == s.nextId && t.groups.Keys == s.groups.Keys - {id}
      && forall g :: g in t.groups ==>
           && t.groups[g].name == s.groups[g].name && t.groups[g].parentId == s.groups[g].parentId
           && t.groups[g].subGroups == if Some(g) == s.groups[id].parentId then Without(s.groups[g].subGroups, id)
                                       else s.groups[g].subGroups
  {
  }

  lemma DetachedKeepsWellFormed(s: KcState, id: GroupId)
    requires WellFormed(s) && id in s.groups
    ensures WellFormed(Detached(s, id))
  {
    var t := Detached(s, id);
    DetachedFacts(s, id);
    forall g | g in t.groups
      ensures g < t.nextId && ChildrenOk(t, g)
    {
      assert ChildrenOk(s, g);
      if Some(g) != s.groups[id].parentId {
        assert id !in s.groups[g].subGroups;
      }
      ChildrenOkShrink(s, t, g);
    }
    assert forall a :: IsRoot(t, a) ==> IsRoot(s, a);
  }

  /** groups.del({ id }): 404 for a missing group; otherwise the group and its
      memberships are gone and it is no longer listed under its parent. */
  function DelSpec(s: KcState, id: GroupId): (r: (Outcome<ApiError>, KcState))
    requires WellFormed(s)
    ensures WellFormed(r.1) && r.1.users == s.users
    ensures r.0.Pass? <==> id in s.groups
    ensures r.0.Fail? ==> r.1 == s
    ensures r.1.groups.Keys == s.groups.Keys - {id}
    ensures forall g :: g in r.1.groups ==>
      r.1.groups[g].name == s.groups[g].name && r.1.groups[g].parentId == s.groups[g].parentId
    ensures forall g, c :: g in r.1.groups && c in r.1.groups[g].subGroups ==> c in s.groups[g].subGroups
    ensures r.0.Pass? ==> r.1.members == (set p | p in s.members && p.1 != id)
  {
    if id !in s.groups then (Fail(NotFound), s)
    else
      DetachedKeepsWellFormed(s, id);
      DetachedFacts(s, id);
      (Pass, Detached(s, id))
  }

  /** Deleting a group that exists is itself the only change to the parent and
      child relation: every other (parent, child) pair not involving it stays. */
  lemma DelChildFacts(s: KcState, x: GroupId)
    requires WellFormed(s) && x in s.groups
    ensures var t := DelSpec(s, x).1;
      forall p, c, n :: IsChildNamed(t, p, c, n) <==> IsChildNamed(s, p, c, n) && c != x && p != x
  {
    var t := DelSpec(s, x).1;
    DetachedFacts(s, x);
    assert t == Detached(s, x);
    forall p, c, n
      ensures IsChildNamed(t, p, c, n) <==> IsChildNamed(s, p, c, n) && c != x && p != x
    {
      if p in t.groups && Some(p) == s.groups[x].parentId {
        assert c in t.groups[p].subGroups <==> c in s.groups[p].subGroups && c != x;
      }
      if p in t.groups && Some(p) != s.groups[x].parentId && p != x {
        assert ChildrenOk(s, p);
        assert x !in s.groups[p].subGroups;
      }
    }
  }

  /** `ids` are groups absent from `s`, and in `t` each is the child of
      `parentId` with the corresponding name. */
  predicate CreatedUnder(s: KcState, t: KcState, parentId: GroupId, ids: seq<GroupId>, names: seq<string>) {
    |ids| == |names| && forall i :: 0 <= i < |ids| ==> ids[i] !in s.groups && IsChildNamed(t, parentId, ids[i], names[i])
  }

  lemma CreatedUnderCons(s: KcState, t: KcState, u: KcState, parentId: GroupId, id: GroupId, ids: seq<GroupId>, names: seq<string>)
    requires |names| > 0 && Grows(s, t) && Grows(t, u) && id !in s.groups && IsChildNamed(t, parentId, id, names[0])
    requires CreatedUnder(t, u, parentId, ids, names[1..])
    ensures CreatedUnder(s, u, parentId, [id] + ids, names)
  {
    ChildStays(t, u, parentId, id);
    forall i | 1 <= i < |ids| + 1
      ensures ([id] + ids)[i] !in s.groups && IsChildNamed(u, parentId, ([id] + ids)[i], names[i])
    {
      assert ([id] + ids)[i] == ids[i - 1] && names[i] == names[1..][i - 1];
    }
  }

  /** Several createChildGroup calls under one parent, in order, stopping at
      the first error (the source writes them out one after the other). */
  function CreateChildren(s: KcState, parentId: GroupId, names: seq<string>): (r: (Result<seq<GroupId>, ApiError>, KcState))
    requires WellFormed(s)
    ensures WellFormed(r.1) && Grows(s, r.1) && r.1.members == s.members
    ensures |names| > 0 && parentId in s.groups && HasChildNamed(s, parentId, names[0]) ==> r == (Failure(Conflict), s)
    decreases |names|
  {
    if names == [] then (Success([]), s)
    else
      var first := CreateChildSpec(s, parentId, names[0]);
      if first.0.Failure? then (Failure(first.0.error), first.1)
      else
        var rest := CreateChildren(first.1, parentId, names[1..]);
        GrowsTrans(s, first.1, rest.1);
        if rest.0.Failure? then (Failure(rest.0.error), rest.1)
        else (Success([first.0.value] + rest.0.value), rest.1)
  }

  /** A successful createChildGroup gives a new child with the requested name. */
  lemma CreateChildMakesChild(s: KcState, parentId: GroupId, name: string)
    requires WellFormed(s)
    ensures var r := CreateChildSpec(s, parentId, name);
      r.0.Success? ==> r.0.value !in s.groups && IsChildNamed(r.1, parentId, r.0.value, name)
  {
    if parentId in s.groups && !HasChildNamed(s, parentId, name) {
      var t := Attached(s, parentId, name);
      assert s.nextId in t.groups[parentId].subGroups;
    }
  }

  /** On success every name is a new child of the parent, in the given order. */
  lemma {:induction false} CreateChildrenCreates(s: KcState, parentId: GroupId, names: seq<string>)
    requires WellFormed(s)
    ensures var r := CreateChildren(s, parentId, names);
      r.0.Success? ==> CreatedUnder(s, r.1, parentId, r.0.value, names)
    decreases |names|
  {
    if names != [] {
      var first := CreateChildSpec(s, parentId, names[0]);
      if first.0.Success? {
        var rest := CreateChildren(first.1, parentId, names[1..]);
        if rest.0.Success? {
          CreateChildMakesChild(s, parentId, names[0]);
          CreateChildrenCreates(first.1, parentId, names[1..]);
          CreatedUnderCons(s, first.1, rest.1, parentId, first.0.value, rest.0.value, names);
          assert CreateChildren(s, parentId, names) == (Success([first.0.value] + rest.0.value), rest.1);
        }
      }
    }
  }

  predicate MemberOfAll(s: KcState, user: UserId, ids: seq<GroupId>) {
    forall i :: 0 <= i < |ids| ==> (user, ids[i]) in s.members
  }

  /** Several addToGroup calls for one user, in order, stopping at the first error. */
  function AddAll(s: KcState, user: UserId, ids: seq<GroupId>): (r: (Outcome<ApiError>, KcState))
    ensures r.1.groups == s.groups && r.1.users == s.users && r.1.nextId == s.nextId
    ensures WellFormed(s) ==> WellFormed(r.1) && Grows(s, r.1)
    ensures s.members <= r.1.members
    ensures ids == [] ==> r == (Pass, s)
    decreases |ids|
  {
    if ids == [] then (Pass, s)
    else
      var first := AddToGroupSpec(s, user, ids[0]);
      if first.0.Fail? then first else AddAll(first.1, user, ids[1..])
  }

  /** The calls all succeed exactly when the user and every group exist; then the
      user is in every group, and the only memberships added are of the user in
      one of the groups. */
  lemma {:induction false} AddAllEffect(s: KcState, user: UserId, ids: seq<GroupId>)
    ensures var r := AddAll(s, user, ids);
      forall p :: p in r.1.members && p !in s.members ==> p.0 == user && p.1 in ids
    ensures var r := AddAll(s, user, ids);
      ids != [] ==> (r.0.Pass? <==> user in s.users && forall i :: 0 <= i < |ids| ==> ids[i] in s.groups)
    ensures var r := AddAll(s, user, ids);
      r.0.Pass? ==> MemberOfAll(r.1, user, ids)
    decreases |ids|
  {
    if ids != [] {
      var first := AddToGroupSpec(s, user, ids[0]);
      if first.0.Pass? {
        AddAllEffect(first.1, user, ids[1..]);
        assert forall i :: 1 <= i < |ids| ==> ids[i] == ids[1..][i - 1];
      }
    }
  }

  /** Four addToGroup calls in a row, spelled out. */
  lemma AddAllFour(s: KcState, user: UserId, ids: seq<GroupId>)
    requires |ids| == 4
    ensures var a := AddToGroupSpec(s, user, ids[0]);
      var b := AddToGroupSpec(a.1, user, ids[1]);
      var c := AddToGroupSpec(b.1, user, ids[2]);
      var d := AddToGroupSpec(c.1, user, ids[3]);
      AddAll(s, user, ids) == if a.0.Fail? then a else if b.0.Fail? then b else if c.0.Fail? then c else d
  {
    var a := AddToGroupSpec(s, user, ids[0]);
    var b := AddToGroupSpec(a.1, user, ids[1]);
    var c := AddToGroupSpec(b.1, user, ids[2]);
    var d := AddToGroupSpec(c.1, user, ids[3]);
    assert ids[1..][1..] == ids[2..] && ids[2..][1..] == ids[3..] && ids[3..][1..] == [];
    assert AddAll(c.1, user, ids[3..]) == d;
    assert AddAll(b.1, user, ids[2..]) == if c.0.Fail? then c else d;
    assert AddAll(a.1, user, ids[1..]) == if b.0.Fail? then b else if c.0.Fail? then c else d;
  }

  // ---------------------------------------------------------------------------
  // The store

  class Store {
    var groups: map<GroupId, Group>
    var members: set<(UserId, GroupId)>
    const users: set<UserId>
    var nextId: GroupId
    /** The children the server leaves out of search answers. */
    const unlisted: set<GroupId>

    function State(): KcState
      reads this
    {
      KcState(groups, members, users, nextId)
    }

    predicate Valid()
      reads this
    {
      WellFormed(State())
    }

    constructor (initial: KcState, unlisted: set<GroupId>)
      requires WellFormed(initial)
      ensures Valid() && State() == initial && this.unlisted == unlisted
    {
      groups := initial.groups;
      members := initial.members;
      users := initial.users;
      nextId := initial.nextId;
      this.unlisted := unlisted;
    }

    /** groups.find({ search }); see TopLevel for what is assumed about
        `search` and SearchAnswer for the trimmed child lists. */
    method Find(search: string) returns (r: seq<GroupRep>)
      requires Valid()
      ensures r == SearchAnswer(TopLevel(State()), unlisted)
    {
      r := SearchAnswer(TopLevel(State()), unlisted);
    }

    /** groups.findOne({ id }): the client answers `undefined` for a missing id. */
    method FindOne(id: GroupId) returns (r: Option<GroupRep>)
      requires Valid()
      ensures r.Some? <==> id in groups
      ensures r.Some? ==> r.value == RepOf(State(), id)
    {
      if id in groups {
        r := Some(RepOf(State(), id));
      } else {
        r := None;
      }
    }

    method CreateChildGroup(parentId: GroupId, name: string) returns (r: Result<GroupId, ApiError>)
      requires Valid()
      modifies this
      ensures Valid()
      ensures (r, State()) == CreateChildSpec(old(State()), parentId, name)
    {
      var t;
      r, t := CreateChildSpec(State(), parentId, name).0, CreateChildSpec(State(), parentId, name).1;
      groups, members, nextId := t.groups, t.members, t.nextId;
    }

    method AddToGroup(user: UserId, groupId: GroupId) returns (r: Outcome<ApiError>)
      modifies this
      ensures (r, State()) == AddToGroupSpec(old(State()), user, groupId)
      ensures old(Valid()) ==> Valid()
    {
      var t;
      r, t := AddToGroupSpec(State(), user, groupId).0, AddToGroupSpec(State(), user, groupId).1;
      members := t.members;
    }

    method Del(id: GroupId) returns (r: Outcome<ApiError>)
      requires Valid()
      modifies this
      ensures Valid()
      ensures (r, State()) == DelSpec(old(State()), id)
    {
      var t;
      r, t := DelSpec(State(), id).0, DelSpec(State(), id).1;
      groups, members, nextId := t.groups, t.members, t.nextId;
    }
  }
}
