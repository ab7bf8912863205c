/**
 The projection of role-based permissions into a relationship model: the generated model, how the
 store evaluates it, and the tuples one member is given.
 */
module Fga {

  datatype Kind = User | Organization | Project

  datatype Object = Object(kind: Kind, id: string)

  datatype Tuple = Tuple(user: Object, relation: string, target: Object)

  /** A relation's definition in the store's schema. */
  datatype Userset = This | Computed(relation: string) | Union(child: seq<Userset>) | FromTupleset(tupleset: string, relation: string)

  type Relations = map<string, Userset>

  type Model = map<Kind, Relations>

  /** The permission catalog, the order of the system roles and what each of them holds. */
  datatype Catalog = Catalog(permissions: seq<string>, order: seq<string>, roles: map<string, set<string>>)

  const ROLE_ORDER: seq<string> := ["owner", "admin", "billing", "developer", "member"]

  // ---------------------------------------------------------------- relation names

  function Replace(s: string): (r: string)
    ensures |r| == |s| && forall i | 0 <= i < |s| :: r[i] == if s[i] == ':' then '_' else s[i]
  {
    if s == [] then [] else [if s[0] == ':' then '_' else s[0]] + Replace(s[1..])
  }

  function RelationFor(permission: string): string {
    "can_" + Replace(permission)
  }

  ghost predicate Injective(catalog: set<string>) {
    forall p, q | p in catalog && q in catalog && RelationFor(p) == RelationFor(q) :: p == q
  }

  /** Keys without an underscore never share a relation name. */
  lemma UnderscoreFreeIsInjective(catalog: set<string>)
    requires forall p | p in catalog :: '_' !in p
    ensures Injective(catalog)
  {
    forall p, q | p in catalog && q in catalog && RelationFor(p) == RelationFor(q) ensures p == q {
      assert Replace(p) == RelationFor(p)[4..] && Replace(q) == RelationFor(q)[4..];
      assert |p| == |q| && forall i | 0 <= i < |p| :: p[i] == q[i];
    }
  }

  /** With underscores they can: two keys share a relation exactly when they differ in nothing but
      colons against underscores, as `file_tag:read` and `file:tag_read` do. */
  lemma CollideIff(p: string, q: string)
    ensures RelationFor(p) == RelationFor(q)
            <==> |p| == |q| && forall i | 0 <= i < |p| :: p[i] == q[i] || {p[i], q[i]} == {':', '_'}
  {
    assert Replace(p) == RelationFor(p)[4..] && Replace(q) == RelationFor(q)[4..];
    if |p| == |q| && forall i | 0 <= i < |p| :: p[i] == q[i] || {p[i], q[i]} == {':', '_'} {
      forall i | 0 <= i < |p| ensures Replace(p)[i] == Replace(q)[i] {
        if p[i] != q[i] { assert p[i] in {':', '_'} && q[i] in {':', '_'}; }
      }
      assert Replace(p) == Replace(q);
    }
    if Replace(p) == Replace(q) {
      forall i | 0 <= i < |p| ensures p[i] == q[i] || {p[i], q[i]} == {':', '_'} {
        assert Replace(p)[i] == Replace(q)[i];
      }
    }
  }

  lemma RolesAreNotPermissions(p: string, role: string)
    requires role in ROLE_ORDER
    ensures RelationFor(p) != role
  {
    assert RelationFor(p)[3] == '_';
    assert role == "owner" || role == "admin" || role == "billing" || role == "developer" || role == "member";
    assert "owner"[3] == 'e' && "admin"[3] == 'i' && "billing"[3] == 'l' && "developer"[3] == 'e' && "member"[3] == 'b';
  }

  // ---------------------------------------------------------------- the generated model

  function RolesHolding(roles: map<string, set<string>>, p: string, order: seq<string>): (r: seq<string>)
    ensures forall role :: role in r <==> role in order && role in roles && p in roles[role]
  {
    if order == [] then []
    else (if order[0] in roles && p in roles[order[0]] then [order[0]] else []) + RolesHolding(roles, p, order[1..])
  }

  /** What a catalog has to satisfy: relation names are one-to-one on it and never a role's name,
      and every role of the order is defined. */
  ghost predicate WellFormed(c: Catalog) {
    && Injective(set p | p in c.permissions)
    && (forall p: string, role | role in c.order :: RelationFor(p) != role)
    && (forall role | role in c.order :: role in c.roles)
  }

  /** The shipped role names, with any permissions whose keys have no underscore. */
  lemma ShippedRolesAreWellFormed(c: Catalog)
    requires c.order == ROLE_ORDER && (forall p | p in c.permissions :: '_' !in p)
    requires forall role | role in c.order :: role in c.roles
    ensures WellFormed(c)
  {
    UnderscoreFreeIsInjective(set p | p in c.permissions);
    forall p: string, role | role in c.order ensures RelationFor(p) != role { RolesAreNotPermissions(p, role); }
  }

  function UnionOf(children: seq<Userset>): Userset {
    if |children| == 1 then children[0] else Union(children)
  }

  /** The operands of a permission's union: the direct tuples, then one per role holding it. */
  function Operands(c: Catalog, p: string): seq<Userset> {
    var holders := RolesHolding(c.roles, p, c.order);
    [This] + seq(|holders|, i requires 0 <= i < |holders| => Computed(holders[i]))
  }

  function PermissionRelation(c: Catalog, p: string): Userset {
    UnionOf(Operands(c, p))
  }

  /** One direct relation per role, one computed relation per permission. */
  ghost predicate OrganizationRelations(c: Catalog, permissions: seq<string>, relations: Relations) {
    && (forall rel :: rel in relations <==> rel in c.order || exists p :: p in permissions && rel == RelationFor(p))
    && (forall role | role in c.order :: relations[role] == This)
    && (forall p | p in permissions :: relations[RelationFor(p)] == PermissionRelation(c, p))
  }

  method OrganizationType(c: Catalog) returns (relations: Relations)
    requires WellFormed(c)
    ensures OrganizationRelations(c, c.permissions, relations)
  {
    relations := map[];
    var i := 0;
    while i < |c.order|
      invariant 0 <= i <= |c.order|
      invariant forall rel :: rel in relations <==> rel in c.order[..i]
      invariant forall rel | rel in relations :: relations[rel] == This
    {
      assert c.order[..i + 1] == c.order[..i] + [c.order[i]];
      relations := relations[c.order[i] := This];
      i := i + 1;
    }
    assert c.order[..i] == c.order;
    i := 0;
    while i < |c.permissions|
      invariant 0 <= i <= |c.permissions|
      invariant OrganizationRelations(c, c.permissions[..i], relations)
    {
      AddPermission(c, i, relations);
      relations := relations[RelationFor(c.permissions[i]) := PermissionRelation(c, c.permissions[i])];
      i := i + 1;
    }
    assert c.permissions[..i] == c.permissions;
  }

  lemma AddPermission(c: Catalog, i: nat, relations: Relations)
    requires i < |c.permissions| && WellFormed(c) && OrganizationRelations(c, c.permissions[..i], relations)
    ensures OrganizationRelations(c, c.permissions[..i + 1],
                                  relations[RelationFor(c.permissions[i]) := PermissionRelation(c, c.permissions[i])])
  {
    var q := c.permissions[i];
    var after := relations[RelationFor(q) := PermissionRelation(c, q)];
    var done := c.permissions[..i + 1];
    assert done == c.permissions[..i] + [q];
    forall rel ensures rel in after <==> rel in c.order || exists p :: p in done && rel == RelationFor(p) {
      if rel == RelationFor(q) { assert q in done; }
      if p :| p in c.permissions[..i] && rel == RelationFor(p) { assert p in done; }
      if p :| p in done && rel == RelationFor(p) { assert p == q || p in c.permissions[..i]; }
    }
    forall p | p in done ensures after[RelationFor(p)] == PermissionRelation(c, p) {
      assert p in c.permissions && q in c.permissions;
    }
  }

  /** The project type, the template for resource-level checks. */
  const PROJECT_RELATIONS: Relations :=
    map["org" := This,
        "viewer" := Union([This, Computed("editor"), FromTupleset("org", RelationFor("project:read"))]),
        "editor" := Union([This, FromTupleset("org", RelationFor("project:manage"))])]

  function BuildModel(organization: Relations): Model {
    map[User := map[], Organization := organization, Project := PROJECT_RELATIONS]
  }

  /** The part of a model that decides organization-level permissions. */
  ghost predicate Projects(m: Model, c: Catalog) {
    Organization in m && OrganizationRelations(c, c.permissions, m[Organization])
  }

  // ---------------------------------------------------------------- how the store evaluates a model

  /** `user` is in `relation` of `target` by a derivation of depth at most `n`. */
  ghost predicate Derives(m: Model, store: set<Tuple>, user: Object, relation: string, target: Object, n: nat)
    decreases n, 1, This
  {
    n > 0 && target.kind in m && relation in m[target.kind] && Member(m, store, user, m[target.kind][relation], relation, target, n)
  }

  ghost predicate Member(m: Model, store: set<Tuple>, user: Object, u: Userset, relation: string, target: Object, n: nat)
    requires n > 0
    decreases n, 0, u
  {
    match u
    case This => Tuple(user, relation, target) in store
    case Computed(r) => Derives(m, store, user, r, target, n - 1)
    case Union(child) => exists i :: 0 <= i < |child| && Member(m, store, user, child[i], relation, target, n)
    case FromTupleset(ts, r) => exists t :: t in store && t.relation == ts && t.target == target && Derives(m, store, user, r, t.user, n - 1)
  }

  /** What `check` answers. */
  ghost predicate Check(m: Model, store: set<Tuple>, user: Object, relation: string, target: Object) {
    exists n: nat :: Derives(m, store, user, relation, target, n)
  }

  lemma {:induction false} MemberMonotone(m: Model, s: set<Tuple>, s': set<Tuple>, user: Object, u: Userset, relation: string, target: Object, n: nat, n': nat)
    requires s <= s' && 0 < n <= n' && Member(m, s, user, u, relation, target, n)
    ensures Member(m, s', user, u, relation, target, n')
    decreases n, 0, u
  {
    match u
    case This =>
    case Computed(r) => DerivesMonotone(m, s, s', user, r, target, n - 1, n' - 1);
    case Union(child) =>
      var i :| 0 <= i < |child| && Member(m, s, user, child[i], relation, target, n);
      MemberMonotone(m, s, s', user, child[i], relation, target, n, n');
    case FromTupleset(ts, r) =>
      var t :| t in s && t.relation == ts && t.target == target && Derives(m, s, user, r, t.user, n - 1);
      DerivesMonotone(m, s, s', user, r, t.user, n - 1, n' - 1);
      assert t in s';
  }

  lemma {:induction false} DerivesMonotone(m: Model, s: set<Tuple>, s': set<Tuple>, user: Object, relation: string, target: Object, n: nat, n': nat)
    requires s <= s' && n <= n' && Derives(m, s, user, relation, target, n)
    ensures Derives(m, s', user, relation, target, n')
    decreases n, 1, This
  {
    MemberMonotone(m, s, s', user, m[target.kind][relation], relation, target, n, n');
  }

  /** More tuples never take a permission away. */
  lemma CheckMonotone(m: Model, s: set<Tuple>, s': set<Tuple>, user: Object, relation: string, target: Object)
    requires s <= s' && Check(m, s, user, relation, target)
    ensures Check(m, s', user, relation, target)
  {
    var n: nat :| Derives(m, s, user, relation, target, n);
    DerivesMonotone(m, s, s', user, relation, target, n, n);
  }

  // ---------------------------------------------------------------- one member's tuples

  /** What the system roles among `keys` stand for. */
  function Covered(c: Catalog, keys: seq<string>): set<string> {
    set role, p | role in keys && role in c.order && role in c.roles && p in c.roles[role] :: p
  }

  /** System roles as role tuples; what only custom roles give as direct permission tuples. */
  function Desired(c: Catalog, user: Object, org: Object, roleKeys: seq<string>, permissionKeys: seq<string>): set<Tuple> {
    (set role | role in roleKeys && role in c.order :: Tuple(user, role, org))
    + (set p | p in permissionKeys && p !in Covered(c, roleKeys) :: Tuple(user, RelationFor(p), org))
  }

  method DesiredTuples(c: Catalog, user: Object, org: Object, roleKeys: seq<string>, permissionKeys: seq<string>)
    returns (tuples: set<Tuple>)
    requires WellFormed(c)
    ensures tuples == Desired(c, user, org, roleKeys, permissionKeys)
  {
    tuples := {};
    var covered: set<string> := {};
    var i := 0;
    while i < |roleKeys|
      invariant 0 <= i <= |roleKeys|
      invariant tuples == set role | role in roleKeys[..i] && role in c.order :: Tuple(user, role, org)
      invariant covered == Covered(c, roleKeys[..i])
    {
      var role := roleKeys[i];
      assert roleKeys[..i + 1] == roleKeys[..i] + [role];
      if role in c.order {
        tuples := tuples + {Tuple(user, role, org)};
        covered := covered + c.roles[role];
      }
      i := i + 1;
    }
    assert roleKeys[..i] == roleKeys;
    ghost var roleTuples := tuples;
    i := 0;
    while i < |permissionKeys|
      invariant 0 <= i <= |permissionKeys|
      invariant tuples == roleTuples + set p | p in permissionKeys[..i] && p !in covered :: Tuple(user, RelationFor(p), org)
    {
      var p := permissionKeys[i];
      assert permissionKeys[..i + 1] == permissionKeys[..i] + [p];
      if p !in covered { tuples := tuples + {Tuple(user, RelationFor(p), org)}; }
      i := i + 1;
    }
    assert permissionKeys[..i] == permissionKeys;
  }

  /** The tuples of one member in one organization. */
  function Mine(store: set<Tuple>, user: Object, org: Object): set<Tuple> {
    set t | t in store && t.user == user && t.target == org
  }

  // ---------------------------------------------------------------- the translation preserves meaning

  /** The store knows of a direct grant of `p` or of a role that holds it. */
  ghost predicate Granted(c: Catalog, store: set<Tuple>, user: Object, p: string, org: Object) {
    || Tuple(user, RelationFor(p), org) in store
    || exists role :: role in c.order && role in c.roles && p in c.roles[role] && Tuple(user, role, org) in store
  }

  lemma RoleCheck(m: Model, c: Catalog, store: set<Tuple>, user: Object, role: string, org: Object, n: nat)
    requires Projects(m, c) && role in c.order && org.kind == Organization
    ensures Derives(m, store, user, role, org, n) <==> n > 0 && Tuple(user, role, org) in store
  {
    assert m[Organization][role] == This;
  }

  lemma MemberOfOperand(m: Model, c: Catalog, store: set<Tuple>, user: Object, p: string, org: Object, n: nat)
    requires n > 0
    ensures Member(m, store, user, PermissionRelation(c, p), RelationFor(p), org, n)
            <==> exists i :: 0 <= i < |Operands(c, p)| && Member(m, store, user, Operands(c, p)[i], RelationFor(p), org, n)
  {
    if |Operands(c, p)| == 1 { assert Operands(c, p)[0] == PermissionRelation(c, p); }
  }

  lemma OperandAt(c: Catalog, p: string, i: nat)
    requires i < |RolesHolding(c.roles, p, c.order)|
    ensures Operands(c, p)[i + 1] == Computed(RolesHolding(c.roles, p, c.order)[i])
    ensures RolesHolding(c.roles, p, c.order)[i] in c.order
  {
    assert RolesHolding(c.roles, p, c.order)[i] in RolesHolding(c.roles, p, c.order);
  }

  lemma RoleOperand(m: Model, c: Catalog, store: set<Tuple>, user: Object, role: string, relation: string, org: Object, n: nat)
    requires Projects(m, c) && org.kind == Organization && n > 0 && role in c.order
    ensures Member(m, store, user, Computed(role), relation, org, n) <==> n >= 2 && Tuple(user, role, org) in store
  {
    RoleCheck(m, c, store, user, role, org, n - 1);
  }

  lemma MemberIsGranted(m: Model, c: Catalog, store: set<Tuple>, user: Object, p: string, org: Object, n: nat)
    requires Projects(m, c) && org.kind == Organization && n > 0
    requires Member(m, store, user, PermissionRelation(c, p), RelationFor(p), org, n)
    ensures Granted(c, store, user, p, org)
  {
    var holders := RolesHolding(c.roles, p, c.order);
    MemberOfOperand(m, c, store, user, p, org, n);
    var i :| 0 <= i < |Operands(c, p)| && Member(m, store, user, Operands(c, p)[i], RelationFor(p), org, n);
    if i > 0 {
      OperandAt(c, p, i - 1);
      RoleOperand(m, c, store, user, holders[i - 1], RelationFor(p), org, n);
      assert holders[i - 1] in holders;
    }
  }

  lemma GrantedIsMember(m: Model, c: Catalog, store: set<Tuple>, user: Object, p: string, org: Object, n: nat)
    requires Projects(m, c) && org.kind == Organization && n >= 2 && Granted(c, store, user, p, org)
    ensures Member(m, store, user, PermissionRelation(c, p), RelationFor(p), org, n)
  {
    var holders := RolesHolding(c.roles, p, c.order);
    MemberOfOperand(m, c, store, user, p, org, n);
    if Tuple(user, RelationFor(p), org) in store {
      assert Member(m, store, user, Operands(c, p)[0], RelationFor(p), org, n);
    } else {
      var role :| role in c.order && role in c.roles && p in c.roles[role] && Tuple(user, role, org) in store;
      assert role in holders;
      var i :| 0 <= i < |holders| && holders[i] == role;
      OperandAt(c, p, i);
      RoleOperand(m, c, store, user, role, RelationFor(p), org, n);
      assert Member(m, store, user, Operands(c, p)[i + 1], RelationFor(p), org, n);
    }
  }

  /** A permission is derived from its direct tuple or from a role holding it, and from nothing else. */
  lemma PermissionCheck(m: Model, c: Catalog, store: set<Tuple>, user: Object, p: string, org: Object)
    requires Projects(m, c) && p in c.permissions && org.kind == Organization
    ensures Check(m, store, user, RelationFor(p), org) <==> Granted(c, store, user, p, org)
  {
    var rel := RelationFor(p);
    assert m[Organization][rel] == PermissionRelation(c, p);
    if Check(m, store, user, rel, org) {
      var n: nat :| Derives(m, store, user, rel, org, n);
      MemberIsGranted(m, c, store, user, p, org, n);
    }
    if Granted(c, store, user, p, org) {
      GrantedIsMember(m, c, store, user, p, org, 2);
      assert Derives(m, store, user, rel, org, 2);
    }
  }

  /** With exactly the member's desired tuples in the store, the model allows a permission iff it is
      in the member's list or held by one of the member's system roles. */
  lemma TranslationMeaning(
    m: Model, c: Catalog, store: set<Tuple>, user: Object, org: Object, roleKeys: seq<string>, permissionKeys: seq<string>, p: string)
    requires Projects(m, c) && WellFormed(c) && org.kind == Organization
    requires p in c.permissions && forall q | q in permissionKeys :: q in c.permissions
    requires Mine(store, user, org) == Desired(c, user, org, roleKeys, permissionKeys)
    ensures Check(m, store, user, RelationFor(p), org) <==> p in permissionKeys || p in Covered(c, roleKeys)
  {
    PermissionCheck(m, c, store, user, p, org);
    var direct := Tuple(user, RelationFor(p), org);
    assert direct in store <==> direct in Mine(store, user, org);
    DirectTuple(c, user, org, roleKeys, permissionKeys, p);
    forall role | role in c.order ensures Tuple(user, role, org) in store <==> role in roleKeys {
      assert Tuple(user, role, org) in store <==> Tuple(user, role, org) in Mine(store, user, org);
      RoleTuple(c, user, org, roleKeys, permissionKeys, role);
    }
  }

  lemma DirectTuple(c: Catalog, user: Object, org: Object, roleKeys: seq<string>, permissionKeys: seq<string>, p: string)
    requires WellFormed(c) && p in c.permissions && forall q | q in permissionKeys :: q in c.permissions
    ensures Tuple(user, RelationFor(p), org) in Desired(c, user, org, roleKeys, permissionKeys)
            <==> p in permissionKeys && p !in Covered(c, roleKeys)
  {
  }

  lemma RoleTuple(c: Catalog, user: Object, org: Object, roleKeys: seq<string>, permissionKeys: seq<string>, role: string)
    requires WellFormed(c) && role in c.order
    ensures Tuple(user, role, org) in Desired(c, user, org, roleKeys, permissionKeys) <==> role in roleKeys
  {
  }

  /** The model and the stored permission list agree on the whole catalog exactly when the list
      contains everything the member's system roles stand for. */
  lemma AgreesWithRbacIff(
    m: Model, c: Catalog, store: set<Tuple>, user: Object, org: Object, roleKeys: seq<string>, permissionKeys: seq<string>)
    requires Projects(m, c) && WellFormed(c) && org.kind == Organization
    requires forall q | q in permissionKeys :: q in c.permissions
    requires Mine(store, user, org) == Desired(c, user, org, roleKeys, permissionKeys)
    ensures (forall p | p in c.permissions :: Check(m, store, user, RelationFor(p), org) <==> p in permissionKeys)
            <==> (forall p | p in c.permissions && p in Covered(c, roleKeys) :: p in permissionKeys)
  {
    forall p | p in c.permissions
      ensures Check(m, store, user, RelationFor(p), org) <==> p in permissionKeys || p in Covered(c, roleKeys)
    {
      TranslationMeaning(m, c, store, user, org, roleKeys, permissionKeys, p);
    }
  }

  /** `user` meets one operand of a rewrite at some depth. */
  ghost predicate Meets(m: Model, store: set<Tuple>, user: Object, u: Userset, relation: string, x: Object) {
    exists n: nat :: n > 0 && Member(m, store, user, u, relation, x, n)
  }

  lemma MeetsComputed(m: Model, store: set<Tuple>, user: Object, other: string, relation: string, x: Object)
    ensures Meets(m, store, user, Computed(other), relation, x) <==> Check(m, store, user, other, x)
  {
    if n: nat :| n > 0 && Member(m, store, user, Computed(other), relation, x, n) { assert Derives(m, store, user, other, x, n - 1); }
    if n: nat :| Derives(m, store, user, other, x, n) { assert Member(m, store, user, Computed(other), relation, x, n + 1); }
  }

  lemma MeetsTupleset(m: Model, store: set<Tuple>, user: Object, ts: string, r: string, relation: string, x: Object)
    ensures Meets(m, store, user, FromTupleset(ts, r), relation, x)
            <==> exists t :: t in store && t.relation == ts && t.target == x && Check(m, store, user, r, t.user)
  {
    if n: nat :| n > 0 && Member(m, store, user, FromTupleset(ts, r), relation, x, n) {
      var t :| t in store && t.relation == ts && t.target == x && Derives(m, store, user, r, t.user, n - 1);
      assert Check(m, store, user, r, t.user);
    }
    if t :| t in store && t.relation == ts && t.target == x && Check(m, store, user, r, t.user) {
      var n: nat :| Derives(m, store, user, r, t.user, n);
      assert Member(m, store, user, FromTupleset(ts, r), relation, x, n + 1);
    }
  }

  /** A union is met by meeting one of its operands. */
  lemma CheckUnion(m: Model, store: set<Tuple>, user: Object, rel: string, child: seq<Userset>, x: Object)
    requires x.kind in m && rel in m[x.kind] && m[x.kind][rel] == Union(child)
    ensures Check(m, store, user, rel, x) <==> exists i :: 0 <= i < |child| && Meets(m, store, user, child[i], rel, x)
  {
    if n: nat :| Derives(m, store, user, rel, x, n) {
      assert Member(m, store, user, Union(child), rel, x, n);
      var i :| 0 <= i < |child| && Member(m, store, user, child[i], rel, x, n);
      assert Meets(m, store, user, child[i], rel, x);
    }
    if i :| 0 <= i < |child| && Meets(m, store, user, child[i], rel, x) {
      var n: nat :| n > 0 && Member(m, store, user, child[i], rel, x, n);
      assert Member(m, store, user, Union(child), rel, x, n);
      assert Derives(m, store, user, rel, x, n);
    }
  }

  lemma MeetsThis(m: Model, store: set<Tuple>, user: Object, relation: string, x: Object)
    ensures Meets(m, store, user, This, relation, x) <==> Tuple(user, relation, x) in store
  {
    if Tuple(user, relation, x) in store { assert Member(m, store, user, This, relation, x, 1); }
  }

  /** Resource checks inherit from the organization: with `rel` defined as direct users plus those
      with relation `r` on what the tupleset names, nobody else has it. */
  lemma InheritedCheck(m: Model, store: set<Tuple>, user: Object, rel: string, ts: string, r: string, x: Object)
    requires x.kind in m && rel in m[x.kind] && m[x.kind][rel] == Union([This, FromTupleset(ts, r)])
    ensures Check(m, store, user, rel, x)
            <==> Tuple(user, rel, x) in store
                 || exists t :: t in store && t.relation == ts && t.target == x && Check(m, store, user, r, t.user)
  {
    var child := [This, FromTupleset(ts, r)];
    CheckUnion(m, store, user, rel, child, x);
    MeetsThis(m, store, user, rel, x);
    MeetsTupleset(m, store, user, ts, r, rel, x);
    assert child[0] == This && child[1] == FromTupleset(ts, r);
  }

  /** A project editor was granted that project, or may manage projects in an organization it
      belongs to. */
  lemma ProjectEditor(organization: Relations, store: set<Tuple>, user: Object, x: Object)
    requires x.kind == Project
    ensures var m := BuildModel(organization);
            Check(m, store, user, "editor", x)
            <==> Tuple(user, "editor", x) in store
                 || exists t :: t in store && t.relation == "org" && t.target == x
                                && Check(m, store, user, RelationFor("project:manage"), t.user)
  {
    InheritedCheck(BuildModel(organization), store, user, "editor", "org", RelationFor("project:manage"), x);
  }
  /** A relation of direct users, of those in another relation, and of those related to a parent is held
      by exactly these. */
  lemma ThreefoldCheck(m: Model, store: set<Tuple>, user: Object, rel: string, other: string, ts: string, r: string, x: Object)
    requires x.kind in m && rel in m[x.kind] && m[x.kind][rel] == Union([This, Computed(other), FromTupleset(ts, r)])
    ensures Check(m, store, user, rel, x)
            <==> Tuple(user, rel, x) in store || Check(m, store, user, other, x)
                 || exists t :: t in store && t.relation == ts && t.target == x && Check(m, store, user, r, t.user)
  {
    var child := [This, Computed(other), FromTupleset(ts, r)];
    CheckUnion(m, store, user, rel, child, x);
    MeetsThis(m, store, user, rel, x);
    MeetsComputed(m, store, user, other, rel, x);
    MeetsTupleset(m, store, user, ts, r, rel, x);
    assert child[0] == This && child[1] == Computed(other) && child[2] == FromTupleset(ts, r);
  }

  /** A project viewer was granted that project as viewer or as editor, or may read or manage projects in
      an organization it belongs to. */
  lemma ProjectViewer(organization: Relations, store: set<Tuple>, user: Object, x: Object)
    requires x.kind == Project
    ensures var m := BuildModel(organization);
            Check(m, store, user, "viewer", x)
            <==> Tuple(user, "viewer", x) in store || Tuple(user, "editor", x) in store
                 || exists t :: t in store && t.relation == "org" && t.target == x
                                && (Check(m, store, user, RelationFor("project:read"), t.user) || Check(m, store, user, RelationFor("project:manage"), t.user))
  {
    var m := BuildModel(organization);
    ProjectRelations(organization);
    ThreefoldCheck(m, store, user, "viewer", "editor", "org", RelationFor("project:read"), x);
    ProjectEditor(organization, store, user, x);
  }

  lemma ProjectRelations(organization: Relations)
    ensures var relations := BuildModel(organization)[Project];
            && "viewer" in relations && relations["viewer"] == Union([This, Computed("editor"), FromTupleset("org", RelationFor("project:read"))])
            && "editor" in relations && relations["editor"] == Union([This, FromTupleset("org", RelationFor("project:manage"))])
  {
  }
}
