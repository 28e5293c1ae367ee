/** app/services/job_collections.py: which combinations of dimensions are collections, and the key a
    combination is stored under. */
module CollectionTypes {
  import opened Base

  datatype Kind = CATEGORY | ROLE | LOCATION | SALARY | FRESHNESS

  const DIMENSION_KINDS := [CATEGORY, ROLE, LOCATION, SALARY, FRESHNESS]

  type Values = map<Kind, string>

  datatype Type =
    | Category | Role | Location | CategoryLocation | CategoryRemote | RoleLocation | RoleRemote
    | CategorySalary | RoleSalary | CategoryFreshness | RoleFreshness

  const COLLECTION_DIMENSIONS: seq<(Type, set<Kind>)> := [
    (Category, {CATEGORY}), (Role, {ROLE}), (Location, {LOCATION}),
    (CategoryLocation, {CATEGORY, LOCATION}), (CategoryRemote, {CATEGORY, LOCATION}),
    (RoleLocation, {ROLE, LOCATION}), (RoleRemote, {ROLE, LOCATION}),
    (CategorySalary, {CATEGORY, SALARY}), (RoleSalary, {ROLE, SALARY}),
    (CategoryFreshness, {CATEGORY, FRESHNESS}), (RoleFreshness, {ROLE, FRESHNESS})]

  const REMOTE_SLUG := "remote"

  predicate EndsWithRemote(t: Type) {
    t == CategoryRemote || t == RoleRemote
  }

  /** What each type is for, one by one. */
  predicate Makes(v: Values, t: Type) {
    var remote := LOCATION in v && v[LOCATION] == "remote";
    match t
    case Category => v.Keys == {CATEGORY}
    case Role => v.Keys == {ROLE}
    case Location => v.Keys == {LOCATION}
    case CategoryLocation => v.Keys == {CATEGORY, LOCATION} && !remote
    case CategoryRemote => v.Keys == {CATEGORY, LOCATION} && remote
    case RoleLocation => v.Keys == {ROLE, LOCATION} && !remote
    case RoleRemote => v.Keys == {ROLE, LOCATION} && remote
    case CategorySalary => v.Keys == {CATEGORY, SALARY}
    case RoleSalary => v.Keys == {ROLE, SALARY}
    case CategoryFreshness => v.Keys == {CATEGORY, FRESHNESS}
    case RoleFreshness => v.Keys == {ROLE, FRESHNESS}
  }

  /** Whether the loop of collection_type_for stops at entry i. */
  predicate StopsAt(v: Values, i: nat)
    requires i < |COLLECTION_DIMENSIONS|
  {
    var (t, wanted) := COLLECTION_DIMENSIONS[i];
    var remote := LOCATION in v && v[LOCATION] == REMOTE_SLUG;
    wanted == v.Keys && (LOCATION in v && |v.Keys| > 1 ==> remote == EndsWithRemote(t))
  }

  lemma {:induction false} StopsWhereMade(v: Values, i: nat)
    requires i < |COLLECTION_DIMENSIONS|
    ensures StopsAt(v, i) <==> Makes(v, COLLECTION_DIMENSIONS[i].0)
  {
    var (t, wanted) := COLLECTION_DIMENSIONS[i];
    if wanted == v.Keys {
      assert LOCATION in v && |v.Keys| > 1 <==> t in {CategoryLocation, CategoryRemote, RoleLocation, RoleRemote};
    }
  }

  lemma {:induction false} EveryTypeListed(t: Type)
    ensures exists i: nat :: i < |COLLECTION_DIMENSIONS| && COLLECTION_DIMENSIONS[i].0 == t
  {
    var i: nat := match t
      case Category => 0
      case Role => 1
      case Location => 2
      case CategoryLocation => 3
      case CategoryRemote => 4
      case RoleLocation => 5
      case RoleRemote => 6
      case CategorySalary => 7
      case RoleSalary => 8
      case CategoryFreshness => 9
      case RoleFreshness => 10;
    assert COLLECTION_DIMENSIONS[i].0 == t;
  }

  /** No combination makes two types, so the order of the table does not matter. */
  lemma {:induction false} OneTypeEach(v: Values, t: Type, u: Type)
    requires Makes(v, t) && Makes(v, u)
    ensures t == u
  {
    var kinds := v.Keys;
    assert CATEGORY in kinds <==> t in {Category, CategoryLocation, CategoryRemote, CategorySalary, CategoryFreshness};
    assert LOCATION in kinds <==> t in {Location, CategoryLocation, CategoryRemote, RoleLocation, RoleRemote};
    assert SALARY in kinds <==> t in {CategorySalary, RoleSalary};
    assert FRESHNESS in kinds <==> t in {CategoryFreshness, RoleFreshness};
  }

  /** collection_type_for: the one type the values make, or an error when they make none. */
  method CollectionTypeFor(v: Values) returns (r: Result<Type, set<Kind>>)
    ensures forall t :: r == Ok(t) <==> Makes(v, t)
    ensures r.Err? ==> r.error == v.Keys
  {
    var kinds := v.Keys;
    var remote := LOCATION in v && v[LOCATION] == REMOTE_SLUG;
    var i := 0;
    while i < |COLLECTION_DIMENSIONS|
      invariant 0 <= i <= |COLLECTION_DIMENSIONS|
      invariant forall k: nat :: k < i ==> !StopsAt(v, k)
    {
      var (t, wanted) := COLLECTION_DIMENSIONS[i];
      if wanted == kinds && !(LOCATION in kinds && |kinds| > 1 && remote != EndsWithRemote(t)) {
        StopsWhereMade(v, i);
        forall u | Makes(v, u)
          ensures u == t
        {
          OneTypeEach(v, t, u);
        }
        return Ok(t);
      }
      i := i + 1;
    }
    forall t
      ensures !Makes(v, t)
    {
      EveryTypeListed(t);
      var k: nat :| k < |COLLECTION_DIMENSIONS| && COLLECTION_DIMENSIONS[k].0 == t;
      StopsWhereMade(v, k);
    }
    return Err(kinds);
  }

  // ---------------------------------------------------------------- keys

  function Name(kind: Kind): string {
    match kind
    case CATEGORY => "category"
    case ROLE => "role"
    case LOCATION => "location"
    case SALARY => "salary"
    case FRESHNESS => "freshness"
  }

  function Part(kind: Kind, slug: string): string {
    Name(kind) + "=" + slug
  }

  function Parts(v: Values, kinds: seq<Kind>): seq<string> {
    if kinds == [] then []
    else if kinds[0] in v then [Part(kinds[0], v[kinds[0]])] + Parts(v, kinds[1..])
    else Parts(v, kinds[1..])
  }

  /** ";".join */
  function Join(parts: seq<string>): string {
    if parts == [] then ""
    else if |parts| == 1 then parts[0]
    else parts[0] + ";" + Join(parts[1..])
  }

  function CollectionKey(v: Values): string {
    Join(Parts(v, DIMENSION_KINDS))
  }

  /** Slugs are letters, digits and hyphens. */
  predicate Slugs(v: Values) {
    forall kind <- v :: ';' !in v[kind]
  }

  predicate Plain(parts: seq<string>) {
    forall i :: 0 <= i < |parts| ==> parts[i] != "" && ';' !in parts[i]
  }

  lemma {:induction false} NameIsPlain(kind: Kind)
    ensures ';' !in Name(kind) && '=' !in Name(kind)
  {
    match kind
    case CATEGORY =>
    case ROLE =>
    case LOCATION =>
    case SALARY =>
    case FRESHNESS =>
  }

  lemma {:induction false} PartsArePlain(v: Values, kinds: seq<Kind>)
    requires Slugs(v)
    ensures Plain(Parts(v, kinds))
  {
    if kinds != [] {
      PartsArePlain(v, kinds[1..]);
      NameIsPlain(kinds[0]);
    }
  }

  /** Two texts equal up to what follows the first separator have equal heads and tails. */
  lemma {:induction false} SplitAt(a: string, b: string, s: string, t: string, separator: char)
    requires separator !in a && separator !in b
    requires a + [separator] + s == b + [separator] + t
    ensures a == b && s == t
  {
    var whole := a + [separator] + s;
    assert whole[|a|] == separator && whole[|b|] == separator;
    assert forall i :: 0 <= i < |a| ==> whole[i] == a[i];
    assert forall i :: 0 <= i < |b| ==> whole[i] == b[i];
    assert |a| == |b|;
    assert a == whole[..|a|] && b == whole[..|b|];
    assert s == whole[|a| + 1..] && t == whole[|b| + 1..];
  }

  /** A separator inside a text cannot be matched by one without it. */
  lemma {:induction false} JoinHasSeparator(parts: seq<string>)
    requires |parts| > 1
    ensures ';' in Join(parts)
  {
    assert Join(parts)[|parts[0]|] == ';';
  }

  lemma {:induction false} JoinInjective(p: seq<string>, q: seq<string>)
    requires Plain(p) && Plain(q) && Join(p) == Join(q)
    ensures p == q
  {
    if |p| > 1 {
      JoinHasSeparator(p);
    }
    if |q| > 1 {
      JoinHasSeparator(q);
    }
    if |p| > 1 && |q| > 1 {
      SplitAt(p[0], q[0], Join(p[1..]), Join(q[1..]), ';');
      JoinInjective(p[1..], q[1..]);
      assert p == [p[0]] + p[1..] && q == [q[0]] + q[1..];
    } else if |p| == 1 {
      assert |q| == 1;
      assert p == [p[0]] && q == [q[0]];
    }
  }

  lemma {:induction false} NamesDiffer(j: Kind, k: Kind)
    requires Name(j) == Name(k)
    ensures j == k
  {
    assert |Name(CATEGORY)| == 8 && |Name(ROLE)| == 4 && |Name(LOCATION)| == 8 && |Name(SALARY)| == 6 &&
           |Name(FRESHNESS)| == 9;
    assert Name(CATEGORY)[0] != Name(LOCATION)[0];
  }

  lemma {:induction false} PartInjective(j: Kind, s: string, k: Kind, t: string)
    requires Part(j, s) == Part(k, t)
    ensures j == k && s == t
  {
    NameIsPlain(j);
    NameIsPlain(k);
    SplitAt(Name(j), Name(k), s, t, '=');
    NamesDiffer(j, k);
  }

  /** Every part carries a kind of the list, so a kind that comes first cannot turn up later. */
  lemma {:induction false} PartsComeFrom(v: Values, kinds: seq<Kind>, i: nat)
    requires i < |Parts(v, kinds)|
    ensures exists k :: k in kinds && k in v && Parts(v, kinds)[i] == Part(k, v[k])
  {
    if kinds[0] in v && i == 0 {
      assert Parts(v, kinds)[0] == Part(kinds[0], v[kinds[0]]);
    } else {
      var j: nat := if kinds[0] in v then i - 1 else i;
      PartsComeFrom(v, kinds[1..], j);
      var k :| k in kinds[1..] && k in v && Parts(v, kinds[1..])[j] == Part(k, v[k]);
      assert k in kinds;
    }
  }

  predicate Distinct(kinds: seq<Kind>) {
    forall i, j :: 0 <= i < j < |kinds| ==> kinds[i] != kinds[j]
  }

  /** The first kind is in both or in neither. */
  lemma {:induction false} HeadOf(v: Values, w: Values, kinds: seq<Kind>)
    requires kinds != [] && Distinct(kinds) && Parts(v, kinds) == Parts(w, kinds)
    requires kinds[0] in v
    ensures kinds[0] in w && w[kinds[0]] == v[kinds[0]]
  {
    assert Parts(v, kinds)[0] == Part(kinds[0], v[kinds[0]]);
    PartsComeFrom(w, kinds, 0);
    var k :| k in kinds && k in w && Parts(w, kinds)[0] == Part(k, w[k]);
    PartInjective(kinds[0], v[kinds[0]], k, w[k]);
  }

  lemma {:induction false} PartsInjective(v: Values, w: Values, kinds: seq<Kind>)
    requires Distinct(kinds) && Parts(v, kinds) == Parts(w, kinds)
    ensures forall k <- kinds :: (k in v <==> k in w) && (k in v ==> v[k] == w[k])
  {
    if kinds != [] {
      if kinds[0] in v {
        HeadOf(v, w, kinds);
      }
      if kinds[0] in w {
        HeadOf(w, v, kinds);
      }
      assert kinds[0] in v ==> Parts(v, kinds)[1..] == Parts(v, kinds[1..]);
      assert kinds[0] in w ==> Parts(w, kinds)[1..] == Parts(w, kinds[1..]);
      PartsInjective(v, w, kinds[1..]);
    }
  }

  /** Main result: different combinations have different keys. */
  lemma {:induction false} KeyInjective(v: Values, w: Values)
    requires Slugs(v) && Slugs(w) && CollectionKey(v) == CollectionKey(w)
    ensures v == w
  {
    PartsArePlain(v, DIMENSION_KINDS);
    PartsArePlain(w, DIMENSION_KINDS);
    JoinInjective(Parts(v, DIMENSION_KINDS), Parts(w, DIMENSION_KINDS));
    PartsInjective(v, w, DIMENSION_KINDS);
    forall k: Kind
      ensures k in DIMENSION_KINDS
    {
      match k
      case CATEGORY => assert DIMENSION_KINDS[0] == k;
      case ROLE => assert DIMENSION_KINDS[1] == k;
      case LOCATION => assert DIMENSION_KINDS[2] == k;
      case SALARY => assert DIMENSION_KINDS[3] == k;
      case FRESHNESS => assert DIMENSION_KINDS[4] == k;
    }
  }

  /** One kind's place in a key: nothing when the combination does not have it. */
  function Segment(v: Values, kind: Kind, name: string): seq<string> {
    if kind in v then [name + "=" + v[kind]] else []
  }

  lemma {:induction false} PartsStep(v: Values, kind: Kind, rest: seq<Kind>)
    ensures Parts(v, [kind] + rest) == Segment(v, kind, Name(kind)) + Parts(v, rest)
  {
    assert ([kind] + rest)[1..] == rest;
  }

  /** What a key says: category, role, location, salary and freshness, in that order, those there are,
      each as name=slug. */
  lemma {:induction false} KeyText(v: Values)
    ensures CollectionKey(v) == Join(
              Segment(v, CATEGORY, "category") + (Segment(v, ROLE, "role") + (Segment(v, LOCATION, "location")
              + (Segment(v, SALARY, "salary") + Segment(v, FRESHNESS, "freshness")))))
  {
    PartsStep(v, CATEGORY, [ROLE, LOCATION, SALARY, FRESHNESS]);
    PartsStep(v, ROLE, [LOCATION, SALARY, FRESHNESS]);
    PartsStep(v, LOCATION, [SALARY, FRESHNESS]);
    PartsStep(v, SALARY, [FRESHNESS]);
    PartsStep(v, FRESHNESS, []);
    assert [CATEGORY] + [ROLE, LOCATION, SALARY, FRESHNESS] == DIMENSION_KINDS;
    assert [ROLE] + [LOCATION, SALARY, FRESHNESS] == [ROLE, LOCATION, SALARY, FRESHNESS];
    assert [LOCATION] + [SALARY, FRESHNESS] == [LOCATION, SALARY, FRESHNESS];
    assert [SALARY] + [FRESHNESS] == [SALARY, FRESHNESS];
    assert [FRESHNESS] + [] == [FRESHNESS];
    assert Segment(v, FRESHNESS, "freshness") + [] == Segment(v, FRESHNESS, "freshness");
  }

  /** The parts of a key are parted by semicolons. */
  lemma {:induction false} JoinReads(a: string, b: string)
    ensures Join([a]) == a && Join([a, b]) == a + ";" + b
  {
    assert [a, b][1..] == [b];
  }

  /** The keys of a role's collections. */
  lemma {:induction false} RoleKeys(role: string, location: string)
    ensures CollectionKey(map[ROLE := role]) == "role=" + role
    ensures CollectionKey(map[ROLE := role, LOCATION := location]) == "role=" + role + ";location=" + location
  {
    KeyText(map[ROLE := role]);
    KeyText(map[ROLE := role, LOCATION := location]);
    JoinReads("role=" + role, "location=" + location);
    assert ["role=" + role] + ["location=" + location] == ["role=" + role, "location=" + location];
    assert "role=" + role + ";" + ("location=" + location) == "role=" + role + ";location=" + location;
  }
}
