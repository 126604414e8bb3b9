/** The entity builders of backstage.py: the four group builders, the location
    builder and the system builder. Header fields that are the same in every document
    (`apiVersion`, `kind`) are implied by the datatype and not stored. */
module Entities {
  import opened Wrappers
  import opened Yaml
  import opened Names
  import opened Prefixes

  /** A `Group` document. The unit builder writes no `parent` field: `None`. */
  datatype Group = Group(
    name: string,          // metadata.name
    groupType: string,     // spec.type
    displayName: string,   // spec.profile.displayName
    parent: Option<string>,
    children: seq<string>)

  /** A `Location` document: its manifest lists the files a catalog reads next. */
  datatype Location = Location(name: string, description: string, targets: seq<string>)

  /** A `System` document. */
  datatype System = System(
    name: string,
    title: string,
    description: Value,
    owner: string,
    domain: string,
    auditable: Value,
    coreBusiness: Value)

  /** The suffix a level's group names carry: '_' and the level's word. */
  function GroupSuffix(k: Kind): (s: string)
    ensures s == "_" + KindWord(k)
  {
    match k
    case Unit => "_unit"
    case Division => "_division"
    case Vertical => "_vertical"
    case Team => "_team"
  }

  /** `build_org(name)` */
  function BuildOrg(name: string): Group {
    Group(BuildName(name) + "_unit", "organization", name, None, [])
  }

  /** `build_department(name, parent)` */
  function BuildDepartment(name: string, parent: string): Group {
    Group(BuildName(name) + "_division", "department", name, Some(parent), [])
  }

  /** `build_sub_department(name, parent)` */
  function BuildSubDepartment(name: string, parent: string): Group {
    Group(BuildName(name) + "_vertical", "sub-department", name, Some(parent), [])
  }

  /** `build_team(name, parent)` */
  function BuildTeam(name: string, parent: string): Group {
    Group(BuildName(name) + "_team", "team", name, Some(parent), [])
  }

  /** The builder `main` calls for a directory of level `k`. Every group is named by its
      normalised display name and its level's suffix, keeps the display name, starts with
      no children, and links to the given parent unless it is a unit. */
  function BuildGroup(k: Kind, name: string, parent: string): (g: Group)
    ensures g.name == BuildName(name) + GroupSuffix(k)
    ensures g.displayName == name && g.children == []
    ensures g.parent == if k == Unit then None else Some(parent)
  {
    match k
    case Unit => BuildOrg(name)
    case Division => BuildDepartment(name, parent)
    case Vertical => BuildSubDepartment(name, parent)
    case Team => BuildTeam(name, parent)
  }

  /** A group name ends with exactly one of the four level suffixes: its own. */
  lemma GroupNameSuffix(k: Kind, name: string, parent: string, k': Kind)
    ensures EndsWith(BuildGroup(k, name, parent).name, GroupSuffix(k')) <==> k' == k
  {
    var n := BuildGroup(k, name, parent).name;
    var s := GroupSuffix(k);
    var s' := GroupSuffix(k');
    assert n[|n| - |s|..] == s;
    assert n[|n| - 1] == s[|s| - 1];
    assert EndsWith(n, s') ==> n[|n| - 1] == s'[|s'| - 1];
  }

  // ---------------------------------------------------------------------------
  // Location names

  /** The range of `random.randint(0, 100)`. */
  type Draw = n: int | 0 <= n <= 100

  predicate IsDigit(c: char) {
    '0' <= c <= '9'
  }

  /** Python's `str(n)` for a natural number. */
  function DecimalString(n: nat): (r: string)
    ensures r != []
  {
    (if n < 10 then "" else DecimalString(n / 10)) + [('0' as int + n % 10) as char]
  }

  /** `str(n)` is made of decimal digits. */
  lemma {:induction false} DecimalDigits(n: nat)
    ensures forall i :: 0 <= i < |DecimalString(n)| ==> IsDigit(DecimalString(n)[i])
  {
    if n >= 10 {
      DecimalDigits(n / 10);
    }
  }

  /** The number a string of decimal digits denotes. */
  function DecimalValue(s: string): nat {
    if s == [] then 0
    else 10 * DecimalValue(s[..|s| - 1]) + (if IsDigit(s[|s| - 1]) then s[|s| - 1] as int - '0' as int else 0)
  }

  /** Formatting a draw loses nothing: it can be read back. */
  lemma {:induction false} DecimalRoundTrip(n: nat)
    ensures DecimalValue(DecimalString(n)) == n
  {
    var r := DecimalString(n);
    assert r[..|r| - 1] == if n < 10 then "" else DecimalString(n / 10);
    if n >= 10 {
      DecimalRoundTrip(n / 10);
    }
  }

  /** `build_location(name)`, with the random draw as a parameter. */
  function BuildLocation(name: string, draw: Draw): (l: Location)
    ensures l.targets == []
  {
    Location(BuildName(name) + "-" + DecimalString(draw) + "-locations",
             "A collection of all " + name + " sub-groups",
             [])
  }

  lemma SplitAtDash(x1: string, d1: string, x2: string, d2: string)
    requires forall i :: 0 <= i < |x1| ==> x1[i] != '-'
    requires forall i :: 0 <= i < |x2| ==> x2[i] != '-'
    requires x1 + "-" + d1 == x2 + "-" + d2
    ensures x1 == x2 && d1 == d2
  {
    var a := x1 + "-" + d1;
    assert a[|x1|] == '-' && forall j :: 0 <= j < |x1| ==> a[j] == x1[j];
    assert a[|x2|] == '-' && forall j :: 0 <= j < |x2| ==> a[j] == x2[j];
    assert |x1| == |x2|;
    assert x1 == a[..|x1|] && x2 == a[..|x2|];
    assert d1 == a[|x1| + 1..] && d2 == a[|x2| + 1..];
  }

  /** Two locations get the same name only when their normalised names and their draws
      are the same: collisions come from the draw's small range, not from the format. */
  lemma LocationNameInjective(a: string, da: Draw, b: string, db: Draw)
    requires BuildLocation(a, da).name == BuildLocation(b, db).name
    ensures BuildName(a) == BuildName(b) && da == db
  {
    var xa, xb := BuildName(a), BuildName(b);
    var sa, sb := DecimalString(da), DecimalString(db);
    var na, nb := xa + "-" + sa + "-locations", xb + "-" + sb + "-locations";
    assert (xa + "-" + sa) == na[..|na| - 10];
    assert (xb + "-" + sb) == nb[..|nb| - 10];
    BuildNameClean(a);
    BuildNameClean(b);
    SplitAtDash(xa, sa, xb, sb);
    DecimalRoundTrip(da);
    DecimalRoundTrip(db);
  }

  // ---------------------------------------------------------------------------
  // Systems

  /** `build_system(name, description, auditable, core_business, owner)`: the system is
      named by the normalised name with no level suffix, titled by the name itself, owned
      by `owner`; a missing or empty description becomes "". */
  function BuildSystem(name: string, description: Value, auditable: Value, coreBusiness: Value,
                       owner: string): (s: System)
    ensures s.name == BuildName(name) && s.title == name && s.owner == owner
    ensures s.description == if Truthy(description) then description else Str("")
    ensures s.domain == "hotmart" && s.auditable == auditable && s.coreBusiness == coreBusiness
  {
    System(BuildName(name), name, OrEmpty(description), owner, "hotmart", auditable, coreBusiness)
  }
}
