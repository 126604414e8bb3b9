/** `build_component` of catalog.py: the Backstage `Component` document for one
    repository, typed by two anchored regular expressions over the repository name.
    catalog.py's `build_name` is the same function as backstage.py's: `Names.BuildName`. */
module Catalog {
  import opened Yaml
  import opened Prefixes

  /** A `Component` document. `apiVersion` and `kind` are the same in every document and
      are implied by the datatype. */
  datatype Component = Component(
    name: string,           // metadata.name
    description: Value,     // metadata.description
    tags: seq<string>,      // metadata.tags
    projectSlug: string,    // metadata.annotations["github.com/project-slug"]
    componentType: string,  // spec.type
    lifecycle: string,      // spec.lifecycle
    owner: Value,           // spec.owner
    system: Value,          // spec.system
    reportable: Value,      // spec.heimdall.reportable
    pci: Value,             // spec.heimdall.pci
    products: Value,        // spec.heimdall.products
    squads: Value,          // spec.heimdall.squads
    impact: Value)          // spec.heimdall.impact

  // ---------------------------------------------------------------------------
  // The two name families

  /** Whether `s` is matched by the alternatives of `^(app-.*|.*-app|.*-web|wp-.*)$`
      that must reach the end of `s`. `.` matches every character except '\n'; the
      literal parts hold no '\n', so the whole of `s` holds none. */
  predicate AppAlternative(s: string) {
    '\n' !in s &&
    (StartsWith(s, "app-") || EndsWith(s, "-app") || EndsWith(s, "-web") || StartsWith(s, "wp-"))
  }

  /** The same for `^(.*-starter|.*-lib|lib-.*|.*-util[s]?|.*-vo|.*-entity|ingest-.*|
      datahub-event-agent.*|cosmos|hot-integration|hot-observability)$`. */
  predicate LibAlternative(s: string) {
    '\n' !in s &&
    (EndsWith(s, "-starter") || EndsWith(s, "-lib") || StartsWith(s, "lib-") ||
     EndsWith(s, "-util") || EndsWith(s, "-utils") || EndsWith(s, "-vo") ||
     EndsWith(s, "-entity") || StartsWith(s, "ingest-") || StartsWith(s, "datahub-event-agent") ||
     s == "cosmos" || s == "hot-integration" || s == "hot-observability")
  }

  /** `re.match` with a pattern `^(...)$`: `$` matches at the end of the text and also
      just before one '\n' that ends it. */
  predicate AnchoredMatch(s: string, alternative: string -> bool) {
    alternative(s) || (s != [] && s[|s| - 1] == '\n' && alternative(s[..|s| - 1]))
  }

  predicate IsApp(name: string) {
    AnchoredMatch(name, AppAlternative)
  }

  predicate IsLib(name: string) {
    AnchoredMatch(name, LibAlternative)
  }

  /** The `if`/`elif` of `build_component`: the app family is tried first. */
  function ComponentType(name: string): (t: string)
    ensures t == "website" <==> IsApp(name)
    ensures t == "library" <==> !IsApp(name) && IsLib(name)
    ensures t == "service" <==> !IsApp(name) && !IsLib(name)
  {
    if IsApp(name) then "website"
    else if IsLib(name) then "library"
    else "service"
  }

  /** `build_component(name, description, owner, system, reportable, pci, impact,
      products, squads)`. */
  function BuildComponent(name: string, description: Value, owner: Value, system: Value,
                          reportable: Value, pci: Value, impact: Value, products: Value,
                          squads: Value): (c: Component)
    ensures c.name == name && c.projectSlug == "Hotmart-Org/" + name && c.tags == []
    ensures c.componentType == ComponentType(name) && c.lifecycle == "production"
    ensures c.description == if Truthy(description) then description else Str("")
    ensures c.impact == if Truthy(impact) then impact else Str("")
    ensures c.owner == owner && c.system == system
    ensures c.reportable == reportable && c.pci == pci && c.products == products && c.squads == squads
  {
    Component(name, OrEmpty(description), [], "Hotmart-Org/" + name, ComponentType(name),
              "production", owner, system, reportable, pci, products, squads, OrEmpty(impact))
  }

  // ---------------------------------------------------------------------------
  // Properties

  /** A name in both families is a website: "app-lib" is one. */
  lemma AppBeforeLib()
    ensures IsApp("app-lib") && IsLib("app-lib")
    ensures ComponentType("app-lib") == "website"
  {
    assert StartsWith("app-lib", "app-");
    assert EndsWith("app-lib", "-lib");
  }

  /** An affix fixes the first or the last character. */
  lemma AffixEnds(s: string, p: string)
    requires p != []
    ensures StartsWith(s, p) ==> s[0] == p[0]
    ensures EndsWith(s, p) ==> s[|s| - 1] == p[|p| - 1]
  {
    if EndsWith(s, p) {
      assert s[|s| - |p|..][|p| - 1] == s[|s| - 1];
    }
  }

  /** A name in the app family starts like "app-" or "wp-" or ends like "-app", "-web"
      or a newline. */
  lemma {:induction false} NotApp(s: string)
    requires s != [] && s[0] != 'a' && s[0] != 'w'
    requires s[|s| - 1] != 'p' && s[|s| - 1] != 'b' && s[|s| - 1] != '\n'
    ensures !IsApp(s)
  {
    AffixEnds(s, "app-");
    AffixEnds(s, "wp-");
    AffixEnds(s, "-app");
    AffixEnds(s, "-web");
  }

  /** The same for the library family, whose exact names are excluded apart. */
  lemma {:induction false} NotLib(s: string)
    requires s != [] && s[0] != 'l' && s[0] != 'i' && s[0] != 'd'
    requires s[|s| - 1] !in ['r', 'b', 'l', 's', 'o', 'y', '\n']
    requires s != "cosmos" && s != "hot-integration" && s != "hot-observability"
    ensures !IsLib(s)
  {
    AffixEnds(s, "-starter");
    AffixEnds(s, "-lib");
    AffixEnds(s, "lib-");
    AffixEnds(s, "-util");
    AffixEnds(s, "-utils");
    AffixEnds(s, "-vo");
    AffixEnds(s, "-entity");
    AffixEnds(s, "ingest-");
    AffixEnds(s, "datahub-event-agent");
  }

  /** `[s]?` admits both "-util" and "-utils" ... */
  lemma UtilSuffixes()
    ensures ComponentType("http-util") == "library"
    ensures ComponentType("http-utils") == "library"
  {
    NotApp("http-util");
    assert "http-util"[4..] == "-util";
    NotApp("http-utils");
    assert "http-utils"[4..] == "-utils";
  }

  /** ... and nothing else in that place. */
  lemma UtilOtherSuffix()
    ensures ComponentType("http-utilz") == "service"
  {
    NotApp("http-utilz");
    NotLib("http-utilz");
  }

  /** `$` accepts one newline that ends the name. */
  lemma TrailingNewlineApp()
    ensures ComponentType("app-x\n") == "website"
  {
    var s := "app-x\n";
    assert s[..|s| - 1] == "app-x";
    assert StartsWith("app-x", "app-");
    assert '\n' !in "app-x";
  }

  lemma TrailingNewlineLib()
    ensures ComponentType("cosmos\n") == "library"
  {
    var s := "cosmos\n";
    assert s[..|s| - 1] == "cosmos";
    assert '\n' in s;
    assert '\n' !in "cosmos";
    NotApp("cosmos");
  }

  /** `.` does not cross a newline inside the name, and an exact name admits nothing
      after it. */
  lemma NoInnerNewline()
    ensures ComponentType("app-\nx") == "service"
    ensures ComponentType("cosmos2") == "service"
  {
    assert "app-\nx"[4] == '\n';
    NotApp("cosmos2");
    NotLib("cosmos2");
  }
}
