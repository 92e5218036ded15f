/** The pattern selection page: the pattern catalogue, the de-duplicated tag
    list, the search-and-tag filter, tag toggling and the route a click
    leads to. Rendering and navigation themselves are not modelled; a click
    is modelled by the route it would navigate to. */
module PatternSelection {
  import Lists
  import Text

  /** One catalogue card (its icon is presentation only). */
  datatype Pattern = Pattern(id: string, title: string, description: string, tags: seq<string>)

  const Patterns: seq<Pattern> := [
    Pattern("spring-boot", "Spring Boot",
      "A robust framework for Java-based applications with enterprise-grade features.",
      ["Java", "Backend", "Enterprise"]),
    Pattern("python", "Python",
      "Ideal for data processing, scripting, and web development with Django or Flask.",
      ["Python", "Backend", "Data Processing"]),
    Pattern("nodejs", "Node.js",
      "Perfect for JavaScript server-side applications with Express or NestJS.",
      ["JavaScript", "Backend", "API"]),
    Pattern("react", "React",
      "For building dynamic front-end web applications with modern tooling.",
      ["JavaScript", "Frontend", "UI"]),
    Pattern("golang", "Go (Golang)",
      "Optimized for scalable and performant back-end services.",
      ["Go", "Backend", "Performance"]),
    Pattern("import", "Import Your App",
      "Import and integrate your existing Git repository into our platform.",
      ["Import", "Custom"])
  ]

  // ------------------------------------------------------------------ tags

  /** Every pattern's tags, concatenated in catalogue order. */
  function FlatTags(ps: seq<Pattern>): (tags: seq<string>)
    ensures forall t :: t in tags <==> exists p :: p in ps && t in p.tags
  {
    if ps == [] then []
    else
      var rest := FlatTags(ps[1..]);
      assert forall p :: p in ps[1..] ==> p in ps;
      assert forall p :: p in ps ==> p == ps[0] || p in ps[1..];
      ps[0].tags + rest
  }

  /** The tag bar: each tag of each pattern exactly once, in
      the order of its first occurrence in the flattened list. */
  function AllTags(ps: seq<Pattern>): (tags: seq<string>)
    ensures Lists.NoDup(tags)
    ensures forall t :: t in tags <==> t in FlatTags(ps)
    ensures forall t :: t in tags <==> exists p :: p in ps && t in p.tags
    ensures forall i, j :: 0 <= i < j < |tags| ==>
              Lists.FirstIndex(FlatTags(ps), tags[i]) < Lists.FirstIndex(FlatTags(ps), tags[j])
  {
    Lists.Dedup(FlatTags(ps))
  }

  /** Each tag appears exactly once in the tag bar. */
  lemma AllTagsOnce(ps: seq<Pattern>, t: string)
    ensures multiset(AllTags(ps))[t] == if exists p :: p in ps && t in p.tags then 1 else 0
  {
    Lists.NoDupCount(AllTags(ps), t);
    if t in AllTags(ps) {
      assert multiset(AllTags(ps))[t] > 0;
    }
  }

  // ---------------------------------------------------------------- filter

  /** The lowercased title or description contains the lowercased query. */
  predicate MatchesSearch(p: Pattern, query: string)
  {
    Text.Contains(Text.Lower(p.title), Text.Lower(query)) ||
    Text.Contains(Text.Lower(p.description), Text.Lower(query))
  }

  /** No tag is selected, or some selected tag is among the pattern's tags. */
  predicate MatchesTags(p: Pattern, selected: seq<string>)
  {
    |selected| == 0 || exists t :: t in selected && t in p.tags
  }

  predicate Keeps(query: string, selected: seq<string>, p: Pattern)
  {
    MatchesSearch(p, query) && MatchesTags(p, selected)
  }

  /** `patterns.filter(...)`: the patterns that pass both tests, in catalogue
      order and with their multiplicities. */
  function FilteredPatterns(ps: seq<Pattern>, query: string, selected: seq<string>): (r: seq<Pattern>)
    ensures Lists.IsSubsequence(r, ps)
    ensures forall p :: p in r <==> p in ps && MatchesSearch(p, query) && MatchesTags(p, selected)
    ensures forall p {:trigger multiset(r)[p]} ::
              multiset(r)[p] == if Keeps(query, selected, p) then multiset(ps)[p] else 0
  {
    Lists.Filter(ps, p => Keeps(query, selected, p))
  }

  /** The search test, spelled out: the lowercased query occurs at some
      position of the lowercased title or description. */
  lemma MatchesSearchOccurs(p: Pattern, query: string)
    ensures MatchesSearch(p, query) <==>
              (exists i :: 0 <= i <= |p.title| && Text.Lower(query) <= Text.Lower(p.title)[i..]) ||
              (exists i :: 0 <= i <= |p.description| && Text.Lower(query) <= Text.Lower(p.description)[i..])
  {
    Text.ContainsIffOccurs(Text.Lower(p.title), Text.Lower(query));
    Text.ContainsIffOccurs(Text.Lower(p.description), Text.Lower(query));
  }

  /** With an empty query and no selected tag every pattern is shown. */
  lemma EmptyFilterKeepsAll(ps: seq<Pattern>)
    ensures FilteredPatterns(ps, "", []) == ps
  {
    Lists.FilterKeepsAll(ps, p => Keeps("", [], p));
  }

  /** Searching for a query or for its lowercased form shows the same
      patterns. */
  lemma SearchIgnoresCase(ps: seq<Pattern>, query: string, selected: seq<string>)
    ensures FilteredPatterns(ps, Text.Lower(query), selected) == FilteredPatterns(ps, query, selected)
  {
    Text.LowerIdempotent(query);
    Lists.FilterCongruent(ps, p => Keeps(Text.Lower(query), selected, p), p => Keeps(query, selected, p));
  }

  // ---------------------------------------------------------------- toggle

  /** `toggleTag`: drop every occurrence of a selected tag, or append an
      unselected one. */
  function ToggleTag(selected: seq<string>, tag: string): (r: seq<string>)
    ensures tag in r <==> tag !in selected
    ensures forall t :: t != tag ==> (t in r <==> t in selected)
    ensures tag !in selected ==> r == selected + [tag]
    ensures tag in selected ==> Lists.IsSubsequence(r, selected)
    ensures tag in selected ==> forall t {:trigger multiset(r)[t]} :: t != tag ==> multiset(r)[t] == multiset(selected)[t]
  {
    Lists.Toggle(selected, tag)
  }

  /** Toggling keeps the selection free of duplicates, and a selection made
      from the tag bar stays within it. */
  lemma ToggleTagKeepsNoDup(ps: seq<Pattern>, selected: seq<string>, tag: string)
    requires Lists.NoDup(selected)
    ensures Lists.NoDup(ToggleTag(selected, tag))
    ensures (forall t :: t in selected ==> t in AllTags(ps)) && tag in AllTags(ps) ==>
              forall t :: t in ToggleTag(selected, tag) ==> t in AllTags(ps)
  {
    Lists.ToggleKeepsNoDup(selected, tag);
    if (forall t :: t in selected ==> t in AllTags(ps)) && tag in AllTags(ps) {
      Lists.ToggleStaysWithin(selected, tag, AllTags(ps));
    }
  }

  /** Toggling a tag twice: an unselected tag leaves the selection as it was;
      a selected one ends up moved to the end, after the other tags in their
      old order, so on a duplicate-free selection the same tags are
      selected, each as often as before. */
  lemma {:induction false} ToggleTagTwice(selected: seq<string>, tag: string)
    ensures tag !in selected ==> ToggleTag(ToggleTag(selected, tag), tag) == selected
    ensures tag in selected ==>
              ToggleTag(ToggleTag(selected, tag), tag) == ToggleTag(selected, tag) + [tag]
    ensures Lists.NoDup(selected) ==> multiset(ToggleTag(ToggleTag(selected, tag), tag)) == multiset(selected)
  {
    Lists.ToggleTwice(selected, tag);
  }

  // ----------------------------------------------------------------- click

  const ImportRoute: string := "/configure-deploy/import"
  const DetailsRoutePrefix: string := "/patterns/"

  /** `handlePatternClick`: the route a click on the card navigates to. */
  function HandlePatternClick(p: Pattern): (route: string)
  {
    if p.id == "import" then ImportRoute else DetailsRoutePrefix + p.id
  }

  /** The import card leads to the configuration page; every other card to
      its details page, whose route ends in the pattern's id. */
  lemma PatternClickRoute(p: Pattern)
    ensures p.id == "import" <==> HandlePatternClick(p) == ImportRoute
    ensures p.id != "import" ==>
              DetailsRoutePrefix <= HandlePatternClick(p) &&
              HandlePatternClick(p)[|DetailsRoutePrefix|..] == p.id
  {
    if p.id != "import" {
      assert HandlePatternClick(p)[1] == 'p' != ImportRoute[1];
    }
  }

  /** Cards with different ids lead to different routes. */
  lemma PatternClickInjective(p: Pattern, q: Pattern)
    requires HandlePatternClick(p) == HandlePatternClick(q)
    ensures p.id == q.id
  {
    PatternClickRoute(p);
    PatternClickRoute(q);
  }
}
