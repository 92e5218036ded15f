# Deployment-pattern front end: a Dafny model

This project models the logic of three pages of a React front end for deploying
application patterns.

- **Pattern selection.** The page shows a catalogue of six patterns. It has a
  de-duplicated tag bar and a case-insensitive search combined with a tag filter.
  Clicking a card goes to the pattern's details page, or to the configuration page
  for the "import" card.
- **Pattern details.** The details page has a "not found" guard and a route to the
  configuration page. It builds a GitHub Codespaces address from the owner and
  repository name that a regular expression extracts from the catalog url.
- **Configure & deploy.** The configuration page keeps a `DeploymentConfig`. The
  config is seeded from the route's pattern and its catalog entry, then updated by
  the form's handlers: data-centre toggles, the database choice, repository fields
  and two checkboxes. The page renders the config as a Crossplane-style Composition
  manifest.

Everything on these pages is value-to-value once React's state setters, `navigate`
and `window.open` are removed:

- the catalogues, filters, toggles, routes and the manifest renderer are Dafny
  functions on datatypes;
- the configuration page's session state (the config, the "reviewing" flag and the
  active tab) is a class whose handler methods update it in place, each specified by
  the pure update function it applies.

Modules:

- `Wrappers`: `Option`.
- `Lists`: JavaScript's `filter`/`includes` toggle and `Array.from(new Set(...))`,
  each with its proved properties.
- `Text`: ASCII `toLowerCase`, `includes` on strings, `join` and `split('\n')`.
- `ConfigureDeploy`, `PatternSelection`, `PatternDetails`: one module per page.
- `PageFlow`: facts that cross pages.

The regular expression `github\.com\/([^\/]+)\/([^\/\.]+)` is modelled by a
leftmost, greedy scanner. The scanner is proved to agree with the expression's
language: it finds a match exactly when the expression occurs, at the leftmost
occurrence, with the only possible owner and the longest repository name.

## Model

| member | source | states |
|---|---|---|
| ConfigureDeploy.SeedConfig | src/pages/ConfigureDeploy.tsx:54-82 | The seeded config equals `initialConfig` except possibly for its repository. It takes the catalog entry exactly when the id is present, non-empty, not `import` and a catalog key. Otherwise it is `initialConfig` (url empty, branch `main`, `[DC1]`, no database, both flags off). The seeded config satisfies the invariant and stays within the offered data centres. |
| ConfigureDeploy.SeedImportIsDefault | src/pages/ConfigureDeploy.tsx:74-82 | `import` is not a catalog key, and the import route starts from `initialConfig`. |
| ConfigureDeploy.ToggleDataCenter | src/pages/ConfigureDeploy.tsx:85-92 | Only `dataCenters` changes. The toggled centre is present afterwards iff it was absent before, and every other centre's presence is unchanged. An absent centre is appended at the end. A present one loses every occurrence, and the others keep their order and their counts. |
| ConfigureDeploy.TogglePreservesInvariant | src/pages/ConfigureDeploy.tsx:85-92 | Toggling keeps the list duplicate-free and the database option consistent. A list drawn from `dataCenterOptions` (line 68), toggled with an offered centre, stays within the options. |
| ConfigureDeploy.ToggleDataCenterTwice | src/pages/ConfigureDeploy.tsx:85-92 | Toggling an absent centre twice restores the config exactly. Toggling a present centre twice gives the list without it, followed by it: it moves to the end. On a duplicate-free list the same centres stay selected, each once. |
| ConfigureDeploy.ChangeDatabase | src/pages/ConfigureDeploy.tsx:94-99 | Only `database` changes. `required` is the argument. When required, the type is the argument; otherwise it is null, so `!required ⇒ type == null` holds. |
| ConfigureDeploy.ChangeRepository | src/pages/ConfigureDeploy.tsx:101-109 | Exactly the named repository field takes the value, whatever the string (`''` included). The other field and every other config field are unchanged. |
| ConfigureDeploy.OtherUpdatersPreserveInvariant | src/pages/ConfigureDeploy.tsx:94-109 | The database, repository and checkbox updates keep the config invariant: duplicate-free data centres and a consistent database option. |
| ConfigureDeploy.DatabaseTypeText | src/pages/ConfigureDeploy.tsx:143 | The text is `None` iff the database is not required. It is `Oracle` iff required with type `existing`. It is `NewOracle` iff required with any other type, null included. |
| ConfigureDeploy.Bullets | src/pages/ConfigureDeploy.tsx:136 | One `- <dc>` item per data centre, in list order. |
| ConfigureDeploy.DataCenterBlock | src/pages/ConfigureDeploy.tsx:136 | For every selection, the empty one included, joining the block's lines with newlines gives the template's interpolation: an indent, then the bullets joined by a newline and 12 spaces. |
| ConfigureDeploy.GenerateYaml | src/pages/ConfigureDeploy.tsx:111-151 | The manifest text of the template literal. GenerateYamlIsManifestLines, GenerateYamlSplits and ManifestHeader state what it contains. |
| ConfigureDeploy.GenerateYamlIsManifestLines | src/pages/ConfigureDeploy.tsx:111-151 | For every id and config, the manifest text is the newline-joined list of lines, in this order: header (name and label from the id, or `custom`), repository (url and branch verbatim), infrastructure (the data-centre block), database, then networking (booleans as `true`/`false`). |
| ConfigureDeploy.DataCenterBlockSplits | src/pages/ConfigureDeploy.tsx:135-136 | When no centre's name contains a newline, splitting the interpolation at newlines gives exactly one indented `- <dc>` line per centre, in order, or one bare-indent line for an empty list. |
| ConfigureDeploy.ManifestHeader | src/pages/ConfigureDeploy.tsx:115-117 | The name line and the label line carry the same label: the route parameter when it is present and non-empty, otherwise `custom`. |
| ConfigureDeploy.LinesBeforeHaveNoNewline | src/pages/ConfigureDeploy.tsx:112-135 | With a newline-free label, url and branch, no fixed or interpolated line before the data-centre block contains a newline. |
| ConfigureDeploy.LinesAfterHaveNoNewline | src/pages/ConfigureDeploy.tsx:137-150 | No line after the data-centre block contains a newline, whatever the config. |
| ConfigureDeploy.DataCenterLinesHaveNoNewline | src/pages/ConfigureDeploy.tsx:136 | With newline-free centre names, no data-centre line contains a newline. |
| ConfigureDeploy.GenerateYamlSplits | src/pages/ConfigureDeploy.tsx:111-151 | With a newline-free label, url, branch and centre names, splitting the manifest at newlines gives back exactly its list of lines: the template's lines, with one line per data centre (or one bare-indent line for none) in place of the interpolation. |
| ConfigureDeploy.ConfigureDeployPage.constructor | src/pages/ConfigureDeploy.tsx:73-83 | The page starts on the form tab, not reviewing, with the config seeded from its route parameter. |
| ConfigureDeploy.ConfigureDeployPage.HandleDataCenterToggle | src/pages/ConfigureDeploy.tsx:85-92 | The new config is the toggle of the old one. The invariant is kept. The "within the offered centres" property is kept when the toggled centre is one the form offers (its buttons, lines 258-261, offer only those). Tab and reviewing flag are unchanged. |
| ConfigureDeploy.ConfigureDeployPage.HandleDatabaseChange | src/pages/ConfigureDeploy.tsx:94-99 | The new config is the database update of the old one. Invariant kept; the rest of the page state unchanged. |
| ConfigureDeploy.ConfigureDeployPage.HandleRepositoryChange | src/pages/ConfigureDeploy.tsx:101-109 | The new config is the field update of the old one. Invariant kept; the rest of the page state unchanged. |
| ConfigureDeploy.ConfigureDeployPage.HandleLoadBalancerChange | src/pages/ConfigureDeploy.tsx:322-323 | Sets `loadBalancer` in place. Invariant kept; the rest unchanged. |
| ConfigureDeploy.ConfigureDeployPage.HandleVanityUrlChange | src/pages/ConfigureDeploy.tsx:340-341 | Sets `vanityUrl` in place. Invariant kept; the rest unchanged. |
| ConfigureDeploy.ConfigureDeployPage.SetActiveTab | src/pages/ConfigureDeploy.tsx:189-199 | Switches the tab. The invariant is kept; the config and the reviewing flag are unchanged. |
| ConfigureDeploy.ConfigureDeployPage.HandleDeploy | src/pages/ConfigureDeploy.tsx:153-155 | Sets the reviewing flag. The invariant is kept; the config and the tab are unchanged. |
| PatternSelection.FlatTags | src/pages/PatternSelection.tsx:63 | `flatMap` of the tags: a tag is in it iff some pattern carries it. |
| PatternSelection.AllTags | src/pages/PatternSelection.tsx:63 | The tag bar is duplicate-free and holds exactly the tags some pattern carries. Its tags are in the order of their first occurrence in the flattened list. |
| PatternSelection.AllTagsOnce | src/pages/PatternSelection.tsx:63 | Each tag occurs in the tag bar exactly once if some pattern carries it, and otherwise not at all. |
| PatternSelection.MatchesSearch | src/pages/PatternSelection.tsx:66-67 | The search test on one pattern. Its meaning, an occurrence of the lowercased query, is proved by MatchesSearchOccurs. |
| PatternSelection.MatchesTags | src/pages/PatternSelection.tsx:68-69 | The tag test on one pattern: no tag selected, or some selected tag among the pattern's. FilteredPatterns states it in its contract. |
| PatternSelection.FilteredPatterns | src/pages/PatternSelection.tsx:65-71 | The result is an order-preserving subsequence of the catalogue. A pattern is in it iff its lowercased title or description contains the lowercased query and either no tag is selected or one of its tags is selected. Kept patterns keep their multiplicity. |
| PatternSelection.MatchesSearchOccurs | src/pages/PatternSelection.tsx:66-67 | The search test holds iff the lowercased query occurs at some position of the lowercased title or description. |
| PatternSelection.EmptyFilterKeepsAll | src/pages/PatternSelection.tsx:66-69 | An empty query with no selected tags shows every pattern, in order. |
| PatternSelection.SearchIgnoresCase | src/pages/PatternSelection.tsx:66-67 | Searching for a query and for its lowercased form gives the same result. |
| PatternSelection.ToggleTag | src/pages/PatternSelection.tsx:73-79 | A selected tag loses every occurrence, the other tags keeping their order and counts. An unselected tag is appended. No other tag's membership changes. |
| PatternSelection.ToggleTagKeepsNoDup | src/pages/PatternSelection.tsx:73-79 | Toggling keeps the selection duplicate-free. A selection made from the tag bar's tags (the buttons of lines 114-117) stays within the tag bar. |
| PatternSelection.ToggleTagTwice | src/pages/PatternSelection.tsx:73-79 | Toggling an unselected tag twice restores the selection exactly. A selected tag ends up moved to the end, after the others; on a duplicate-free selection this is a permutation. |
| PatternSelection.HandlePatternClick | src/pages/PatternSelection.tsx:81-88 | The route of a card click. PatternClickRoute and PatternClickInjective state its properties. |
| PatternSelection.PatternClickRoute | src/pages/PatternSelection.tsx:81-88 | The click route is `/configure-deploy/import` iff the id is `import`. Any other id routes to `/patterns/` followed by the id. |
| PatternSelection.PatternClickInjective | src/pages/PatternSelection.tsx:81-88 | Different card ids lead to different routes. |
| PatternDetails.IsNotFound | src/pages/PatternDetails.tsx:228 | The not-found guard: no id, an empty id, or an id without descriptive content. NotFoundUnlessSpringBoot states which ids pass. |
| PatternDetails.NotFoundUnlessSpringBoot | src/pages/PatternDetails.tsx:228 | The page is in the not-found state iff the route parameter is anything but `spring-boot`, the one key of `patterns` (lines 44-45). |
| PatternDetails.ConfigureRoute | src/pages/PatternDetails.tsx:247-249 | The configure route is `/configure-deploy/` followed by the id, verbatim. |
| PatternDetails.RunLength | src/pages/PatternDetails.tsx:255 | The greedy run of one character class: in bounds, every character in the class, and followed by the end or by a character outside it. |
| PatternDetails.FindMatch | src/pages/PatternDetails.tsx:255 | A found match starts at the first position where one matches, and nothing matches before it. No result means no position matches. |
| PatternDetails.MatchAt | src/pages/PatternDetails.tsx:255 | The expression matched at one position. MatchAtSound and MatchAtComplete relate it to the expression's language. |
| PatternDetails.MatchRepoUrl | src/pages/PatternDetails.tsx:255 | The first match in a url. MatchRepoUrlCorrect states that it is the leftmost occurrence, with the only owner and the longest repository name. |
| PatternDetails.MatchAtSound | src/pages/PatternDetails.tsx:255-257 | A match found at a position is an occurrence of the expression there, with both groups non-empty and in their classes, and a repository name that cannot be extended. |
| PatternDetails.MatchAtComplete | src/pages/PatternDetails.tsx:255-257 | Wherever the expression occurs, the scanner matches there with the same owner and a repository name that extends the occurrence's. |
| PatternDetails.MatchRepoUrlCorrect | src/pages/PatternDetails.tsx:255-257 | There is no match iff the expression occurs nowhere. A match is an occurrence at the leftmost possible position, with the only owner possible there and the longest repository name. |
| PatternDetails.FindMatchSkips | src/pages/PatternDetails.tsx:255 | Scanning from `i` and from `j` give the same result when nothing matches between them. |
| PatternDetails.NoMatchWithoutG | src/pages/PatternDetails.tsx:255 | No match starts at a character other than `g`. |
| PatternDetails.MatchAfterPrefix | src/pages/PatternDetails.tsx:255-257 | After a `g`-free prefix, `github.com/<owner>/<repoName>` followed by nothing or by a character that ends the repository name yields exactly that owner and repository name. |
| PatternDetails.MatchGithubUrl | src/pages/PatternDetails.tsx:255-257 | An `https://github.com/<owner>/<repoName>` url whose rest starts with `/` or `.`, or is empty, yields that owner and repository name (for example `spring-projects` and `spring-petclinic` from `.../spring-petclinic.git`). |
| PatternDetails.CodespaceUrl | src/pages/PatternDetails.tsx:259 | The Codespaces address of a branch and an owner/repository pair. EditInCodespaceUrl and the catalog lemmas state which address each pattern opens. |
| PatternDetails.EditInCodespaceUrl | src/pages/PatternDetails.tsx:251-262 | No address without a catalog entry. With one, there is an address iff the expression occurs in the url. The address is `https://github.com/codespaces/new?hide_repo_select=true&ref=<branch>&repo=<owner>%2F<repoName>`, built from the entry's branch and the match's groups. |
| PatternDetails.CatalogEntryCodespaceUrl | src/pages/PatternDetails.tsx:251-259 | A catalog entry on branch `main` whose url is a GitHub url of an owner and a repository name gets that pair's `main` address. |
| PatternDetails.SpringBootCodespaceUrl | src/pages/PatternDetails.tsx:22-25 | `spring-boot` opens `spring-projects%2Fspring-petclinic` on `main`. |
| PatternDetails.PythonCodespaceUrl | src/pages/PatternDetails.tsx:26-29 | `python` opens `nickjj%2Fdocker-flask-example` on `main`. |
| PatternDetails.NodejsCodespaceUrl | src/pages/PatternDetails.tsx:30-33 | `nodejs` opens `wellsfargo%2Fnodejs-template` on `main`. |
| PatternDetails.ReactCodespaceUrl | src/pages/PatternDetails.tsx:34-37 | `react` opens `wellsfargo%2Freact-template` on `main`. |
| PatternDetails.GolangCodespaceUrl | src/pages/PatternDetails.tsx:38-41 | `golang` opens `wellsfargo%2Fgolang-template` on `main`. |
| PatternDetails.CatalogKeySet | src/pages/PatternDetails.tsx:21-42 | The catalog's keys are exactly the five pattern ids: each of them is a key, and there is no other. |
| PatternDetails.CatalogKeys | src/pages/PatternDetails.tsx:21-42 | Every key of the catalog is one of the five pattern ids (the case split the per-entry lemmas use). |
| PatternDetails.CatalogCodespaceUrl | src/pages/PatternDetails.tsx:21-42 | Every catalog entry matches the expression, so every catalogued pattern gets an address. |
| PageFlow.CatalogsAgree | src/pages/PatternDetails.tsx:20-42 | The details page's catalog equals the configuration page's, entry for entry (src/pages/ConfigureDeploy.tsx:31-52). |
| PageFlow.CardDestinations | src/pages/PatternSelection.tsx:81-88 | The import card goes to the configure route for `import`, which starts from `initialConfig`. Every other card goes to `/patterns/<id>`. That page is not found for every id except `spring-boot` (src/pages/PatternDetails.tsx:228), so those cards never reach the configure button. From the `spring-boot` page the configure route carries the id, and the configuration page seeds that entry's repository. |
| Lists.Filter | src/pages/PatternSelection.tsx:65 | `filter`: an order-preserving subsequence holding exactly the elements that satisfy the predicate, each as often as in the input. |
| Lists.Toggle | src/pages/ConfigureDeploy.tsx:88-90 | The element's presence flips. An absent one is appended; a present one loses every occurrence while the rest keep order and counts. |
| Lists.Dedup | src/pages/PatternSelection.tsx:63 | De-duplication through a set: the same elements, each once, in first-occurrence order. |
| Lists.ToggleTwice | src/pages/PatternSelection.tsx:73-79 | Toggling twice restores a list without the element. With the element, it is moved to the end; on a duplicate-free list the result is a permutation. |
| Text.LowerIdempotent | src/pages/PatternSelection.tsx:66-67 | Lowercasing twice is lowercasing once. |
| Text.Contains | src/pages/PatternSelection.tsx:66-67 | String `includes`, scanning start positions from the left. ContainsIffOccurs states its meaning. |
| Text.ContainsIffOccurs | src/pages/PatternSelection.tsx:66-67 | String `includes` holds iff the query occurs at some position. |
| Text.JoinSep | src/pages/ConfigureDeploy.tsx:136 | Array `join` with a separator. JoinSepAppend, JoinIndented and SplitJoinLines state its properties. |
| Text.BoolText | src/pages/ConfigureDeploy.tsx:142-150 | A boolean's interpolated text is `true` iff it holds and `false` iff it does not. |

## Left out

- JSX, styling, icons, the descriptive copy of the details page, and its tab switcher are presentation only.
- `App.tsx`, `Home.tsx`, the header and the Tailwind configuration are not part of this model.
- `navigate(...)` and `window.open(...)` are modelled only by the strings they receive. Browser history and the new window are not modelled.
- Object-key lookups are modelled as lookups of the object's own keys. The source's `obj[key]` would also accept inherited prototype keys such as `constructor`.
- Text.Lower: lowercases ASCII `A`-`Z` only, because JavaScript's full Unicode case mapping is outside the model. Strings are sequences of characters, not UTF-16 code units.
- PatternDetails.MatchRepoUrl: models this one regular expression with a hand-written scanner; it is not a general regular-expression engine.
- ConfigureDeploy.GenerateYamlSplits: holds only when the label, the url, the branch and the centre names contain no newline. A value with a newline adds lines to the manifest, and the model does not describe those.
- ConfigureDeploy.LinesBeforeDataCenters: the template's longer lines are written as concatenations of shorter literals. They spell the same text as the template.
- ConfigureDeploy.PatternRepos: the catalog urls are written as the GitHub base followed by owner, name and suffix. This spells the same text as the source's literals.
- ConfigureDeploy.ToggleDataCenterTwice: weaker than "toggling twice restores the list". Toggling a present centre twice moves it to the end (`[DC1, DC2]` toggled at `DC1` twice is `[DC2, DC1]`). So the list is restored only up to order, as a set or a permutation. The same holds for PatternSelection.ToggleTagTwice.
- ConfigureDeploy.ConfigureDeployPage.HandleRepositoryChange: may run on any route. In the page, the url and branch inputs are read-only unless the route parameter is `import` or absent (src/pages/ConfigureDeploy.tsx:233 and 244), so edits there come only from those routes. The model does not carry that reachability guard.
- The active tab of the configuration page only selects what is displayed. It has no logic beyond being set.
- The concrete tag bar of the six-pattern catalogue is not computed; its properties are proved for every catalogue.
