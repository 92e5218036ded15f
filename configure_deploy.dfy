/** The Configure & Deploy page: the deployment configuration a user edits,
    the updaters its form controls apply, the manifest text it renders, and
    the page's session state. */
module ConfigureDeploy {
  import opened Wrappers
  import opened Lists
  import opened Text

  /** Coordinates of the source repository; no format is enforced. */
  datatype Repository = Repository(url: string, branch: string)

  datatype DatabaseType = Existing | New

  /** `type` is `null` (here `None`) or one of the two kinds. */
  datatype DatabaseOption = DatabaseOption(required: bool, dbType: Option<DatabaseType>)

  datatype DeploymentConfig = DeploymentConfig(
    repository: Repository,
    dataCenters: seq<string>,
    database: DatabaseOption,
    loadBalancer: bool,
    vanityUrl: bool)

  /** The two fields `handleRepositoryChange` may replace. */
  datatype RepositoryField = Url | Branch

  /** The page's two tabs. */
  datatype Tab = FormTab | YamlTab

  const GithubBase: string := "https://github.com/"

  /** `https://github.com/<owner>/<repoName><suffix>`. */
  function GithubUrl(owner: string, repoName: string, suffix: string): string
  {
    GithubBase + owner + "/" + repoName + suffix
  }

  /** Pattern id to repository coordinates. */
  const PatternRepos: map<string, Repository> := map[
    "spring-boot" := Repository(GithubUrl("spring-projects", "spring-petclinic", ".git"), "main"),
    "python" := Repository(GithubUrl("nickjj", "docker-flask-example", ".git"), "main"),
    "nodejs" := Repository(GithubUrl("wellsfargo", "nodejs-template", ""), "main"),
    "react" := Repository(GithubUrl("wellsfargo", "react-template", ""), "main"),
    "golang" := Repository(GithubUrl("wellsfargo", "golang-template", ""), "main")
  ]

  const InitialConfig: DeploymentConfig := DeploymentConfig(
    Repository("", "main"),
    ["DC1"],
    DatabaseOption(false, None),
    false,
    false)

  /** The data centres the form offers as toggle buttons. */
  const DataCenterOptions: seq<string> := ["DC1", "DC2", "DC3", "DC4"]

  /** JavaScript truthiness of a route parameter: defined and not empty. */
  predicate IsTruthy(patternId: Option<string>)
  {
    patternId.Some? && patternId.value != ""
  }

  /** `database.type` is `null` whenever no database is required. */
  predicate DatabaseConsistent(db: DatabaseOption)
  {
    !db.required ==> db.dbType == None
  }

  /** What every configuration the page holds satisfies. */
  predicate ConfigInvariant(c: DeploymentConfig)
  {
    DatabaseConsistent(c.database) && NoDup(c.dataCenters)
  }

  /** Every selected data centre is one the form offers. */
  predicate WithinOptions(c: DeploymentConfig)
  {
    forall dc :: dc in c.dataCenters ==> dc in DataCenterOptions
  }

  /** The lazy initialiser of `config`: the catalog entry for a known
      pattern id other than `import`, the empty default otherwise. Only the
      repository can differ from the default. */
  function SeedConfig(patternId: Option<string>): (c: DeploymentConfig)
    ensures c == InitialConfig.(repository := c.repository)
    ensures IsTruthy(patternId) && patternId.value != "import" && patternId.value in PatternRepos ==>
              c.repository == PatternRepos[patternId.value]
    ensures !(IsTruthy(patternId) && patternId.value != "import" && patternId.value in PatternRepos) ==>
              c.repository == Repository("", "main")
    ensures ConfigInvariant(c) && WithinOptions(c)
  {
    if IsTruthy(patternId) && patternId.value != "import" && patternId.value in PatternRepos then
      InitialConfig.(repository := PatternRepos[patternId.value])
    else
      InitialConfig
  }

  /** The `import` check in the initialiser is redundant: `import` has no
      catalog entry, so it seeds the default either way. */
  lemma SeedImportIsDefault()
    ensures "import" !in PatternRepos
    ensures SeedConfig(Some("import")) == InitialConfig
  {
  }

  /** The updater of `handleDataCenterToggle`: removes every occurrence of a
      selected centre, appends an unselected one; nothing else changes. */
  function ToggleDataCenter(c: DeploymentConfig, dc: string): (r: DeploymentConfig)
    ensures r == c.(dataCenters := r.dataCenters)
    ensures dc in r.dataCenters <==> dc !in c.dataCenters
    ensures forall d :: d != dc ==> (d in r.dataCenters <==> d in c.dataCenters)
    ensures dc !in c.dataCenters ==> r.dataCenters == c.dataCenters + [dc]
    ensures dc in c.dataCenters ==> IsSubsequence(r.dataCenters, c.dataCenters)
    ensures dc in c.dataCenters ==>
              forall d {:trigger multiset(r.dataCenters)[d]} :: d != dc ==> multiset(r.dataCenters)[d] == multiset(c.dataCenters)[d]
  {
    c.(dataCenters := Toggle(c.dataCenters, dc))
  }

  /** The updater of `handleDatabaseChange`: a type is kept only when a
      database is required; nothing else changes. */
  function ChangeDatabase(c: DeploymentConfig, required: bool, t: Option<DatabaseType>): (r: DeploymentConfig)
    ensures r == c.(database := r.database)
    ensures r.database.required == required
    ensures required ==> r.database.dbType == t
    ensures DatabaseConsistent(r.database)
  {
    c.(database := DatabaseOption(required, if required then t else None))
  }

  /** The updater of `handleRepositoryChange`: the named field takes the
      value verbatim, the other field and the rest of the config are kept. */
  function ChangeRepository(c: DeploymentConfig, field: RepositoryField, value: string): (r: DeploymentConfig)
    ensures r == c.(repository := r.repository)
    ensures field == Url ==> r.repository == Repository(value, c.repository.branch)
    ensures field == Branch ==> r.repository == Repository(c.repository.url, value)
  {
    match field
    case Url => c.(repository := c.repository.(url := value))
    case Branch => c.(repository := c.repository.(branch := value))
  }

  /** The load-balancer checkbox's updater. */
  function SetLoadBalancer(c: DeploymentConfig, b: bool): DeploymentConfig
  {
    c.(loadBalancer := b)
  }

  /** The vanity-URL checkbox's updater. */
  function SetVanityUrl(c: DeploymentConfig, b: bool): DeploymentConfig
  {
    c.(vanityUrl := b)
  }

  /** Every updater keeps the configuration invariant, and toggling a
      centre the form offers keeps the selection within the offers. */
  lemma TogglePreservesInvariant(c: DeploymentConfig, dc: string)
    requires ConfigInvariant(c)
    ensures ConfigInvariant(ToggleDataCenter(c, dc))
    ensures WithinOptions(c) && dc in DataCenterOptions ==> WithinOptions(ToggleDataCenter(c, dc))
  {
    ToggleKeepsNoDup(c.dataCenters, dc);
  }

  lemma OtherUpdatersPreserveInvariant(c: DeploymentConfig, required: bool, t: Option<DatabaseType>,
                                       field: RepositoryField, value: string, b: bool)
    requires ConfigInvariant(c)
    ensures ConfigInvariant(ChangeDatabase(c, required, t))
    ensures ConfigInvariant(ChangeRepository(c, field, value))
    ensures ConfigInvariant(SetLoadBalancer(c, b)) && ConfigInvariant(SetVanityUrl(c, b))
  {
  }

  /** Toggling the same centre twice keeps the selected set; an unselected
      centre leaves the list exactly as it was, while a selected one moves
      to the end of the list. */
  lemma {:induction false} ToggleDataCenterTwice(c: DeploymentConfig, dc: string)
    requires ConfigInvariant(c)
    ensures var r := ToggleDataCenter(ToggleDataCenter(c, dc), dc);
      && (dc !in c.dataCenters ==> r == c)
      && (dc in c.dataCenters ==> r.dataCenters == Toggle(c.dataCenters, dc) + [dc])
      && r == c.(dataCenters := r.dataCenters)
      && multiset(r.dataCenters) == multiset(c.dataCenters)
  {
    ToggleTwice(c.dataCenters, dc);
  }

  // ---------------------------------------------------------------- renderer

  /** The label the manifest uses for the pattern: the route parameter when
      it is truthy, otherwise the word `custom`. */
  function PatternLabel(patternId: Option<string>): string
  {
    if IsTruthy(patternId) then patternId.value else "custom"
  }

  /** The text of the database `type:` field. */
  function DatabaseTypeText(db: DatabaseOption): (t: string)
    ensures t == "None" <==> !db.required
    ensures t == "Oracle" <==> db.required && db.dbType == Some(Existing)
    ensures t == "NewOracle" <==> db.required && db.dbType != Some(Existing)
  {
    if db.required then (if db.dbType == Some(Existing) then "Oracle" else "NewOracle") else "None"
  }

  const DataCenterIndent: string := "            "

  /** One bullet per selected data centre, in selection order. */
  function Bullets(dcs: seq<string>): (r: seq<string>)
    ensures |r| == |dcs|
    ensures forall k :: 0 <= k < |dcs| ==> r[k] == "- " + dcs[k]
  {
    if dcs == [] then [] else ["- " + dcs[0]] + Bullets(dcs[1..])
  }

  /** The lines of the template up to and including `dataCenters:`. The
      longer lines are written as concatenations of shorter literals; the
      text is the same. */
  function LinesBeforeDataCenters(name: string, repo: Repository): seq<string>
  {
    [ "apiVersion: " + "apiextensions." + "crossplane.io/" + "v1",
      "kind: " + "Composition",
      "metadata:",
      "  name: " + name + "-app-" + "composition",
      "  labels:",
      "    pattern: " + name,
      "spec:",
      "  composite" + "TypeRef:",
      "    " + "apiVersion: " + "apps." + "example." + "org/" + "v1alpha1",
      "    " + "kind: " + "CompositeApp",
      "  resources:",
      "    - name: " + "repository",
      "      base:",
      "        " + "apiVersion: " + "gitops." + "crossplane.io/" + "v1alpha1",
      "        " + "kind: " + "GitRepository",
      "        " + "spec:",
      "          " + "url: " + repo.url,
      "          " + "branch: " + repo.branch,
      "    - name: " + "infrastructure",
      "      base:",
      "        " + "apiVersion: " + "infra." + "example." + "org/" + "v1alpha1",
      "        " + "kind: " + "DataCenter" + "Deployment",
      "        " + "spec:",
      "          " + "dataCenters:" ]
  }

  /** The lines of the template after the data-centre interpolation. */
  function LinesAfterDataCenters(c: DeploymentConfig): seq<string>
  {
    [ "    - name: " + "database",
      "      base:",
      "        " + "apiVersion: " + "database." + "example." + "org/" + "v1alpha1",
      "        " + "kind: " + "OracleDatabase",
      "        " + "spec:",
      "          " + "required: " + BoolText(c.database.required),
      "          " + "type: " + DatabaseTypeText(c.database),
      "    - name: " + "networking",
      "      base:",
      "        " + "apiVersion: " + "networking." + "crossplane.io/" + "v1alpha1",
      "        " + "kind: " + "VirtualNetwork",
      "        " + "spec:",
      "          " + "loadBalancer: " + BoolText(c.loadBalancer),
      "          " + "vanityUrl: " + BoolText(c.vanityUrl) ]
  }

  /** The literal pieces of the header, down to the name line hold no newline. */
  lemma HeaderPiecesNoNewline()
    ensures '\n' !in "apiVersion: "
    ensures '\n' !in "apiextensions."
    ensures '\n' !in "crossplane.io/"
    ensures '\n' !in "v1"
    ensures '\n' !in "kind: "
    ensures '\n' !in "Composition"
    ensures '\n' !in "metadata:"
    ensures '\n' !in "  name: "
  {
  }

  /** The literal pieces of the name and label lines and the start of the composite type hold no newline. */
  lemma LabelPiecesNoNewline()
    ensures '\n' !in "-app-"
    ensures '\n' !in "composition"
    ensures '\n' !in "  labels:"
    ensures '\n' !in "    pattern: "
    ensures '\n' !in "spec:"
    ensures '\n' !in "  composite"
    ensures '\n' !in "TypeRef:"
    ensures '\n' !in "    "
  {
  }

  /** The literal pieces of the composite type and the start of the resources hold no newline. */
  lemma CompositeTypePiecesNoNewline()
    ensures '\n' !in "apps."
    ensures '\n' !in "example."
    ensures '\n' !in "org/"
    ensures '\n' !in "v1alpha1"
    ensures '\n' !in "CompositeApp"
    ensures '\n' !in "  resources:"
    ensures '\n' !in "    - name: "
    ensures '\n' !in "repository"
  {
  }

  /** The literal pieces of the repository resource hold no newline. */
  lemma RepositoryPiecesNoNewline()
    ensures '\n' !in "      base:"
    ensures '\n' !in "        "
    ensures '\n' !in "gitops."
    ensures '\n' !in "GitRepository"
    ensures '\n' !in "          "
    ensures '\n' !in "url: "
    ensures '\n' !in "branch: "
    ensures '\n' !in "infrastructure"
  {
  }

  /** The literal pieces of the infrastructure resource and the start of the database hold no newline. */
  lemma InfrastructurePiecesNoNewline()
    ensures '\n' !in "infra."
    ensures '\n' !in "DataCenter"
    ensures '\n' !in "Deployment"
    ensures '\n' !in "dataCenters:"
    ensures '\n' !in "database"
    ensures '\n' !in "database."
    ensures '\n' !in "OracleDatabase"
    ensures '\n' !in "required: "
  {
  }

  /** The literal pieces of the database type and the networking resource hold no newline. */
  lemma NetworkingPiecesNoNewline()
    ensures '\n' !in "type: "
    ensures '\n' !in "networking"
    ensures '\n' !in "networking."
    ensures '\n' !in "VirtualNetwork"
    ensures '\n' !in "loadBalancer: "
    ensures '\n' !in "vanityUrl: "
  {
  }

  /** No fixed line before the data centres holds a newline, so neither does
      any line once the label, url and branch hold none. */
  lemma LinesBeforeHaveNoNewline(name: string, repo: Repository)
    requires '\n' !in name && '\n' !in repo.url && '\n' !in repo.branch
    ensures forall k :: 0 <= k < |LinesBeforeDataCenters(name, repo)| ==> '\n' !in LinesBeforeDataCenters(name, repo)[k]
  {
    HeaderPiecesNoNewline();
    LabelPiecesNoNewline();
    CompositeTypePiecesNoNewline();
    RepositoryPiecesNoNewline();
    InfrastructurePiecesNoNewline();
    NetworkingPiecesNoNewline();
  }

  /** No line after the data centres holds a newline. */
  lemma LinesAfterHaveNoNewline(c: DeploymentConfig)
    ensures forall k :: 0 <= k < |LinesAfterDataCenters(c)| ==> '\n' !in LinesAfterDataCenters(c)[k]
  {
    HeaderPiecesNoNewline();
    LabelPiecesNoNewline();
    CompositeTypePiecesNoNewline();
    RepositoryPiecesNoNewline();
    InfrastructurePiecesNoNewline();
    NetworkingPiecesNoNewline();
  }

  /** `generateYaml`: the template literal, written as its lines joined by
      newlines; every value is interpolated verbatim, without escaping. */
  function GenerateYaml(patternId: Option<string>, c: DeploymentConfig): string
  {
    var name := PatternLabel(patternId);
    JoinLines(LinesBeforeDataCenters(name, c.repository)
              + [DataCenterIndent + JoinSep(Bullets(c.dataCenters), "\n" + DataCenterIndent)]
              + LinesAfterDataCenters(c))
  }

  /** The lines the data-centre interpolation produces: one indented
      `- <dc>` line per centre, in list order, or a line holding only the
      indentation when none is selected. */
  function DataCenterLines(dcs: seq<string>): seq<string>
  {
    if dcs == [] then [DataCenterIndent]
    else seq(|dcs|, k requires 0 <= k < |dcs| => DataCenterIndent + "- " + dcs[k])
  }

  /** The manifest as a list of lines, stanza by stanza: header,
      repository, infrastructure, database, networking. */
  function ManifestLines(patternId: Option<string>, c: DeploymentConfig): seq<string>
  {
    LinesBeforeDataCenters(PatternLabel(patternId), c.repository)
      + DataCenterLines(c.dataCenters)
      + LinesAfterDataCenters(c)
  }

  /** Joining the block's lines with newlines gives the interpolation. */
  lemma DataCenterBlock(dcs: seq<string>)
    ensures JoinLines(DataCenterLines(dcs)) == DataCenterIndent + JoinSep(Bullets(dcs), "\n" + DataCenterIndent)
  {
    if dcs != [] {
      var b := Bullets(dcs);
      var indented := seq(|b|, k requires 0 <= k < |b| => DataCenterIndent + b[k]);
      forall k | 0 <= k < |dcs| ensures DataCenterLines(dcs)[k] == indented[k] {
        assert DataCenterIndent + "- " + dcs[k] == DataCenterIndent + ("- " + dcs[k]);
      }
      assert DataCenterLines(dcs) == indented;
      JoinIndented(b, DataCenterIndent);
    }
  }

  /** The rendered text is the manifest's lines joined by newlines, for
      every configuration, whatever its strings contain. */
  lemma GenerateYamlIsManifestLines(patternId: Option<string>, c: DeploymentConfig)
    ensures GenerateYaml(patternId, c) == JoinLines(ManifestLines(patternId, c))
  {
    var before := LinesBeforeDataCenters(PatternLabel(patternId), c.repository);
    var after := LinesAfterDataCenters(c);
    var block := DataCenterIndent + JoinSep(Bullets(c.dataCenters), "\n" + DataCenterIndent);
    DataCenterBlock(c.dataCenters);
    JoinSpliced(before, DataCenterLines(c.dataCenters), after, block);
  }

  /** The block's lines hold no newline when no centre's name does. */
  lemma DataCenterLinesHaveNoNewline(dcs: seq<string>)
    requires forall dc :: dc in dcs ==> '\n' !in dc
    ensures forall k :: 0 <= k < |DataCenterLines(dcs)| ==> '\n' !in DataCenterLines(dcs)[k]
  {
    var lines := DataCenterLines(dcs);
    forall k | 0 <= k < |lines| ensures '\n' !in lines[k] {
      if dcs != [] {
        assert dcs[k] in dcs;
        assert lines[k] == DataCenterIndent + "- " + dcs[k];
      }
    }
  }

  /** The data-centre interpolation, split at its newlines, is exactly one
      indented `- <dc>` line per centre in list order (or the bare
      indentation when none is selected), provided no centre's name holds a
      newline. */
  lemma DataCenterBlockSplits(dcs: seq<string>)
    requires forall dc :: dc in dcs ==> '\n' !in dc
    ensures SplitLines(DataCenterIndent + JoinSep(Bullets(dcs), "\n" + DataCenterIndent)) == DataCenterLines(dcs)
    ensures dcs == [] ==> DataCenterLines(dcs) == [DataCenterIndent]
    ensures dcs != [] ==> |DataCenterLines(dcs)| == |dcs|
    ensures dcs != [] ==> forall k :: 0 <= k < |dcs| ==> DataCenterLines(dcs)[k] == DataCenterIndent + "- " + dcs[k]
  {
    DataCenterBlock(dcs);
    DataCenterLinesHaveNoNewline(dcs);
    SplitJoinLines(DataCenterLines(dcs));
  }

  /** When the route parameter, the repository fields and the centres hold
      no newline, the rendered manifest splits at its newlines into exactly
      the manifest's lines: the header, then the repository,
      infrastructure, database and networking stanzas, with one `- <dc>`
      line per centre. */
  lemma GenerateYamlSplits(patternId: Option<string>, c: DeploymentConfig)
    requires patternId.Some? ==> '\n' !in patternId.value
    requires '\n' !in c.repository.url && '\n' !in c.repository.branch
    requires forall dc :: dc in c.dataCenters ==> '\n' !in dc
    ensures SplitLines(GenerateYaml(patternId, c)) == ManifestLines(patternId, c)
  {
    var name := PatternLabel(patternId);
    var before := LinesBeforeDataCenters(name, c.repository);
    var middle := DataCenterLines(c.dataCenters);
    var after := LinesAfterDataCenters(c);
    LinesBeforeHaveNoNewline(name, c.repository);
    DataCenterLinesHaveNoNewline(c.dataCenters);
    LinesAfterHaveNoNewline(c);
    var lines := before + middle + after;
    forall k | 0 <= k < |lines| ensures '\n' !in lines[k] {
      if k < |before| {
        assert lines[k] == before[k];
      } else if k < |before| + |middle| {
        assert lines[k] == middle[k - |before|];
      } else {
        assert lines[k] == after[k - |before| - |middle|];
      }
    }
    GenerateYamlIsManifestLines(patternId, c);
    SplitJoinLines(lines);
  }

  /** The manifest's name line and label line carry the same label: the
      route parameter when it is present and non-empty, `custom` otherwise. */
  lemma ManifestHeader(patternId: Option<string>, c: DeploymentConfig)
    ensures var id := if patternId.Some? && patternId.value != "" then patternId.value else "custom";
      && ManifestLines(patternId, c)[3] == "  name: " + id + "-app-" + "composition"
      && ManifestLines(patternId, c)[5] == "    pattern: " + id
  {
  }

  // ------------------------------------------------------------ page state

  /** The session state of one visit to the page: the route parameter, the
      configuration, the one-way "deploying" flag and the active tab. */
  class ConfigureDeployPage {
    const patternId: Option<string>
    var config: DeploymentConfig
    var isReviewing: bool
    var activeTab: Tab

    ghost predicate Valid()
      reads this
    {
      ConfigInvariant(config)
    }

    constructor (patternId: Option<string>)
      ensures Valid()
      ensures this.patternId == patternId && config == SeedConfig(patternId)
      ensures !isReviewing && activeTab == FormTab
    {
      this.patternId := patternId;
      config := SeedConfig(patternId);
      isReviewing := false;
      activeTab := FormTab;
    }

    method HandleDataCenterToggle(dc: string)
      requires Valid()
      modifies this
      ensures Valid()
      ensures config == ToggleDataCenter(old(config), dc)
      ensures WithinOptions(old(config)) && dc in DataCenterOptions ==> WithinOptions(config)
      ensures isReviewing == old(isReviewing) && activeTab == old(activeTab)
    {
      TogglePreservesInvariant(config, dc);
      config := ToggleDataCenter(config, dc);
    }

    method HandleDatabaseChange(required: bool, t: Option<DatabaseType>)
      requires Valid()
      modifies this
      ensures Valid()
      ensures config == ChangeDatabase(old(config), required, t)
      ensures isReviewing == old(isReviewing) && activeTab == old(activeTab)
    {
      config := ChangeDatabase(config, required, t);
    }

    method HandleRepositoryChange(field: RepositoryField, value: string)
      requires Valid()
      modifies this
      ensures Valid()
      ensures config == ChangeRepository(old(config), field, value)
      ensures isReviewing == old(isReviewing) && activeTab == old(activeTab)
    {
      config := ChangeRepository(config, field, value);
    }

    method HandleLoadBalancerChange(checked: bool)
      requires Valid()
      modifies this
      ensures Valid()
      ensures config == SetLoadBalancer(old(config), checked)
      ensures isReviewing == old(isReviewing) && activeTab == old(activeTab)
    {
      config := SetLoadBalancer(config, checked);
    }

    method HandleVanityUrlChange(checked: bool)
      requires Valid()
      modifies this
      ensures Valid()
      ensures config == SetVanityUrl(old(config), checked)
      ensures isReviewing == old(isReviewing) && activeTab == old(activeTab)
    {
      config := SetVanityUrl(config, checked);
    }

    method SetActiveTab(tab: Tab)
      requires Valid()
      modifies this
      ensures Valid()
      ensures activeTab == tab
      ensures config == old(config) && isReviewing == old(isReviewing)
    {
      activeTab := tab;
    }

    /** The flag only ever goes from false to true. */
    method HandleDeploy()
      requires Valid()
      modifies this
      ensures Valid()
      ensures isReviewing
      ensures config == old(config) && activeTab == old(activeTab)
    {
      isReviewing := true;
    }
  }
}
