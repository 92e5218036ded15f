/** The pattern details page: its own copy of the repository catalog, the
    not-found guard, the Configure & Deploy route, and the GitHub Codespaces
    address derived from a repository url with the regular expression
    `github\.com\/([^\/]+)\/([^\/\.]+)`, here a hand-written scanner. */
module PatternDetails {
  import opened Wrappers
  import CD = ConfigureDeploy

  /** This page's copy of the catalog (kept in sync by hand in the source). */
  const PatternRepos: map<string, CD.Repository> := map[
    "spring-boot" := CD.Repository(CD.GithubUrl("spring-projects", "spring-petclinic", ".git"), "main"),
    "python" := CD.Repository(CD.GithubUrl("nickjj", "docker-flask-example", ".git"), "main"),
    "nodejs" := CD.Repository(CD.GithubUrl("wellsfargo", "nodejs-template", ""), "main"),
    "react" := CD.Repository(CD.GithubUrl("wellsfargo", "react-template", ""), "main"),
    "golang" := CD.Repository(CD.GithubUrl("wellsfargo", "golang-template", ""), "main")
  ]

  /** The keys of `patterns`: the only pattern that has descriptive content. */
  const DetailPatternIds: set<string> := {"spring-boot"}

  /** The page shows its not-found state when the route has no id, an
      empty one, or one without descriptive content. */
  predicate IsNotFound(patternId: Option<string>)
  {
    !(patternId.Some? && patternId.value != "" && patternId.value in DetailPatternIds)
  }

  /** Only `spring-boot` has a details page. */
  lemma NotFoundUnlessSpringBoot(patternId: Option<string>)
    ensures IsNotFound(patternId) <==> patternId != Some("spring-boot")
  {
  }

  const ConfigureRoutePrefix: string := "/configure-deploy/"

  /** `handleConfigureDeploy`'s route: the prefix, then the id verbatim. */
  function ConfigureRoute(patternId: string): (route: string)
    ensures ConfigureRoutePrefix <= route
    ensures route[|ConfigureRoutePrefix|..] == patternId
  {
    ConfigureRoutePrefix + patternId
  }

  // ------------------------------------------------------------ the scanner

  const GithubHost: string := "github.com/"

  /** The expression's two character classes. */
  datatype CharClass = NotSlash | NotSlashOrDot

  /** Owners exclude the slash; repository names exclude slash and dot. */
  predicate InClass(c: char, cls: CharClass)
  {
    match cls
    case NotSlash => c != '/'
    case NotSlashOrDot => c != '/' && c != '.'
  }

  /** Every character of `w` is in the class. */
  predicate AllInClass(w: string, cls: CharClass)
  {
    forall k :: 0 <= k < |w| ==> InClass(w[k], cls)
  }

  /** Length of the longest run of characters of class `cls` that starts at
      `i` (the greedy `cls+`, or zero). */
  function RunLength(s: string, i: nat, cls: CharClass): (n: nat)
    requires i <= |s|
    ensures i + n <= |s|
    ensures forall k :: i <= k < i + n ==> InClass(s[k], cls)
    ensures i + n == |s| || !InClass(s[i + n], cls)
    decreases |s| - i
  {
    if i == |s| || !InClass(s[i], cls) then 0 else 1 + RunLength(s, i + 1, cls)
  }

  /** A match of the expression: where it starts and its two groups. */
  datatype RepoMatch = RepoMatch(start: nat, owner: string, repoName: string)

  /** The match of the expression that starts at `i`, if any. The owner
      group is the whole run of non-`/` characters there (a shorter one is
      never followed by `/`), and the repository group the whole run of
      characters other than `/` and `.` after the next `/`. */
  function MatchAt(s: string, i: nat): Option<RepoMatch>
  {
    if i + |GithubHost| <= |s| && s[i..i + |GithubHost|] == GithubHost then
      var o := i + |GithubHost|;
      var ownerLen := RunLength(s, o, NotSlash);
      if ownerLen > 0 && o + ownerLen < |s| then
        var r := o + ownerLen + 1;
        var repoLen := RunLength(s, r, NotSlashOrDot);
        if repoLen > 0 then Some(RepoMatch(i, s[o..o + ownerLen], s[r..r + repoLen])) else None
      else None
    else None
  }

  /** The leftmost match starting at or after `i`. */
  function FindMatch(s: string, i: nat): (m: Option<RepoMatch>)
    requires i <= |s|
    ensures m.Some? ==> i <= m.value.start && MatchAt(s, m.value.start) == m
    ensures m.Some? ==> forall j :: i <= j < m.value.start ==> MatchAt(s, j) == None
    ensures m.None? ==> forall j :: i <= j <= |s| ==> MatchAt(s, j) == None
    decreases |s| - i
  {
    if MatchAt(s, i).Some? then MatchAt(s, i)
    else if i == |s| then None
    else FindMatch(s, i + 1)
  }

  /** The first, leftmost match of the repository expression in the url:
      the host, an owner, a slash and a repository name, both groups as long
      as their classes allow. */
  function MatchRepoUrl(url: string): Option<RepoMatch>
  {
    FindMatch(url, 0)
  }

  /** The expression's language: `github.com/<owner>/<repoName>` begins at
      position `i` of `s`, both groups non-empty and within their classes. */
  ghost predicate OccursAt(s: string, i: nat, owner: string, repoName: string)
  {
    && i <= |s|
    && GithubHost + owner + "/" + repoName <= s[i..]
    && owner != [] && AllInClass(owner, NotSlash)
    && repoName != [] && AllInClass(repoName, NotSlashOrDot)
  }

  lemma MatchAtSound(s: string, i: nat)
    requires MatchAt(s, i).Some?
    ensures var m := MatchAt(s, i).value;
      && m.start == i
      && OccursAt(s, i, m.owner, m.repoName)
      && var e := i + |GithubHost| + |m.owner| + 1 + |m.repoName|;
         e == |s| || !InClass(s[e], NotSlashOrDot)
  {
    var m := MatchAt(s, i).value;
    var o := i + |GithubHost|;
    var ownerLen := RunLength(s, o, NotSlash);
    var r := o + ownerLen + 1;
    var repoLen := RunLength(s, r, NotSlashOrDot);
    var e := r + repoLen;
    assert m.owner == s[o..o + ownerLen] && m.repoName == s[r..e];
    SliceInClass(s, o, ownerLen, NotSlash);
    SliceInClass(s, r, repoLen, NotSlashOrDot);
    PrefixOfPieces(s, i, o, o + ownerLen, e, GithubHost, m.owner, m.repoName);
  }

  /** Four adjacent pieces of `s`, from `i` on, spell `host + owner + "/" + repo`. */
  lemma PrefixOfPieces(s: string, i: nat, o: nat, slash: nat, e: nat, host: string, owner: string, repo: string)
    requires i <= o <= slash < e <= |s|
    requires s[i..o] == host && s[o..slash] == owner && s[slash] == '/' && s[slash + 1..e] == repo
    ensures host + owner + "/" + repo <= s[i..]
  {
    SliceSplit(s, i, o, e);
    SliceSplit(s, o, slash, e);
    SliceSplit(s, slash, slash + 1, e);
    assert s[slash..slash + 1] == "/";
    assert s[i..e] == host + (owner + ("/" + repo));
    assert host + (owner + ("/" + repo)) == host + owner + "/" + repo;
    PrefixOfSlice(s, i, e);
  }

  lemma SliceInClass(s: string, i: nat, n: nat, cls: CharClass)
    requires i + n <= |s|
    requires forall k :: i <= k < i + n ==> InClass(s[k], cls)
    ensures AllInClass(s[i..i + n], cls)
  {
    var w := s[i..i + n];
    forall k | 0 <= k < n ensures InClass(w[k], cls) {
      assert w[k] == s[i + k];
    }
  }

  lemma SliceSplit(s: string, a: nat, b: nat, c: nat)
    requires a <= b <= c <= |s|
    ensures s[a..c] == s[a..b] + s[b..c]
  {
  }

  lemma PrefixOfSlice(s: string, i: nat, e: nat)
    requires i <= e <= |s|
    ensures s[i..e] <= s[i..]
  {
  }

  lemma MatchAtComplete(s: string, i: nat, owner: string, repoName: string)
    requires OccursAt(s, i, owner, repoName)
    ensures MatchAt(s, i).Some?
    ensures MatchAt(s, i).value.owner == owner
    ensures repoName <= MatchAt(s, i).value.repoName
  {
    var o := i + |GithubHost|;
    PiecesOfPrefix(s, i, GithubHost, owner, repoName);
    var ownerLen := RunLength(s, o, NotSlash);
    assert ownerLen == |owner|;
    var r := o + ownerLen + 1;
    var repoLen := RunLength(s, r, NotSlashOrDot);
    assert repoLen >= |repoName|;
    assert s[r..r + repoLen][..|repoName|] == repoName;
  }

  /** The converse of `PrefixOfPieces`. */
  lemma PiecesOfPrefix(s: string, i: nat, host: string, owner: string, repo: string)
    requires i <= |s| && host + owner + "/" + repo <= s[i..]
    ensures i + |host| + |owner| + 1 + |repo| <= |s|
    ensures s[i..i + |host|] == host
    ensures s[i + |host|..i + |host| + |owner|] == owner
    ensures forall k :: 0 <= k < |owner| ==> s[i + |host| + k] == owner[k]
    ensures s[i + |host| + |owner|] == '/'
    ensures s[i + |host| + |owner| + 1..i + |host| + |owner| + 1 + |repo|] == repo
    ensures forall k :: 0 <= k < |repo| ==> s[i + |host| + |owner| + 1 + k] == repo[k]
  {
    var w := host + owner + "/" + repo;
    assert forall k :: 0 <= k < |w| ==> s[i + k] == w[k] by {
      forall k | 0 <= k < |w| ensures s[i + k] == w[k] {
        assert s[i..][k] == w[k];
      }
    }
    forall k | 0 <= k < |host| ensures s[i + k] == host[k] {
      assert w[k] == host[k];
    }
    forall k | 0 <= k < |owner| ensures s[i + |host| + k] == owner[k] {
      assert w[|host| + k] == owner[k];
    }
    assert w[|host| + |owner|] == '/';
    forall k | 0 <= k < |repo| ensures s[i + |host| + |owner| + 1 + k] == repo[k] {
      assert w[|host| + |owner| + 1 + k] == repo[k];
    }
  }

  /** The scanner agrees with the expression: it finds a match exactly when
      the expression occurs in `url`, at the leftmost occurrence, with the
      only owner possible there and the longest repository name. */
  lemma MatchRepoUrlCorrect(url: string)
    ensures MatchRepoUrl(url).None? <==> forall i, owner, repoName :: !OccursAt(url, i, owner, repoName)
    ensures MatchRepoUrl(url).Some? ==>
      var m := MatchRepoUrl(url).value;
      && OccursAt(url, m.start, m.owner, m.repoName)
      && (forall j, owner, repoName :: OccursAt(url, j, owner, repoName) ==> m.start <= j)
      && (forall owner, repoName :: OccursAt(url, m.start, owner, repoName) ==>
            owner == m.owner && repoName <= m.repoName)
  {
    forall i, owner, repoName | OccursAt(url, i, owner, repoName)
      ensures MatchRepoUrl(url).Some? && MatchRepoUrl(url).value.start <= i
    {
      MatchAtComplete(url, i, owner, repoName);
    }
    if MatchRepoUrl(url).Some? {
      var m := MatchRepoUrl(url).value;
      MatchAtSound(url, m.start);
      forall owner, repoName | OccursAt(url, m.start, owner, repoName)
        ensures owner == m.owner && repoName <= m.repoName
      {
        MatchAtComplete(url, m.start, owner, repoName);
      }
    }
  }

  /** The scan passes over positions where nothing matches. */
  lemma {:induction false} FindMatchSkips(s: string, i: nat, j: nat)
    requires i <= j <= |s|
    requires forall k :: i <= k < j ==> MatchAt(s, k) == None
    ensures FindMatch(s, i) == FindMatch(s, j)
    decreases j - i
  {
    if i < j {
      assert MatchAt(s, i) == None;
      assert FindMatch(s, i) == FindMatch(s, i + 1);
      FindMatchSkips(s, i + 1, j);
    }
  }

  /** A match needs a `g` where it starts. */
  lemma NoMatchWithoutG(s: string, j: nat)
    requires j < |s| && s[j] != 'g'
    ensures MatchAt(s, j) == None
  {
    if j + |GithubHost| <= |s| {
      assert s[j..j + |GithubHost|][0] == s[j];
    }
  }

  /** A run of `/`-free characters fits the owner class; one also free of
      `.` fits the repository-name class. */
  lemma ClassesOfFreeStrings(owner: string, repoName: string)
    requires '/' !in owner && '/' !in repoName && '.' !in repoName
    ensures AllInClass(owner, NotSlash) && AllInClass(repoName, NotSlashOrDot)
  {
    forall k | 0 <= k < |owner| ensures InClass(owner[k], NotSlash) {
      assert owner[k] in owner;
    }
    forall k | 0 <= k < |repoName| ensures InClass(repoName[k], NotSlashOrDot) {
      assert repoName[k] in repoName;
    }
  }

  /** After a `g`-free prefix, `github.com/<owner>/<repoName><rest>` whose
      groups fit their classes, and whose rest does not extend the
      repository name, yields exactly that owner and repository name. */
  lemma MatchAfterPrefix(prefix: string, owner: string, repoName: string, rest: string)
    requires 'g' !in prefix
    requires owner != [] && AllInClass(owner, NotSlash)
    requires repoName != [] && AllInClass(repoName, NotSlashOrDot)
    requires rest == [] || !InClass(rest[0], NotSlashOrDot)
    ensures MatchRepoUrl(prefix + GithubHost + owner + "/" + repoName + rest)
         == Some(RepoMatch(|prefix|, owner, repoName))
  {
    var w := GithubHost + owner + "/" + repoName;
    var s := prefix + w + rest;
    assert s == prefix + GithubHost + owner + "/" + repoName + rest;
    FirstMatchAfterPrefix(s, prefix, w, owner, repoName, rest);
  }

  lemma FirstMatchAfterPrefix(s: string, prefix: string, w: string, owner: string, repoName: string, rest: string)
    requires s == prefix + w + rest && w == GithubHost + owner + "/" + repoName
    requires 'g' !in prefix
    requires owner != [] && AllInClass(owner, NotSlash)
    requires repoName != [] && AllInClass(repoName, NotSlashOrDot)
    requires rest == [] || !InClass(rest[0], NotSlashOrDot)
    ensures FindMatch(s, 0) == Some(RepoMatch(|prefix|, owner, repoName))
  {
    var n := |prefix|;
    assert prefix <= s && s[n..] == w + rest;
    NoMatchInPrefix(s, prefix);
    FindMatchSkips(s, 0, n);
    MatchAtHost(s, n, w, owner, repoName, rest);
  }

  /** No match starts inside a `g`-free prefix. */
  lemma NoMatchInPrefix(s: string, prefix: string)
    requires prefix <= s && 'g' !in prefix
    ensures forall j :: 0 <= j < |prefix| ==> MatchAt(s, j) == None
  {
    forall j | 0 <= j < |prefix| ensures MatchAt(s, j) == None {
      assert s[j] == prefix[j];
      NoMatchWithoutG(s, j);
    }
  }

  /** `github.com/<owner>/<repoName>` at `n`, followed by a character that
      ends the repository name or by nothing, matches with those groups. */
  lemma MatchAtHost(s: string, n: nat, w: string, owner: string, repoName: string, rest: string)
    requires w == GithubHost + owner + "/" + repoName
    requires n + |w| + |rest| == |s| && s[n..] == w + rest
    requires owner != [] && AllInClass(owner, NotSlash)
    requires repoName != [] && AllInClass(repoName, NotSlashOrDot)
    requires rest == [] || !InClass(rest[0], NotSlashOrDot)
    ensures MatchAt(s, n) == Some(RepoMatch(n, owner, repoName))
  {
    assert OccursAt(s, n, owner, repoName);
    MatchAtComplete(s, n, owner, repoName);
    var m := MatchAt(s, n).value;
    MatchAtSound(s, n);
    PiecesOfPrefix(s, n, GithubHost, m.owner, m.repoName);
    var e := n + |w|;
    assert e < |s| ==> s[e] == rest[0];
    assert |m.repoName| == |repoName|;
    assert m.repoName == repoName;
  }

  /** `https://github.com/<owner>/<repoName><rest>`, with the groups
      free of their excluded characters and a rest that starts with `/` or
      `.` or is empty, yields that owner and repository name. */
  lemma MatchGithubUrl(owner: string, repoName: string, rest: string)
    requires owner != [] && '/' !in owner
    requires repoName != [] && '/' !in repoName && '.' !in repoName
    requires rest == [] || rest[0] == '/' || rest[0] == '.'
    ensures MatchRepoUrl(CD.GithubUrl(owner, repoName, rest)) == Some(RepoMatch(8, owner, repoName))
  {
    assert CD.GithubBase == "https://" + GithubHost;
    ClassesOfFreeStrings(owner, repoName);
    MatchAfterPrefix("https://", owner, repoName, rest);
  }

  const CodespacePrefix: string := "https://github.com/codespaces/new?hide_repo_select=true&ref="

  /** The Codespaces address for a branch of `<owner>/<repoName>`, the slash
      written as `%2F`. */
  function CodespaceUrl(branch: string, owner: string, repoName: string): string
  {
    CodespacePrefix + branch + "&repo=" + owner + "%2F" + repoName
  }

  /** `handleEditInCodespace` without the `window.open`: the address it
      would open, or none when the pattern has no catalog entry or its url
      does not match. */
  function EditInCodespaceUrl(patternId: string): (url: Option<string>)
    ensures patternId !in PatternRepos ==> url == None
    ensures patternId in PatternRepos ==>
      (url.Some? <==> exists i, owner, repoName :: OccursAt(PatternRepos[patternId].url, i, owner, repoName))
    ensures url.Some? ==>
      && MatchRepoUrl(PatternRepos[patternId].url).Some?
      && var m := MatchRepoUrl(PatternRepos[patternId].url).value;
         url.value == CodespaceUrl(PatternRepos[patternId].branch, m.owner, m.repoName)
  {
    if patternId in PatternRepos then
      var repo := PatternRepos[patternId];
      MatchRepoUrlCorrect(repo.url);
      match MatchRepoUrl(repo.url)
      case Some(m) => Some(CodespaceUrl(repo.branch, m.owner, m.repoName))
      case None => None
    else None
  }

  /** A catalog entry of that shape on branch `main` gets the matching
      address. */
  lemma CatalogEntryCodespaceUrl(patternId: string, owner: string, repoName: string, rest: string)
    requires owner != [] && '/' !in owner
    requires repoName != [] && '/' !in repoName && '.' !in repoName
    requires rest == [] || rest[0] == '/' || rest[0] == '.'
    requires patternId in PatternRepos
    requires PatternRepos[patternId] == CD.Repository(CD.GithubUrl(owner, repoName, rest), "main")
    ensures EditInCodespaceUrl(patternId) == Some(CodespaceUrl("main", owner, repoName))
  {
    MatchGithubUrl(owner, repoName, rest);
  }

  lemma SpringBootCodespaceUrl()
    ensures EditInCodespaceUrl("spring-boot") == Some(CodespaceUrl("main", "spring-projects", "spring-petclinic"))
  {
    CatalogEntryCodespaceUrl("spring-boot", "spring-projects", "spring-petclinic", ".git");
  }

  lemma PythonCodespaceUrl()
    ensures EditInCodespaceUrl("python") == Some(CodespaceUrl("main", "nickjj", "docker-flask-example"))
  {
    CatalogEntryCodespaceUrl("python", "nickjj", "docker-flask-example", ".git");
  }

  lemma NodejsCodespaceUrl()
    ensures EditInCodespaceUrl("nodejs") == Some(CodespaceUrl("main", "wellsfargo", "nodejs-template"))
  {
    CatalogEntryCodespaceUrl("nodejs", "wellsfargo", "nodejs-template", "");
  }

  lemma ReactCodespaceUrl()
    ensures EditInCodespaceUrl("react") == Some(CodespaceUrl("main", "wellsfargo", "react-template"))
  {
    CatalogEntryCodespaceUrl("react", "wellsfargo", "react-template", "");
  }

  lemma GolangCodespaceUrl()
    ensures EditInCodespaceUrl("golang") == Some(CodespaceUrl("main", "wellsfargo", "golang-template"))
  {
    CatalogEntryCodespaceUrl("golang", "wellsfargo", "golang-template", "");
  }

  /** The catalog's keys are exactly the five pattern ids. */
  lemma CatalogKeySet()
    ensures PatternRepos.Keys == {"spring-boot", "python", "nodejs", "react", "golang"}
  {
  }

  /** Every key of the catalog is one of the five pattern ids. */
  lemma CatalogKeys(id: string)
    requires id in PatternRepos
    ensures id == "spring-boot" || id == "python" || id == "nodejs" || id == "react" || id == "golang"
  {
  }

  /** Every catalog entry matches, so every catalogued pattern gets an
      address. */
  lemma CatalogCodespaceUrl(id: string)
    requires id in PatternRepos
    ensures EditInCodespaceUrl(id).Some?
  {
    CatalogKeys(id);
    if id == "spring-boot" {
      SpringBootCodespaceUrl();
    } else if id == "python" {
      PythonCodespaceUrl();
    } else if id == "nodejs" {
      NodejsCodespaceUrl();
    } else if id == "react" {
      ReactCodespaceUrl();
    } else {
      GolangCodespaceUrl();
    }
  }
}
