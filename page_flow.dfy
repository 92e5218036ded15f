/** How the three pages fit together: the two copies of the repository
    catalog, and where a click on a catalogue card leads. */
module PageFlow {
  import opened Wrappers
  import CD = ConfigureDeploy
  import PD = PatternDetails
  import PS = PatternSelection

  /** The details page's catalog is the configuration page's, entry for
      entry. */
  lemma CatalogsAgree()
    ensures PD.PatternRepos == CD.PatternRepos
  {
  }

  /** Where a click on each catalogue card leads. The import card opens
      the configuration page with the default configuration. Every other
      card opens its details page, which exists only for `spring-boot`: the
      other four cards land on the not-found state, so their configure
      button is never shown. From the `spring-boot` details page, the
      configure route seeds that pattern's catalog repository. */
  lemma CardDestinations(p: PS.Pattern)
    requires p in PS.Patterns
    ensures p.id == "import" ==>
              PS.HandlePatternClick(p) == PD.ConfigureRoute("import") &&
              CD.SeedConfig(Some("import")) == CD.InitialConfig
    ensures p.id != "import" ==> PS.HandlePatternClick(p) == PS.DetailsRoutePrefix + p.id
    ensures p.id != "import" ==> (PD.IsNotFound(Some(p.id)) <==> p.id != "spring-boot")
    ensures p.id == "spring-boot" ==>
              var id := PD.ConfigureRoute(p.id)[|PD.ConfigureRoutePrefix|..];
              id == p.id && CD.SeedConfig(Some(id)) == CD.InitialConfig.(repository := CD.PatternRepos[p.id])
  {
    if p.id == "import" {
      CD.SeedImportIsDefault();
    }
    PD.NotFoundUnlessSpringBoot(Some(p.id));
  }
}
