/** The route table and the hostname lookup. */
module Routes {

  /**
   * The deployment's configuration: the domain every route hostname ends
   * with, the mode (`"debug"` turns on the fallback) and the fallback
   * upstream used in debug mode.
   */
  datatype Config = Config(domain: string, mode: string, target: string)
  {
    predicate IsDebug()
    {
      mode == "debug"
    }
  }

  const DOCKER_HUB := "https://registry-1.docker.io"

  /** The route table: one public hostname per upstream registry, plus a legacy alias for Docker Hub. */
  function Table(domain: string): map<string, string>
  {
    map[
      "docker." + domain := DOCKER_HUB,
      "quay." + domain := "https://quay.io",
      "gcr." + domain := "https://gcr.io",
      "k8s-gcr." + domain := "https://k8s.gcr.io",
      "k8s." + domain := "https://registry.k8s.io",
      "ghcr." + domain := "https://ghcr.io",
      "cloudsmith." + domain := "https://docker.cloudsmith.io",
      "ecr." + domain := "https://public.ecr.aws",
      "docker-staging." + domain := DOCKER_HUB
    ]
  }

  /**
   * `routeByHosts`: the upstream for `host`, or the fallback in debug mode,
   * or `""` when there is none.
   */
  function RouteByHosts(cfg: Config, host: string): string
  {
    var configured := if host in Table(cfg.domain) then Table(cfg.domain)[host] else "";
    if configured != "" then configured
    else if cfg.IsDebug() then cfg.target
    else ""
  }

  /**
   * Every configured hostname gives its own upstream: the nine hostnames
   * are distinct for every domain, so no entry hides another.
   */
  lemma TableEntries(domain: string)
    ensures Table(domain).Keys == {
      "docker." + domain, "quay." + domain, "gcr." + domain, "k8s-gcr." + domain, "k8s." + domain,
      "ghcr." + domain, "cloudsmith." + domain, "ecr." + domain, "docker-staging." + domain }
    ensures Table(domain)["docker." + domain] == DOCKER_HUB
    ensures Table(domain)["quay." + domain] == "https://quay.io"
    ensures Table(domain)["gcr." + domain] == "https://gcr.io"
    ensures Table(domain)["k8s-gcr." + domain] == "https://k8s.gcr.io"
    ensures Table(domain)["k8s." + domain] == "https://registry.k8s.io"
    ensures Table(domain)["ghcr." + domain] == "https://ghcr.io"
    ensures Table(domain)["cloudsmith." + domain] == "https://docker.cloudsmith.io"
    ensures Table(domain)["ecr." + domain] == "https://public.ecr.aws"
    ensures Table(domain)["docker-staging." + domain] == DOCKER_HUB
    ensures forall h <- Table(domain) :: Table(domain)[h] != ""
    ensures |Table(domain)| == 9
  {
    // Hostnames of equal length differ in their first character.
    assert ("quay." + domain)[0] == 'q' && ("ghcr." + domain)[0] == 'g';
    assert ("gcr." + domain)[0] == 'g' && ("k8s." + domain)[0] == 'k' && ("ecr." + domain)[0] == 'e';
    HostnameCount(domain);
  }

  /** The nine hostnames are pairwise distinct, whatever the domain. */
  lemma HostnameCount(domain: string)
    ensures |{
      "docker." + domain, "quay." + domain, "gcr." + domain, "k8s-gcr." + domain, "k8s." + domain,
      "ghcr." + domain, "cloudsmith." + domain, "ecr." + domain, "docker-staging." + domain }| == 9
  {
    var docker, quay, gcr := "docker." + domain, "quay." + domain, "gcr." + domain;
    var k8sGcr, k8s, ghcr := "k8s-gcr." + domain, "k8s." + domain, "ghcr." + domain;
    var cloudsmith, ecr, staging := "cloudsmith." + domain, "ecr." + domain, "docker-staging." + domain;
    var n := |domain|;
    assert |docker| == n + 7 && |quay| == n + 5 && |gcr| == n + 4 && |k8sGcr| == n + 8 && |k8s| == n + 4;
    assert |ghcr| == n + 5 && |cloudsmith| == n + 11 && |ecr| == n + 4 && |staging| == n + 15;
    // Equal lengths only within {gcr, k8s, ecr} and {quay, ghcr}; those differ in their first character.
    assert gcr[0] == 'g' && k8s[0] == 'k' && ecr[0] == 'e' && quay[0] == 'q' && ghcr[0] == 'g';
    assert quay !in {docker};
    assert gcr !in {docker, quay};
    assert k8sGcr !in {docker, quay, gcr};
    assert k8s !in {docker, quay, gcr, k8sGcr};
    assert ghcr !in {docker, quay, gcr, k8sGcr, k8s};
    assert cloudsmith !in {docker, quay, gcr, k8sGcr, k8s, ghcr};
    assert ecr !in {docker, quay, gcr, k8sGcr, k8s, ghcr, cloudsmith};
    assert staging !in {docker, quay, gcr, k8sGcr, k8s, ghcr, cloudsmith, ecr};
  }

  /**
   * The lookup gives the configured upstream for a configured hostname; for
   * any other hostname it gives the fallback in debug mode and `""`
   * otherwise.
   */
  lemma RouteLookup(cfg: Config, host: string)
    ensures host in Table(cfg.domain) ==> RouteByHosts(cfg, host) == Table(cfg.domain)[host]
    ensures host !in Table(cfg.domain) && cfg.IsDebug() ==> RouteByHosts(cfg, host) == cfg.target
    ensures host !in Table(cfg.domain) && !cfg.IsDebug() ==> RouteByHosts(cfg, host) == ""
  {
    TableEntries(cfg.domain);
  }

  /** Both the `docker.` hostname and its `docker-staging.` alias lead to Docker Hub, in every mode. */
  lemma DockerAliases(cfg: Config)
    ensures RouteByHosts(cfg, "docker." + cfg.domain) == DOCKER_HUB
    ensures RouteByHosts(cfg, "docker-staging." + cfg.domain) == DOCKER_HUB
  {
    TableEntries(cfg.domain);
  }
}
