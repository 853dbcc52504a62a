/** `SecretManagerClient`: the secret that holds each client's Klaviyo API
    key, and the Secret Manager resource path of a secret version. The
    Secret Manager service itself is a parameter: a function from resource
    paths to payloads, `None` where the access raises. */
module SecretManager {
  import opened Wrappers
  import opened Text

  const KeyPrefix := "klaviyo-api-"

  /** The clients whose secret is not named after their slug. */
  const Aliases: map<string, string> := map[
    "vlasic" := "klaviyo-api-vlasic-labs",
    "milagro" := "klaviyo-api-milagro-mushrooms",
    "chris-bean" := "klaviyo-api-christopher-bean-coffee"
  ]

  /** A constructed client: only its project id matters here. */
  datatype SecretClient = SecretClient(projectId: string)

  /** The constructor: the argument when it is a non-empty string, else the
      `GOOGLE_CLOUD_PROJECT` variable; `ValueError` when neither gives a
      non-empty project id. */
  function NewClient(projectId: Option<string>, env: Option<string>): (r: Result<SecretClient, string>)
    ensures r.Ok? <==> (projectId.Some? && projectId.value != []) || (env.Some? && env.value != [])
    ensures r.Ok? && projectId.Some? && projectId.value != [] ==> r.value.projectId == projectId.value
    ensures r.Ok? && !(projectId.Some? && projectId.value != []) ==> r.value.projectId == env.value
    ensures r.Ok? ==> r.value.projectId != []
  {
    var chosen := if projectId.Some? && projectId.value != [] then projectId else env;
    if chosen.None? || chosen.value == [] then Err("Google Cloud project ID not found")
    else Ok(SecretClient(chosen.value))
  }

  /** `_get_secret_name` */
  function SecretName(slug: string): (r: string)
  {
    if slug in Aliases then Aliases[slug] else KeyPrefix + slug
  }

  /** Every secret name carries the Klaviyo key prefix; an aliased slug gets
      its fixed name and any other slug gets the prefix followed by itself. */
  lemma SecretNameShape(slug: string)
    ensures StartsWith(SecretName(slug), KeyPrefix)
    ensures slug in Aliases ==> SecretName(slug) == Aliases[slug]
    ensures slug !in Aliases ==> SecretName(slug)[|KeyPrefix|..] == slug
  {
    if slug in Aliases {
      assert slug == "vlasic" || slug == "milagro" || slug == "chris-bean";
      var name := Aliases[slug];
      assert name[..|KeyPrefix|] == KeyPrefix;
    } else {
      assert (KeyPrefix + slug)[..|KeyPrefix|] == KeyPrefix;
    }
  }

  /** Two slugs outside the aliases never share a secret. */
  lemma SecretNameInjective(a: string, b: string)
    requires a !in Aliases && b !in Aliases
    requires SecretName(a) == SecretName(b)
    ensures a == b
  {
    SecretNameShape(a);
    SecretNameShape(b);
  }

  /** An alias can collide with the plain name of another slug: the slug
      "vlasic-labs" reads the same secret as "vlasic". */
  lemma AliasShared()
    ensures SecretName("vlasic") == SecretName("vlasic-labs")
  {
    assert "vlasic-labs" !in Aliases;
  }

  /** `projects/{project}/secrets/{name}/versions/{version}` */
  function SecretPath(project: string, name: string, version: string): (r: string)
    ensures StartsWith(r, "projects/" + project + "/secrets/")
    ensures EndsWith(r, "/versions/" + version)
    ensures |r| == |"projects/"| + |project| + |"/secrets/"| + |name| + |"/versions/"| + |version|
  {
    var head := "projects/" + project + "/secrets/";
    var tail := "/versions/" + version;
    var r := head + name + tail;
    assert r[..|head|] == head;
    assert r[|r| - |tail|..] == tail;
    r
  }

  /** With the project and version fixed, the path determines the secret. */
  lemma SecretPathInjective(project: string, a: string, b: string, version: string)
    requires SecretPath(project, a, version) == SecretPath(project, b, version)
    ensures a == b
  {
    var head := "projects/" + project + "/secrets/";
    var p := SecretPath(project, a, version);
    assert |a| == |b|;
    assert p[|head|..|head| + |a|] == a;
    assert p[|head|..|head| + |b|] == b;
  }

  /** `get_api_key`: the payload of the client's secret, or the failure of
      the access with the path that was asked for. */
  function GetApiKey(client: SecretClient, slug: string, version: string,
                     access: string -> Option<string>): (r: Result<string, string>)
    ensures var path := SecretPath(client.projectId, SecretName(slug), version);
            && (r.Ok? <==> access(path).Some?)
            && (r.Ok? ==> r.value == access(path).value)
            && (r.Err? ==> r.error == path)
  {
    GetSecret(client, SecretName(slug), version, access)
  }

  /** `get_secret`: the payload of a named secret. */
  function GetSecret(client: SecretClient, name: string, version: string,
                     access: string -> Option<string>): (r: Result<string, string>)
    ensures var path := SecretPath(client.projectId, name, version);
            && (r.Ok? <==> access(path).Some?)
            && (r.Ok? ==> r.value == access(path).value)
            && (r.Err? ==> r.error == path)
  {
    var path := SecretPath(client.projectId, name, version);
    match access(path)
    case Some(payload) => Ok(payload)
    case None => Err(path)
  }

  /** A Secret Manager holding a single secret version, at `path`. */
  function OnlySecret(path: string, payload: string): string -> Option<string> {
    p => if p == path then Some(payload) else None
  }

  /** Each name reads its own secret: with only the secret `held` present,
      `get_secret` answers for that name and fails for every other name in
      the same project and version. */
  lemma SecretIsolated(client: SecretClient, name: string, held: string, version: string, payload: string)
    ensures GetSecret(client, name, version, OnlySecret(SecretPath(client.projectId, held, version), payload))
            == if name == held then Ok(payload) else Err(SecretPath(client.projectId, name, version))
  {
    if SecretPath(client.projectId, name, version) == SecretPath(client.projectId, held, version) {
      SecretPathInjective(client.projectId, name, held, version);
    }
  }

  /** A client's key is never read from another client's secret: with only
      the secret of the slug `other` present, `get_api_key` succeeds for a
      non-aliased slug exactly when it is `other`. */
  lemma ApiKeyIsolated(client: SecretClient, slug: string, other: string, version: string, payload: string)
    requires slug !in Aliases && other !in Aliases
    ensures var held := SecretPath(client.projectId, SecretName(other), version);
            GetApiKey(client, slug, version, OnlySecret(held, payload)).Ok? <==> slug == other
  {
    SecretIsolated(client, SecretName(slug), SecretName(other), version, payload);
    if SecretName(slug) == SecretName(other) {
      SecretNameInjective(slug, other);
    }
  }

  /** Both methods default to the latest version. */
  const LatestVersion := "latest"
}
