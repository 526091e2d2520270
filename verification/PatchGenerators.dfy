/** The patch generators that build their lists in loops, each proved to build what its function says. */
module PatchGenerators {
  import opened Prelude
  import opened Json
  import opened Text
  import opened Pods
  import opened SessionPatches

  lemma TestedNames(cfg: Config, sv: Server)
    ensures var names := if sv.registered then cfg.containersRegistered else cfg.containersAnonymous;
      var most := if sv.registered then 2 else 1;
      ExpectedContainers(cfg, sv) == if |names| <= most then names else names[..most]
  {
  }

  lemma TestIs(k: nat, name: string)
    ensures TestOp(k, name)
      == Op.Test([Key("statefulset"), Key("spec"), Key("template"), Key("spec"), Key("containers"), At(k), Key("name")],
                 Str(name))
  {
    assert FieldPath(Containers, k, "name")
      == [Key("statefulset"), Key("spec"), Key("template"), Key("spec"), Key("containers"), At(k), Key("name")];
  }

  /** general.test: two of a registered user's containers, one of an anonymous one's, if there are as many. */
  method BuildTests(cfg: Config, sv: Server) returns (patches: seq<Patch>)
    ensures patches == TestContainers(cfg, sv)
    ensures var names := if sv.registered then cfg.containersRegistered else cfg.containersAnonymous;
      var most := if sv.registered then 2 else 1;
      && |patches| == (if |names| <= most then |names| else most)
      && forall k: nat | k < |patches| ::
         patches[k] == [Op.Test([Key("statefulset"), Key("spec"), Key("template"), Key("spec"), Key("containers"),
                                 At(k), Key("name")], Str(names[k]))]
  {
    TestedNames(cfg, sv);
    forall k: nat, name
      ensures TestOp(k, name)
        == Op.Test([Key("statefulset"), Key("spec"), Key("template"), Key("spec"), Key("containers"), At(k),
                    Key("name")], Str(name))
    {
      TestIs(k, name);
    }
    hide TestOp;
    patches := [];
    var names := if sv.registered then Take(cfg.containersRegistered, 2) else Take(cfg.containersAnonymous, 1);
    for index := 0 to |names|
      invariant patches == TestContainers(cfg, sv)[..index]
    {
      patches := patches + [[TestOp(index, names[index])]];
    }
  }

  lemma FixedNamesDiffer(sv: Server, i: nat, j: nat)
    requires i < j < |FixedEnv(sv)|
    ensures FixedEnv(sv)[i].0 != FixedEnv(sv)[j].0
  {
    assert |"RENKU_USERNAME"| == |"GIT_CLONE_REPO"| == 14 && |"CI_COMMIT_SHA"| == 13 && |"MOUNT_PATH"| == 10;
    assert |"NOTEBOOK_DIR"| == |"PROJECT_NAME"| == 12 && |"SESSION_URL"| == 11;
    assert "RENKU_USERNAME"[0] != "GIT_CLONE_REPO"[0] && "NOTEBOOK_DIR"[0] != "PROJECT_NAME"[0];
  }

  lemma {:induction false} AppendsSnoc(path: Path, values: seq<Json>, x: Json)
    ensures Appends(path, values + [x]) == Appends(path, values) + [Add(path + [End], x)]
  {
    if values == [] {
      assert [x][1..] == [];
    } else {
      assert (values + [x])[1..] == values[1..] + [x];
      AppendsSnoc(path, values[1..], x);
    }
  }

  lemma NextVariable(sv: Server, path: Path, i: nat)
    requires i < |sv.environment|
    ensures var n := |FixedEnv(sv)|; var x := EnvVar(sv.environment[i].0, Str(sv.environment[i].1));
      Appends(path, JupyterEnv(sv)[..n + i + 1]) == Appends(path, JupyterEnv(sv)[..n + i]) + [Add(path + [End], x)]
  {
    hide EnvVar, Appends;
    var n := |FixedEnv(sv)|;
    var x := EnvVar(sv.environment[i].0, Str(sv.environment[i].1));
    assert JupyterEnv(sv)[..n + i + 1] == JupyterEnv(sv)[..n + i] + [x];
    AppendsSnoc(path, JupyterEnv(sv)[..n + i], x);
  }

  /** A variable of the user that would give one of the seven of the service another value. */
  predicate Refused(sv: Server, name: string, value: string) {
    || (name == "RENKU_USERNAME" && value != sv.username)
    || (name == "CI_COMMIT_SHA" && sv.commitSha != Some(value))
    || (name == "NOTEBOOK_DIR" && value != sv.workDir)
    || (name == "MOUNT_PATH" && value != sv.workDir)
    || (name == "SESSION_URL" && value != sv.url)
    || (name == "PROJECT_NAME" && sv.project != Some(value))
    || (name == "GIT_CLONE_REPO" && value != "true")
  }

  lemma RefusedIs(sv: Server, name: string, value: string)
    ensures Overrides(FixedEnv(sv), (name, value)) <==> Refused(sv, name, value)
  {
    var fixed := FixedEnv(sv);
    if Refused(sv, name, value) {
      assert fixed[0].0 == "RENKU_USERNAME" && fixed[1].0 == "CI_COMMIT_SHA" && fixed[2].0 == "NOTEBOOK_DIR";
      assert fixed[3].0 == "MOUNT_PATH" && fixed[4].0 == "SESSION_URL" && fixed[5].0 == "PROJECT_NAME";
      assert fixed[6].0 == "GIT_CLONE_REPO";
    }
  }

  lemma EnvFailsIff(sv: Server)
    ensures (exists k | 0 <= k < |sv.environment| :: Overrides(FixedEnv(sv), sv.environment[k]))
       <==> exists k | 0 <= k < |sv.environment| :: Refused(sv, sv.environment[k].0, sv.environment[k].1)
  {
    hide Overrides, FixedEnv, Refused;
    forall k | 0 <= k < |sv.environment|
      ensures Overrides(FixedEnv(sv), sv.environment[k]) <==> Refused(sv, sv.environment[k].0, sv.environment[k].1)
    {
      RefusedIs(sv, sv.environment[k].0, sv.environment[k].1);
    }
  }

  /** jupyter_server.env, with the dictionary of the names that the service sets. */
  method BuildEnv(sv: Server) returns (r: Result<seq<Patch>, string>)
    ensures r == Env(sv)
    ensures r.Err? <==> exists k | 0 <= k < |sv.environment| :: Refused(sv, sv.environment[k].0, sv.environment[k].1)
  {
    EnvFailsIff(sv);
    hide FixedEnv, JupyterEnv, EnvVar, Appends, Refused;
    var fixed := FixedEnv(sv);
    var path := FieldPath(Containers, 0, "env");
    var patchList: Patch := Appends(path, JupyterEnv(sv)[..|fixed|]);
    var vars: map<string, Json> := map[];
    for k := 0 to |fixed|
      invariant forall name :: name in vars <==> exists j | 0 <= j < k :: fixed[j].0 == name
      invariant forall j | 0 <= j < k :: vars[fixed[j].0] == fixed[j].1
    {
      forall j | 0 <= j < k
        ensures fixed[j].0 != fixed[k].0
      {
        FixedNamesDiffer(sv, j, k);
      }
      vars := vars[fixed[k].0 := fixed[k].1];
    }
    for i := 0 to |sv.environment|
      invariant forall k | 0 <= k < i :: !Overrides(fixed, sv.environment[k])
      invariant patchList == Appends(path, JupyterEnv(sv)[..|fixed| + i])
    {
      var (key, value) := sv.environment[i];
      if key in vars && Str(value) != vars[key] {
        assert Overrides(fixed, sv.environment[i]);
        return Err("OverriddenEnvironmentVariableError");
      }
      NextVariable(sv, path, i);
      patchList := patchList + [Add(path + [End], EnvVar(key, Str(value)))];
    }
    assert JupyterEnv(sv)[..|fixed| + |sv.environment|] == JupyterEnv(sv);
    return Ok([patchList]);
  }

  /** Twelve variables, two more for a registered user, and then one for each repository and provider, in order. */
  ghost predicate GrowsByLists(sv: Server, env: seq<Json>) {
    var n := if sv.registered then 14 else 12;
    && |env| == n + |sv.repositories| + |sv.providers|
    && env[n..n + |sv.repositories|] == Numbered("GIT_CLONE_REPOSITORIES_", sv.repositories, "_")
    && env[n + |sv.repositories|..] == Numbered("GIT_CLONE_GIT_PROVIDERS_", sv.providers, "_")
  }

  lemma ListsInCloneEnv(cfg: Config, sv: Server)
    ensures GrowsByLists(sv, GitCloneEnv(cfg, sv))
  {
    hide EnvVar, Setting, Opaque, Numbered;
  }

  lemma CloneEnvStarts(cfg: Config, sv: Server)
    ensures GitCloneEnv(cfg, sv)
      == [EnvVar("GIT_CLONE_MOUNT_PATH", Str(sv.mountPath)),
          EnvVar("GIT_CLONE_LFS_AUTO_FETCH", Str(if sv.lfsAutoFetch then "1" else "0")),
          EnvVar("GIT_CLONE_USER__USERNAME", Str(sv.username)),
          EnvVar("GIT_CLONE_USER__RENKU_TOKEN", Str(sv.accessToken)),
          EnvVar("GIT_CLONE_IS_GIT_PROXY_ENABLED", Str(if sv.registered then "1" else "0")),
          EnvVar("GIT_CLONE_SENTRY__ENABLED", Setting(cfg, "git_clone.sentry.enabled")),
          EnvVar("GIT_CLONE_SENTRY__DSN", Setting(cfg, "git_clone.sentry.dsn")),
          EnvVar("GIT_CLONE_SENTRY__ENVIRONMENT", Setting(cfg, "git_clone.sentry.env")),
          EnvVar("GIT_CLONE_SENTRY__SAMPLE_RATE", Setting(cfg, "git_clone.sentry.sample_rate")),
          EnvVar("SENTRY_RELEASE", Opaque(cfg, "SENTRY_RELEASE")),
          EnvVar("REQUESTS_CA_BUNDLE", Str(CA_BUNDLE)),
          EnvVar("SSL_CERT_FILE", Str(CA_BUNDLE))]
         + CloneEnvUser(sv) + Numbered("GIT_CLONE_REPOSITORIES_", sv.repositories, "_")
         + Numbered("GIT_CLONE_GIT_PROVIDERS_", sv.providers, "_")
  {
    hide EnvVar, Setting, Opaque, Numbered, CloneEnvUser;
  }

  /** init_containers.git_clone: the environment grows by the user, the repositories and the providers. */
  method BuildGitCloneEnv(cfg: Config, sv: Server) returns (env: seq<Json>)
    ensures env == GitCloneEnv(cfg, sv)
    ensures GrowsByLists(sv, env)
  {
    hide EnvVar, Setting, Opaque, GrowsByLists, GitCloneEnv, Numbered;
    ListsInCloneEnv(cfg, sv);
    CloneEnvStarts(cfg, sv);
    env := [EnvVar("GIT_CLONE_MOUNT_PATH", Str(sv.mountPath)),
            EnvVar("GIT_CLONE_LFS_AUTO_FETCH", Str(if sv.lfsAutoFetch then "1" else "0")),
            EnvVar("GIT_CLONE_USER__USERNAME", Str(sv.username)),
            EnvVar("GIT_CLONE_USER__RENKU_TOKEN", Str(sv.accessToken)),
            EnvVar("GIT_CLONE_IS_GIT_PROXY_ENABLED", Str(if sv.registered then "1" else "0")),
            EnvVar("GIT_CLONE_SENTRY__ENABLED", Setting(cfg, "git_clone.sentry.enabled")),
            EnvVar("GIT_CLONE_SENTRY__DSN", Setting(cfg, "git_clone.sentry.dsn")),
            EnvVar("GIT_CLONE_SENTRY__ENVIRONMENT", Setting(cfg, "git_clone.sentry.env")),
            EnvVar("GIT_CLONE_SENTRY__SAMPLE_RATE", Setting(cfg, "git_clone.sentry.sample_rate")),
            EnvVar("SENTRY_RELEASE", Opaque(cfg, "SENTRY_RELEASE")),
            EnvVar("REQUESTS_CA_BUNDLE", Str(CA_BUNDLE)),
            EnvVar("SSL_CERT_FILE", Str(CA_BUNDLE))];
    if sv.registered {
      env := env + [EnvVar("GIT_CLONE_USER__EMAIL", Str(sv.email)),
                    EnvVar("GIT_CLONE_USER__FULL_NAME", Str(sv.fullName))];
    }
    env := AppendNumbered(env, "GIT_CLONE_REPOSITORIES_", sv.repositories, "_");
    env := AppendNumbered(env, "GIT_CLONE_GIT_PROVIDERS_", sv.providers, "_");
  }

  method AppendNumbered(start: seq<Json>, prefix: string, values: seq<string>, suffix: string) returns (env: seq<Json>)
    ensures env == start + Numbered(prefix, values, suffix)
  {
    env := start;
    for k := 0 to |values|
      invariant env == start + Numbered(prefix, values, suffix)[..k]
    {
      env := env + [EnvVar(prefix + Decimal(k) + suffix, Str(values[k]))];
    }
  }

  lemma {:induction false} AppendsAt(path: Path, values: seq<Json>)
    ensures forall k | 0 <= k < |values| :: Appends(path, values)[k] == Add(path + [End], values[k])
  {
    if values != [] {
      AppendsAt(path, values[1..]);
    }
  }

  lemma SixArgs(cfg: Config, sv: Server)
    ensures |SidecarArgs(cfg, sv)| == 6
  {
  }

  /** git_sidecar.main */
  method BuildGitSidecar(cfg: Config, sv: Server) returns (patches: seq<Patch>)
    ensures patches == GitSidecar(cfg, sv)
    ensures |patches| == if sv.registered && sv.repositories != [] then 3 else 0
    ensures |patches| == 3 ==>
      && patches[0] == ToSlot(Containers, GitSidecarContainer(cfg, sv))
      && |patches[1]| == 7 && patches[1][0].Replace?
      && forall k | 0 < k < 7 :: patches[1][k].Add? && patches[1][k].value == SidecarArgs(cfg, sv)[k - 1]
  {
    hide GitSidecarContainer, SidecarArgs, UpstreamArg;
    if !sv.registered {
      return [];
    }
    if sv.repositories == [] {
      return [];
    }
    patches := [ToSlot(Containers, GitSidecarContainer(cfg, sv))];
    var args := FieldPath(Containers, 1, "args");
    SixArgs(cfg, sv);
    AppendsAt(args, SidecarArgs(cfg, sv));
    patches := patches + [[Replace(args + [At(6)], UpstreamArg(sv))] + Appends(args, SidecarArgs(cfg, sv))];
    patches := patches + [[Add([Key("serviceRpcServer")], Opaque(cfg, "serviceRpcServer"))]];
  }

  /** cloudstorage.main */
  method BuildCloudStorage(cfg: Config, sv: Server) returns (patches: seq<Patch>)
    ensures patches == CloudStorage(cfg, sv)
  {
    hide StorageManifest, StorageVar;
    patches := [];
    if sv.storages == [] {
      return;
    }
    for i := 0 to |sv.storages|
      invariant patches == CloudStorageUpTo(cfg, sv, i)
    {
      patches := patches + [StorageManifest(cfg, sv, i)];
      if sv.repositories != [] {
        patches := patches + [ToField(Inits, 2, "env", StorageVar(sv, i))];
      }
    }
  }
}
