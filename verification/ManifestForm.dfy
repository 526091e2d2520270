/** What a run of patches has added to a base manifest so far, and how each kind of operation adds to it. */
module ManifestForm {
  import opened Prelude
  import opened Json
  import opened Pods

  /** The additions, in terms of what ends up where. */
  datatype Additions = Additions(
    mainArgs: Option<Json>,
    mainPorts: Option<Json>,
    mainEnv: seq<Json>,
    mainMounts: seq<Json>,
    proxyUpstream: Option<Json>,
    proxyArgs: seq<Json>,
    proxyEnv: seq<Json>,
    proxyMounts: seq<Json>,
    containers: seq<Json>,
    inits: seq<Json>,
    volumes: seq<Json>,
    pullSecrets: seq<Json>,
    servicePorts: seq<Json>)

  const NOTHING := Additions(None, None, [], [], None, [], [], [], [], [], [], [], [])

  /** The member of a container after an array of values was appended to it, if any was. */
  function Extended(c: Json, field: string, values: seq<Json>): Json
    requires c.Obj?
    requires values != [] ==> FieldItems(c, field).Some?
  {
    if values == [] then c else Extend(c, field, values)
  }

  function Assigned(c: Json, field: string, x: Option<Json>): Json
    requires c.Obj?
  {
    if x.None? then c else WithField(c, field, x.value)
  }

  /** The oauth proxy's arguments: the seventh replaced, more appended. */
  function NewArgs(args: seq<Json>, upstream: Option<Json>, more: seq<Json>): seq<Json>
    requires upstream.Some? ==> |args| > 6
  {
    (if upstream.Some? then args[6 := upstream.value] else args) + more
  }

  ghost predicate MainFits(c: Json) {
    c.Obj? && FieldItems(c, "env").Some? && FieldItems(c, "volumeMounts").Some?
  }

  ghost predicate ProxyFits(c: Json, a: Additions) {
    && c.Obj? && FieldItems(c, "volumeMounts").Some?
    && (a.proxyEnv != [] ==> FieldItems(c, "env").Some?)
    && (a.proxyUpstream.Some? || a.proxyArgs != [] ==>
          FieldItems(c, "args").Some? && |FieldItems(c, "args").value| > 6)
  }

  ghost function Main(c: Json, a: Additions): Json
    requires MainFits(c)
  {
    var withEnv := Obj(c.members["env" := Arr(FieldItems(c, "env").value + a.mainEnv)]
                                ["volumeMounts" := Arr(FieldItems(c, "volumeMounts").value + a.mainMounts)]);
    Assigned(Assigned(withEnv, "args", a.mainArgs), "ports", a.mainPorts)
  }

  ghost function Proxy(c: Json, a: Additions): Json
    requires ProxyFits(c, a)
  {
    var withMounts := WithField(c, "volumeMounts", Arr(FieldItems(c, "volumeMounts").value + a.proxyMounts));
    var withEnv := Extended(withMounts, "env", a.proxyEnv);
    if a.proxyUpstream.None? && a.proxyArgs == [] then withEnv
    else WithField(withEnv, "args", Arr(NewArgs(FieldItems(c, "args").value, a.proxyUpstream, a.proxyArgs)))
  }

  /** A base that the additions fit. */
  ghost predicate Fits(base: Pod, a: Additions) {
    && base.containers.Some? && |base.containers.value| >= 2
    && MainFits(base.containers.value[0]) && ProxyFits(base.containers.value[1], a)
    && base.inits == Some([])
    && base.volumes.Some?
    && (a.pullSecrets != [] ==> base.pullSecrets.Some?)
    && (a.servicePorts != [] ==> base.servicePorts.Some?)
  }

  ghost function AllContainers(base: Pod, a: Additions): seq<Json>
    requires Fits(base, a)
  {
    var cs := base.containers.value;
    [Main(cs[0], a), Proxy(cs[1], a)] + cs[2..] + a.containers
  }

  /** The arrays of the base with the additions. */
  ghost function With(base: Pod, a: Additions): Pod
    requires Fits(base, a)
  {
    Pod(Some(AllContainers(base, a)), Some(a.inits), Some(base.volumes.value + a.volumes),
        if a.pullSecrets == [] then base.pullSecrets else Some(base.pullSecrets.value + a.pullSecrets),
        if a.servicePorts == [] then base.servicePorts else Some(base.servicePorts.value + a.servicePorts))
  }

  lemma NothingAdded(base: Pod)
    requires Fits(base, NOTHING)
    ensures With(base, NOTHING) == base
  {
    var cs := base.containers.value;
    SameField(cs[0], "env");
    SameField(cs[0], "volumeMounts");
    SameField(cs[1], "volumeMounts");
    assert Main(cs[0], NOTHING).members == cs[0].members;
    assert Proxy(cs[1], NOTHING) == cs[1];
    assert AllContainers(base, NOTHING) == cs;
    assert base.volumes.value + [] == base.volumes.value;
  }

  lemma SameField(c: Json, field: string)
    requires FieldItems(c, field).Some?
    ensures c.Obj? && c.members[field := Arr(FieldItems(c, field).value + [])] == c.members
  {
    assert FieldItems(c, field).value + [] == FieldItems(c, field).value;
  }

  lemma SameMain(c: Json, a: Additions, a': Additions)
    requires MainFits(c) && a'.mainEnv == a.mainEnv && a'.mainMounts == a.mainMounts
    requires a'.mainArgs == a.mainArgs && a'.mainPorts == a.mainPorts
    ensures Main(c, a') == Main(c, a)
  {
  }

  lemma SameProxy(c: Json, a: Additions, a': Additions)
    requires ProxyFits(c, a) && a'.proxyEnv == a.proxyEnv && a'.proxyMounts == a.proxyMounts
    requires a'.proxyUpstream == a.proxyUpstream && a'.proxyArgs == a.proxyArgs
    ensures ProxyFits(c, a') && Proxy(c, a') == Proxy(c, a)
  {
  }

  // -------------------------------------------------- growing the main container

  lemma MainGrows(c: Json, a: Additions, env: seq<Json>, mounts: seq<Json>)
    requires MainFits(c)
    ensures FieldItems(Main(c, a), "env").Some? && FieldItems(Main(c, a), "volumeMounts").Some?
    ensures Extend(Main(c, a), "env", env) == Main(c, a.(mainEnv := a.mainEnv + env))
    ensures Extend(Main(c, a), "volumeMounts", mounts) == Main(c, a.(mainMounts := a.mainMounts + mounts))
  {
    var e, m := FieldItems(c, "env").value, FieldItems(c, "volumeMounts").value;
    assert e + a.mainEnv + env == e + (a.mainEnv + env);
    assert m + a.mainMounts + mounts == m + (a.mainMounts + mounts);
    assert Extend(Main(c, a), "env", env).members == Main(c, a.(mainEnv := a.mainEnv + env)).members;
    assert Extend(Main(c, a), "volumeMounts", mounts).members
      == Main(c, a.(mainMounts := a.mainMounts + mounts)).members;
  }

  lemma MainAssigned(c: Json, a: Additions, x: Json)
    requires MainFits(c)
    ensures Main(c, a).Obj?
    ensures WithField(Main(c, a), "args", x) == Main(c, a.(mainArgs := Some(x)))
    ensures WithField(Main(c, a), "ports", x) == Main(c, a.(mainPorts := Some(x)))
  {
    assert WithField(Main(c, a), "args", x).members == Main(c, a.(mainArgs := Some(x))).members;
    assert WithField(Main(c, a), "ports", x).members == Main(c, a.(mainPorts := Some(x))).members;
  }

  // -------------------------------------------------- growing the proxy container

  lemma ProxyGrowsMounts(c: Json, a: Additions, mounts: seq<Json>)
    requires ProxyFits(c, a)
    ensures FieldItems(Proxy(c, a), "volumeMounts").Some?
    ensures Extend(Proxy(c, a), "volumeMounts", mounts) == Proxy(c, a.(proxyMounts := a.proxyMounts + mounts))
  {
    var m := FieldItems(c, "volumeMounts").value;
    assert m + a.proxyMounts + mounts == m + (a.proxyMounts + mounts);
    assert Extend(Proxy(c, a), "volumeMounts", mounts).members
      == Proxy(c, a.(proxyMounts := a.proxyMounts + mounts)).members;
  }

  lemma ProxyGrowsEnv(c: Json, a: Additions, env: seq<Json>)
    requires ProxyFits(c, a) && FieldItems(c, "env").Some? && env != []
    ensures FieldItems(Proxy(c, a), "env").Some?
    ensures Extend(Proxy(c, a), "env", env) == Proxy(c, a.(proxyEnv := a.proxyEnv + env))
  {
    var e := FieldItems(c, "env").value;
    assert e + a.proxyEnv + env == e + (a.proxyEnv + env);
    assert a.proxyEnv == [] ==> a.proxyEnv + env == env;
    assert Extend(Proxy(c, a), "env", env).members == Proxy(c, a.(proxyEnv := a.proxyEnv + env)).members;
  }

  lemma ProxyReplacesArg(c: Json, a: Additions, x: Json)
    requires ProxyFits(c, a) && FieldItems(c, "args").Some? && |FieldItems(c, "args").value| > 6
    requires a.proxyUpstream.None? && a.proxyArgs == []
    ensures FieldItems(Proxy(c, a), "args") == FieldItems(c, "args")
    ensures WithField(Proxy(c, a), "args", Arr(FieldItems(c, "args").value[6 := x]))
      == Proxy(c, a.(proxyUpstream := Some(x)))
  {
    var args := FieldItems(c, "args").value;
    assert args[6 := x] + [] == args[6 := x];
  }

  lemma ProxyGrowsArgs(c: Json, a: Additions, more: seq<Json>)
    requires ProxyFits(c, a) && a.proxyUpstream.Some?
    ensures FieldItems(Proxy(c, a), "args").Some?
    ensures Extend(Proxy(c, a), "args", more) == Proxy(c, a.(proxyArgs := a.proxyArgs + more))
  {
    var args := FieldItems(c, "args").value;
    assert NewArgs(args, a.proxyUpstream, a.proxyArgs) + more == NewArgs(args, a.proxyUpstream, a.proxyArgs + more);
    assert Extend(Proxy(c, a), "args", more).members == Proxy(c, a.(proxyArgs := a.proxyArgs + more)).members;
  }

  // ------------------------------------------------------ operations, on documents

  /** The document shows the base with the additions. */
  ghost predicate Has(d: Json, base: Pod, a: Additions) {
    Fits(base, a) && Shows(d, With(base, a))
  }

  lemma MainReplaced(base: Pod, a: Additions, a': Additions)
    requires Fits(base, a)
    requires a' == a.(mainEnv := a'.mainEnv, mainMounts := a'.mainMounts, mainArgs := a'.mainArgs,
                      mainPorts := a'.mainPorts)
    ensures Fits(base, a')
    ensures With(base, a')
      == With(base, a).With(Containers, With(base, a).containers.value[0 := Main(base.containers.value[0], a')])
  {
    hide Proxy, Main;
    SameProxy(base.containers.value[1], a, a');
    assert AllContainers(base, a)[0 := Main(base.containers.value[0], a')] == AllContainers(base, a');
  }

  lemma AddMainEnv(d: Json, base: Pod, a: Additions, values: seq<Json>) returns (d': Json)
    requires Has(d, base, a)
    ensures ApplyAll(d, Appends(FieldPath(Containers, 0, "env"), values)) == Some(d')
    ensures Has(d', base, a.(mainEnv := a.mainEnv + values))
  {
    hide Proxy, Main, ApplyAll, Appends;
    MainGrows(base.containers.value[0], a, values, []);
    d' := AppendToField(d, With(base, a), Containers, 0, "env", values);
    var a' := a.(mainEnv := a.mainEnv + values);
    MainReplaced(base, a, a');
  }

  lemma AddMainMounts(d: Json, base: Pod, a: Additions, values: seq<Json>) returns (d': Json)
    requires Has(d, base, a)
    ensures ApplyAll(d, Appends(FieldPath(Containers, 0, "volumeMounts"), values)) == Some(d')
    ensures Has(d', base, a.(mainMounts := a.mainMounts + values))
  {
    hide Proxy, Main, ApplyAll, Appends;
    MainGrows(base.containers.value[0], a, [], values);
    d' := AppendToField(d, With(base, a), Containers, 0, "volumeMounts", values);
    var a' := a.(mainMounts := a.mainMounts + values);
    MainReplaced(base, a, a');
  }

  lemma SetMainArgs(d: Json, base: Pod, a: Additions, x: Json) returns (d': Json)
    requires Has(d, base, a)
    ensures ApplyAll(d, [Add(FieldPath(Containers, 0, "args"), x)]) == Some(d')
    ensures Has(d', base, a.(mainArgs := Some(x)))
  {
    hide Proxy, Main, ApplyAll;
    MainAssigned(base.containers.value[0], a, x);
    d' := SetField(d, With(base, a), Containers, 0, "args", x);
    var a' := a.(mainArgs := Some(x));
    MainReplaced(base, a, a');
  }

  lemma SetMainPorts(d: Json, base: Pod, a: Additions, x: Json) returns (d': Json)
    requires Has(d, base, a)
    ensures ApplyAll(d, [Add(FieldPath(Containers, 0, "ports"), x)]) == Some(d')
    ensures Has(d', base, a.(mainPorts := Some(x)))
  {
    hide Proxy, Main, ApplyAll;
    MainAssigned(base.containers.value[0], a, x);
    d' := SetField(d, With(base, a), Containers, 0, "ports", x);
    var a' := a.(mainPorts := Some(x));
    MainReplaced(base, a, a');
  }

  lemma ProxyReplaced(base: Pod, a: Additions, a': Additions)
    requires Fits(base, a) && ProxyFits(base.containers.value[1], a')
    requires a' == a.(proxyEnv := a'.proxyEnv, proxyMounts := a'.proxyMounts, proxyUpstream := a'.proxyUpstream,
                      proxyArgs := a'.proxyArgs)
    ensures Fits(base, a')
    ensures With(base, a')
      == With(base, a).With(Containers, With(base, a).containers.value[1 := Proxy(base.containers.value[1], a')])
  {
    hide Proxy, Main;
    SameMain(base.containers.value[0], a, a');
    assert AllContainers(base, a)[1 := Proxy(base.containers.value[1], a')] == AllContainers(base, a');
  }

  lemma AddProxyMounts(d: Json, base: Pod, a: Additions, values: seq<Json>) returns (d': Json)
    requires Has(d, base, a)
    ensures ApplyAll(d, Appends(FieldPath(Containers, 1, "volumeMounts"), values)) == Some(d')
    ensures Has(d', base, a.(proxyMounts := a.proxyMounts + values))
  {
    hide Main, Proxy, ApplyAll, Appends;
    ProxyGrowsMounts(base.containers.value[1], a, values);
    d' := AppendToField(d, With(base, a), Containers, 1, "volumeMounts", values);
    var a' := a.(proxyMounts := a.proxyMounts + values);
    ProxyReplaced(base, a, a');
  }

  lemma AddProxyEnv(d: Json, base: Pod, a: Additions, values: seq<Json>) returns (d': Json)
    requires Has(d, base, a) && values != [] && FieldItems(base.containers.value[1], "env").Some?
    ensures ApplyAll(d, Appends(FieldPath(Containers, 1, "env"), values)) == Some(d')
    ensures Has(d', base, a.(proxyEnv := a.proxyEnv + values))
  {
    hide Main, Proxy, ApplyAll, Appends;
    ProxyGrowsEnv(base.containers.value[1], a, values);
    d' := AppendToField(d, With(base, a), Containers, 1, "env", values);
    var a' := a.(proxyEnv := a.proxyEnv + values);
    ProxyReplaced(base, a, a');
  }

  lemma SetProxyUpstream(d: Json, base: Pod, a: Additions, x: Json) returns (d': Json)
    requires Has(d, base, a) && a.proxyUpstream.None? && a.proxyArgs == []
    requires var c := base.containers.value[1]; FieldItems(c, "args").Some? && |FieldItems(c, "args").value| > 6
    ensures ApplyAll(d, [Replace(FieldPath(Containers, 1, "args") + [At(6)], x)]) == Some(d')
    ensures Has(d', base, a.(proxyUpstream := Some(x)))
  {
    hide Main, Proxy, ApplyAll;
    ProxyReplacesArg(base.containers.value[1], a, x);
    d' := ReplaceElement(d, With(base, a), Containers, 1, "args", 6, x);
    var a' := a.(proxyUpstream := Some(x));
    ProxyReplaced(base, a, a');
  }

  lemma AddProxyArgs(d: Json, base: Pod, a: Additions, values: seq<Json>) returns (d': Json)
    requires Has(d, base, a) && a.proxyUpstream.Some?
    ensures ApplyAll(d, Appends(FieldPath(Containers, 1, "args"), values)) == Some(d')
    ensures Has(d', base, a.(proxyArgs := a.proxyArgs + values))
  {
    hide Main, Proxy, ApplyAll, Appends;
    ProxyGrowsArgs(base.containers.value[1], a, values);
    d' := AppendToField(d, With(base, a), Containers, 1, "args", values);
    var a' := a.(proxyArgs := a.proxyArgs + values);
    ProxyReplaced(base, a, a');
  }

  lemma AddContainers(d: Json, base: Pod, a: Additions, values: seq<Json>) returns (d': Json)
    requires Has(d, base, a)
    ensures ApplyAll(d, Appends(SlotPath(Containers), values)) == Some(d')
    ensures Has(d', base, a.(containers := a.containers + values))
  {
    hide Main, Proxy;
    d' := AppendToSlot(d, With(base, a), Containers, values);
    SameMain(base.containers.value[0], a, a.(containers := a.containers + values));
    SameProxy(base.containers.value[1], a, a.(containers := a.containers + values));
    assert AllContainers(base, a) + values == AllContainers(base, a.(containers := a.containers + values));
  }

  lemma AddInits(d: Json, base: Pod, a: Additions, values: seq<Json>) returns (d': Json)
    requires Has(d, base, a)
    ensures ApplyAll(d, Appends(SlotPath(Inits), values)) == Some(d')
    ensures Has(d', base, a.(inits := a.inits + values))
  {
    d' := AppendToSlot(d, With(base, a), Inits, values);
  }

  lemma AddInitEnv(d: Json, base: Pod, a: Additions, index: nat, values: seq<Json>) returns (d': Json)
    requires Has(d, base, a) && index < |a.inits| && FieldItems(a.inits[index], "env").Some?
    ensures ApplyAll(d, Appends(FieldPath(Inits, index, "env"), values)) == Some(d')
    ensures Has(d', base, a.(inits := a.inits[index := Extend(a.inits[index], "env", values)]))
  {
    d' := AppendToField(d, With(base, a), Inits, index, "env", values);
  }

  lemma AddVolumes(d: Json, base: Pod, a: Additions, values: seq<Json>) returns (d': Json)
    requires Has(d, base, a)
    ensures ApplyAll(d, Appends(SlotPath(Volumes), values)) == Some(d')
    ensures Has(d', base, a.(volumes := a.volumes + values))
  {
    d' := AppendToSlot(d, With(base, a), Volumes, values);
    assert base.volumes.value + a.volumes + values == base.volumes.value + (a.volumes + values);
  }

  lemma AddPullSecret(d: Json, base: Pod, a: Additions, x: Json) returns (d': Json)
    requires Has(d, base, a) && base.pullSecrets.Some?
    ensures ApplyAll(d, Appends(SlotPath(PullSecrets), [x])) == Some(d')
    ensures Has(d', base, a.(pullSecrets := a.pullSecrets + [x]))
  {
    d' := AppendToSlot(d, With(base, a), PullSecrets, [x]);
    assert base.pullSecrets.value + a.pullSecrets + [x] == base.pullSecrets.value + (a.pullSecrets + [x]);
    assert a.pullSecrets == [] ==> a.pullSecrets + [x] == [x];
  }

  lemma AddServicePort(d: Json, base: Pod, a: Additions, x: Json) returns (d': Json)
    requires Has(d, base, a) && base.servicePorts.Some?
    ensures ApplyAll(d, Appends(SlotPath(ServicePorts), [x])) == Some(d')
    ensures Has(d', base, a.(servicePorts := a.servicePorts + [x]))
  {
    d' := AppendToSlot(d, With(base, a), ServicePorts, [x]);
    assert base.servicePorts.value + a.servicePorts + [x] == base.servicePorts.value + (a.servicePorts + [x]);
    assert a.servicePorts == [] ==> a.servicePorts + [x] == [x];
  }
}
