/** What the reconciler's pod says, when it is judged out of date, and where repeated reconciliation ends. */
module ControllerRuns {
  import opened Wrappers
  import opened Text
  import opened Kubernetes
  import opened Controller

  // ---- Reading the environment back ----

  lemma EnvMapAppend(env: seq<EnvVar>, v: EnvVar)
    ensures EnvMap(env + [v]) == AddVar(EnvMap(env), v)
  {
    assert (env + [v])[..|env|] == env;
  }

  lemma EnvMapWhen(env: seq<EnvVar>, b: bool, v: EnvVar)
    ensures EnvMap(env + When(b, v)) == if b then AddVar(EnvMap(env), v) else EnvMap(env)
  {
    if b {
      EnvMapAppend(env, v);
    } else {
      NothingAdded(env);
    }
  }

  /** A variable without a literal value does not show in the map. */
  lemma EnvMapHidden(env: seq<EnvVar>, more: seq<EnvVar>)
    requires forall i :: 0 <= i < |more| ==> more[i].value == ""
    ensures EnvMap(env + more) == EnvMap(env)
    decreases |more|
  {
    if more == [] {
      NothingAdded(env);
    } else {
      var n := |more| - 1;
      EnvMapHidden(env, more[..n]);
      assert env + more == (env + more[..n]) + [more[n]];
      EnvMapAppend(env + more[..n], more[n]);
    }
  }

  lemma BasicsRead(name: Name, a: ArtifactSpec)
    ensures var m := EnvMap(Basics(name, a));
            && At(m, "IMAGE_BASE") == UrlOf(a) && At(m, "POLL_INTERVAL") == IntervalText(a)
            && At(m, "PROVIDER") == ProviderOf(a) && At(m, "ARTIFACT_NAME") == name
            && m.Keys <= {"IMAGE_BASE", "POLL_INTERVAL", "PROVIDER", "ARTIFACT_NAME"}
  {
    var e := Basics(name, a);
    EnvMapAppend([], e[0]);
    EnvMapAppend([e[0]], e[1]);
    EnvMapAppend([e[0], e[1]], e[2]);
    EnvMapAppend([e[0], e[1], e[2]], e[3]);
    assert [] + [e[0]] == [e[0]];
    assert [e[0]] + [e[1]] == [e[0], e[1]];
    assert [e[0], e[1]] + [e[2]] == [e[0], e[1], e[2]];
    assert e == [e[0], e[1], e[2]] + [e[3]];
  }

  /** Appending variables of other names does not change what is read under a name. */
  lemma WhenFrame(env: seq<EnvVar>, b: bool, v: EnvVar, x: string)
    requires x != v.name
    ensures At(EnvMap(env + When(b, v)), x) == At(EnvMap(env), x)
    ensures x in EnvMap(env + When(b, v)) <==> x in EnvMap(env)
  {
    EnvMapWhen(env, b, v);
  }

  lemma FlaggedFrame(env: seq<EnvVar>, a: ArtifactSpec, x: string)
    requires |x| < 36
    ensures At(EnvMap(Flagged(env, a)), x) == At(EnvMap(env), x)
  {
    var del := Plain("WATCHER_DELETE_POLICIES_ON_TERMINATION", "true");
    var rec := Plain("WATCHER_CHECKSUM_RECONCILIATION_ENABLED", BoolText(a.reconcilePoliciesFromChecksum.GetOr(false)));
    var poll := Plain(POLLS, BoolText(a.pollForTagChanges.GetOr(false)));
    assert |del.name| == 38 && |rec.name| == 39 && |POLLS| == 36;
    var e1 := env + When(a.deletePoliciesOnTermination == Some(true), del);
    var e2 := e1 + When(a.reconcilePoliciesFromChecksum.Some?, rec);
    WhenFrame(env, a.deletePoliciesOnTermination == Some(true), del, x);
    WhenFrame(e1, a.reconcilePoliciesFromChecksum.Some?, rec, x);
    WhenFrame(e2, a.pollForTagChanges.Some?, poll, x);
  }

  lemma PollFlagRead(env: seq<EnvVar>, a: ArtifactSpec)
    requires POLLS !in EnvMap(env)
    ensures var m := EnvMap(Flagged(env, a));
            && (POLLS in m <==> a.pollForTagChanges.Some?)
            && (a.pollForTagChanges.Some? ==> m[POLLS] == BoolText(a.pollForTagChanges.value))
  {
    var del := Plain("WATCHER_DELETE_POLICIES_ON_TERMINATION", "true");
    var rec := Plain("WATCHER_CHECKSUM_RECONCILIATION_ENABLED", BoolText(a.reconcilePoliciesFromChecksum.GetOr(false)));
    var poll := Plain(POLLS, BoolText(a.pollForTagChanges.GetOr(false)));
    assert |del.name| == 38 && |rec.name| == 39 && |POLLS| == 36;
    var e1 := env + When(a.deletePoliciesOnTermination == Some(true), del);
    var e2 := e1 + When(a.reconcilePoliciesFromChecksum.Some?, rec);
    WhenFrame(env, a.deletePoliciesOnTermination == Some(true), del, POLLS);
    WhenFrame(e1, a.reconcilePoliciesFromChecksum.Some?, rec, POLLS);
    EnvMapWhen(e2, a.pollForTagChanges.Some?, poll);
  }

  /** After the flags come hidden credentials and the watcher image. */
  lemma TailFrame(env: seq<EnvVar>, provider: string, cfg: Settings, x: string)
    requires x != "WATCHER_IMAGE"
    ensures var m, m' := EnvMap(env), EnvMap(env + Credentials(provider, cfg) + Injected(cfg));
            At(m, x) == At(m', x) && (x in m <==> x in m')
  {
    EnvMapHidden(env, Credentials(provider, cfg));
    InjectedRead(env + Credentials(provider, cfg), cfg);
  }

  /** The map read back from a pod's list holds what was printed into it. */
  lemma EnvReadsBack(name: Name, a: ArtifactSpec, cfg: Settings)
    ensures var m := EnvMap(EnvOf(name, a, cfg));
            && At(m, "IMAGE_BASE") == UrlOf(a) && At(m, "POLL_INTERVAL") == IntervalText(a)
            && At(m, "PROVIDER") == ProviderOf(a)
            && (POLLS in m <==> a.pollForTagChanges.Some?)
            && (a.pollForTagChanges.Some? ==> m[POLLS] == BoolText(a.pollForTagChanges.value))
  {
    var e0 := Basics(name, a);
    BasicsRead(name, a);
    PlainNameRead(name, a, cfg, "IMAGE_BASE");
    PlainNameRead(name, a, cfg, "POLL_INTERVAL");
    PlainNameRead(name, a, cfg, "PROVIDER");
    assert |POLLS| == 36;
    PollFlagRead(e0, a);
    TailFrame(Flagged(e0, a), ProviderOf(a), cfg, POLLS);
  }

  lemma PlainNameRead(name: Name, a: ArtifactSpec, cfg: Settings, x: string)
    requires 8 <= |x| < 36 && x[0] != 'W'
    ensures At(EnvMap(EnvOf(name, a, cfg)), x) == At(EnvMap(Basics(name, a)), x)
  {
    FlaggedFrame(Basics(name, a), a, x);
    assert "WATCHER_IMAGE"[0] == 'W';
    TailFrame(Flagged(Basics(name, a), a), ProviderOf(a), cfg, x);
  }

  lemma InjectedRead(env: seq<EnvVar>, cfg: Settings)
    ensures EnvMap(env + Injected(cfg)) == AddVar(EnvMap(env), Plain("WATCHER_IMAGE", cfg.watcherImage))
  {
    var i := Injected(cfg);
    EnvMapAppend(env, i[0]);
    EnvMapAppend(env + [i[0]], i[1]);
    assert env + i == env + [i[0]] + [i[1]];
  }

  lemma IntervalTextTells(a: ArtifactSpec, a': ArtifactSpec)
    ensures IntervalText(a) == IntervalText(a') <==> IntervalOf(a) == IntervalOf(a')
  {
    assert Digits(60) == Digits(6) + ['0'] && Digits(6) == ['6'];
    assert IntervalText(a) == Itoa(IntervalOf(a)) && IntervalText(a') == Itoa(IntervalOf(a'));
    if Itoa(IntervalOf(a)) == Itoa(IntervalOf(a')) {
      ItoaInjective(IntervalOf(a), IntervalOf(a'));
    }
  }

  /** The settings of a pod that drift detection compares, after defaults. */
  ghost predicate SameWatch(a: ArtifactSpec, cfg: Settings, a': ArtifactSpec, cfg': Settings) {
    && a.url.GetOr("") == a'.url.GetOr("")
    && a.pollingInterval.GetOr(60) == a'.pollingInterval.GetOr(60)
    && (if a.provider in {None, Some("")} then Some("github") else a.provider)
       == (if a'.provider in {None, Some("")} then Some("github") else a'.provider)
    && a.pollForTagChanges.GetOr(true) == a'.pollForTagChanges.GetOr(true)
    && cfg.watcherImage == cfg'.watcherImage
  }

  /** A pod built for one spec is up to date for another exactly when the compared settings agree. */
  lemma DriftIsExact(name: Name, a: ArtifactSpec, cfg: Settings, a': ArtifactSpec, cfg': Settings)
    ensures Drifted(PodOf(name, a, cfg), a', cfg') <==> !SameWatch(a, cfg, a', cfg')
  {
    EnvReadsBack(name, a, cfg);
    IntervalTextTells(a, a');
  }

  /** Two switches escape drift detection: turning them on or off never rebuilds a running pod. */
  lemma DriftOverlooksSwitches(name: Name, a: ArtifactSpec, cfg: Settings, del: Option<bool>, rec: Option<bool>)
    ensures !Drifted(PodOf(name, a, cfg),
                     a.(deletePoliciesOnTermination := del, reconcilePoliciesFromChecksum := rec), cfg)
    ensures exists a' :: !Drifted(PodOf(name, a, cfg), a', cfg) && EnvOf(name, a', cfg) != EnvOf(name, a, cfg)
  {
    DriftIsExact(name, a, cfg, a.(deletePoliciesOnTermination := del, reconcilePoliciesFromChecksum := rec), cfg);
    var flipped := if a.reconcilePoliciesFromChecksum.None? then Some(true) else None;
    var a' := a.(reconcilePoliciesFromChecksum := flipped);
    DriftIsExact(name, a, cfg, a', cfg);
    assert |EnvOf(name, a', cfg)| != |EnvOf(name, a, cfg)|;
  }

  // ---- Repeated reconciliation ----

  /**
   What the kubelet may do to a pod: report a phase, never turning a live pod into a terminal one or back, unless the
   pod is being deleted; then its phase may be anything, until it disappears.
   */
  ghost predicate SamePod(c: Cluster, c': Cluster, key: NsName) {
    && (key in c'.pods ==> key in c.pods && c'.pods[key] == c.pods[key].(phase := c'.pods[key].phase))
    && (key in c.pods && !c.pods[key].terminating ==>
          key in c'.pods && (Terminal(c.pods[key]) <==> Terminal(c'.pods[key])))
  }

  /** Nobody else edits the artifact or creates, deletes or rewrites its pod. */
  ghost predicate Undisturbed(env: Env, req: NsName) {
    forall t, c :: var c' := env.interfere(t, c);
      && SamePod(c, c', PodKey(req))
      && (req in c'.artifacts <==> req in c.artifacts)
      && (req in c.artifacts ==> c'.artifacts[req] == c.artifacts[req])
  }

  /** The pod is on its way out. */
  ghost predicate Stopping(c: Cluster, req: NsName) {
    PodKey(req) in c.pods && c.pods[PodKey(req)].terminating
  }

  /** The number of writes that separate a cluster from a settled one. */
  ghost function Rank(c: Cluster, a: ArtifactSpec, cfg: Settings, req: NsName): nat {
    var key := PodKey(req);
    if key !in c.pods || c.pods[key].terminating then 1
    else if !Terminal(c.pods[key]) && Drifted(c.pods[key], a, cfg) then 2
    else 0
  }

  ghost predicate SpecIs(c: Cluster, req: NsName, a: ArtifactSpec) {
    req in c.artifacts && c.artifacts[req] == a
  }

  lemma SamePodSameRank(c: Cluster, c': Cluster, a: ArtifactSpec, cfg: Settings, req: NsName)
    requires SamePod(c, c', PodKey(req))
    ensures Rank(c, a, cfg, req) == Rank(c', a, cfg, req)
  {
    if PodKey(req) in c'.pods {
      assert c'.pods[PodKey(req)].containers == c.pods[PodKey(req)].containers;
    }
  }

  lemma ArriveUndisturbed(env: Env, w: World, a: ArtifactSpec, cfg: Settings, req: NsName)
    requires Undisturbed(env, req) && SpecIs(w.cluster, req, a)
    ensures var c' := Arrive(env, w).cluster;
            && SpecIs(c', req, a) && SamePod(w.cluster, c', PodKey(req))
            && Rank(c', a, cfg, req) == Rank(w.cluster, a, cfg, req)
  {
    var c' := env.interfere(Now(w), w.cluster);
    assert SamePod(w.cluster, c', PodKey(req));
    SamePodSameRank(w.cluster, c', a, cfg, req);
  }

  /** The last call changed the cluster that it found. */
  ghost predicate TookEffect(w: World) {
    w.audit != [] && w.cluster != Last(w.audit)
  }

  ghost predicate Clean(env: Env, w: World, w': World) {
    forall t :: Now(w) <= t < Now(w') ==> env.fault(t).Fine?
  }

  /** A creation of the pod, once asked for, either does nothing or settles the cluster. */
  lemma CreateProgress(env: Env, w: World, a: ArtifactSpec, cfg: Settings, req: NsName)
    requires Undisturbed(env, req) && SpecIs(w.cluster, req, a) && PodKey(req) !in w.cluster.pods
    ensures var w' := CreatePod(env, w, PodKey(req), PodOf(req.name, a, cfg)).1;
            && SpecIs(w'.cluster, req, a) && Now(w') == Now(w) + 1
            && Rank(w'.cluster, a, cfg, req) == (if TookEffect(w') then 0 else 1)
            && (env.fault(Now(w)).Fine? ==> TookEffect(w'))
  {
    ArriveUndisturbed(env, w, a, cfg, req);
    DriftIsExact(req.name, a, cfg, a, cfg);
    var c := Arrive(env, w).cluster;
    assert PodKey(req) !in c.pods;
    assert PodKey(req) in c.pods[PodKey(req) := PodOf(req.name, a, cfg)];
  }

  /** A deletion of a drifted pod, once asked for, either does nothing or sets the pod on its way out. */
  lemma DeleteProgress(env: Env, w: World, a: ArtifactSpec, cfg: Settings, req: NsName)
    requires Undisturbed(env, req) && SpecIs(w.cluster, req, a)
    requires Rank(w.cluster, a, cfg, req) > 0
    ensures var w', rank := DeletePod(env, w, PodKey(req)).1, Rank(w.cluster, a, cfg, req);
            && SpecIs(w'.cluster, req, a) && Now(w') == Now(w) + 1
            && Rank(w'.cluster, a, cfg, req) == (if TookEffect(w') then rank - 1 else rank)
            && (env.fault(Now(w)).Fine? && rank == 2 ==> TookEffect(w'))
  {
    ArriveUndisturbed(env, w, a, cfg, req);
    var key, c := PodKey(req), Arrive(env, w).cluster;
    if key in c.pods {
      assert Terminate(c, key).pods[key].terminating;
      if c.pods[key].terminating {
        assert Terminate(c, key).pods == c.pods;
      }
    }
  }

  /** Reading the phases changes nothing that a reconciliation depends on. */
  lemma {:induction false} PhasesKeepRank(
      env: Env, w: World, items: seq<(NsName, ArtifactSpec)>, a: ArtifactSpec, cfg: Settings, req: NsName)
    requires Undisturbed(env, req) && SpecIs(w.cluster, req, a)
    ensures var w' := Phases(env, w, items).1;
            SpecIs(w'.cluster, req, a) && Rank(w'.cluster, a, cfg, req) == Rank(w.cluster, a, cfg, req)
    decreases |items|
  {
    if items != [] {
      ArriveUndisturbed(env, w, a, cfg, req);
      PhasesKeepRank(env, Arrive(env, w), items[1..], a, cfg, req);
    }
  }

  lemma MeasureKeepsRank(env: Env, w: World, a: ArtifactSpec, cfg: Settings, req: NsName)
    requires Undisturbed(env, req) && SpecIs(w.cluster, req, a)
    ensures var w' := Measure(env, w).1;
            SpecIs(w'.cluster, req, a) && Rank(w'.cluster, a, cfg, req) == Rank(w.cluster, a, cfg, req)
  {
    var (list, w1) := ListArtifacts(env, w);
    ArriveUndisturbed(env, w, a, cfg, req);
    if list.Ok? {
      PhasesKeepRank(env, w1, list.value, a, cfg, req);
    }
  }

  /** After two reads, at `w`, came no write, or a creation of a missing pod, or a deletion of one to be replaced. */
  ghost predicate Wrote(env: Env, w: World, a: ArtifactSpec, cfg: Settings, req: NsName, r: Reconciled) {
    match r.write
    case NoWrite => w.cluster == r.world.cluster && !TookEffect(r.world)
    case Creates =>
      PodKey(req) !in w.cluster.pods && r.world == CreatePod(env, w, PodKey(req), PodOf(req.name, a, cfg)).1
    case Deletes => Rank(w.cluster, a, cfg, req) > 0 && r.world == DeletePod(env, w, PodKey(req)).1
  }

  lemma ActForWrites(env: Env, w: World, a: ArtifactSpec, cfg: Settings, req: NsName)
    requires Undisturbed(env, req) && SpecIs(w.cluster, req, a) && UrlOf(a) != ""
    ensures Wrote(env, Arrive(env, w), a, cfg, req, ActFor(env, w, a, cfg, req))
    ensures Rank(w.cluster, a, cfg, req) == 0 ==> ActFor(env, w, a, cfg, req).write.NoWrite?
  {
    ArriveUndisturbed(env, w, a, cfg, req);
  }

  lemma ActWrites(env: Env, w: World, a: ArtifactSpec, cfg: Settings, req: NsName)
    requires Undisturbed(env, req) && SpecIs(w.cluster, req, a) && UrlOf(a) != ""
    ensures var r := Act(env, w, cfg, req);
            || Wrote(env, Arrive(env, Arrive(env, w)), a, cfg, req, r)
            || (r.write.NoWrite? && Wrote(env, Arrive(env, w), a, cfg, req, r))
    ensures Rank(w.cluster, a, cfg, req) == 0 ==> Act(env, w, cfg, req).write.NoWrite?
  {
    ArriveUndisturbed(env, w, a, cfg, req);
    ActForWrites(env, Arrive(env, w), a, cfg, req);
  }

  lemma WriteProgress(env: Env, w: World, a: ArtifactSpec, cfg: Settings, req: NsName, r: Reconciled)
    requires Undisturbed(env, req) && SpecIs(w.cluster, req, a) && Wrote(env, w, a, cfg, req, r)
    ensures var rank, rank' := Rank(w.cluster, a, cfg, req), Rank(r.world.cluster, a, cfg, req);
            && SpecIs(r.world.cluster, req, a)
            && rank == rank' + (if TookEffect(r.world) then 1 else 0)
            && (r.write.NoWrite? ==> !TookEffect(r.world))
            && (env.fault(Now(w)).Fine? && (r.write.Creates? || (r.write.Deletes? && rank == 2)) ==>
                  TookEffect(r.world))
  {
    match r.write
    case Creates => CreateProgress(env, w, a, cfg, req);
    case Deletes => DeleteProgress(env, w, a, cfg, req);
    case NoWrite =>
  }

  /** One reconciliation up to its write: a settled cluster gets none, and an effective one brings it one closer. */
  lemma ActProgress(env: Env, w: World, a: ArtifactSpec, cfg: Settings, req: NsName)
    requires Undisturbed(env, req) && SpecIs(w.cluster, req, a) && UrlOf(a) != ""
    ensures var r := Act(env, w, cfg, req);
            var rank, rank' := Rank(w.cluster, a, cfg, req), Rank(r.world.cluster, a, cfg, req);
            && SpecIs(r.world.cluster, req, a)
            && rank == rank' + (if TookEffect(r.world) then 1 else 0)
            && (r.write.NoWrite? ==> !TookEffect(r.world))
            && (rank == 0 ==> r.write.NoWrite?)
            && (Clean(env, w, r.world) && rank > 0 && !Stopping(w.cluster, req) ==> TookEffect(r.world))
  {
    var w1 := Arrive(env, w);
    var w2 := Arrive(env, w1);
    ArriveUndisturbed(env, w, a, cfg, req);
    ArriveUndisturbed(env, w1, a, cfg, req);
    var r := Act(env, w, cfg, req);
    ActWrites(env, w, a, cfg, req);
    WriteProgress(env, if Wrote(env, w2, a, cfg, req, r) then w2 else w1, a, cfg, req, r);
    if Clean(env, w, r.world) && Rank(w.cluster, a, cfg, req) > 0 && !Stopping(w.cluster, req) {
      CleanActs(env, w, a, cfg, req);
    }
  }

  /** A clean reconciliation that does not find the pod stopping does what is to be done. */
  lemma CleanActs(env: Env, w: World, a: ArtifactSpec, cfg: Settings, req: NsName)
    requires Undisturbed(env, req) && SpecIs(w.cluster, req, a) && UrlOf(a) != ""
    requires Clean(env, w, Act(env, w, cfg, req).world) && Rank(w.cluster, a, cfg, req) > 0
    requires !Stopping(w.cluster, req)
    ensures var r, w2 := Act(env, w, cfg, req), Arrive(env, Arrive(env, w));
            && Wrote(env, w2, a, cfg, req, r) && env.fault(Now(w2)).Fine?
            && (r.write.Creates? || (r.write.Deletes? && Rank(w2.cluster, a, cfg, req) == 2))
  {
    var w1 := Arrive(env, w);
    ArriveUndisturbed(env, w, a, cfg, req);
    ArriveUndisturbed(env, w1, a, cfg, req);
    assert env.fault(Now(w)).Fine?;
    assert Now(Act(env, w, cfg, req).world) >= Now(w) + 2;
    assert env.fault(Now(w1)).Fine?;
    assert Now(Act(env, w, cfg, req).world) == Now(w) + 3;
  }

  /** One reconciliation with the reads for the metrics that follow it. */
  lemma ReconcileProgress(env: Env, w: World, a: ArtifactSpec, cfg: Settings, req: NsName)
    requires Undisturbed(env, req) && SpecIs(w.cluster, req, a) && UrlOf(a) != ""
    ensures var r, end := Act(env, w, cfg, req), Reconcile(env, w, cfg, req).world;
            var rank, rank' := Rank(w.cluster, a, cfg, req), Rank(end.cluster, a, cfg, req);
            && SpecIs(end.cluster, req, a)
            && rank == rank' + (if TookEffect(r.world) then 1 else 0)
            && (rank == 0 ==> r.write.NoWrite?)
            && (Clean(env, w, r.world) && rank > 0 && !Stopping(w.cluster, req) ==> TookEffect(r.world))
  {
    ActProgress(env, w, a, cfg, req);
    MeasureKeepsRank(env, Act(env, w, cfg, req).world, a, cfg, req);
  }

  /** Without a URL a missing pod is an error every time, and nothing is ever written. */
  lemma NoUrlNoPod(env: Env, w: World, a: ArtifactSpec, cfg: Settings, req: NsName)
    requires Undisturbed(env, req) && SpecIs(w.cluster, req, a) && UrlOf(a) == "" && PodKey(req) !in w.cluster.pods
    ensures var r := Reconcile(env, w, cfg, req);
            && r.outcome.Errored? && r.write.NoWrite?
            && SpecIs(r.world.cluster, req, a) && PodKey(req) !in r.world.cluster.pods
  {
    ArriveUndisturbed(env, w, a, cfg, req);
    ArriveUndisturbed(env, Arrive(env, w), a, cfg, req);
  }

  ghost function Repeat(env: Env, w: World, cfg: Settings, req: NsName, n: nat): World {
    if n == 0 then w else Reconcile(env, Repeat(env, w, cfg, req, n - 1), cfg, req).world
  }

  /** How many of the first n reconciliations made a write that changed the cluster. */
  ghost function Effective(env: Env, w: World, cfg: Settings, req: NsName, n: nat): nat {
    if n == 0 then 0
    else
      var before := Repeat(env, w, cfg, req, n - 1);
      Effective(env, w, cfg, req, n - 1) + if TookEffect(Act(env, before, cfg, req).world) then 1 else 0
  }

  /** How many of the first n reconciliations met no failing call and no pod on its way out. */
  ghost function Chances(env: Env, w: World, cfg: Settings, req: NsName, n: nat): nat {
    if n == 0 then 0
    else
      var before := Repeat(env, w, cfg, req, n - 1);
      Chances(env, w, cfg, req, n - 1)
      + if Clean(env, before, Act(env, before, cfg, req).world) && !Stopping(before.cluster, req) then 1 else 0
  }

  /**
   Convergence despite failing calls and slow pods: over any number of reconciliations, effective writes plus
   remaining distance is constant, so there are at most two; and as many clean ones that did not find the pod stopping
   as the distance was leave a cluster that no later reconciliation writes to.
   */
  lemma {:induction false} ReconcileConverges(
      env: Env, w: World, a: ArtifactSpec, cfg: Settings, req: NsName, n: nat)
    requires Undisturbed(env, req) && SpecIs(w.cluster, req, a) && UrlOf(a) != ""
    ensures var w' := Repeat(env, w, cfg, req, n);
            && SpecIs(w'.cluster, req, a)
            && Effective(env, w, cfg, req, n) + Rank(w'.cluster, a, cfg, req) == Rank(w.cluster, a, cfg, req) <= 2
            && (Chances(env, w, cfg, req, n) >= Rank(w.cluster, a, cfg, req) ==>
                  Rank(w'.cluster, a, cfg, req) == 0 && Reconcile(env, w', cfg, req).write.NoWrite?)
            && (Rank(w'.cluster, a, cfg, req) > 0 ==>
                  Rank(w'.cluster, a, cfg, req) + Chances(env, w, cfg, req, n) <= Rank(w.cluster, a, cfg, req))
  {
    if n > 0 {
      ReconcileConverges(env, w, a, cfg, req, n - 1);
      ReconcileProgress(env, Repeat(env, w, cfg, req, n - 1), a, cfg, req);
    }
    ReconcileProgress(env, Repeat(env, w, cfg, req, n), a, cfg, req);
  }

  /** A pod in a terminal phase is never replaced: it is only looked at again, forever, whatever the spec says. */
  lemma {:induction false} TerminalPodStays(
      env: Env, w: World, a: ArtifactSpec, cfg: Settings, req: NsName, n: nat)
    requires Undisturbed(env, req) && SpecIs(w.cluster, req, a) && HasTerminalPod(w.cluster, req)
    ensures var w' := Repeat(env, w, cfg, req, n);
            && SpecIs(w'.cluster, req, a)
            && HasTerminalPod(w'.cluster, req)
            && w'.cluster.pods[PodKey(req)].containers == w.cluster.pods[PodKey(req)].containers
            && Reconcile(env, w', cfg, req).write.NoWrite?
            && (Reconcile(env, w', cfg, req).outcome.Requeue? || Reconcile(env, w', cfg, req).outcome.Errored?)
  {
    if n > 0 {
      TerminalPodStays(env, w, a, cfg, req, n - 1);
      TerminalStep(env, Repeat(env, w, cfg, req, n - 1), a, cfg, req);
    }
    TerminalStep(env, Repeat(env, w, cfg, req, n), a, cfg, req);
  }

  /** The pod has ended and nobody has asked for its deletion. */
  ghost predicate HasTerminalPod(c: Cluster, req: NsName) {
    var n := NsName(req.namespace, "kyverno-artifact-manager-" + req.name);
    && n in c.pods && !c.pods[n].terminating
    && c.pods[n].phase in {PodPhase.Failed, PodPhase.Succeeded}
  }

  lemma TerminalStep(env: Env, w: World, a: ArtifactSpec, cfg: Settings, req: NsName)
    requires Undisturbed(env, req) && SpecIs(w.cluster, req, a) && HasTerminalPod(w.cluster, req)
    ensures var r := Reconcile(env, w, cfg, req);
            && r.write.NoWrite? && (r.outcome.Requeue? || r.outcome.Errored?) && SpecIs(r.world.cluster, req, a)
            && SamePod(w.cluster, r.world.cluster, PodKey(req))
  {
    ArriveUndisturbed(env, w, a, cfg, req);
    ArriveUndisturbed(env, Arrive(env, w), a, cfg, req);
  }
}
