/** Whole cycles of the watcher, from its configuration, its file and the registry to the cluster. */
module WatchOutcomes {
  import opened Wrappers
  import opened Text
  import opened Kubernetes
  import opened Trimming
  import opened WatcherConfig
  import opened Manifests
  import opened ManifestRuns
  import opened ManifestTargets
  import opened WatchLoop
  import opened Bookmarks
  import opened WatchRuns
  import opened WatchDecisions

  /** The registry gives `x` for the tag at time `t`. */
  ghost predicate Gives(host: Host, base: string, tag: string, t: nat, x: Extracted) {
    host.clients(t) && host.pull(t, base + ":" + tag) == Some(x)
  }

  lemma GivenIsFetched(host: Host, cfg: Config, base: string, tag: string, t: nat, x: Extracted)
    requires ValidHost(host) && IsBase(cfg.imageBase, base) && Gives(host, base, tag, t, x)
    ensures Fetch(host, t, cfg, tag) == Some(Label(host.tools, x, cfg.artifactName, tag))
  {
    PullsAtBase(cfg.imageBase, base, tag);
  }

  // ---- A new tag ----

  /** A poll that hears a tag other than the one the file remembers. */
  ghost predicate HearsNew(host: Host, cfg: Config, tag: string, s: State) {
    && s.phase.Idle? && cfg.pollForTagChanges && cfg.pollInterval != 0
    && Hears(host, |s.log|, cfg, tag) && !Remembers(host, |s.log|, s.bookmark, tag)
  }

  lemma NewIsRolledOut(host: Host, cfg: Config, base: string, tag: string, x: Extracted, s: State)
    requires ValidHost(host) && HearsNew(host, cfg, tag, s)
    requires IsBase(cfg.imageBase, base) && Gives(host, base, tag, |s.log| + 1, x)
    requires forall t :: host.opens(t) && host.fills(t)
    ensures RollsOut(host, cfg, tag, Label(host.tools, x, cfg.artifactName, tag), s)
  {
    PollingDecides(host, |s.log|, cfg, s.bookmark);
    var file := if host.readable(|s.log|) then s.bookmark.GetOr("") else "";
    TrimSpaceTrims(file);
    GivenIsFetched(host, cfg, base, tag, |s.log| + 1, x);
  }

  /** The pulled file can be applied: its kind is known, it has a place, and admission lets it in there. */
  ghost predicate Welcome(
      tools: Tools, env: Env, x: Extracted, artifact: string, tag: string, f: string)
    requires ValidTools(tools)
  {
    Known(tools, x, f) && HasPlace(ManifestOf(tools, x, f), MappingOf(tools, x, f)) &&
    var text := Label(tools, x, artifact, tag).files[f];
    tools.parse(text).Some?
    && env.admits(PlaceOf(ManifestOf(tools, x, f), MappingOf(tools, x, f)), ContentOf(tools.parse(text).value))
  }

  lemma WelcomeIsApplicable(tools: Tools, env: Env, x: Extracted, artifact: string, tag: string, f: string)
    requires ValidTools(tools)
    ensures var all := Label(tools, x, artifact, tag);
            && (Welcome(tools, env, x, artifact, tag, f) <==>
                f in all.checksums && Applicable(tools, env, all.files, f))
            && (Welcome(tools, env, x, artifact, tag, f) ==>
                  && KeyOf(tools, all.files, f) == PlaceOf(ManifestOf(tools, x, f), MappingOf(tools, x, f))
                  && Delivers(tools, x, artifact, tag, f, ContentOf(tools.parse(all.files[f]).value)))
  {
    if f in x.files {
      LabelIsExact(tools, x, artifact, tag, f);
      var all := Label(tools, x, artifact, tag);
      if f in all.checksums {
        var m := tools.parse(all.files[f]).value;
        if tools.mapping(m.gvk).Some? {
          BothGoThere(tools, m, tools.mapping(m.gvk).value);
          BothGoThere(tools, tools.parse(x.files[f]).value, tools.mapping(m.gvk).value);
        }
      }
    }
  }

  /**
   From the registry to the cluster: a poll that hears a tag the file does not remember, over a quiet cluster, leaves
   every welcome manifest of that tag under its own resource, namespace and name, with its spec and the watcher's
   labels; every other object as it was; and the tag in the file.
   */
  lemma NewTagReachesCluster(
      host: Host, env: Env, cfg: Config, base: string, tag: string, x: Extracted, s: State)
    requires ValidHost(host) && Quiet(env, Now(s.world)) && HearsNew(host, cfg, tag, s)
    requires IsBase(cfg.imageBase, base) && Gives(host, base, tag, |s.log| + 1, x)
    requires forall t :: host.opens(t) && host.fills(t)
    requires DistinctTargets(host.tools, Label(host.tools, x, cfg.artifactName, tag).files)
    ensures var s' := Cycle(host, env, cfg, s);
            var c, c' := s.world.cluster.objects, s'.world.cluster.objects;
            && s'.phase.Idle? && s'.bookmark == Some(tag)
            && (forall f :: Welcome(host.tools, env, x, cfg.artifactName, tag, f) ==>
                  Arrived(host.tools, x, cfg.artifactName, tag, f, c'))
            && (forall k :: Uninvolved(host.tools, env, x, cfg.artifactName, tag, k) ==>
                  (k in c' <==> k in c) && (k in c ==> c'[k] == c[k]))
  {
    var all := Label(host.tools, x, cfg.artifactName, tag);
    NewIsRolledOut(host, cfg, base, tag, x, s);
    NewTagRollsOut(host, env, cfg, tag, all, s);
    forall f ensures Welcome(host.tools, env, x, cfg.artifactName, tag, f) ==>
      Arrived(host.tools, x, cfg.artifactName, tag, f, Cycle(host, env, cfg, s).world.cluster.objects)
    {
      WelcomeIsApplicable(host.tools, env, x, cfg.artifactName, tag, f);
    }
    forall k | Uninvolved(host.tools, env, x, cfg.artifactName, tag, k)
      ensures Untargeted(host.tools, env, all.files, all.checksums.Keys, k)
    {
      forall f | f in all.checksums && Applicable(host.tools, env, all.files, f)
        ensures KeyOf(host.tools, all.files, f) != k
      {
        WelcomeIsApplicable(host.tools, env, x, cfg.artifactName, tag, f);
      }
    }
  }

  /** The manifest is in its place. */
  ghost predicate Arrived(
      tools: Tools, x: Extracted, artifact: string, tag: string, f: string, objects: map<ObjKey, Stored>)
    requires ValidTools(tools)
  {
    Known(tools, x, f) && HasPlace(ManifestOf(tools, x, f), MappingOf(tools, x, f)) &&
    var key := PlaceOf(ManifestOf(tools, x, f), MappingOf(tools, x, f));
    key in objects && Delivers(tools, x, artifact, tag, f, objects[key].content)
  }

  /** No welcome manifest has its place there. */
  ghost predicate Uninvolved(tools: Tools, env: Env, x: Extracted, artifact: string, tag: string, k: ObjKey)
    requires ValidTools(tools)
  {
    forall f :: Welcome(tools, env, x, artifact, tag, f) ==>
      PlaceOf(ManifestOf(tools, x, f), MappingOf(tools, x, f)) != k
  }

  // ---- Standing reconciliation ----

  /** Reconciliation is on, and the watcher follows one tag: it always hears it, or its reference pins it. */
  ghost predicate Follows(host: Host, cfg: Config, tag: string) {
    cfg.reconcilePoliciesFromChecksum &&
    if cfg.pollForTagChanges then
      cfg.pollInterval != 0 && Trims(tag, tag) && forall t :: Hears(host, t, cfg, tag)
    else
      Pins(cfg.imageBase, tag)
  }

  /** Registry and disk keep working, and the tag keeps standing for `x`. */
  ghost predicate Stands(host: Host, base: string, tag: string, x: Extracted) {
    forall t :: Gives(host, base, tag, t, x) && host.readable(t) && host.opens(t) && host.fills(t)
  }

  /** The file remembers the tag that is followed. */
  ghost predicate Knows(cfg: Config, tag: string, bookmark: Option<string>) {
    if cfg.pollForTagChanges then Trims(bookmark.GetOr(""), tag)
    else bookmark in {None, Some(""), Some(tag)}
  }

  lemma FollowerDecides(host: Host, t: nat, cfg: Config, tag: string, bookmark: Option<string>)
    requires Follows(host, cfg, tag) && host.readable(t)
    ensures Decide(host, t, cfg, bookmark) == Goes(tag, !Knows(cfg, tag, bookmark))
  {
    if cfg.pollForTagChanges {
      assert Hears(host, t, cfg, tag);
      PollingDecides(host, t, cfg, bookmark);
      var file := bookmark.GetOr("");
      TrimSpaceTrims(file);
      if Trims(file, tag) {
        TrimsOneWay(file, tag, TrimSpace(file));
      }
      assert bookmark.None? ==> (TrimSpace(file) == "" && file == "");
    } else {
      PinnedTagIsExact(cfg.imageBase);
    }
  }

  /** A bookmark of the tag itself is one that remembers it. */
  lemma OwnTagIsKnown(host: Host, cfg: Config, tag: string)
    requires Follows(host, cfg, tag)
    ensures Knows(cfg, tag, Some(tag))
  {
  }

  ghost function Cycles(host: Host, env: Env, cfg: Config, s: State, n: nat): State
    requires ValidTools(host.tools)
  {
    if n == 0 then s else Cycle(host, env, cfg, Cycles(host, env, cfg, s, n - 1))
  }

  /** A cycle over files that it has fetched before ends idle, and the file stays or says the tag. */
  lemma RefetchEnds(host: Host, env: Env, cfg: Config, tag: string, pulled: Pulled, s: State)
    requires ValidHost(host) && Refetches(host, cfg, tag, pulled, s)
    requires forall t :: host.opens(t) && host.fills(t)
    ensures var s' := Cycle(host, env, cfg, s); s'.phase.Idle? && s'.bookmark in {s.bookmark, Some(tag)}
  {
    var order, s1 := RefetchCompares(host, env, cfg, tag, pulled, s);
    ComparingRuns(host, env, cfg, s1);
    var (more, w) := CompareAll(host.tools, env, s1.world, pulled, order);
    AppendEmpty(more);
    var s2 := State(Comparing(tag, false, pulled, [], more), s1.bookmark, w,
                    s1.log + CompareEvents(host.tools, env, s1.world, pulled, order));
    var s3 := Step(host, env, cfg, s2);
    FinishStep(host, env, cfg, s2);
    FinishStep(host, env, cfg, s3);
    if more != [] {
      AppliedThenSaved(host, env, cfg, s3);
    }
  }

  /** Rolling out reconcilable manifests settles them too. */
  lemma RolloutSettles(host: Host, env: Env, cfg: Config, tag: string, pulled: Pulled, s: State)
    requires ValidHost(host) && Quiet(env, Now(s.world)) && RollsOut(host, cfg, tag, pulled, s)
    requires Reconcilable(host.tools, env, pulled) && ChecksumsMatch(host.tools, pulled)
    ensures var s' := Cycle(host, env, cfg, s);
            && s'.phase.Idle? && s'.bookmark == Some(tag) && Quiet(env, Now(s'.world))
            && Settled(host.tools, s'.world.cluster, pulled)
  {
    NewTagRollsOut(host, env, cfg, tag, pulled, s);
  }

  /** Where the first cycle leads: nothing to apply, an idle watcher, and a file that remembers the tag. */
  ghost predicate Arranged(host: Host, env: Env, cfg: Config, tag: string, pulled: Pulled, s: State)
    requires ValidTools(host.tools)
  {
    && s.phase.Idle? && Quiet(env, Now(s.world)) && Knows(cfg, tag, s.bookmark)
    && Settled(host.tools, s.world.cluster, pulled)
  }

  lemma FirstCycleArranges(host: Host, env: Env, cfg: Config, base: string, tag: string, x: Extracted, s: State)
    requires ValidHost(host) && Quiet(env, Now(s.world)) && s.phase.Idle?
    requires Follows(host, cfg, tag) && IsBase(cfg.imageBase, base) && Stands(host, base, tag, x)
    requires Reconcilable(host.tools, env, Label(host.tools, x, cfg.artifactName, tag))
    ensures Arranged(host, env, cfg, tag, Label(host.tools, x, cfg.artifactName, tag), Cycle(host, env, cfg, s))
  {
    var all := Label(host.tools, x, cfg.artifactName, tag);
    var t := |s.log|;
    assert Gives(host, base, tag, t + 1, x) && host.readable(t);
    FollowerDecides(host, t, cfg, tag, s.bookmark);
    GivenIsFetched(host, cfg, base, tag, t + 1, x);
    OwnTagIsKnown(host, cfg, tag);
    if Knows(cfg, tag, s.bookmark) {
      OneCycleReconciles(host, env, cfg, tag, all, s);
      RefetchEnds(host, env, cfg, tag, all, s);
    } else {
      LabelledMatch(host.tools, x, cfg.artifactName, tag);
      RolloutSettles(host, env, cfg, tag, all, s);
    }
  }

  lemma LaterCycleRests(host: Host, env: Env, cfg: Config, base: string, tag: string, x: Extracted, s: State)
    requires ValidHost(host) && Follows(host, cfg, tag) && IsBase(cfg.imageBase, base) && Stands(host, base, tag, x)
    requires Reconcilable(host.tools, env, Label(host.tools, x, cfg.artifactName, tag))
    requires Arranged(host, env, cfg, tag, Label(host.tools, x, cfg.artifactName, tag), s)
    ensures var s' := Cycle(host, env, cfg, s);
            && Arranged(host, env, cfg, tag, Label(host.tools, x, cfg.artifactName, tag), s')
            && Unmoved(s, s')
  {
    var all := Label(host.tools, x, cfg.artifactName, tag);
    assert Gives(host, base, tag, |s.log| + 1, x) && host.readable(|s.log|);
    FollowerDecides(host, |s.log|, cfg, tag, s.bookmark);
    GivenIsFetched(host, cfg, base, tag, |s.log| + 1, x);
    OneCycleReconciles(host, env, cfg, tag, all, s);
    RefetchEnds(host, env, cfg, tag, all, s);
    SettledCycle(host, env, cfg, tag, all, s);
  }

  /**
   Standing reconciliation, said of configuration, host and file: whatever the file holds at first, polling or pinned,
   one cycle over a quiet cluster brings every manifest in, and no later cycle changes the cluster or the file.
   */
  lemma {:induction false} StandingReconciliation(
      host: Host, env: Env, cfg: Config, base: string, tag: string, x: Extracted, s: State, n: nat)
    requires ValidHost(host) && Quiet(env, Now(s.world)) && s.phase.Idle?
    requires Follows(host, cfg, tag) && IsBase(cfg.imageBase, base) && Stands(host, base, tag, x)
    requires Reconcilable(host.tools, env, Label(host.tools, x, cfg.artifactName, tag))
    ensures var first, later := Cycle(host, env, cfg, s), Cycles(host, env, cfg, s, n + 1);
            && Arranged(host, env, cfg, tag, Label(host.tools, x, cfg.artifactName, tag), later)
            && later.world.cluster == first.world.cluster && later.bookmark == first.bookmark
  {
    if n == 0 {
      FirstCycleArranges(host, env, cfg, base, tag, x, s);
      assert Cycles(host, env, cfg, s, 0) == s;
    } else {
      StandingReconciliation(host, env, cfg, base, tag, x, s, n - 1);
      LaterCycleRests(host, env, cfg, base, tag, x, Cycles(host, env, cfg, s, n));
    }
  }

  // ---- The disk ----

  /** The file was emptied and filled only where the disk let it be. */
  ghost predicate DiskAllowed(host: Host, log: seq<Event>) {
    forall i :: 0 <= i < |log| ==> (log[i].Truncated? ==> host.opens(i)) && (log[i].Bookmarked? ==> host.fills(i))
  }

  /** A write that the disk refuses fails the cycle and leaves the file as it is. */
  lemma RefusedWriteFails(host: Host, env: Env, cfg: Config, s: State)
    requires ValidHost(host)
    requires (s.phase.Saving? && !host.opens(|s.log|)) || (s.phase.Filling? && !host.fills(|s.log|))
    ensures GivesUp(s, Step(host, env, cfg, s))
  {
  }

  lemma {:induction false} DiskIsAsked(
      host: Host, env: Env, cfg: Config, start: Option<string>, c: Cluster, choices: seq<Choice>)
    requires ValidHost(host)
    ensures DiskAllowed(host, Behave(host, env, cfg, Initial(start, c), choices).log)
  {
    if choices != [] {
      var n := |choices| - 1;
      var s := Behave(host, env, cfg, Initial(start, c), choices[..n]);
      DiskIsAsked(host, env, cfg, start, c, choices[..n]);
      if choices[n].Advance? {
        var e := StepLogs(host, env, cfg, s);
        StepAsksDisk(host, env, cfg, s);
      }
    }
  }

  lemma StepAsksDisk(host: Host, env: Env, cfg: Config, s: State)
    requires ValidHost(host)
    ensures var log := Step(host, env, cfg, s).log;
            && |log| == |s.log| + 1
            && (log[|s.log|].Truncated? ==> host.opens(|s.log|))
            && (log[|s.log|].Bookmarked? ==> host.fills(|s.log|))
  {
  }

  // ---- A crash in polling mode with reconciliation on ----

  /** About to apply every manifest of `pulled`. */
  ghost predicate AppliesAll(s: State, tag: string, pulled: Pulled) {
    && s.phase.Comparing? && s.phase.tag == tag && s.phase.isNew && s.phase.pulled == pulled
    && s.phase.todo == [] && Enumerates(s.phase.selected, pulled.checksums.Keys)
  }

  /**
   After a crash at any point the next cycle that hears a tag fetches it again, and applies all of it or, if the file
   remembers the tag, compares all of it again.
   */
  lemma PollingCrashRepeats(
      host: Host, env: Env, cfg: Config, base: string, tag: string, seen: string, x: Extracted,
      start: Option<string>, c: Cluster, choices: seq<Choice>)
    requires ValidHost(host) && IsBase(cfg.imageBase, base)
    requires cfg.pollForTagChanges && cfg.pollInterval != 0 && cfg.reconcilePoliciesFromChecksum
    ensures var s := Crash(Behave(host, env, cfg, Initial(start, c), choices));
            var all, s2 := Label(host.tools, x, cfg.artifactName, tag), Step(host, env, cfg, Step(host, env, cfg, s));
            Hears(host, |s.log|, cfg, tag) && Remembers(host, |s.log|, s.bookmark, seen)
            && Gives(host, base, tag, |s.log| + 1, x) ==>
              if seen == tag then ComparesAll(s2, tag, all) else AppliesAll(s2, tag, all)
  {
    var s := Crash(Behave(host, env, cfg, Initial(start, c), choices));
    if Hears(host, |s.log|, cfg, tag) && Remembers(host, |s.log|, s.bookmark, seen)
       && Gives(host, base, tag, |s.log| + 1, x) {
      PollingRestarts(host, env, cfg, base, tag, seen, x, s);
    }
  }

  lemma PollingRestarts(
      host: Host, env: Env, cfg: Config, base: string, tag: string, seen: string, x: Extracted, s: State)
    requires ValidHost(host) && IsBase(cfg.imageBase, base) && s.phase.Idle?
    requires cfg.pollForTagChanges && cfg.pollInterval != 0 && cfg.reconcilePoliciesFromChecksum
    requires Hears(host, |s.log|, cfg, tag) && Remembers(host, |s.log|, s.bookmark, seen)
    requires Gives(host, base, tag, |s.log| + 1, x)
    ensures var all, s2 := Label(host.tools, x, cfg.artifactName, tag), Step(host, env, cfg, Step(host, env, cfg, s));
            if seen == tag then ComparesAll(s2, tag, all) else AppliesAll(s2, tag, all)
  {
    PollingSetsOut(host, env, cfg, s);
    GivenIsFetched(host, cfg, base, tag, |s.log| + 1, x);
    FetchingStep(host, env, cfg, Step(host, env, cfg, s), Label(host.tools, x, cfg.artifactName, tag));
  }

  lemma FetchingStep(host: Host, env: Env, cfg: Config, s: State, pulled: Pulled)
    requires ValidHost(host) && s.phase.Pulling? && Fetch(host, |s.log|, cfg, s.phase.tag) == Some(pulled)
    ensures var s' := Step(host, env, cfg, s);
            if s.phase.isNew then AppliesAll(s', s.phase.tag, pulled) else ComparesAll(s', s.phase.tag, pulled)
  {
  }
}
