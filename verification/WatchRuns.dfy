/** What holds in every behaviour of the watcher, crashes included. */
module WatchRuns {
  import opened Wrappers
  import opened Text
  import opened Kubernetes
  import opened Image
  import opened Trimming
  import opened WatcherConfig
  import opened Manifests
  import opened ManifestRuns
  import opened WatchLoop
  import opened Bookmarks

  // ---- Quiescence ----

  /** Tag polling without checksums, of a registry that answers nothing but `tag`. */
  ghost predicate PollsOne(host: Host, cfg: Config, tag: string) {
    && cfg.pollForTagChanges && !cfg.reconcilePoliciesFromChecksum && cfg.pollInterval != 0
    && tag != "" && TrimSpace(tag) == tag
    && forall t :: host.readable(t) && Latest(host, t, cfg) in {None, Some(tag)}
  }

  predicate Quiets(e: Event) {
    e.Idled? || e.CycleFailed? || e.Crashed?
  }

  /** Before its one bookmark no cycle rests; after it nothing is fetched, applied or written any more. */
  ghost predicate OneBookmark(log: seq<Event>, tag: string) {
    && (forall i :: 0 <= i < |log| && log[i].Bookmarked? ==>
          && log[i].tag == tag
          && (forall j :: 0 <= j < i ==> !log[j].Bookmarked? && !log[j].Idled? && !log[j].UpToDate?)
          && (forall j :: i < j < |log| ==> Quiets(log[j])))
    && ((exists i :: 0 <= i < |log| && (log[i].Idled? || log[i].UpToDate?)) ==>
          exists i :: 0 <= i < |log| && log[i].Bookmarked?)
  }

  ghost predicate Done(log: seq<Event>) {
    exists i :: 0 <= i < |log| && log[i].Bookmarked?
  }

  ghost predicate Quiescing(s: State, tag: string) {
    && OneBookmark(s.log, tag)
    && (if Done(s.log) then s.phase.Idle? && s.bookmark == Some(tag)
        else TrimSpace(s.bookmark.GetOr("")) != tag && Toward(s.phase, tag))
  }

  ghost predicate Toward(p: Phase, tag: string) {
    match p
    case Idle => true
    case Pulling(t, isNew) => t == tag && isNew
    case Comparing(t, isNew, _, todo, _) => t == tag && isNew && todo == []
    case Applying(t, _, _) => t == tag
    case Saving(t) => t == tag
    case Filling(t) => t == tag
  }

  lemma OneBookmarkSnoc(log: seq<Event>, e: Event, tag: string)
    requires OneBookmark(log, tag)
    requires Done(log) ==> Quiets(e)
    requires !Done(log) ==> !e.Idled? && !e.UpToDate? && (e.Bookmarked? ==> e.tag == tag)
    ensures OneBookmark(log + [e], tag)
    ensures Done(log + [e]) <==> Done(log) || e.Bookmarked?
  {
    var log' := log + [e];
    assert forall i :: 0 <= i < |log| ==> log'[i] == log[i];
    if Done(log) {
      var i :| 0 <= i < |log| && log[i].Bookmarked?;
      assert log'[i].Bookmarked?;
    }
    if e.Bookmarked? {
      assert log'[|log|].Bookmarked?;
    }
  }

  lemma StepQuiesces(host: Host, env: Env, cfg: Config, tag: string, s: State)
    requires ValidHost(host) && PollsOne(host, cfg, tag) && Quiescing(s, tag)
    ensures Quiescing(Step(host, env, cfg, s), tag)
  {
    var s' := Step(host, env, cfg, s);
    var e := s'.log[|s.log|];
    assert s'.log == s.log + [e];
    assert Latest(host, |s.log|, cfg) in {None, Some(tag)} && host.readable(|s.log|);
    assert TrimSpace("") == "";
    OneBookmarkSnoc(s.log, e, tag);
  }

  /**
   Quiescence, over every behaviour: with polling on, checksums off and one constant tag, at most one bookmark is ever
   written; no cycle rests before it, so every earlier cycle failed or was cut short; and every later cycle fetches,
   applies and writes nothing.
   */
  lemma {:induction false} PollingQuiesces(
      host: Host, env: Env, cfg: Config, tag: string, start: Option<string>, c: Cluster, choices: seq<Choice>)
    requires ValidHost(host) && PollsOne(host, cfg, tag) && TrimSpace(start.GetOr("")) != tag
    ensures var s := Behave(host, env, cfg, Initial(start, c), choices);
            OneBookmark(s.log, tag) && Quiescing(s, tag)
  {
    if choices != [] {
      var n := |choices| - 1;
      var s := Behave(host, env, cfg, Initial(start, c), choices[..n]);
      PollingQuiesces(host, env, cfg, tag, start, c, choices[..n]);
      if choices[n].Die? {
        OneBookmarkSnoc(s.log, Crashed, tag);
      } else {
        StepQuiesces(host, env, cfg, tag, s);
      }
    }
  }

  lemma {:induction false} JoinEnds(parts: seq<string>, c: char) returns (head: string)
    requires |parts| >= 2
    ensures Join(parts, c) == head + [c] + Last(parts)
  {
    if |parts| == 2 {
      head := parts[0];
    } else {
      var rest := JoinEnds(parts[1..], c);
      head := parts[0] + [c] + rest;
      assert parts[0] + [c] + (rest + [c] + Last(parts)) == (parts[0] + [c] + rest) + [c] + Last(parts);
    }
  }

  lemma SameEnd(a: string, b: string, c: char, x: string, y: string)
    requires a + [c] + x == b + [c] + y && c !in x && c !in y
    ensures x == y
  {
    var s := a + [c] + x;
    var i, j := |a|, |b|;
    assert s[i] == c && s[j] == c;
    assert forall m :: i < m < |s| ==> s[m] == x[m - i - 1] && s[m] != c;
    assert forall m :: j < m < |s| ==> s[m] == y[m - j - 1] && s[m] != c;
    assert i == j;
    assert x == s[i + 1..] == y;
  }

  /** The last part of a split is what follows the last separator. */
  lemma SplitEnds(base: string, c: char, tail: string)
    requires c !in tail
    ensures var parts := Split(base + [c] + tail, c); |parts| >= 2 && Last(parts) == tail
  {
    var s := base + [c] + tail;
    var parts := Split(s, c);
    assert s[|base|] == c;
    SplitsInTwo(s, c);
    JoinInvertsSplit(s, c);
    SplitPartsClean(s, c);
    var head := JoinEnds(parts, c);
    SameEnd(head, base, c, Last(parts), tail);
  }

  lemma SplitsInTwo(s: string, c: char)
    requires c in s
    ensures |Split(s, c)| >= 2
  {
  }

  /**
   An artifactory reference that names a tag other than "latest" is polled for that tag alone, whatever the registry
   says; so such a watcher quiesces.  Without a tag, or with "latest", it is the registry that decides.
   */
  lemma NamedTagPollsOne(host: Host, cfg: Config, base: string, tag: string)
    requires cfg.pollForTagChanges && !cfg.reconcilePoliciesFromChecksum && cfg.pollInterval != 0
    requires cfg.provider != "github" && cfg.imageBase == base + ":" + tag && ':' !in tag
    requires tag != "" && TrimSpace(tag) == tag && forall t :: host.readable(t)
    ensures tag != "latest" ==> PollsOne(host, cfg, tag)
    ensures tag == "latest" ==> forall t :: Latest(host, t, cfg) == host.latest(t)
  {
    assert cfg.imageBase == base + [':'] + tag;
    SplitEnds(base, ':', tag);
  }

  /**
   A crash before the bookmark only causes a repeat, in every mode that polls and whatever tags the registry has named
   before: unless some earlier cycle bookmarked this tag, the next cycle that hears it takes it as new.
   */
  lemma CrashOnlyRepeats(
      host: Host, env: Env, cfg: Config, tag: string, start: Option<string>, c: Cluster, choices: seq<Choice>)
    requires ValidHost(host) && cfg.pollForTagChanges && cfg.pollInterval != 0
    requires tag != "" && TrimSpace(start.GetOr("")) != tag
    ensures var s := Behave(host, env, cfg, Initial(start, c), choices);
            && (forall i :: 0 <= i < |s.log| && s.log[i].Bookmarked? ==> TrimSpace(s.log[i].tag) != tag)
            && Latest(host, |s.log| + 1, cfg) == Some(tag) ==>
              Step(host, env, cfg, Crash(s)).phase == Pulling(tag, true)
  {
    BookmarkIsLast(host, env, cfg, start, c, choices);
    var s := Behave(host, env, cfg, Initial(start, c), choices);
    assert TrimSpace("") == "";
    if TrimSpace(s.bookmark.GetOr("")) != tag && Latest(host, |s.log| + 1, cfg) == Some(tag) {
      UnseenIsNew(host, |s.log| + 1, cfg, tag, s.bookmark);
    }
  }

  lemma UnseenIsNew(host: Host, t: nat, cfg: Config, tag: string, bookmark: Option<string>)
    requires cfg.pollForTagChanges && cfg.pollInterval != 0 && tag != ""
    requires Latest(host, t, cfg) == Some(tag) && TrimSpace(bookmark.GetOr("")) != tag
    ensures Decide(host, t, cfg, bookmark) == Goes(tag, true)
  {
    assert TrimSpace("") == "";
  }

  /**
   The same without polling: from no bookmark, with checksum reconciliation on, the cycle after a crash at any point
   fetches the pinned tag again and, if that works, compares every manifest again.
   */
  lemma PinnedCrashRepeats(host: Host, env: Env, cfg: Config, tag: string, c: Cluster, choices: seq<Choice>)
    requires ValidHost(host) && !cfg.pollForTagChanges && PinnedTag(cfg.imageBase) == Some(tag)
    requires cfg.reconcilePoliciesFromChecksum
    ensures var s := Crash(Behave(host, env, cfg, Initial(None, c), choices));
            (s.bookmark.Some? ==> host.readable(|s.log|)) ==>
              && Step(host, env, cfg, s).phase == Pulling(tag, false)
              && (Fetch(host, |s.log| + 1, cfg, tag).Some? ==>
                    ComparesAll(Step(host, env, cfg, Step(host, env, cfg, s)),
                                tag, Fetch(host, |s.log| + 1, cfg, tag).value))
  {
    PinnedNeverSeesNewTag(host, env, cfg, tag, c, choices);
    var s := Crash(Behave(host, env, cfg, Initial(None, c), choices));
    if s.bookmark.Some? ==> host.readable(|s.log|) {
      assert s.bookmark in {None, Some(""), Some(tag)};
      PinnedRestarts(host, env, cfg, tag, s);
    }
  }

  /** About to compare every manifest of `pulled`. */
  ghost predicate ComparesAll(s: State, tag: string, pulled: Pulled) {
    && s.phase.Comparing? && s.phase.tag == tag && !s.phase.isNew && s.phase.pulled == pulled
    && s.phase.selected == [] && Enumerates(s.phase.todo, pulled.checksums.Keys)
  }

  lemma PinnedRestarts(host: Host, env: Env, cfg: Config, tag: string, s: State)
    requires ValidHost(host) && !cfg.pollForTagChanges && PinnedTag(cfg.imageBase) == Some(tag)
    requires cfg.reconcilePoliciesFromChecksum && s.phase.Idle? && s.bookmark in {None, Some(""), Some(tag)}
    requires s.bookmark.Some? ==> host.readable(|s.log|)
    ensures var s1 := Step(host, env, cfg, s);
            && s1.phase == Pulling(tag, false)
            && (Fetch(host, |s.log| + 1, cfg, tag).Some? ==>
                  ComparesAll(Step(host, env, cfg, s1), tag, Fetch(host, |s.log| + 1, cfg, tag).value))
  {
  }

  /** Started with the tag already bookmarked, the watcher never does anything. */
  lemma {:induction false} SeenTagRests(
      host: Host, env: Env, cfg: Config, tag: string, start: Option<string>, c: Cluster, choices: seq<Choice>)
    requires ValidHost(host) && PollsOne(host, cfg, tag) && TrimSpace(start.GetOr("")) == tag
    ensures var s := Behave(host, env, cfg, Initial(start, c), choices);
            s.phase.Idle? && s.bookmark == start && forall i :: 0 <= i < |s.log| ==> Quiets(s.log[i])
  {
    if choices != [] {
      var n := |choices| - 1;
      var s := Behave(host, env, cfg, Initial(start, c), choices[..n]);
      SeenTagRests(host, env, cfg, tag, start, c, choices[..n]);
      assert host.readable(|s.log|) && Latest(host, |s.log|, cfg) in {None, Some(tag)};
    }
  }

  /** What a poll hears: with interval zero, the tag that the reference names, or else the registry's latest. */
  ghost predicate Answers(host: Host, t: nat, cfg: Config, tag: string) {
    if cfg.pollInterval != 0 then Latest(host, t, cfg) == Some(tag)
    else
      match host.identify(cfg.imageBase)
      case None => false
      case Some(id) => if id in {"latest", ""} then host.latest(t) == Some(tag) else id == tag
  }

  /**
   Once a tag has been bookmarked, a cycle that hears the same tag rests exactly when the interval is not zero and the
   tag has no white space at its ends; otherwise it takes the tag as new again, every time.
   */
  lemma RestsAfterBookmark(host: Host, t: nat, cfg: Config, tag: string)
    requires cfg.pollForTagChanges && !cfg.reconcilePoliciesFromChecksum
    requires tag != "" && host.readable(t) && Answers(host, t, cfg, tag)
    ensures Decide(host, t, cfg, Some(tag)).Rests? <==> cfg.pollInterval != 0 && TrimSpace(tag) == tag
    ensures TrimSpace(tag) != tag || cfg.pollInterval == 0 ==>
              forall b: string :: Decide(host, t, cfg, Some(b)) == Goes(tag, true)
  {
    forall b: string | TrimSpace(b) == tag ensures TrimSpace(tag) == tag {
      TrimSpaceTwice(b);
    }
  }

  // ---- Pinned mode ----

  ghost predicate Pinned(s: State, tag: string, reconciles: bool) {
    && s.bookmark in {None, Some(""), Some(tag)}
    && (forall i :: 0 <= i < |s.log| ==> PinnedEvent(s.log[i], tag, reconciles))
    && match s.phase
       case Idle => true
       case Pulling(t, isNew) => reconciles && t == tag && !isNew
       case Comparing(t, isNew, _, _, _) => reconciles && t == tag && !isNew
       case Applying(t, _, _) => reconciles && t == tag
       case Saving(t) => reconciles && t == tag
       case Filling(t) => reconciles && t == tag
  }

  /** No event takes the pinned tag as new; without checksum reconciliation there is nothing but rest and failure. */
  ghost predicate PinnedEvent(e: Event, tag: string, reconciles: bool) {
    && e != Began(tag, true) && (e.Began? ==> !e.isNew) && (e.Fetched? ==> !e.isNew && e.tag == tag)
    && (e.Bookmarked? ==> e.tag == tag)
    && (!reconciles ==> Quiets(e))
  }

  /**
   Pinned mode, over every behaviour that starts without a bookmark: the bookmark is missing, empty or the pinned tag,
   so the branch for a new tag is never taken; and with checksum reconciliation off nothing is ever fetched or applied.
   */
  lemma {:induction false} PinnedNeverSeesNewTag(
      host: Host, env: Env, cfg: Config, tag: string, c: Cluster, choices: seq<Choice>)
    requires ValidHost(host) && !cfg.pollForTagChanges && PinnedTag(cfg.imageBase) == Some(tag)
    ensures Pinned(Behave(host, env, cfg, Initial(None, c), choices), tag, cfg.reconcilePoliciesFromChecksum)
  {
    if choices != [] {
      var n := |choices| - 1;
      var s := Behave(host, env, cfg, Initial(None, c), choices[..n]);
      PinnedNeverSeesNewTag(host, env, cfg, tag, c, choices[..n]);
      if choices[n].Advance? {
        PinnedStep(host, env, cfg, tag, s);
      }
    }
  }

  lemma PinnedStep(host: Host, env: Env, cfg: Config, tag: string, s: State)
    requires ValidHost(host) && !cfg.pollForTagChanges && PinnedTag(cfg.imageBase) == Some(tag)
    requires Pinned(s, tag, cfg.reconcilePoliciesFromChecksum)
    ensures Pinned(Step(host, env, cfg, s), tag, cfg.reconcilePoliciesFromChecksum)
  {
    var s' := Step(host, env, cfg, s);
    var e := s'.log[|s.log|];
    assert s'.log == s.log + [e];
    assert PinnedEvent(e, tag, cfg.reconcilePoliciesFromChecksum);
  }

  // ---- Frame ----

  /** No other actor touches the cluster; calls may still fail. */
  ghost predicate Alone(env: Env) {
    forall t, c :: env.interfere(t, c) == c
  }

  ghost predicate Touched(log: seq<Event>, k: ObjKey) {
    exists i :: 0 <= i < |log| && log[i].Attempted? && log[i].target == Some(k)
  }

  /** Objects only come, and only attempted targets change. */
  ghost predicate OnlyTouched(c: Cluster, c': Cluster, log: seq<Event>) {
    && c'.pods == c.pods && c'.artifacts == c.artifacts
    && (forall k :: k in c.objects ==> k in c'.objects)
    && (forall k :: k in c'.objects && !Touched(log, k) ==> k in c.objects && c'.objects[k] == c.objects[k])
  }

  lemma ApplyFileFrame(tools: Tools, env: Env, w: World, files: map<string, string>, f: string)
    requires Alone(env)
    ensures var c, c' := w.cluster, ApplyFile(tools, env, w, files, f).1.cluster;
            && c'.pods == c.pods && c'.artifacts == c.artifacts
            && (forall k :: k in c.objects ==> k in c'.objects)
            && (forall k :: k in c'.objects && TargetOfFile(tools, files, f) != Some(k) ==>
                  k in c.objects && c'.objects[k] == c.objects[k])
  {
    assert Arrive(env, w).cluster == w.cluster;
    assert Arrive(env, Arrive(env, w)).cluster == w.cluster;
  }

  lemma CompareFrame(tools: Tools, env: Env, w: World, pulled: Pulled, f: string)
    requires Alone(env) && ValidTools(tools)
    ensures Compare(tools, env, w, pulled, f).1.cluster == w.cluster
  {
    assert Arrive(env, w).cluster == w.cluster;
  }

  lemma TouchedSnoc(log: seq<Event>, e: Event, k: ObjKey)
    ensures Touched(log + [e], k) <==> Touched(log, k) || (e.Attempted? && e.target == Some(k))
  {
    var log' := log + [e];
    if Touched(log, k) {
      var i :| 0 <= i < |log| && log[i].Attempted? && log[i].target == Some(k);
      assert log'[i].Attempted? && log'[i].target == Some(k);
    }
    if e.Attempted? && e.target == Some(k) {
      assert log'[|log|].Attempted? && log'[|log|].target == Some(k);
    }
  }

  /**
   Frame, over every behaviour without other actors: the watcher never removes an object, and changes none but the
   targets of files it attempted; so policies that a newer artifact no longer holds stay as they were.
   */
  lemma {:induction false} WatcherOnlyAdds(
      host: Host, env: Env, cfg: Config, start: Option<string>, c: Cluster, choices: seq<Choice>)
    requires ValidHost(host) && Alone(env)
    ensures var s := Behave(host, env, cfg, Initial(start, c), choices); OnlyTouched(c, s.world.cluster, s.log)
  {
    if choices != [] {
      var n := |choices| - 1;
      var s := Behave(host, env, cfg, Initial(start, c), choices[..n]);
      WatcherOnlyAdds(host, env, cfg, start, c, choices[..n]);
      var s' := if choices[n].Die? then Crash(s) else Step(host, env, cfg, s);
      var e := s'.log[|s.log|];
      assert s'.log == s.log + [e];
      forall k ensures Touched(s'.log, k) <==> Touched(s.log, k) || (e.Attempted? && e.target == Some(k)) {
        TouchedSnoc(s.log, e, k);
      }
      if choices[n].Advance? {
        StepFrame(host, env, cfg, s);
      }
    }
  }

  lemma StepFrame(host: Host, env: Env, cfg: Config, s: State)
    requires ValidHost(host) && Alone(env)
    ensures var s' := Step(host, env, cfg, s);
            var c, c', e := s.world.cluster, s'.world.cluster, s'.log[|s.log|];
            && c'.pods == c.pods && c'.artifacts == c.artifacts
            && (forall k :: k in c.objects ==> k in c'.objects)
            && (forall k :: k in c'.objects && !(e.Attempted? && e.target == Some(k)) ==>
                  k in c.objects && c'.objects[k] == c.objects[k])
  {
    match s.phase
    case Comparing(_, _, pulled, todo, _) =>
      if todo != [] {
        CompareFrame(host.tools, env, s.world, pulled, todo[0]);
      }
    case Applying(_, pulled, todo) =>
      if todo != [] {
        ApplyFileFrame(host.tools, env, s.world, pulled.files, todo[0]);
      }
    case _ =>
  }

  // ---- A lawful neighbour ----

  lemma ApplyFileEvolves(tools: Tools, env: Env, w: World, files: map<string, string>, f: string)
    requires ValidEnv(env)
    ensures Evolves(w.cluster, ApplyFile(tools, env, w, files, f).1.cluster)
  {
    if HasTarget(tools, files, f) {
      var key, content := KeyOf(tools, files, f), ContentOf(tools.parse(files[f]).value);
      var w1 := Arrive(env, w);
      var w2 := ApplyFile(tools, env, w, files, f).1;
      assert Evolves(w.cluster, w1.cluster);
      if w1.cluster != w2.cluster {
        WritesEvolve(env, w1, key, content, if key in w1.cluster.objects then w1.cluster.objects[key].version else 0);
      }
      EvolvesTransitive(w.cluster, w1.cluster, w2.cluster);
    }
  }

  lemma StepEvolves(host: Host, env: Env, cfg: Config, s: State)
    requires ValidHost(host) && ValidEnv(env)
    ensures Evolves(s.world.cluster, Step(host, env, cfg, s).world.cluster)
  {
    match s.phase
    case Comparing(_, _, pulled, todo, _) =>
      if todo != [] {
        assert Evolves(s.world.cluster, Arrive(env, s.world).cluster);
      }
    case Applying(_, pulled, todo) =>
      if todo != [] {
        ApplyFileEvolves(host.tools, env, s.world, pulled.files, todo[0]);
      }
    case _ =>
  }

  /**
   Whatever a watcher does in any behaviour, crashes included, is something that the other actors allow for: every
   object it leaves is as it was, or of a version later than everything that the cluster held.
   */
  lemma WatcherEvolves(
      host: Host, env: Env, cfg: Config, start: Option<string>, c: Cluster, choices: seq<Choice>)
    requires ValidHost(host) && ValidEnv(env) && Bounded(c)
    ensures var c' := Behave(host, env, cfg, Initial(start, c), choices).world.cluster;
            && Evolves(c, c') && Bounded(c')
            && forall k :: k in c'.objects ==>
                 (k in c.objects && c'.objects[k] == c.objects[k]) || NewerThanAll(c, c'.objects[k].version)
  {
    BehaviourEvolves(host, env, cfg, start, c, choices);
    var c' := Behave(host, env, cfg, Initial(start, c), choices).world.cluster;
    forall k | k in c'.objects
      ensures (k in c.objects && c'.objects[k] == c.objects[k]) || NewerThanAll(c, c'.objects[k].version)
    {
      EvolvedIsNewer(c, c', k);
    }
  }

  lemma {:induction false} BehaviourEvolves(
      host: Host, env: Env, cfg: Config, start: Option<string>, c: Cluster, choices: seq<Choice>)
    requires ValidHost(host) && ValidEnv(env)
    ensures Evolves(c, Behave(host, env, cfg, Initial(start, c), choices).world.cluster)
  {
    if choices != [] {
      var n := |choices| - 1;
      var s := Behave(host, env, cfg, Initial(start, c), choices[..n]);
      BehaviourEvolves(host, env, cfg, start, c, choices[..n]);
      if choices[n].Advance? {
        StepEvolves(host, env, cfg, s);
        EvolvesTransitive(c, s.world.cluster, Step(host, env, cfg, s).world.cluster);
      }
    }
  }

  // ---- Rolling out a new tag ----

  /** An idle watcher about to fetch `pulled` for a tag that is new to it, and able to write its file afterwards. */
  ghost predicate RollsOut(host: Host, cfg: Config, tag: string, pulled: Pulled, s: State)
    requires ValidHost(host)
  {
    && s.phase.Idle?
    && Decide(host, |s.log|, cfg, s.bookmark) == Goes(tag, true)
    && Fetch(host, |s.log| + 1, cfg, tag) == Some(pulled)
    && forall t :: host.opens(t) && host.fills(t)
  }

  /** After the last file the bookmark is written and the cycle is over. */
  lemma SavingBookmarks(host: Host, env: Env, cfg: Config, s: State)
    requires ValidHost(host) && s.phase.Applying? && s.phase.todo == []
    requires forall t :: host.opens(t) && host.fills(t)
    ensures var s' := Finish(host, env, cfg, s);
            s'.phase.Idle? && s'.bookmark == Some(s.phase.tag) && s'.world == s.world
  {
    var s1 := Step(host, env, cfg, s);
    var s2 := Step(host, env, cfg, s1);
    var s3 := Step(host, env, cfg, s2);
    assert s1.phase == Saving(s.phase.tag) && s2.phase == Filling(s.phase.tag);
    assert s3.phase == Idle;
    FinishStep(host, env, cfg, s);
    FinishStep(host, env, cfg, s1);
    FinishStep(host, env, cfg, s2);
    FinishStep(host, env, cfg, s3);
  }

  /** Such a cycle applies every manifest, in some order, and bookmarks the tag. */
  lemma RolloutApplies(host: Host, env: Env, cfg: Config, tag: string, pulled: Pulled, s: State)
    returns (order: seq<string>)
    requires ValidHost(host) && RollsOut(host, cfg, tag, pulled, s)
    ensures Enumerates(order, pulled.checksums.Keys)
    ensures var s' := Cycle(host, env, cfg, s);
            && s'.phase.Idle? && s'.bookmark == Some(tag)
            && s'.world == ApplyAll(host.tools, env, s.world, pulled.files, order).1
  {
    var s1 := Step(host, env, cfg, s);
    var s2 := Step(host, env, cfg, s1);
    var s3 := Step(host, env, cfg, s2);
    order := host.shuffle(|s1.log|, pulled.checksums.Keys);
    assert s1.phase == Pulling(tag, true) && s1.world == s.world;
    assert s2.phase == Comparing(tag, true, pulled, [], order) && s2.world == s.world;
    assert s3.phase == Applying(tag, pulled, order) && s3.world == s.world;
    FinishStep(host, env, cfg, s1);
    FinishStep(host, env, cfg, s2);
    AppliedThenSaved(host, env, cfg, s3);
  }

  lemma AppliedThenSaved(host: Host, env: Env, cfg: Config, s: State)
    requires ValidHost(host) && s.phase.Applying? && forall t :: host.opens(t) && host.fills(t)
    ensures var s' := Finish(host, env, cfg, s);
            && s'.phase.Idle? && s'.bookmark == Some(s.phase.tag)
            && s'.world == ApplyAll(host.tools, env, s.world, s.phase.pulled.files, s.phase.todo).1
  {
    ApplyingRuns(host, env, cfg, s);
    var p := s.phase;
    SavingBookmarks(host, env, cfg, State(
      Applying(p.tag, p.pulled, []), s.bookmark, ApplyAll(host.tools, env, s.world, p.pulled.files, p.todo).1,
      s.log + ApplyEvents(host.tools, env, s.world, p.pulled.files, p.todo)));
  }

  /**
   Rolling out a new tag over a quiet cluster: the applicable manifests are put in, all else stays as it was, and the
   tag is bookmarked -- whether or not every manifest was applicable.
   */
  lemma NewTagRollsOut(host: Host, env: Env, cfg: Config, tag: string, pulled: Pulled, s: State)
    requires ValidHost(host) && Quiet(env, Now(s.world))
    requires RollsOut(host, cfg, tag, pulled, s) && DistinctTargets(host.tools, pulled.files)
    ensures var s' := Cycle(host, env, cfg, s);
            && s'.phase.Idle? && s'.bookmark == Some(tag) && Quiet(env, Now(s'.world))
            && Merged(host.tools, env, s.world.cluster, pulled.files, pulled.checksums.Keys, s'.world.cluster)
  {
    var order := RolloutApplies(host, env, cfg, tag, pulled, s);
    QuietApplyAll(host.tools, env, s.world, pulled.files, order);
    assert Elements(order) == pulled.checksums.Keys;
  }

  /** The file's object is in the cluster, as the file has it. */
  ghost predicate Present(tools: Tools, c: Cluster, files: map<string, string>, f: string) {
    HasTarget(tools, files, f) &&
    var k := KeyOf(tools, files, f);
    k in c.objects && c.objects[k].content == ContentOf(tools.parse(files[f]).value)
  }

  /**
   So the bookmark vouches for the cluster only so far: a manifest whose content was not there before is there
   afterwards exactly if it could be applied, and all are exactly if all could.
   */
  lemma BookmarkVouches(host: Host, env: Env, cfg: Config, tag: string, pulled: Pulled, s: State)
    requires ValidHost(host) && Quiet(env, Now(s.world))
    requires RollsOut(host, cfg, tag, pulled, s) && DistinctTargets(host.tools, pulled.files)
    requires forall f :: f in pulled.checksums ==> !Present(host.tools, s.world.cluster, pulled.files, f)
    ensures var c := Cycle(host, env, cfg, s).world.cluster;
            && (forall f :: f in pulled.checksums ==>
                  (Present(host.tools, c, pulled.files, f) <==> Applicable(host.tools, env, pulled.files, f)))
            && ((forall f :: f in pulled.checksums ==> Present(host.tools, c, pulled.files, f)) <==>
                (forall f :: f in pulled.checksums ==> Applicable(host.tools, env, pulled.files, f)))
  {
    NewTagRollsOut(host, env, cfg, tag, pulled, s);
    var c, c' := s.world.cluster, Cycle(host, env, cfg, s).world.cluster;
    forall f | f in pulled.checksums
      ensures Present(host.tools, c', pulled.files, f) <==> Applicable(host.tools, env, pulled.files, f)
    {
      if HasTarget(host.tools, pulled.files, f) && !Applicable(host.tools, env, pulled.files, f) {
        assert Untargeted(host.tools, env, pulled.files, pulled.checksums.Keys, KeyOf(host.tools, pulled.files, f));
      }
    }
  }

  /** Admission turns everything away, nothing else happens, and every call is answered. */
  ghost function Denying(env: Env): Env {
    env.(interfere := (t, c) => c, fault := t => Fine, admits := (key, content) => false)
  }

  /** An instance: where admission turns every policy away, the tag is bookmarked over an untouched cluster. */
  lemma BookmarkOverNothing(host: Host, env: Env, cfg: Config, tag: string, pulled: Pulled, s: State)
    requires ValidHost(host) && RollsOut(host, cfg, tag, pulled, s) && DistinctTargets(host.tools, pulled.files)
    ensures var s' := Cycle(host, Denying(env), cfg, s);
            && s'.bookmark == Some(tag)
            && Contents(s'.world.cluster) == Contents(s.world.cluster)
            && forall f :: f in pulled.checksums && !Present(host.tools, s.world.cluster, pulled.files, f) ==>
                 !Present(host.tools, s'.world.cluster, pulled.files, f)
  {
    NewTagRollsOut(host, Denying(env), cfg, tag, pulled, s);
    forall k ensures Untargeted(host.tools, Denying(env), pulled.files, pulled.checksums.Keys, k) {
    }
  }

  // ---- A settled reconciliation ----

  /** When nothing needs applying, the comparison ends the cycle: nothing is applied and no bookmark is written. */
  lemma NothingToApply(host: Host, env: Env, cfg: Config, s: State)
    requires ValidHost(host) && Quiet(env, Now(s.world))
    requires s.phase.Comparing? && !s.phase.isNew && s.phase.selected == []
    requires forall f :: f in s.phase.todo ==> !NeedsApply(host.tools, s.world.cluster, s.phase.pulled, f)
    ensures var s' := Finish(host, env, cfg, s);
            && s'.phase.Idle? && s'.bookmark == s.bookmark && s'.world.cluster == s.world.cluster
            && |s'.log| > 0 && s'.log[|s'.log| - 1] == UpToDate
  {
    var p := s.phase;
    ComparingRuns(host, env, cfg, s);
    QuietCompareAll(host.tools, env, s.world, p.pulled, p.todo);
    var (more, w) := CompareAll(host.tools, env, s.world, p.pulled, p.todo);
    assert forall i :: 0 <= i < |more| ==> more[i] in more;
    assert more == [];
    AppendEmpty(p.selected);
    var s1 := State(p.(todo := [], selected := p.selected + more), s.bookmark, w,
                    s.log + CompareEvents(host.tools, env, s.world, p.pulled, p.todo));
    FinishStep(host, env, cfg, s1);
  }

  /** An idle watcher about to fetch `pulled` for a tag that it has seen before. */
  ghost predicate Refetches(host: Host, cfg: Config, tag: string, pulled: Pulled, s: State)
    requires ValidHost(host)
  {
    && s.phase.Idle?
    && Decide(host, |s.log|, cfg, s.bookmark) == Goes(tag, false)
    && Fetch(host, |s.log| + 1, cfg, tag) == Some(pulled)
  }

  /** Such a cycle compares every manifest, in some order. */
  lemma RefetchCompares(host: Host, env: Env, cfg: Config, tag: string, pulled: Pulled, s: State)
    returns (order: seq<string>, s': State)
    requires ValidHost(host) && Refetches(host, cfg, tag, pulled, s)
    ensures Enumerates(order, pulled.checksums.Keys)
    ensures s'.phase == Comparing(tag, false, pulled, order, []) && s'.world == s.world && s'.bookmark == s.bookmark
    ensures Cycle(host, env, cfg, s) == Finish(host, env, cfg, s')
  {
    var s1 := Step(host, env, cfg, s);
    FinishStep(host, env, cfg, s1);
    s' := Step(host, env, cfg, s1);
    order := host.shuffle(|s1.log|, pulled.checksums.Keys);
  }

  /** The world after a comparison is the world that its selection leaves, and nothing later in the cycle changes it. */
  lemma ComparingEnds(host: Host, env: Env, cfg: Config, s: State)
    requires ValidHost(host) && s.phase.Comparing?
    ensures var p := s.phase;
            var (more, w) := CompareAll(host.tools, env, s.world, p.pulled, p.todo);
            Finish(host, env, cfg, s).world ==
            if !p.isNew && p.selected + more == [] then w
            else ApplyAll(host.tools, env, w, p.pulled.files, p.selected + more).1
  {
    var p := s.phase;
    var (more, w) := CompareAll(host.tools, env, s.world, p.pulled, p.todo);
    ComparingRuns(host, env, cfg, s);
    var s1 := State(p.(todo := [], selected := p.selected + more), s.bookmark, w,
                    s.log + CompareEvents(host.tools, env, s.world, p.pulled, p.todo));
    FinishStep(host, env, cfg, s1);
    if p.isNew || p.selected + more != [] {
      var s2 := Step(host, env, cfg, s1);
      ApplyingRuns(host, env, cfg, s2);
      SavingKeepsWorld(host, env, cfg, State(
        Applying(p.tag, p.pulled, []), s.bookmark, ApplyAll(host.tools, env, w, p.pulled.files, p.selected + more).1,
        s2.log + ApplyEvents(host.tools, env, w, p.pulled.files, p.selected + more)));
    }
  }

  lemma SavingKeepsWorld(host: Host, env: Env, cfg: Config, s: State)
    requires ValidHost(host) && s.phase.Applying? && s.phase.todo == []
    ensures Finish(host, env, cfg, s).world == s.world
  {
    var s1 := Step(host, env, cfg, s);
    var s2 := Step(host, env, cfg, s1);
    FinishStep(host, env, cfg, s);
    FinishStep(host, env, cfg, s1);
    FinishStep(host, env, cfg, s2);
  }

  ghost predicate Settled(tools: Tools, c: Cluster, pulled: Pulled)
    requires ValidTools(tools)
  {
    forall f :: f in pulled.checksums ==> !NeedsApply(tools, c, pulled, f)
  }

  /** The manifests go to distinct objects, can all be applied, and all have a spec. */
  ghost predicate Reconcilable(tools: Tools, env: Env, pulled: Pulled) {
    && DistinctTargets(tools, pulled.files)
    && forall f :: f in pulled.checksums ==> Applicable(tools, env, pulled.files, f) && HasSpec(tools, pulled, f)
  }

  /**
   Reconciliation settles in one cycle: over a quiet cluster, one whole cycle that fetches reconcilable manifests
   leaves nothing to apply, and the next cycle that fetches the same files changes neither cluster nor bookmark.
   */
  lemma ReconcilingSettles(host: Host, env: Env, cfg: Config, tag: string, pulled: Pulled, s: State)
    requires ValidHost(host) && Quiet(env, Now(s.world))
    requires Refetches(host, cfg, tag, pulled, s) && Reconcilable(host.tools, env, pulled)
    ensures var s1 := Cycle(host, env, cfg, s);
            && Settled(host.tools, s1.world.cluster, pulled)
            && (Refetches(host, cfg, tag, pulled, s1) ==> Unmoved(s1, Cycle(host, env, cfg, s1)))
  {
    var s1 := Cycle(host, env, cfg, s);
    OneCycleReconciles(host, env, cfg, tag, pulled, s);
    if Refetches(host, cfg, tag, pulled, s1) {
      SettledCycle(host, env, cfg, tag, pulled, s1);
    }
  }

  ghost predicate Unmoved(s: State, s': State) {
    && s'.world.cluster == s.world.cluster && s'.bookmark == s.bookmark
    && |s'.log| > 0 && s'.log[|s'.log| - 1] == UpToDate
  }

  lemma SettledCycle(host: Host, env: Env, cfg: Config, tag: string, pulled: Pulled, s: State)
    requires ValidHost(host) && Quiet(env, Now(s.world))
    requires Refetches(host, cfg, tag, pulled, s) && Settled(host.tools, s.world.cluster, pulled)
    ensures Unmoved(s, Cycle(host, env, cfg, s))
  {
    var order, s1 := RefetchCompares(host, env, cfg, tag, pulled, s);
    NothingToApply(host, env, cfg, s1);
  }

  lemma OneCycleReconciles(host: Host, env: Env, cfg: Config, tag: string, pulled: Pulled, s: State)
    requires ValidHost(host) && Quiet(env, Now(s.world))
    requires Refetches(host, cfg, tag, pulled, s) && Reconcilable(host.tools, env, pulled)
    ensures var s1 := Cycle(host, env, cfg, s);
            Quiet(env, Now(s1.world)) && Settled(host.tools, s1.world.cluster, pulled)
  {
    var tools := host.tools;
    var order, c := RefetchCompares(host, env, cfg, tag, pulled, s);
    ComparingEnds(host, env, cfg, c);
    var (selected, w) := CompareAll(tools, env, s.world, pulled, order);
    AppendEmpty(selected);
    var x := host.pull(|s.log| + 1, PullRef(cfg.imageBase, tag)).value;
    LabelledMatch(tools, x, cfg.artifactName, tag);
    SelectionSettles(tools, env, s.world, pulled, order);
  }

  // ---- The method's cycles are behaviours ----

  lemma {:induction false} BehaveMore(host: Host, env: Env, cfg: Config, s: State, a: seq<Choice>, b: seq<Choice>)
    requires ValidTools(host.tools)
    ensures Behave(host, env, cfg, s, a + b) == Behave(host, env, cfg, Behave(host, env, cfg, s, a), b)
    decreases |b|
  {
    if b == [] {
      AppendEmpty(a);
    } else {
      var n := |b| - 1;
      BehaveMore(host, env, cfg, s, a, b[..n]);
      DropLast(a, b);
    }
  }

  lemma DropLast<T>(a: seq<T>, b: seq<T>)
    requires b != []
    ensures |a + b| > 0 && (a + b)[..|a + b| - 1] == a + b[..|b| - 1] && (a + b)[|a + b| - 1] == b[|b| - 1]
  {
  }

  lemma {:induction false} FinishIsBehaviour(host: Host, env: Env, cfg: Config, s: State) returns (choices: seq<Choice>)
    requires ValidTools(host.tools)
    ensures Finish(host, env, cfg, s) == Behave(host, env, cfg, s, choices)
    decreases Rank(s.phase), Size(s.phase)
  {
    if s.phase.Idle? {
      choices := [];
    } else {
      var rest := FinishIsBehaviour(host, env, cfg, Step(host, env, cfg, s));
      choices := [Advance] + rest;
      assert [Advance][..0] == [];
      assert Behave(host, env, cfg, s, [Advance]) == Step(host, env, cfg, s);
      BehaveMore(host, env, cfg, s, [Advance], rest);
    }
  }

  /** A cycle run by the watcher is a behaviour of the machine, and ends idle. */
  lemma CycleIsBehaviour(host: Host, env: Env, cfg: Config, s: State)
    requires ValidTools(host.tools)
    ensures exists choices :: Cycle(host, env, cfg, s) == Behave(host, env, cfg, s, choices)
  {
    var rest := FinishIsBehaviour(host, env, cfg, Step(host, env, cfg, s));
    assert [Advance][..0] == [];
    assert Behave(host, env, cfg, s, [Advance]) == Step(host, env, cfg, s);
    BehaveMore(host, env, cfg, s, [Advance], rest);
  }
}
