/** What a cycle of the watcher sets out to do, from its configuration, its file and what it hears. */
module WatchDecisions {
  import opened Wrappers
  import opened Text
  import opened Kubernetes
  import opened Image
  import opened Trimming
  import opened WatcherConfig
  import opened WatchLoop
  import opened WatchRuns

  // ---- What is heard ----

  /** Asked of the registry, unless it is artifactory and the reference names a tag other than "latest". */
  lemma LatestIsExact(host: Host, t: nat, cfg: Config)
    ensures cfg.provider == "github" || ':' !in cfg.imageBase ==> Latest(host, t, cfg) == host.latest(t)
    ensures forall base, tag :: cfg.provider != "github" && cfg.imageBase == base + [':'] + tag && ':' !in tag ==>
              Latest(host, t, cfg) == if tag == "latest" then host.latest(t) else Some(tag)
  {
    if ':' !in cfg.imageBase {
      SplitWhole(cfg.imageBase, ':');
    }
    forall base, tag | cfg.provider != "github" && cfg.imageBase == base + [':'] + tag && ':' !in tag
      ensures Latest(host, t, cfg) == if tag == "latest" then host.latest(t) else Some(tag)
    {
      SplitEnds(base, ':', tag);
    }
  }

  /** The registry is asked and has no tag at all. */
  ghost predicate NothingPublished(host: Host, t: nat, cfg: Config) {
    && host.latest(t) == Some("")
    && (cfg.provider == "github" || ':' !in cfg.imageBase
        || exists base :: cfg.imageBase == base + [':'] + "latest")
  }

  ghost predicate Hears(host: Host, t: nat, cfg: Config, tag: string) {
    Latest(host, t, cfg) == Some(tag) && !NothingPublished(host, t, cfg)
  }

  lemma NothingIsEmpty(host: Host, t: nat, cfg: Config)
    ensures NothingPublished(host, t, cfg) <==> AsksRegistry(cfg) && Latest(host, t, cfg) == Some("")
  {
    if cfg.provider != "github" && ':' in cfg.imageBase {
      var base := LastSplits(cfg.imageBase, ':');
      var tag := Last(Split(cfg.imageBase, ':'));
      SplitsInTwo(cfg.imageBase, ':');
      if other :| cfg.imageBase == other + [':'] + "latest" {
        SplitEnds(other, ':', "latest");
      }
    } else if ':' !in cfg.imageBase {
      SplitWhole(cfg.imageBase, ':');
    }
  }

  /** What stands before the last separator. */
  lemma LastSplits(s: string, c: char) returns (head: string)
    requires c in s
    ensures s == head + [c] + Last(Split(s, c)) && c !in Last(Split(s, c))
  {
    SplitsInTwo(s, c);
    JoinInvertsSplit(s, c);
    SplitPartsClean(s, c);
    head := JoinEnds(Split(s, c), c);
  }

  /** What the file says: nothing if it is missing or cannot be read. */
  ghost predicate Remembers(host: Host, t: nat, bookmark: Option<string>, seen: string) {
    Trims(if host.readable(t) && bookmark.Some? then bookmark.value else "", seen)
  }

  // ---- What a cycle does first ----

  /** Sets out to fetch; or, if `checks` is off, rests. */
  ghost predicate FetchesAgain(s: State, s': State, tag: string, checks: bool) {
    && s'.world == s.world && s'.bookmark == s.bookmark
    && if checks then s'.phase == Pulling(tag, false) else s'.phase == Idle && s'.log == s.log + [Idled]
  }

  ghost predicate FetchesNew(s: State, s': State, tag: string) {
    s'.world == s.world && s'.bookmark == s.bookmark && s'.phase == Pulling(tag, true)
  }

  ghost predicate GivesUp(s: State, s': State) {
    s'.world == s.world && s'.bookmark == s.bookmark && s'.phase == Idle && s'.log == s.log + [CycleFailed]
  }

  lemma StepFollows(host: Host, env: Env, cfg: Config, s: State)
    requires ValidHost(host) && s.phase.Idle?
    ensures var s' := Step(host, env, cfg, s);
            match Decide(host, |s.log|, cfg, s.bookmark)
            case Fails => GivesUp(s, s')
            case Rests => forall tag :: FetchesAgain(s, s', tag, false)
            case Goes(tag, isNew) => if isNew then FetchesNew(s, s', tag) else FetchesAgain(s, s', tag, true)
  {
  }

  lemma PollingDecides(host: Host, t: nat, cfg: Config, bookmark: Option<string>)
    requires cfg.pollForTagChanges && cfg.pollInterval != 0
    ensures var d, again := Decide(host, t, cfg, bookmark), cfg.reconcilePoliciesFromChecksum;
            && (Latest(host, t, cfg) == None ==> d == Fails)
            && (NothingPublished(host, t, cfg) ==> d == if again then Goes("", false) else Rests)
            && forall tag :: Hears(host, t, cfg, tag) ==>
                 d == if TrimSpace(if host.readable(t) then bookmark.GetOr("") else "") != tag then Goes(tag, true)
                      else if again then Goes(tag, false)
                      else Rests
  {
    NothingIsEmpty(host, t, cfg);
  }

  lemma RemembersTrimmed(host: Host, t: nat, bookmark: Option<string>, seen: string)
    requires Remembers(host, t, bookmark, seen)
    ensures seen == TrimSpace(if host.readable(t) then bookmark.GetOr("") else "")
  {
    var file := if host.readable(t) && bookmark.Some? then bookmark.value else "";
    assert file == if host.readable(t) then bookmark.GetOr("") else "";
    TrimSpaceTrims(file);
    TrimsOneWay(file, seen, TrimSpace(file));
  }

  /** Polling with an interval: the tag heard against the file, without the white space; an unreadable file is empty. */
  lemma PollingSetsOut(host: Host, env: Env, cfg: Config, s: State)
    requires ValidHost(host) && s.phase.Idle? && cfg.pollForTagChanges && cfg.pollInterval != 0
    ensures var t, s' := |s.log|, Step(host, env, cfg, s);
            && (Latest(host, t, cfg) == None ==> GivesUp(s, s'))
            && (NothingPublished(host, t, cfg) ==> FetchesAgain(s, s', "", cfg.reconcilePoliciesFromChecksum))
            && forall tag, seen :: Hears(host, t, cfg, tag) && Remembers(host, t, s.bookmark, seen) ==>
                 if seen == tag then FetchesAgain(s, s', tag, cfg.reconcilePoliciesFromChecksum)
                 else FetchesNew(s, s', tag)
  {
    var t, s' := |s.log|, Step(host, env, cfg, s);
    StepFollows(host, env, cfg, s);
    PollingDecides(host, t, cfg, s.bookmark);
    forall tag, seen | Hears(host, t, cfg, tag) && Remembers(host, t, s.bookmark, seen)
      ensures if seen == tag then FetchesAgain(s, s', tag, cfg.reconcilePoliciesFromChecksum)
              else FetchesNew(s, s', tag)
    {
      RemembersTrimmed(host, t, s.bookmark, seen);
    }
  }

  /** With interval zero the tag that the reference names is new every time; "latest" or none is asked for. */
  lemma EveryCycleSetsOut(host: Host, env: Env, cfg: Config, s: State)
    requires ValidHost(host) && s.phase.Idle? && cfg.pollForTagChanges && cfg.pollInterval == 0
    ensures var t, s' := |s.log|, Step(host, env, cfg, s);
            match host.identify(cfg.imageBase)
            case None => GivesUp(s, s')
            case Some(id) =>
              if id != "latest" && id != "" then FetchesNew(s, s', id)
              else
                match host.latest(t)
                case None => GivesUp(s, s')
                case Some(tag) =>
                  if tag == "" then FetchesAgain(s, s', "", cfg.reconcilePoliciesFromChecksum)
                  else FetchesNew(s, s', tag)
  {
  }

  /** The reference pins this tag: it follows the last colon, and no slash follows it. */
  ghost predicate Pins(imageBase: string, tag: string) {
    ':' !in tag && '/' !in tag && exists base :: imageBase == base + [':'] + tag
  }

  /** Without polling: no tag in the reference, nothing to do; else the tag against the file, letter by letter. */
  lemma PinnedSetsOut(host: Host, env: Env, cfg: Config, s: State)
    requires ValidHost(host) && s.phase.Idle? && !cfg.pollForTagChanges
    ensures var t, s' := |s.log|, Step(host, env, cfg, s);
            && ((forall tag :: !Pins(cfg.imageBase, tag)) ==> FetchesAgain(s, s', "", false))
            && forall tag :: Pins(cfg.imageBase, tag) ==>
                 if s.bookmark.Some? && !host.readable(t) then GivesUp(s, s')
                 else if s.bookmark in {None, Some(""), Some(tag)} then
                   FetchesAgain(s, s', tag, cfg.reconcilePoliciesFromChecksum)
                 else FetchesNew(s, s', tag)
  {
    PinnedTagIsExact(cfg.imageBase);
    StepFollows(host, env, cfg, s);
  }

  /** Pinned mode goes by exactly the tag that the reference pins. */
  lemma PinnedTagIsExact(imageBase: string)
    ensures forall tag :: Pins(imageBase, tag) <==> PinnedTag(imageBase) == Some(tag)
  {
    forall tag | Pins(imageBase, tag) ensures PinnedTag(imageBase) == Some(tag) {
      var base :| imageBase == base + [':'] + tag;
      SplitEnds(base, ':', tag);
      assert imageBase[|base|] == ':';
    }
    if ':' in imageBase {
      var base := LastSplits(imageBase, ':');
    }
  }
}
