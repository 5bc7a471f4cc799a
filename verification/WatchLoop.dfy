/**
 The watcher's loop (watchLoop of internal/watcher/watcher.go and tagChanged of helpers.go), as a state machine
 whose steps are the points between which the process can die, and as the method that runs it.
 */
module WatchLoop {
  import opened Wrappers
  import opened Text
  import opened Kubernetes
  import opened Image
  import opened WatcherConfig
  import opened Manifests

  /**
   Everything outside the cluster, by the time at which it is asked: the registry, the disk, the clients, and the
   order in which the runtime iterates over a map.
   */
  datatype Host = Host(
    tools: Tools,
    latest: nat -> Option<string>,
    identify: string -> Option<string>,
    pull: (nat, string) -> Option<Extracted>,
    clients: nat -> bool,
    readable: nat -> bool,
    opens: nat -> bool,
    fills: nat -> bool,
    shuffle: (nat, set<string>) -> seq<string>)

  ghost predicate ValidHost(host: Host) {
    ValidTools(host.tools) && forall t, s :: Enumerates(host.shuffle(t, s), s)
  }

  datatype Event =
    | CycleFailed
    | Idled
    | Began(tag: string, isNew: bool)
    | Fetched(tag: string, isNew: bool, files: set<string>)
    | Compared(file: string, differs: bool, checksum: Option<string>)
    | UpToDate
    | Chose(tag: string, files: set<string>)
    | Attempted(file: string, target: Option<ObjKey>, ok: bool, data: Option<string>)
    | Applied
    | Truncated
    | Bookmarked(tag: string)
    | Crashed

  datatype Phase =
    | Idle
    | Pulling(tag: string, isNew: bool)
    | Comparing(tag: string, isNew: bool, pulled: Pulled, todo: seq<string>, selected: seq<string>)
    | Applying(tag: string, pulled: Pulled, todo: seq<string>)
    | Saving(tag: string)
    | Filling(tag: string)

  /** `bookmark` is the last_seen file, None while it does not exist; the length of the log is the time. */
  datatype State = State(phase: Phase, bookmark: Option<string>, world: World, log: seq<Event>)

  // ---- Deciding ----

  /** tagChanged: whether the tag is new, and the tag. */
  function TagChanged(host: Host, t: nat, cfg: Config, bookmark: Option<string>): Option<(bool, string)> {
    if cfg.pollInterval == 0 then
      match host.identify(cfg.imageBase)
      case None => None
      case Some(tag) =>
        if tag != "latest" && tag != "" then Some((true, tag))
        else
          match host.latest(t)
          case None => None
          case Some(latest) => Some((latest != "", latest))
    else
      match Latest(host, t, cfg)
      case None => None
      case Some(latest) =>
        if latest == "" && AsksRegistry(cfg) then Some((false, ""))
        else Some((latest != TrimSpace(if host.readable(t) then bookmark.GetOr("") else ""), latest))
  }

  /** An artifactory reference that names a tag other than "latest" is taken at its word. */
  predicate AsksRegistry(cfg: Config) {
    var parts := Split(cfg.imageBase, ':');
    cfg.provider == "github" || |parts| < 2 || Last(parts) == "latest"
  }

  function Latest(host: Host, t: nat, cfg: Config): Option<string> {
    if AsksRegistry(cfg) then host.latest(t) else Some(Last(Split(cfg.imageBase, ':')))
  }

  datatype Decision = Fails | Rests | Goes(tag: string, isNew: bool)

  function Decide(host: Host, t: nat, cfg: Config, bookmark: Option<string>): Decision {
    if cfg.pollForTagChanges then
      match TagChanged(host, t, cfg, bookmark)
      case None => Fails
      case Some((changed, latest)) =>
        if !changed && !cfg.reconcilePoliciesFromChecksum then Rests else Goes(latest, changed)
    else
      match PinnedTag(cfg.imageBase)
      case None => Rests
      case Some(tag) =>
        if bookmark.Some? && !host.readable(t) then Fails
        else
          var prev := bookmark.GetOr("");
          var changed := tag != prev && prev != "";
          if !changed && !cfg.reconcilePoliciesFromChecksum then Rests else Goes(tag, changed)
  }

  // ---- Steps ----

  function Say(s: State, phase: Phase, e: Event): State {
    s.(phase := phase, log := s.log + [e])
  }

  function Fetch(host: Host, t: nat, cfg: Config, tag: string): Option<Pulled>
    requires ValidTools(host.tools)
  {
    if !host.clients(t) then None
    else
      match host.pull(t, PullRef(cfg.imageBase, tag))
      case None => None
      case Some(x) => Some(Label(host.tools, x, cfg.artifactName, tag))
  }

  function TargetOfFile(tools: Tools, files: map<string, string>, f: string): Option<ObjKey> {
    if f !in files || tools.parse(files[f]).None? then None
    else
      match TargetOf(tools, tools.parse(files[f]).value)
      case Ok(key) => Some(key)
      case Err(_) => None
  }

  function Find(m: map<string, string>, f: string): Option<string> {
    if f in m then Some(m[f]) else None
  }

  /** The record of a file's application: what was applied, to which object, and whether it worked. */
  function Attempt(tools: Tools, files: map<string, string>, f: string, ok: bool): Event {
    Attempted(f, TargetOfFile(tools, files, f), ok, Find(files, f))
  }

  function Step(host: Host, env: Env, cfg: Config, s: State): State
    requires ValidTools(host.tools)
  {
    var t := |s.log|;
    match s.phase
    case Idle =>
      (match Decide(host, t, cfg, s.bookmark)
       case Fails => Say(s, Idle, CycleFailed)
       case Rests => Say(s, Idle, Idled)
       case Goes(tag, isNew) => Say(s, Pulling(tag, isNew), Began(tag, isNew)))
    case Pulling(tag, isNew) =>
      (match Fetch(host, t, cfg, tag)
       case None => Say(s, Idle, CycleFailed)
       case Some(pulled) =>
         var files := host.shuffle(t, pulled.checksums.Keys);
         Say(s, if isNew then Comparing(tag, true, pulled, [], files) else Comparing(tag, false, pulled, files, []),
             Fetched(tag, isNew, pulled.checksums.Keys)))
    case Comparing(tag, isNew, pulled, todo, selected) =>
      if todo != [] then
        var (differs, w) := Compare(host.tools, env, s.world, pulled, todo[0]);
        var selected' := if differs then selected + [todo[0]] else selected;
        Say(s.(world := w), Comparing(tag, isNew, pulled, todo[1..], selected'),
            Compared(todo[0], differs, Find(pulled.checksums, todo[0])))
      else if !isNew && selected == [] then Say(s, Idle, UpToDate)
      else Say(s, Applying(tag, pulled, selected), Chose(tag, set f | f in selected))
    case Applying(tag, pulled, todo) =>
      if todo == [] then Say(s, Saving(tag), Applied)
      else
        var (ok, w) := ApplyFile(host.tools, env, s.world, pulled.files, todo[0]);
        Say(s.(world := w), Applying(tag, pulled, todo[1..]),
            Attempt(host.tools, pulled.files, todo[0], ok))
    case Saving(tag) =>
      if !host.opens(t) then Say(s, Idle, CycleFailed) else Say(s.(bookmark := Some("")), Filling(tag), Truncated)
    case Filling(tag) =>
      if !host.fills(t) then Say(s, Idle, CycleFailed) else Say(s.(bookmark := Some(tag)), Idle, Bookmarked(tag))
  }

  /** The process dies: memory is lost, the file and the cluster are not. */
  function Crash(s: State): State {
    Say(s, Idle, Crashed)
  }

  datatype Choice = Advance | Die

  /** A behaviour: steps, with crashes between any two of them. */
  function Behave(host: Host, env: Env, cfg: Config, s: State, choices: seq<Choice>): State
    requires ValidTools(host.tools)
  {
    if choices == [] then s
    else
      var s' := Behave(host, env, cfg, s, choices[..|choices| - 1]);
      if choices[|choices| - 1].Die? then Crash(s') else Step(host, env, cfg, s')
  }

  function Rank(p: Phase): nat {
    match p
    case Idle => 0
    case Pulling(_, _) => 2
    case _ => 1
  }

  function Size(p: Phase): nat {
    match p
    case Comparing(_, _, _, todo, selected) => 4 + 2 * |todo| + |selected|
    case Applying(_, _, todo) => 3 + |todo|
    case Saving(_) => 2
    case Filling(_) => 1
    case _ => 0
  }

  /** Runs on to the end of the cycle. */
  function Finish(host: Host, env: Env, cfg: Config, s: State): State
    requires ValidTools(host.tools)
    decreases Rank(s.phase), Size(s.phase)
  {
    if s.phase.Idle? then s else Finish(host, env, cfg, Step(host, env, cfg, s))
  }

  /** One call of watchLoop. */
  function Cycle(host: Host, env: Env, cfg: Config, s: State): State
    requires ValidTools(host.tools)
  {
    Finish(host, env, cfg, Step(host, env, cfg, s))
  }

  // ---- Loops, run to their ends ----

  function CompareEvents(tools: Tools, env: Env, w: World, pulled: Pulled, todo: seq<string>): seq<Event>
    requires ValidTools(tools)
    decreases |todo|
  {
    if todo == [] then []
    else
      var (differs, w') := Compare(tools, env, w, pulled, todo[0]);
      [Compared(todo[0], differs, Find(pulled.checksums, todo[0]))]
      + CompareEvents(tools, env, w', pulled, todo[1..])
  }

  function ApplyEvents(tools: Tools, env: Env, w: World, files: map<string, string>, todo: seq<string>): seq<Event>
    decreases |todo|
  {
    if todo == [] then []
    else
      var (ok, w') := ApplyFile(tools, env, w, files, todo[0]);
      [Attempt(tools, files, todo[0], ok)] + ApplyEvents(tools, env, w', files, todo[1..])
  }

  lemma {:induction false} ComparingRuns(host: Host, env: Env, cfg: Config, s: State)
    requires ValidTools(host.tools) && s.phase.Comparing?
    ensures var p := s.phase;
            var (more, w) := CompareAll(host.tools, env, s.world, p.pulled, p.todo);
            Finish(host, env, cfg, s) ==
            Finish(host, env, cfg, State(p.(todo := [], selected := p.selected + more), s.bookmark, w,
                                         s.log + CompareEvents(host.tools, env, s.world, p.pulled, p.todo)))
    decreases |s.phase.todo|
  {
    var p := s.phase;
    var (more, w) := CompareAll(host.tools, env, s.world, p.pulled, p.todo);
    var events := CompareEvents(host.tools, env, s.world, p.pulled, p.todo);
    if p.todo == [] {
      AppendEmpty(p.selected);
      AppendEmpty(s.log);
    } else {
      var s1 := Step(host, env, cfg, s);
      ComparingRuns(host, env, cfg, s1);
      var (more1, w1) := CompareAll(host.tools, env, s1.world, p.pulled, p.todo[1..]);
      var events1 := CompareEvents(host.tools, env, s1.world, p.pulled, p.todo[1..]);
      AppendEmpty(more1);
      AppendPrepend(p.selected, p.todo[0], more1);
      AppendPrepend(s.log, s1.log[|s.log|], events1);
    }
  }

  lemma {:induction false} ApplyingRuns(host: Host, env: Env, cfg: Config, s: State)
    requires ValidTools(host.tools) && s.phase.Applying?
    ensures var p := s.phase;
            Finish(host, env, cfg, s) ==
            Finish(host, env, cfg, State(p.(todo := []), s.bookmark,
                                         ApplyAll(host.tools, env, s.world, p.pulled.files, p.todo).1,
                                         s.log + ApplyEvents(host.tools, env, s.world, p.pulled.files, p.todo)))
    decreases |s.phase.todo|
  {
    var p := s.phase;
    var events := ApplyEvents(host.tools, env, s.world, p.pulled.files, p.todo);
    if p.todo == [] {
      AppendEmpty(s.log);
    } else {
      var s1 := Step(host, env, cfg, s);
      ApplyingRuns(host, env, cfg, s1);
      var events1 := ApplyEvents(host.tools, env, s1.world, p.pulled.files, p.todo[1..]);
      AppendPrepend(s.log, s1.log[|s.log|], events1);
    }
  }

  // ---- The watcher itself ----

  lemma FinishStep(host: Host, env: Env, cfg: Config, s: State)
    requires ValidTools(host.tools)
    ensures Finish(host, env, cfg, s) == if s.phase.Idle? then s else Finish(host, env, cfg, Step(host, env, cfg, s))
  {
  }

  class Watcher {
    const host: Host
    const cfg: Config
    const api: ApiServer
    /** The state file; None while it does not exist. */
    var lastFile: Option<string>
    var journal: seq<Event>

    constructor (host: Host, cfg: Config, api: ApiServer, lastFile: Option<string>)
      ensures this.host == host && this.cfg == cfg && this.api == api
      ensures At() == State(Idle, lastFile, api.world, [])
    {
      this.host, this.cfg, this.api, this.lastFile, journal := host, cfg, api, lastFile, [];
    }

    /** Between calls of WatchLoop the process is idle. */
    ghost function At(): State
      reads this, api
    {
      State(Idle, lastFile, api.world, journal)
    }

    method PullImageToDir(tag: string) returns (pulled: Option<Pulled>)
      requires ValidHost(host)
      ensures pulled == if host.clients(|journal|) then Fetch(host, |journal|, cfg, tag) else None
    {
      if !host.clients(|journal|) { return None; }
      var extracted := host.pull(|journal|, PullRef(cfg.imageBase, tag));
      if extracted.None? { return None; }
      var files := host.shuffle(|journal|, extracted.value.files.Keys);
      var labelled := LabelFiles(host.tools, extracted.value, cfg.artifactName, tag, files);
      return Some(labelled);
    }

    /** The loop body of checksumsChanged. */
    method CompareFile(pulled: Pulled, file: string) returns (differs: bool)
      requires ValidHost(host)
      modifies api
      ensures (differs, api.world) == Compare(host.tools, api.env, old(api.world), pulled, file)
    {
      if file !in pulled.files { return false; }
      var manifest := host.tools.parse(pulled.files[file]);
      if manifest.None? { return false; }
      var mapping := host.tools.mapping(manifest.value.gvk);
      if mapping.None? { return false; }
      var key := LookupKey(manifest.value, mapping.value);
      if key.Err? { return SaysNotFound(key.error); }
      var existing := api.Get(key.value);
      if existing.Err? { return SaysNotFound(existing.error); }
      var spec := existing.value.content.spec;
      if spec.None? { return true; }
      return file !in pulled.checksums || host.tools.sha(spec.value)[..48] != pulled.checksums[file];
    }

    method ChecksumsChanged(pulled: Pulled, files: seq<string>) returns (changed: bool, filesToApply: seq<string>)
      requires ValidHost(host)
      modifies this`journal, api
      ensures (filesToApply, api.world) == CompareAll(host.tools, api.env, old(api.world), pulled, files)
      ensures journal == old(journal) + CompareEvents(host.tools, api.env, old(api.world), pulled, files)
      ensures changed <==> filesToApply != []
    {
      changed, filesToApply := false, [];
      ghost var w0, j0 := api.world, journal;
      ghost var (selected, w) := CompareAll(host.tools, api.env, w0, pulled, files);
      ghost var events := CompareEvents(host.tools, api.env, w0, pulled, files);
      for i := 0 to |files|
        invariant changed <==> filesToApply != []
        invariant selected == filesToApply + CompareAll(host.tools, api.env, api.world, pulled, files[i..]).0
        invariant w == CompareAll(host.tools, api.env, api.world, pulled, files[i..]).1
        invariant j0 + events == journal + CompareEvents(host.tools, api.env, api.world, pulled, files[i..])
      {
        assert files[i..][0] == files[i] && files[i..][1..] == files[i + 1..];
        var differs := CompareFile(pulled, files[i]);
        ghost var more := CompareAll(host.tools, api.env, api.world, pulled, files[i + 1..]).0;
        AppendEmpty(more);
        AppendPrepend(filesToApply, files[i], more);
        AppendPrepend(journal, Compared(files[i], differs, Find(pulled.checksums, files[i])),
                      CompareEvents(host.tools, api.env, api.world, pulled, files[i + 1..]));
        if differs {
          filesToApply := filesToApply + [files[i]];
          changed := true;
        }
        journal := journal + [Compared(files[i], differs, Find(pulled.checksums, files[i]))];
      }
      assert files[|files|..] == [];
      AppendEmpty(filesToApply);
      AppendEmpty(journal);
    }

    method ApplyResourceNow(m: Manifest) returns (r: Result<(), ApiError>)
      modifies api
      ensures (r, api.world) == ApplyResource(host.tools, api.env, old(api.world), m)
    {
      var key := TargetOf(host.tools, m);
      if key.Err? { return Err(key.error); }
      var existing := api.Get(key.value);
      if existing.Err? && existing.error.NotFound? {
        r := api.Create(key.value, ContentOf(m));
      } else if existing.Err? {
        r := Err(existing.error);
      } else {
        r := api.Update(key.value, ContentOf(m), existing.value.version);
      }
    }

    method ApplyManifestFile(files: map<string, string>, file: string) returns (ok: bool)
      modifies api
      ensures (ok, api.world) == ApplyFile(host.tools, api.env, old(api.world), files, file)
    {
      if file !in files { return false; }
      var manifest := host.tools.parse(files[file]);
      if manifest.None? { return false; }
      var r := ApplyResourceNow(manifest.value);
      return r.Ok?;
    }

    method ApplyManifests(files: map<string, string>, todo: seq<string>)
      modifies this`journal, api
      ensures api.world == ApplyAll(host.tools, api.env, old(api.world), files, todo).1
      ensures journal == old(journal) + ApplyEvents(host.tools, api.env, old(api.world), files, todo)
    {
      ghost var w0, j0 := api.world, journal;
      ghost var events := ApplyEvents(host.tools, api.env, w0, files, todo);
      for i := 0 to |todo|
        invariant ApplyAll(host.tools, api.env, w0, files, todo).1 ==
                  ApplyAll(host.tools, api.env, api.world, files, todo[i..]).1
        invariant j0 + events == journal + ApplyEvents(host.tools, api.env, api.world, files, todo[i..])
      {
        assert todo[i..][0] == todo[i] && todo[i..][1..] == todo[i + 1..];
        var ok := ApplyManifestFile(files, todo[i]);
        AppendPrepend(journal, Attempt(host.tools, files, todo[i], ok),
                      ApplyEvents(host.tools, api.env, api.world, files, todo[i + 1..]));
        journal := journal + [Attempt(host.tools, files, todo[i], ok)];
      }
      assert todo[|todo|..] == [];
    }

    /** os.WriteFile: the file is emptied before it is filled. */
    method SaveBookmark(tag: string) returns (saved: bool)
      requires ValidHost(host)
      modifies this
      ensures At() == Finish(host, api.env, cfg, old(At()).(phase := Saving(tag)))
      ensures journal != [] && (saved <==> Last(journal) == Bookmarked(tag))
      ensures !saved <==> Last(journal) == CycleFailed
    {
      ghost var s := At().(phase := Saving(tag));
      FinishStep(host, api.env, cfg, s);
      if !host.opens(|journal|) {
        journal := journal + [CycleFailed];
        return false;
      }
      lastFile, journal := Some(""), journal + [Truncated];
      s := At().(phase := Filling(tag));
      FinishStep(host, api.env, cfg, s);
      if !host.fills(|journal|) {
        journal := journal + [CycleFailed];
        return false;
      }
      lastFile, journal := Some(tag), journal + [Bookmarked(tag)];
      return true;
    }

    /** A cycle answers no exactly if it failed. */
    method WatchLoop() returns (ok: bool)
      requires ValidHost(host)
      modifies this, api
      ensures At() == Cycle(host, api.env, cfg, old(At()))
      ensures journal != [] && (!ok <==> Last(journal) == CycleFailed)
    {
      var decision := Decide(host, |journal|, cfg, lastFile);
      if decision.Fails? { journal := journal + [CycleFailed]; return false; }
      if decision.Rests? { journal := journal + [Idled]; return true; }
      var latest, isTagChanged := decision.tag, decision.isNew;
      journal := journal + [Began(latest, isTagChanged)];
      ghost var s := At().(phase := Pulling(latest, isTagChanged));
      FinishStep(host, api.env, cfg, s);
      var pulled := PullImageToDir(latest);
      if pulled.None? { journal := journal + [CycleFailed]; return false; }
      var newChecksums := pulled.value.checksums;
      var files := host.shuffle(|journal|, newChecksums.Keys);
      journal := journal + [Fetched(latest, isTagChanged, newChecksums.Keys)];
      var filesToApply := files;
      if isTagChanged {
        s := At().(phase := Comparing(latest, true, pulled.value, [], files));
      } else {
        s := At().(phase := Comparing(latest, false, pulled.value, files, []));
        ComparingRuns(host, api.env, cfg, s);
        var changed;
        changed, filesToApply := ChecksumsChanged(pulled.value, files);
        assert [] + filesToApply == filesToApply;
        s := At().(phase := Comparing(latest, false, pulled.value, [], filesToApply));
        FinishStep(host, api.env, cfg, s);
        if !changed { journal := journal + [UpToDate]; return true; }
      }
      FinishStep(host, api.env, cfg, s);
      journal := journal + [Chose(latest, set f | f in filesToApply)];
      ok := ApplyChosen(latest, pulled.value, filesToApply);
    }

    /** The rest of a cycle that found something to apply. */
    method ApplyChosen(latest: string, pulled: Pulled, filesToApply: seq<string>) returns (ok: bool)
      requires ValidHost(host)
      modifies this, api
      ensures At() == Finish(host, api.env, cfg, old(At()).(phase := Applying(latest, pulled, filesToApply)))
      ensures journal != [] && (ok <==> Last(journal) == Bookmarked(latest)) && (!ok <==> Last(journal) == CycleFailed)
    {
      ghost var s := At().(phase := Applying(latest, pulled, filesToApply));
      ApplyingRuns(host, api.env, cfg, s);
      ApplyManifests(pulled.files, filesToApply);
      s := At().(phase := Applying(latest, pulled, []));
      FinishStep(host, api.env, cfg, s);
      journal := journal + [Applied];
      ok := SaveBookmark(latest);
    }
  }
}
