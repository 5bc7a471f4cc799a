/** What a bookmark stands for, in every behaviour of the watcher, crashes included. */
module Bookmarks {
  import opened Wrappers
  import opened Text
  import opened Kubernetes
  import opened Image
  import opened WatcherConfig
  import opened Manifests
  import opened WatchLoop

  ghost function Initial(bookmark: Option<string>, c: Cluster): State {
    State(Idle, bookmark, World(c, []), [])
  }

  lemma ElementsTail<T>(q: seq<T>)
    requires q != []
    ensures Elements(q) == {q[0]} + Elements(q[1..])
    ensures forall x :: Elements(q[1..] + [x]) == Elements(q[1..]) + {x}
  {
  }

  lemma ElementsSnoc<T>(q: seq<T>, x: T)
    ensures Elements(q + [x]) == Elements(q) + {x}
  {
  }

  // ---- Bookmarks are earned ----

  /** How far the cycle now under way has come, read off the log. */
  datatype Progress =
    | Nothing
    | Got(tag: string, isNew: bool, files: set<string>, compared: set<string>, differing: set<string>)
    | Due(tag: string, files: set<string>, attempted: set<string>)

  ghost function Advanced(p: Progress, e: Event): Progress {
    match e
    case Fetched(tag, isNew, files) => Got(tag, isNew, files, {}, {})
    case Compared(f, differs, _) =>
      if p.Got? then
        p.(compared := p.compared + {f}, differing := if differs then p.differing + {f} else p.differing)
      else Nothing
    case Chose(tag, files) =>
      if p.Got? && p.tag == tag && (if p.isNew then files == p.files else p.compared == p.files && files == p.differing)
      then Due(tag, files, {}) else Nothing
    case Attempted(f, _, _, _) => if p.Due? && f in p.files then p.(attempted := p.attempted + {f}) else Nothing
    case Applied => p
    case Truncated => p
    case _ => Nothing
  }

  ghost function ProgressOf(log: seq<Event>): Progress {
    if log == [] then Nothing else Advanced(ProgressOf(log[..|log| - 1]), log[|log| - 1])
  }

  lemma ProgressSnoc(log: seq<Event>, e: Event)
    ensures ProgressOf(log + [e]) == Advanced(ProgressOf(log), e)
  {
    assert (log + [e])[..|log|] == log;
  }

  ghost predicate OnTrack(s: State) {
    var p := ProgressOf(s.log);
    match s.phase
    case Idle => true
    case Pulling(_, _) => true
    case Comparing(tag, isNew, pulled, todo, selected) =>
      && p.Got? && p.tag == tag && p.isNew == isNew && p.files == pulled.checksums.Keys
      && (if isNew then todo == [] && Elements(selected) == p.files
          else Elements(selected) == p.differing && p.compared + Elements(todo) == p.files)
    case Applying(tag, _, todo) =>
      p.Due? && p.tag == tag && p.attempted + Elements(todo) == p.files
    case Saving(tag) => p.Due? && p.tag == tag && p.attempted == p.files
    case Filling(tag) => p.Due? && p.tag == tag && p.attempted == p.files
  }

  /** At `i` a bookmark was written, after everything due had been attempted. */
  ghost predicate EarnedAt(log: seq<Event>, i: nat)
    requires i < |log| && log[i].Bookmarked?
  {
    var p := ProgressOf(log[..i]);
    p.Due? && p.tag == log[i].tag && p.attempted == p.files
  }

  ghost predicate AllEarned(log: seq<Event>) {
    forall i :: 0 <= i < |log| && log[i].Bookmarked? ==> EarnedAt(log, i)
  }

  lemma EarnedSnoc(log: seq<Event>, e: Event)
    requires AllEarned(log)
    requires e.Bookmarked? ==> ProgressOf(log).Due? && ProgressOf(log).tag == e.tag
                               && ProgressOf(log).attempted == ProgressOf(log).files
    ensures AllEarned(log + [e])
  {
    var log' := log + [e];
    forall i | 0 <= i < |log'| && log'[i].Bookmarked? ensures EarnedAt(log', i) {
      if i < |log| {
        assert EarnedAt(log, i) && log'[..i] == log[..i];
      } else {
        assert log'[..i] == log;
      }
    }
  }

  /** The bookmark file after the writes in the log. */
  ghost function FileAfter(start: Option<string>, log: seq<Event>): Option<string> {
    if log == [] then start
    else
      match log[|log| - 1]
      case Truncated => Some("")
      case Bookmarked(tag) => Some(tag)
      case _ => FileAfter(start, log[..|log| - 1])
  }

  lemma FileSnoc(start: Option<string>, log: seq<Event>, e: Event)
    ensures FileAfter(start, log + [e]) ==
            if e.Truncated? then Some("") else if e.Bookmarked? then Some(e.tag) else FileAfter(start, log)
  {
    assert (log + [e])[..|log|] == log;
  }

  /** Every step keeps the phase in line with the log; a bookmark is written only when all that is due was attempted. */
  lemma StepOnTrack(host: Host, env: Env, cfg: Config, s: State)
    requires ValidHost(host) && OnTrack(s)
    ensures OnTrack(Step(host, env, cfg, s))
  {
    var s' := Step(host, env, cfg, s);
    ProgressSnoc(s.log, s'.log[|s.log|]);
    match s.phase
    case Pulling(_, _) => FetchOnTrack(host, env, cfg, s);
    case Comparing(_, _, _, _, _) => CompareOnTrack(host, env, cfg, s);
    case Applying(_, _, _) => ApplyOnTrack(host, env, cfg, s);
    case _ =>
  }

  lemma CompareOnTrack(host: Host, env: Env, cfg: Config, s: State)
    requires ValidHost(host) && OnTrack(s) && s.phase.Comparing?
    ensures OnTrack(Step(host, env, cfg, s))
  {
    var s' := Step(host, env, cfg, s);
    ProgressSnoc(s.log, s'.log[|s.log|]);
    if s.phase.todo != [] {
      CompareNextOnTrack(host, env, cfg, s);
    } else {
      assert Elements(s.phase.todo) == {};
    }
  }

  lemma CompareNextOnTrack(host: Host, env: Env, cfg: Config, s: State)
    requires ValidHost(host) && OnTrack(s) && s.phase.Comparing? && s.phase.todo != []
    ensures OnTrack(Step(host, env, cfg, s))
  {
    var s' := Step(host, env, cfg, s);
    ProgressSnoc(s.log, s'.log[|s.log|]);
    ElementsTail(s.phase.todo);
    ElementsSnoc(s.phase.selected, s.phase.todo[0]);
  }

  lemma ApplyOnTrack(host: Host, env: Env, cfg: Config, s: State)
    requires ValidHost(host) && OnTrack(s) && s.phase.Applying?
    ensures OnTrack(Step(host, env, cfg, s))
  {
    var s' := Step(host, env, cfg, s);
    ProgressSnoc(s.log, s'.log[|s.log|]);
    if s.phase.todo != [] {
      ElementsTail(s.phase.todo);
    } else {
      assert Elements(s.phase.todo) == {};
    }
  }

  lemma FetchOnTrack(host: Host, env: Env, cfg: Config, s: State)
    requires ValidHost(host) && s.phase.Pulling?
    ensures OnTrack(Step(host, env, cfg, s))
  {
    var s' := Step(host, env, cfg, s);
    ProgressSnoc(s.log, s'.log[|s.log|]);
    if s'.phase.Comparing? {
      var keys := s'.phase.pulled.checksums.Keys;
      assert Enumerates(host.shuffle(|s.log|, keys), keys);
      assert Elements(host.shuffle(|s.log|, keys)) == keys;
      assert Elements<string>([]) == {};
    }
  }

  lemma StepEarns(host: Host, env: Env, cfg: Config, s: State)
    requires ValidHost(host) && OnTrack(s) && AllEarned(s.log)
    ensures AllEarned(Step(host, env, cfg, s).log)
  {
    var e := Step(host, env, cfg, s).log[|s.log|];
    EarnedSnoc(s.log, e);
  }

  /** Only the two write events touch the bookmark. */
  lemma StepLogs(host: Host, env: Env, cfg: Config, s: State) returns (e: Event)
    requires ValidTools(host.tools)
    ensures Step(host, env, cfg, s).log == s.log + [e]
    ensures Step(host, env, cfg, s).bookmark ==
            if e.Truncated? then Some("") else if e.Bookmarked? then Some(e.tag) else s.bookmark
  {
    e := Step(host, env, cfg, s).log[|s.log|];
  }

  lemma StepWrites(host: Host, env: Env, cfg: Config, start: Option<string>, s: State)
    requires ValidHost(host) && s.bookmark == FileAfter(start, s.log)
    ensures Step(host, env, cfg, s).bookmark == FileAfter(start, Step(host, env, cfg, s).log)
  {
    var e := StepLogs(host, env, cfg, s);
    FileSnoc(start, s.log, e);
  }

  lemma {:induction false} BehaviourOnTrack(
      host: Host, env: Env, cfg: Config, start: Option<string>, c: Cluster, choices: seq<Choice>)
    requires ValidHost(host)
    ensures var s := Behave(host, env, cfg, Initial(start, c), choices);
            OnTrack(s) && AllEarned(s.log) && s.bookmark == FileAfter(start, s.log)
  {
    if choices != [] {
      var n := |choices| - 1;
      var s := Behave(host, env, cfg, Initial(start, c), choices[..n]);
      BehaviourOnTrack(host, env, cfg, start, c, choices[..n]);
      if choices[n].Die? {
        ProgressSnoc(s.log, Crashed);
        EarnedSnoc(s.log, Crashed);
        FileSnoc(start, s.log, Crashed);
      } else {
        StepOnTrack(host, env, cfg, s);
        StepEarns(host, env, cfg, s);
        StepWrites(host, env, cfg, start, s);
      }
    }
  }

  /** Between `a` and the end of the log the cycle was not broken off. */
  ghost predicate Unbroken(log: seq<Event>, a: nat) {
    forall m :: a < m < |log| ==> Continues(log[m])
  }

  predicate Continues(e: Event) {
    e.Compared? || e.Chose? || e.Attempted? || e.Applied? || e.Truncated?
  }

  predicate Differing(e: Event, f: string) {
    e.Compared? && e.file == f && e.differs
  }

  predicate Attempting(e: Event, f: string) {
    e.Attempted? && e.file == f
  }

  ghost predicate ComparedSince(log: seq<Event>, a: nat, f: string) {
    exists m :: a < m < |log| && Differing(log[m], f)
  }

  ghost predicate AttemptedSince(log: seq<Event>, a: nat, f: string) {
    exists m :: a < m < |log| && Attempting(log[m], f)
  }

  /** One unbroken cycle: `a` fetched the tag, `c` chose what is due, and the files `attempted` were attempted since. */
  ghost predicate Witnessed(log: seq<Event>, tag: string, files: set<string>, attempted: set<string>, a: nat, c: nat) {
    && a < c < |log| && Unbroken(log, a)
    && log[a].Fetched? && log[a].tag == tag && log[c] == Chose(tag, files)
    && (log[a].isNew ==> files == log[a].files)
    && (!log[a].isNew ==> forall f :: f in files <==> ComparedSince(log[..c], a, f))
    && forall f :: f in attempted ==> AttemptedSince(log, c, f)
  }

  lemma {:induction false} GotWitness(log: seq<Event>) returns (a: nat)
    requires ProgressOf(log).Got?
    ensures a < |log| && Unbroken(log, a)
    ensures log[a] == Fetched(ProgressOf(log).tag, ProgressOf(log).isNew, ProgressOf(log).files)
    ensures forall f :: f in ProgressOf(log).differing <==> ComparedSince(log, a, f)
  {
    var n := |log| - 1;
    if log[n].Fetched? {
      a := n;
    } else {
      a := GotWitness(log[..n]);
      assert log == log[..n] + [log[n]];
      SinceSnoc(log[..n], log[n], a);
    }
  }

  lemma SinceSnoc(log: seq<Event>, e: Event, a: nat)
    requires a < |log|
    ensures forall f :: ComparedSince(log + [e], a, f) <==> ComparedSince(log, a, f) || Differing(e, f)
    ensures forall f :: AttemptedSince(log + [e], a, f) <==> AttemptedSince(log, a, f) || Attempting(e, f)
  {
    var log' := log + [e];
    forall f ensures ComparedSince(log', a, f) <==> ComparedSince(log, a, f) || Differing(e, f) {
      if ComparedSince(log, a, f) {
        var m :| a < m < |log| && Differing(log[m], f);
        assert Differing(log'[m], f);
      }
      if Differing(e, f) {
        assert Differing(log'[|log|], f);
      }
    }
    forall f ensures AttemptedSince(log', a, f) <==> AttemptedSince(log, a, f) || Attempting(e, f) {
      if AttemptedSince(log, a, f) {
        var m :| a < m < |log| && Attempting(log[m], f);
        assert Attempting(log'[m], f);
      }
      if Attempting(e, f) {
        assert Attempting(log'[|log|], f);
      }
    }
  }

  lemma {:induction false} DueWitness(log: seq<Event>) returns (a: nat, c: nat)
    requires ProgressOf(log).Due?
    ensures var p := ProgressOf(log); Witnessed(log, p.tag, p.files, p.attempted, a, c)
  {
    var n := |log| - 1;
    var p, e := ProgressOf(log), log[n];
    if e.Chose? {
      a := GotWitness(log[..n]);
      c := n;
    } else {
      a, c := DueWitness(log[..n]);
      assert log == log[..n] + [e] && log[..c] == log[..n][..c];
      SinceSnoc(log[..n], e, c);
    }
  }

  // ---- What is compared and applied was pulled ----

  /** The reference up to its first colon. */
  ghost predicate IsBase(imageBase: string, base: string) {
    ':' !in base && (imageBase == base || base + ":" <= imageBase)
  }

  lemma PullsAtBase(imageBase: string, base: string, tag: string)
    requires IsBase(imageBase, base)
    ensures PullRef(imageBase, tag) == base + ":" + tag
  {
    if imageBase == base {
      SplitWhole(base, ':');
    } else {
      var rest := imageBase[|base| + 1..];
      assert imageBase == base + [':'] + rest;
      SplitFirst(base, ':', rest);
    }
  }

  /** What the registry answered at time `t` for this tag. */
  ghost function AnswerAt(host: Host, base: string, tag: string, t: nat): Option<Extracted> {
    host.pull(t, base + ":" + tag)
  }

  /** The event at time `t` fetched the very tag it names, and its files are the ones that can be read and parsed. */
  ghost predicate FetchedAt(host: Host, base: string, e: Event, t: nat)
    requires e.Fetched?
  {
    && host.clients(t) && AnswerAt(host, base, e.tag, t).Some?
    && var x := AnswerAt(host, base, e.tag, t).value;
       e.files == set f | f in x.files && f !in x.unreadable && host.tools.parse(x.files[f]).Some?
  }

  /** A comparison or an application of what was fetched at time `a`, labelled for the artifact and the tag. */
  ghost predicate MadeFrom(host: Host, cfg: Config, base: string, fetched: Event, a: nat, e: Event)
    requires ValidTools(host.tools) && fetched.Fetched?
  {
    AnswerAt(host, base, fetched.tag, a).Some? &&
    var all := Label(host.tools, AnswerAt(host, base, fetched.tag, a).value, cfg.artifactName, fetched.tag);
    && (e.Compared? ==> e.checksum == Find(all.checksums, e.file))
    && (e.Attempted? ==> e.data == Find(all.files, e.file))
  }

  ghost predicate ContinuesTo(log: seq<Event>, a: nat, m: nat) {
    a < m < |log| && forall k :: a < k <= m ==> Continues(log[k])
  }

  ghost predicate AllSourced(host: Host, cfg: Config, base: string, log: seq<Event>)
    requires ValidTools(host.tools)
  {
    && (forall a :: 0 <= a < |log| && log[a].Fetched? ==> FetchedAt(host, base, log[a], a))
    && (forall a: nat, m: nat :: ContinuesTo(log, a, m) && log[a].Fetched? ==>
          MadeFrom(host, cfg, base, log[a], a, log[m]))
  }

  /** What the watcher holds is what it last fetched. */
  ghost predicate HoldsFetched(host: Host, cfg: Config, base: string, s: State)
    requires ValidTools(host.tools)
  {
    s.phase.Comparing? || s.phase.Applying? ==>
      forall a :: 0 <= a < |s.log| && s.log[a].Fetched? && Unbroken(s.log, a) ==>
        && AnswerAt(host, base, s.log[a].tag, a).Some?
        && s.phase.pulled
           == Label(host.tools, AnswerAt(host, base, s.log[a].tag, a).value, cfg.artifactName, s.log[a].tag)
  }

  lemma SourcedSnoc(host: Host, cfg: Config, base: string, log: seq<Event>, e: Event)
    requires ValidTools(host.tools) && AllSourced(host, cfg, base, log)
    requires e.Fetched? ==> FetchedAt(host, base, e, |log|)
    requires Continues(e) ==> forall a :: 0 <= a < |log| && log[a].Fetched? && Unbroken(log, a) ==>
               MadeFrom(host, cfg, base, log[a], a, e)
    ensures AllSourced(host, cfg, base, log + [e])
  {
    var log' := log + [e];
    forall a: nat, m: nat | ContinuesTo(log', a, m) && log'[a].Fetched?
      ensures MadeFrom(host, cfg, base, log'[a], a, log'[m])
    {
      assert forall k :: 0 <= k < |log| ==> log'[k] == log[k];
      if m < |log| {
        assert ContinuesTo(log, a, m);
      } else {
        assert Continues(log'[m]) && Unbroken(log, a);
      }
    }
  }

  lemma FetchIsSourced(host: Host, env: Env, cfg: Config, base: string, s: State)
    requires ValidHost(host) && IsBase(cfg.imageBase, base) && s.phase.Pulling?
    ensures var s' := Step(host, env, cfg, s);
            var e := s'.log[|s.log|];
            && HoldsFetched(host, cfg, base, s')
            && !Continues(e) && (e.Fetched? ==> FetchedAt(host, base, e, |s.log|))
  {
    var s' := Step(host, env, cfg, s);
    PullsAtBase(cfg.imageBase, base, s.phase.tag);
    assert s'.log[|s.log|].Fetched? || s'.phase.Idle?;
    assert forall a :: 0 <= a < |s.log| ==> !Unbroken(s'.log, a);
  }

  lemma WorkIsSourced(host: Host, env: Env, cfg: Config, base: string, s: State, a: nat)
    requires ValidHost(host) && HoldsFetched(host, cfg, base, s) && (s.phase.Comparing? || s.phase.Applying?)
    requires a < |s.log| && s.log[a].Fetched? && Unbroken(s.log, a)
    ensures MadeFrom(host, cfg, base, s.log[a], a, Step(host, env, cfg, s).log[|s.log|])
  {
  }

  lemma HoldingSnoc(host: Host, cfg: Config, base: string, s: State, s': State)
    requires ValidTools(host.tools) && HoldsFetched(host, cfg, base, s)
    requires |s'.log| == |s.log| + 1 && s'.log == s.log + [s'.log[|s.log|]] && !s'.log[|s.log|].Fetched?
    requires s'.phase.Comparing? || s'.phase.Applying? ==>
               (s.phase.Comparing? || s.phase.Applying?) && s'.phase.pulled == s.phase.pulled
    ensures HoldsFetched(host, cfg, base, s')
  {
    forall a | 0 <= a < |s'.log| && s'.log[a].Fetched? && Unbroken(s'.log, a)
      ensures a < |s.log| && Unbroken(s.log, a)
    {
      assert forall m :: 0 <= m < |s.log| ==> s'.log[m] == s.log[m];
    }
  }

  lemma StepIsSourced(host: Host, env: Env, cfg: Config, base: string, s: State)
    requires ValidHost(host) && IsBase(cfg.imageBase, base) && OnTrack(s)
    requires AllSourced(host, cfg, base, s.log) && HoldsFetched(host, cfg, base, s)
    ensures var s' := Step(host, env, cfg, s);
            AllSourced(host, cfg, base, s'.log) && HoldsFetched(host, cfg, base, s')
  {
    var s' := Step(host, env, cfg, s);
    var e := StepLogs(host, env, cfg, s);
    assert e == s'.log[|s.log|];
    match s.phase
    case Pulling(_, _) =>
      FetchIsSourced(host, env, cfg, base, s);
      SourcedSnoc(host, cfg, base, s.log, e);
    case _ =>
      forall a | 0 <= a < |s.log| && s.log[a].Fetched? && Unbroken(s.log, a) && Continues(e)
        ensures MadeFrom(host, cfg, base, s.log[a], a, e)
      {
        EventIsSourced(host, env, cfg, base, s, a);
      }
      SourcedSnoc(host, cfg, base, s.log, e);
      StepKeepsPulled(host, env, cfg, s);
      HoldingSnoc(host, cfg, base, s, s');
  }

  lemma EventIsSourced(host: Host, env: Env, cfg: Config, base: string, s: State, a: nat)
    requires ValidHost(host) && !s.phase.Pulling?
    requires AllSourced(host, cfg, base, s.log) && HoldsFetched(host, cfg, base, s)
    requires a < |s.log| && s.log[a].Fetched? && Unbroken(s.log, a)
    ensures MadeFrom(host, cfg, base, s.log[a], a, Step(host, env, cfg, s).log[|s.log|])
  {
    if s.phase.Comparing? || s.phase.Applying? {
      WorkIsSourced(host, env, cfg, base, s, a);
    } else {
      FetchedHasAnswer(host, cfg, base, s, a);
      assert !Step(host, env, cfg, s).log[|s.log|].Compared? && !Step(host, env, cfg, s).log[|s.log|].Attempted?;
    }
  }

  lemma FetchedHasAnswer(host: Host, cfg: Config, base: string, s: State, a: nat)
    requires ValidTools(host.tools) && AllSourced(host, cfg, base, s.log) && a < |s.log| && s.log[a].Fetched?
    ensures AnswerAt(host, base, s.log[a].tag, a).Some?
  {
  }

  lemma StepKeepsPulled(host: Host, env: Env, cfg: Config, s: State)
    requires ValidTools(host.tools) && !s.phase.Pulling?
    ensures var s' := Step(host, env, cfg, s);
            && !s'.log[|s.log|].Fetched?
            && (s'.phase.Comparing? || s'.phase.Applying? ==>
                  (s.phase.Comparing? || s.phase.Applying?) && s'.phase.pulled == s.phase.pulled)
  {
  }

  lemma {:induction false} BehaviourIsSourced(
      host: Host, env: Env, cfg: Config, base: string, start: Option<string>, c: Cluster, choices: seq<Choice>)
    requires ValidHost(host) && IsBase(cfg.imageBase, base)
    ensures var s := Behave(host, env, cfg, Initial(start, c), choices);
            AllSourced(host, cfg, base, s.log) && HoldsFetched(host, cfg, base, s)
  {
    if choices != [] {
      var n := |choices| - 1;
      var s := Behave(host, env, cfg, Initial(start, c), choices[..n]);
      BehaviourIsSourced(host, env, cfg, base, start, c, choices[..n]);
      if choices[n].Die? {
        SourcedSnoc(host, cfg, base, s.log, Crashed);
      } else {
        BehaviourOnTrack(host, env, cfg, start, c, choices[..n]);
        StepIsSourced(host, env, cfg, base, s);
      }
    }
  }

  /**
   Crash safety, over every behaviour with crashes between any two steps: each bookmark ever written was written by a
   cycle that pulled the reference with that very tag and, before writing, attempted every file due -- all files if the
   tag was new, exactly the differing ones otherwise -- without being broken off in between; and what it compared and
   applied was the answer to that pull, labelled for the artifact and the tag.  What the file holds is the last such
   tag, unless it is empty or as it was at the start.
   */
  lemma BookmarkIsEarned(
      host: Host, env: Env, cfg: Config, base: string, start: Option<string>, c: Cluster, choices: seq<Choice>)
    requires ValidHost(host) && IsBase(cfg.imageBase, base)
    ensures var s := Behave(host, env, cfg, Initial(start, c), choices);
            && (forall i :: 0 <= i < |s.log| && s.log[i].Bookmarked? ==> WrittenInTurn(host, cfg, base, s.log, i))
            && (s.bookmark in {start, Some("")} ||
                exists i :: 0 <= i < |s.log| && s.log[i].Bookmarked? && s.bookmark == Some(s.log[i].tag))
  {
    var s := Behave(host, env, cfg, Initial(start, c), choices);
    BehaviourOnTrack(host, env, cfg, start, c, choices);
    BehaviourIsSourced(host, env, cfg, base, start, c, choices);
    forall i | 0 <= i < |s.log| && s.log[i].Bookmarked? ensures WrittenInTurn(host, cfg, base, s.log, i) {
      EarnedInTurn(host, cfg, base, s.log, i);
    }
    BookmarkIsLast(host, env, cfg, start, c, choices);
  }

  lemma BookmarkIsLast(host: Host, env: Env, cfg: Config, start: Option<string>, c: Cluster, choices: seq<Choice>)
    requires ValidHost(host)
    ensures var s := Behave(host, env, cfg, Initial(start, c), choices);
            s.bookmark in {start, Some("")} ||
            exists i :: 0 <= i < |s.log| && s.log[i].Bookmarked? && s.bookmark == Some(s.log[i].tag)
  {
    var s := Behave(host, env, cfg, Initial(start, c), choices);
    BehaviourOnTrack(host, env, cfg, start, c, choices);
    if s.bookmark !in {start, Some("")} {
      var i := LastWrite(start, s.log);
    }
  }

  lemma EarnedInTurn(host: Host, cfg: Config, base: string, log: seq<Event>, i: nat)
    requires ValidTools(host.tools) && AllSourced(host, cfg, base, log)
    requires i < |log| && log[i].Bookmarked? && EarnedAt(log, i)
    ensures WrittenInTurn(host, cfg, base, log, i)
  {
    var before := log[..i];
    var a, ch := DueWitness(before);
    var files := ProgressOf(before).files;
    assert Witnessed(before, log[i].tag, files, files, a, ch);
    forall m | a < m < i ensures MadeFrom(host, cfg, base, log[a], a, log[m]) {
      assert forall k :: a < k <= m ==> log[k] == before[k] && Continues(before[k]);
      assert ContinuesTo(log, a, m);
    }
  }

  ghost predicate WrittenInTurn(host: Host, cfg: Config, base: string, log: seq<Event>, i: nat)
    requires ValidTools(host.tools) && i < |log| && log[i].Bookmarked?
  {
    exists a: nat, ch: nat, files: set<string> ::
      && Witnessed(log[..i], log[i].tag, files, files, a, ch)
      && FetchedAt(host, base, log[a], a)
      && forall m :: a < m < i ==> MadeFrom(host, cfg, base, log[a], a, log[m])
  }

  lemma {:induction false} LastWrite(start: Option<string>, log: seq<Event>) returns (i: nat)
    requires FileAfter(start, log) !in {start, Some("")}
    ensures i < |log| && log[i].Bookmarked? && FileAfter(start, log) == Some(log[i].tag)
  {
    var n := |log| - 1;
    if log[n].Bookmarked? {
      i := n;
    } else {
      i := LastWrite(start, log[..n]);
    }
  }
}
