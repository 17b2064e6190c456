/**
  The cache-update step of the file watcher (src/server.rs, `start_cache`),
  stated on values. The two caches are plain strings; a watched filesystem
  path is the sequence of its components, so that "ends with focus.json"
  compares whole components, as Rust's `Path::ends_with` does.

  The reads the watcher performs are I/O: their outcomes are inputs here,
  one per path of an event.
*/
module Watch {
  import opened Wrappers

  /** A filesystem path as its components, the root included: "/home/u/focus.json"
      is ["/", "home", "u", "focus.json"]. The path is already split and
      normalised: no component other than the root holds a separator. */
  type Path = seq<string>

  /** File names the watcher reacts to, and the content both caches start with. */
  const FocusFile: string := "focus.json"
  const NearestFile: string := "nearest.json"
  const Placeholder: string := "   []"

  /** `p.ends_with(name)` for a one-component `name`: the last component is
      `name`, that is, `[name]` is a suffix of the components of `p`. */
  predicate EndsWith(p: Path, name: string)
    ensures EndsWith(p, name) <==> exists q :: p == q + [name]
  {
    var last := |p| > 0 && p[|p| - 1] == name;
    assert last ==> p == p[..|p| - 1] + [name];
    last
  }

  /** The two in-memory caches of a server instance. */
  datatype Slot = Focus | Nearest
  datatype Caches = Caches(focus: string, nearest: string)

  function Get(c: Caches, s: Slot): string
  {
    match s
    case Focus => c.focus
    case Nearest => c.nearest
  }

  /** The file whose content feeds a cache. */
  function FileOf(s: Slot): string
  {
    match s
    case Focus => FocusFile
    case Nearest => NearestFile
  }

  /** The cache a path feeds, if any. */
  function SlotOf(p: Path): (r: Option<Slot>)
    ensures forall s :: r == Some(s) <==> EndsWith(p, FileOf(s))
  {
    if EndsWith(p, FocusFile) then Some(Focus)
    else if EndsWith(p, NearestFile) then Some(Nearest)
    else None
  }

  /** The outcome of reading one path of an event. */
  datatype ReadOutcome = Read(content: string) | ReadFailed

  /** A filesystem notification: whether its kind is "access", and the paths it names. */
  datatype Event = Event(isAccess: bool, paths: seq<Path>)

  /** What the watcher's channel delivers: an event with the outcomes of
      reading each of its paths, or a watch error. */
  datatype Message = Delivered(event: Event, outcomes: seq<ReadOutcome>) | WatchError

  predicate WellFormed(m: Message)
  {
    m.Delivered? ==> |m.outcomes| == |m.event.paths|
  }

  /** Reading `p` with outcome `r` overwrites cache `s`. */
  predicate Writes(p: Path, r: ReadOutcome, s: Slot)
  {
    r.Read? && SlotOf(p) == Some(s)
  }

  /** One iteration of the inner loop: a successful read replaces the cache
      chosen by the file name; anything else changes nothing. */
  function StorePath(c: Caches, p: Path, r: ReadOutcome): (c': Caches)
    ensures forall s :: Get(c', s) == if Writes(p, r, s) then r.content else Get(c, s)
  {
    match r
    case ReadFailed => c
    case Read(content) =>
      if EndsWith(p, FocusFile) then c.(focus := content)
      else if EndsWith(p, NearestFile) then c.(nearest := content)
      else c
  }

  /** Some path among `paths` whose read succeeded feeds cache `s` with `v`. */
  predicate ReadInto(paths: seq<Path>, outcomes: seq<ReadOutcome>, s: Slot, v: string)
    requires |outcomes| == |paths|
  {
    exists j :: 0 <= j < |paths| && Writes(paths[j], outcomes[j], s) && outcomes[j].content == v
  }

  /** Message `m` is an access event one of whose successful reads feeds cache `s` with `v`. */
  predicate Supplies(m: Message, s: Slot, v: string)
  {
    WellFormed(m) && m.Delivered? && m.event.isAccess && ReadInto(m.event.paths, m.outcomes, s, v)
  }

  /** A read feeding a cache from a prefix of the paths feeds it from all of them. */
  lemma ReadIntoPrefix(paths: seq<Path>, outcomes: seq<ReadOutcome>, n: nat)
    requires |outcomes| == |paths| && n <= |paths|
    ensures forall s, v :: ReadInto(paths[..n], outcomes[..n], s, v) ==> ReadInto(paths, outcomes, s, v)
  {
    forall s, v | ReadInto(paths[..n], outcomes[..n], s, v)
      ensures ReadInto(paths, outcomes, s, v)
    {
      var j :| 0 <= j < n && Writes(paths[..n][j], outcomes[..n][j], s) && outcomes[..n][j].content == v;
      assert paths[..n][j] == paths[j] && outcomes[..n][j] == outcomes[j];
    }
  }

  /** The inner loop over the paths of one event, in order. Each cache ends
      with its old value or with the content of a successful read of a path
      that feeds it; which one is fixed by `LastReadWins` and `UnwrittenCacheKept`. */
  function StorePaths(c: Caches, paths: seq<Path>, outcomes: seq<ReadOutcome>): (c': Caches)
    requires |outcomes| == |paths|
    ensures forall s :: Get(c', s) == Get(c, s) || ReadInto(paths, outcomes, s, Get(c', s))
    decreases |paths|
  {
    if paths == [] then c
    else
      var n := |paths| - 1;
      ReadIntoPrefix(paths, outcomes, n);
      StorePath(StorePaths(c, paths[..n], outcomes[..n]), paths[n], outcomes[n])
  }

  /** One event: only an "access" event has its paths read, so any other
      event leaves every cache as it was. */
  function HandleEvent(c: Caches, e: Event, outcomes: seq<ReadOutcome>): (c': Caches)
    requires |outcomes| == |e.paths|
    ensures forall s :: Get(c', s) == Get(c, s) || (e.isAccess && ReadInto(e.paths, outcomes, s, Get(c', s)))
  {
    if e.isAccess then StorePaths(c, e.paths, outcomes) else c
  }

  /** One iteration of the outer loop over the channel: a watch error changes
      nothing, and a delivered event changes a cache only through one of its reads. */
  function Receive(c: Caches, m: Message): (c': Caches)
    requires WellFormed(m)
    ensures m.WatchError? ==> c' == c
    ensures forall s :: Get(c', s) == Get(c, s) || Supplies(m, s, Get(c', s))
  {
    match m
    case WatchError => c
    case Delivered(e, outcomes) => HandleEvent(c, e, outcomes)
  }

  /** The outer loop over a finite prefix of what the channel delivers. Every
      cache ends with its old value or with content read in one of the messages:
      the watcher never makes up a value. */
  function ReceiveAll(c: Caches, ms: seq<Message>): (c': Caches)
    requires forall m <- ms :: WellFormed(m)
    ensures forall s :: Get(c', s) == Get(c, s) || exists i :: 0 <= i < |ms| && Supplies(ms[i], s, Get(c', s))
    decreases |ms|
  {
    if ms == [] then c
    else
      var n := |ms| - 1;
      assert forall i :: 0 <= i < n ==> ms[..n][i] == ms[i];
      Receive(ReceiveAll(c, ms[..n]), ms[n])
  }

  /** A freshly started watcher holds the placeholder in both caches. */
  function Initial(): (c: Caches)
    ensures forall s :: Get(c, s) == Placeholder
  {
    Caches(Placeholder, Placeholder)
  }

  /** A non-access event and a watch error leave both caches as they were. */
  lemma IgnoredMessagesKeepCaches(c: Caches, paths: seq<Path>, outcomes: seq<ReadOutcome>)
    requires |outcomes| == |paths|
    ensures Receive(c, Delivered(Event(false, paths), outcomes)) == c
    ensures Receive(c, WatchError) == c
  {
  }

  /** A successful read of a file named focus.json sets the focus cache to
      exactly what was read and leaves the nearest cache alone; likewise
      for nearest.json. A failed read, or any other file name, changes nothing. */
  lemma StorePathCases(c: Caches, p: Path, r: ReadOutcome)
    ensures r.Read? && EndsWith(p, FocusFile) ==> StorePath(c, p, r) == Caches(r.content, c.nearest)
    ensures r.Read? && EndsWith(p, NearestFile) ==> StorePath(c, p, r) == Caches(c.focus, r.content)
    ensures r.ReadFailed? || SlotOf(p).None? ==> StorePath(c, p, r) == c
  {
    if r.Read? && EndsWith(p, NearestFile) {
      assert !EndsWith(p, FocusFile);
    }
  }

  /** Matching is by whole component: "myfocus.json" is not "focus.json". */
  lemma WholeComponentMatch()
    ensures SlotOf(["/", "home", "u", "focus.json"]) == Some(Focus)
    ensures SlotOf(["/", "home", "u", "myfocus.json"]) == None
    ensures SlotOf(["/", "home", "u", "focus.json.bak"]) == None
    ensures SlotOf([]) == None
  {
    assert |"myfocus.json"| != |FocusFile| && "myfocus.json"[0] != NearestFile[0];
    assert |"focus.json.bak"| != |FocusFile| && "focus.json.bak"[0] != NearestFile[0];
  }

  /** When several paths of one event feed the same cache, the last one
      that was read successfully decides its final value. */
  lemma {:induction false} LastReadWins(c: Caches, paths: seq<Path>, outcomes: seq<ReadOutcome>, s: Slot, i: nat)
    requires |outcomes| == |paths|
    requires i < |paths| && Writes(paths[i], outcomes[i], s)
    requires forall j :: i < j < |paths| ==> !Writes(paths[j], outcomes[j], s)
    ensures Get(StorePaths(c, paths, outcomes), s) == outcomes[i].content
    decreases |paths|
  {
    var n := |paths| - 1;
    var ps, rs := paths[..n], outcomes[..n];
    var prev := StorePaths(c, ps, rs);
    assert StorePaths(c, paths, outcomes) == StorePath(prev, paths[n], outcomes[n]);
    if i < n {
      assert !Writes(paths[n], outcomes[n], s);
      assert ps[i] == paths[i] && rs[i] == outcomes[i];
      assert forall j :: i < j < |ps| ==> ps[j] == paths[j] && rs[j] == outcomes[j];
      LastReadWins(c, ps, rs, s, i);
    }
  }

  /** A cache that no path of the event writes keeps its value. */
  lemma {:induction false} UnwrittenCacheKept(c: Caches, paths: seq<Path>, outcomes: seq<ReadOutcome>, s: Slot)
    requires |outcomes| == |paths|
    requires forall j :: 0 <= j < |paths| ==> !Writes(paths[j], outcomes[j], s)
    ensures Get(StorePaths(c, paths, outcomes), s) == Get(c, s)
    decreases |paths|
  {
    if paths != [] {
      var n := |paths| - 1;
      var ps, rs := paths[..n], outcomes[..n];
      assert forall j :: 0 <= j < |ps| ==> ps[j] == paths[j] && rs[j] == outcomes[j];
      UnwrittenCacheKept(c, ps, rs, s);
    }
  }

  /** Paths are processed in order: handling a concatenation of paths is
      handling the first part, then the second. */
  lemma {:induction false} StorePathsAppend(c: Caches, p1: seq<Path>, r1: seq<ReadOutcome>, p2: seq<Path>, r2: seq<ReadOutcome>)
    requires |r1| == |p1| && |r2| == |p2|
    ensures StorePaths(c, p1 + p2, r1 + r2) == StorePaths(StorePaths(c, p1, r1), p2, r2)
    decreases |p2|
  {
    if p2 == [] {
      assert p1 + p2 == p1 && r1 + r2 == r1;
    } else {
      var n := |p2| - 1;
      assert (p1 + p2)[..|p1| + n] == p1 + p2[..n];
      assert (r1 + r2)[..|r1| + n] == r1 + r2[..n];
      StorePathsAppend(c, p1, r1, p2[..n], r2[..n]);
    }
  }

  /** Messages are processed in order: a longer run of the watcher
      continues from where a shorter one stopped. */
  lemma {:induction false} ReceiveAllAppend(c: Caches, m1: seq<Message>, m2: seq<Message>)
    requires forall m <- m1 :: WellFormed(m)
    requires forall m <- m2 :: WellFormed(m)
    ensures forall m <- m1 + m2 :: WellFormed(m)
    ensures ReceiveAll(c, m1 + m2) == ReceiveAll(ReceiveAll(c, m1), m2)
    decreases |m2|
  {
    if m2 == [] {
      assert m1 + m2 == m1;
    } else {
      var n := |m2| - 1;
      assert (m1 + m2)[..|m1| + n] == m1 + m2[..n];
      ReceiveAllAppend(c, m1, m2[..n]);
    }
  }
}
