/** The bounded history scan: what "complete within the configured bounds" is worth. */
module GitHistory {
  import opened Common
  import opened Bytes

  /** A record of a tree listing, as the scan classifies it. */
  datatype Entry =
    | Malformed
    | Symlink
    | Unsupported
    | UnsafePath
    | Blob(oid: Name, path: Name, redacted: bool)

  /** Git ran, or the scan was stopped by an error that aborts it. */
  datatype Ran<+T> = Aborted | Output(value: T)

  datatype Listing = Listing(failed: bool, overflow: bool, entries: seq<Entry>)

  datatype Content = Content(failed: bool, overflow: bool, bytes: seq<Byte>)

  /** The repository as git shows it, and the credential patterns. */
  datatype Repository = Repository(
    tree: Name -> Ran<Listing>,
    blob: (Name, nat) -> Ran<Content>,
    patterns: seq<Name>,
    find: (seq<Byte>, Name) -> seq<Name>)

  datatype Limits = Limits(maxCommits: nat, maxFiles: nat, maxBlobBytes: nat, maxTotalBytes: nat, maxMatches: nat)

  datatype Reason =
    | CommitOutput
    | Commits
    | TreeErrors
    | TreeOutput
    | Files
    | InvalidTreeRecords
    | SymlinkEntries
    | UnsupportedEntries
    | UnsafePaths
    | RedactedPaths
    | TotalBytes
    | BlobBytes
    | BlobErrors
    | Matches

  /** One recorded occurrence: fingerprint, path, commit and pattern. */
  datatype Key = Key(fingerprint: Name, path: Name, commit: Name, pattern: Name)

  datatype Progress = Progress(
    occurrences: seq<Key>,
    seen: set<Key>,
    truncated: set<Reason>,
    files: nat,
    blobs: nat,
    bytes: nat,
    stop: bool)

  datatype Status = InsufficientEvidence | ExposureObserved | NoSupportedMatch

  datatype Report = Report(progress: Progress, commits: seq<Name>, complete: bool, status: Status)

  // ---------------------------------------------------------------- what there is to find

  /** Git shows at most what was asked for, and an output that neither failed nor overflowed is the whole blob. */
  ghost predicate Faithful(git: Repository, content: Name -> seq<Byte>) {
    forall oid, limit :: git.blob(oid, limit).Output? ==>
      var out := git.blob(oid, limit).value;
      |out.bytes| <= limit && (!out.failed && !out.overflow ==> out.bytes == content(oid))
  }

  ghost predicate InBlob(git: Repository, content: Name -> seq<Byte>, commit: Name, e: Entry, key: Key) {
    && e.Blob? && key.commit == commit && key.path == e.path
    && key.pattern in git.patterns && key.fingerprint in git.find(content(e.oid), key.pattern)
  }

  ghost predicate InEntries(git: Repository, content: Name -> seq<Byte>, commit: Name, entries: seq<Entry>, key: Key) {
    exists e :: e in entries && InBlob(git, content, commit, e, key)
  }

  /** The key is a match in some tree entry of some commit. */
  ghost predicate InHistory(git: Repository, content: Name -> seq<Byte>, commits: seq<Name>, key: Key) {
    exists commit :: commit in commits && git.tree(commit).Output?
      && InEntries(git, content, commit, git.tree(commit).value.entries, key)
  }

  // ---------------------------------------------------------------- what the scan keeps

  ghost predicate Bounded(p: Progress, limits: Limits) {
    && p.files <= limits.maxFiles && p.bytes <= limits.maxTotalBytes && |p.occurrences| <= limits.maxMatches
    && Distinct(p.occurrences)
    && (forall key :: key in p.occurrences <==> key in p.seen)
  }

  /** A tree entry of a commit, and how much of its blob was asked for, if it was. */
  datatype Place = Place(commit: Name, entry: Entry)
  datatype Visit = Visit(place: Place, limit: Option<nat>)

  /** The visit asked git for a blob and got an output. */
  predicate Fetched(git: Repository, v: Visit) {
    v.limit.Some? && v.place.entry.Blob? && git.blob(v.place.entry.oid, v.limit.value).Output?
  }

  function OutputAt(git: Repository, v: Visit): Content
    requires Fetched(git, v)
  {
    git.blob(v.place.entry.oid, v.limit.value).value
  }

  predicate Overflowed(git: Repository, v: Visit) {
    Fetched(git, v) && OutputAt(git, v).overflow
  }

  predicate Failed(git: Repository, v: Visit) {
    Fetched(git, v) && OutputAt(git, v).failed && !OutputAt(git, v).overflow
  }

  /** The bytes that the visits got, and the blobs that they asked for. */
  function Size(git: Repository, vs: seq<Visit>): nat {
    if vs == [] then 0
    else
      var last := vs[|vs| - 1];
      Size(git, vs[..|vs| - 1]) + if Fetched(git, last) then |OutputAt(git, last).bytes| else 0
  }

  function Requests(vs: seq<Visit>): nat {
    if vs == [] then 0 else Requests(vs[..|vs| - 1]) + if vs[|vs| - 1].limit.Some? then 1 else 0
  }

  /** How much of the next blob there is room for. */
  function RoomFor(limits: Limits, spent: nat): nat
    requires spent < limits.maxTotalBytes
  {
    if limits.maxBlobBytes < limits.maxTotalBytes - spent then limits.maxBlobBytes else limits.maxTotalBytes - spent
  }

  /** The i-th visit asks for as much as its predecessors left room for. */
  ghost predicate AsksForRoom(git: Repository, limits: Limits, vs: seq<Visit>, i: nat)
    requires i < |vs|
  {
    vs[i].limit.Some? ==>
      && vs[i].place.entry.Blob?
      && Size(git, vs[..i]) < limits.maxTotalBytes
      && var limit, left := vs[i].limit.value, limits.maxTotalBytes - Size(git, vs[..i]);
         limit <= limits.maxBlobBytes && limit <= left && (limit == limits.maxBlobBytes || limit == left)
  }

  /** The key is a match in the output of this visit, which git did not report as failed. */
  ghost predicate ShownAt(git: Repository, v: Visit, key: Key) {
    && Fetched(git, v) && !Failed(git, v)
    && Shows(git, |git.patterns|, OutputAt(git, v).bytes, v.place.entry.path, v.place.commit, key)
  }

  ghost predicate ShownBy(git: Repository, vs: seq<Visit>, key: Key) {
    exists v :: v in vs && ShownAt(git, v, key)
  }

  // The account of a scan: what its counters, keys and reasons say about the visits it made.

  ghost predicate Counted(git: Repository, limits: Limits, vs: seq<Visit>, p: Progress) {
    && p.files == |vs| && p.blobs == Requests(vs) && p.bytes == Size(git, vs)
    && forall i :: 0 <= i < |vs| ==> AsksForRoom(git, limits, vs, i)
  }

  /** Unless the scan was stopped, every blob was fetched and every match in an output is recorded; nothing else is. */
  ghost predicate Found(git: Repository, vs: seq<Visit>, p: Progress) {
    && (forall key :: key in p.seen ==> ShownBy(git, vs, key))
    && (!p.stop ==> forall key :: ShownBy(git, vs, key) ==> key in p.seen)
    && (!p.stop ==> forall v :: v in vs && v.place.entry.Blob? ==> Fetched(git, v))
  }

  /** The visit cuts coverage for this reason. */
  predicate Cuts(git: Repository, v: Visit, why: Reason) {
    match why
    case InvalidTreeRecords => v.place.entry.Malformed?
    case SymlinkEntries => v.place.entry.Symlink?
    case UnsupportedEntries => v.place.entry.Unsupported?
    case UnsafePaths => v.place.entry.UnsafePath?
    case RedactedPaths => v.place.entry.Blob? && v.place.entry.redacted
    case BlobBytes => Overflowed(git, v)
    case BlobErrors => Failed(git, v)
    case _ => false
  }

  /** The reasons that are not about single visits: what git lists, and the three bounds. */
  predicate OfListing(why: Reason) {
    why == CommitOutput || why == Commits || why == TreeErrors || why == TreeOutput
  }

  predicate OfBounds(why: Reason) {
    why == Files || why == TotalBytes || why == Matches
  }

  /** Coverage is reported as cut for exactly the reasons that some visit gives. */
  ghost predicate Caused(git: Repository, vs: seq<Visit>, p: Progress) {
    forall why :: !OfListing(why) && !OfBounds(why) ==>
      (why in p.truncated <==> exists v :: v in vs && Cuts(git, v, why))
  }

  /** The scan stops exactly at one of its three bounds, reached. */
  ghost predicate StoppedAt(limits: Limits, p: Progress) {
    && (p.stop <==> Files in p.truncated || TotalBytes in p.truncated || Matches in p.truncated)
    && (Files in p.truncated ==> p.files == limits.maxFiles)
    && (TotalBytes in p.truncated ==> p.bytes == limits.maxTotalBytes)
    && (Matches in p.truncated ==> |p.occurrences| == limits.maxMatches)
  }

  ghost predicate Account(git: Repository, limits: Limits, vs: seq<Visit>, p: Progress) {
    && Bounded(p, limits)
    && Counted(git, limits, vs, p)
    && Found(git, vs, p)
    && Caused(git, vs, p)
    && StoppedAt(limits, p)
  }

  /** What was cut before the entries of a tree were read stays as it was. */
  ghost predicate SameTreeReasons(p: Progress, q: Progress) {
    forall why :: OfListing(why) ==> (why in p.truncated <==> why in q.truncated)
  }

  // ---------------------------------------------------------------- one blob

  /** The matches of one pattern in one output. */
  method ScanMatches(limits: Limits, found: seq<Name>, path: Name, commit: Name, pattern: Name, p: Progress)
    returns (q: Progress)
    requires Bounded(p, limits) && !p.stop
    ensures Bounded(q, limits)
    ensures q == p.(occurrences := q.occurrences, seen := q.seen, truncated := q.truncated, stop := q.stop)
    ensures q.truncated == if q.stop then p.truncated + {Matches} else p.truncated
    ensures q.stop ==> |q.occurrences| == limits.maxMatches
    ensures p.seen <= q.seen <= p.seen + Keys(found, path, commit, pattern)
    ensures !q.stop ==> q.seen == p.seen + Keys(found, path, commit, pattern)
  {
    q := p;
    for i := 0 to |found|
      invariant Bounded(q, limits)
      invariant q == p.(occurrences := q.occurrences, seen := q.seen)
      invariant q.seen == p.seen + Keys(found[..i], path, commit, pattern)
    {
      KeysGrow(found, i, path, commit, pattern);
      if |q.occurrences| >= limits.maxMatches {
        q := q.(truncated := q.truncated + {Matches}, stop := true);
        return;
      }
      var key := Key(found[i], path, commit, pattern);
      if key !in q.seen {
        q := q.(seen := q.seen + {key}, occurrences := q.occurrences + [key]);
      }
    }
    assert found[..|found|] == found;
  }

  function Keys(found: seq<Name>, path: Name, commit: Name, pattern: Name): set<Key> {
    set f | f in found :: Key(f, path, commit, pattern)
  }

  lemma KeysGrow(found: seq<Name>, i: nat, path: Name, commit: Name, pattern: Name)
    requires i < |found|
    ensures Keys(found[..i + 1], path, commit, pattern)
         == Keys(found[..i], path, commit, pattern) + {Key(found[i], path, commit, pattern)}
    ensures Keys(found[..i], path, commit, pattern) <= Keys(found, path, commit, pattern)
  {
    assert found[..i + 1] == found[..i] + [found[i]];
  }

  /** The keys that an output of a blob shows, for the first n patterns. */
  ghost predicate Shows(git: Repository, n: nat, bytes: seq<Byte>, path: Name, commit: Name, key: Key)
    requires n <= |git.patterns|
  {
    && key.commit == commit && key.path == path
    && key.pattern in git.patterns[..n] && key.fingerprint in git.find(bytes, key.pattern)
  }

  /** The matches of every pattern in one output. */
  method ScanPatterns(git: Repository, limits: Limits, bytes: seq<Byte>, path: Name, commit: Name, p: Progress)
    returns (q: Progress)
    requires Bounded(p, limits) && !p.stop
    ensures Bounded(q, limits)
    ensures q == p.(occurrences := q.occurrences, seen := q.seen, truncated := q.truncated, stop := q.stop)
    ensures q.truncated == if q.stop then p.truncated + {Matches} else p.truncated
    ensures q.stop ==> |q.occurrences| == limits.maxMatches
    ensures p.seen <= q.seen
    ensures forall key :: key in q.seen ==> key in p.seen || Shows(git, |git.patterns|, bytes, path, commit, key)
    ensures !q.stop ==> forall key :: Shows(git, |git.patterns|, bytes, path, commit, key) ==> key in q.seen
  {
    q := p;
    for i := 0 to |git.patterns|
      invariant Bounded(q, limits)
      invariant q == p.(occurrences := q.occurrences, seen := q.seen)
      invariant forall key :: key in q.seen <==> key in p.seen || Shows(git, i, bytes, path, commit, key)
    {
      q := ScanMatches(limits, git.find(bytes, git.patterns[i]), path, commit, git.patterns[i], q);
      ShowsMore(git, i, bytes, path, commit);
      if q.stop {
        ShowsAll(git, i + 1, bytes, path, commit);
        return;
      }
    }
    assert git.patterns[..|git.patterns|] == git.patterns;
  }

  lemma ShowsMore(git: Repository, i: nat, bytes: seq<Byte>, path: Name, commit: Name)
    requires i < |git.patterns|
    ensures forall key :: Shows(git, i + 1, bytes, path, commit, key) <==>
      || Shows(git, i, bytes, path, commit, key)
      || key in Keys(git.find(bytes, git.patterns[i]), path, commit, git.patterns[i])
  {
    assert git.patterns[..i + 1] == git.patterns[..i] + [git.patterns[i]];
  }

  lemma ShowsAll(git: Repository, n: nat, bytes: seq<Byte>, path: Name, commit: Name)
    requires n <= |git.patterns|
    ensures forall key :: Shows(git, n, bytes, path, commit, key) ==>
      Shows(git, |git.patterns|, bytes, path, commit, key)
  {
    assert git.patterns == git.patterns[..n] + git.patterns[n..];
    assert git.patterns[..|git.patterns|] == git.patterns;
  }

  // ---------------------------------------------------------------- one tree entry

  function Skip(p: Progress, why: Reason): Progress {
    p.(truncated := p.truncated + {why})
  }

  function Stop(p: Progress, why: Reason): Progress {
    p.(truncated := p.truncated + {why}, stop := true)
  }

  lemma CountedAppends(git: Repository, limits: Limits, vs: seq<Visit>, v: Visit, p: Progress, q: Progress)
    requires Counted(git, limits, vs, p)
    requires v.limit.Some? ==>
      v.place.entry.Blob? && p.bytes < limits.maxTotalBytes && v.limit.value == RoomFor(limits, p.bytes)
    requires q.files == p.files + 1 && q.blobs == p.blobs + (if v.limit.Some? then 1 else 0)
    requires q.bytes == p.bytes + if Fetched(git, v) then |OutputAt(git, v).bytes| else 0
    ensures Counted(git, limits, vs + [v], q)
  {
    hide Fetched, OutputAt;
    var ws := vs + [v];
    assert ws[..|vs|] == vs && ws[|ws| - 1] == v;
    forall i | 0 <= i < |ws| ensures AsksForRoom(git, limits, ws, i) {
      if i < |vs| {
        assert AsksForRoom(git, limits, vs, i) && ws[i] == vs[i] && ws[..i] == vs[..i];
      }
    }
  }

  lemma FoundAppends(git: Repository, vs: seq<Visit>, v: Visit, p: Progress, q: Progress)
    requires Found(git, vs, p) && !p.stop && p.seen <= q.seen
    requires forall key :: key in q.seen ==> key in p.seen || ShownAt(git, v, key)
    requires !q.stop ==> forall key :: ShownAt(git, v, key) ==> key in q.seen
    requires !q.stop && v.place.entry.Blob? ==> Fetched(git, v)
    ensures Found(git, vs + [v], q)
  {
    hide ShownAt, Fetched;
    var ws := vs + [v];
    assert forall x :: x in ws <==> x in vs || x == v;
    forall key ensures ShownBy(git, ws, key) <==> ShownBy(git, vs, key) || ShownAt(git, v, key) {
      assert v in ws;
      if x :| x in vs && ShownAt(git, x, key) {
        assert x in ws;
      }
    }
  }

  lemma CausedAppends(git: Repository, vs: seq<Visit>, v: Visit, p: Progress, q: Progress)
    requires Caused(git, vs, p)
    requires forall why :: !OfListing(why) && !OfBounds(why) ==>
      (why in q.truncated <==> why in p.truncated || Cuts(git, v, why))
    ensures Caused(git, vs + [v], q)
  {
    hide Cuts, OfListing, OfBounds;
    var ws := vs + [v];
    assert v in ws && forall x :: x in vs ==> x in ws;
    assert forall x :: x in ws <==> x in vs || x == v;
  }

  /** A visit that asks for nothing adds itself to the count and its kind to the reasons. */
  lemma VisitWithoutRequest(git: Repository, limits: Limits, vs: seq<Visit>, p: Progress, place: Place, q: Progress)
    requires Account(git, limits, vs, p) && !p.stop && p.files < limits.maxFiles && !place.entry.Blob?
    requires q == p.(files := p.files + 1, truncated := p.truncated + {
      match place.entry
      case Malformed => InvalidTreeRecords
      case Symlink => SymlinkEntries
      case Unsupported => UnsupportedEntries
      case UnsafePath => UnsafePaths
      case Blob(_, _, _) => RedactedPaths})
    ensures Account(git, limits, vs + [Visit(place, None)], q)
  {
    var v := Visit(place, None);
    hide Counted, Found, Caused;
    CountedAppends(git, limits, vs, v, p, q);
    FoundAppends(git, vs, v, p, q);
    CausedAppends(git, vs, v, p, q);
  }

  /** The total is used up before the blob could be asked for. */
  lemma VisitOutOfBytes(git: Repository, limits: Limits, vs: seq<Visit>, p: Progress, place: Place, q: Progress)
    requires Account(git, limits, vs, p) && !p.stop && p.files < limits.maxFiles && place.entry.Blob?
    requires p.bytes >= limits.maxTotalBytes
    requires q == p.(files := p.files + 1, stop := true,
      truncated := p.truncated + (if place.entry.redacted then {RedactedPaths} else {}) + {TotalBytes})
    ensures Account(git, limits, vs + [Visit(place, None)], q)
  {
    var v := Visit(place, None);
    hide Counted, Found, Caused;
    CountedAppends(git, limits, vs, v, p, q);
    FoundAppends(git, vs, v, p, q);
    CausedAppends(git, vs, v, p, q);
  }

  /** The progress once a blob's output is counted, before it is searched. */
  function AfterOutput(p: Progress, e: Entry, out: Content): Progress
    requires e.Blob?
  {
    p.(files := p.files + 1, blobs := p.blobs + 1, bytes := p.bytes + |out.bytes|,
       truncated := p.truncated
         + (if e.redacted then {RedactedPaths} else {})
         + (if out.overflow then {BlobBytes} else if out.failed then {BlobErrors} else {}))
  }

  /** A fetched output that was searched, or that failed. */
  lemma VisitFetched(
    git: Repository, limits: Limits, vs: seq<Visit>, p: Progress, place: Place, out: Content, q: Progress)
    requires Account(git, limits, vs, p) && !p.stop && p.files < limits.maxFiles && place.entry.Blob?
    requires p.bytes < limits.maxTotalBytes && |out.bytes| <= RoomFor(limits, p.bytes)
    requires git.blob(place.entry.oid, RoomFor(limits, p.bytes)) == Output(out)
    requires Bounded(q, limits) && p.seen <= q.seen
    requires
      var counted := AfterOutput(p, place.entry, out);
      && q == counted.(occurrences := q.occurrences, seen := q.seen, truncated := q.truncated, stop := q.stop)
      && q.truncated == (if q.stop then counted.truncated + {Matches} else counted.truncated)
      && (q.stop ==> |q.occurrences| == limits.maxMatches)
    requires out.failed && !out.overflow ==> q.seen == p.seen && !q.stop
    requires !(out.failed && !out.overflow) ==>
      && (forall key :: key in q.seen ==>
            key in p.seen || Shows(git, |git.patterns|, out.bytes, place.entry.path, place.commit, key))
      && (!q.stop ==> forall key ::
            Shows(git, |git.patterns|, out.bytes, place.entry.path, place.commit, key) ==> key in q.seen)
    ensures Account(git, limits, vs + [Visit(place, Some(RoomFor(limits, p.bytes)))], q)
  {
    var v := Visit(place, Some(RoomFor(limits, p.bytes)));
    hide Counted, Found, Caused, Shows, Cuts, OfListing, OfBounds, Bounded, StoppedAt, AfterOutput;
    AfterOutputFacts(git, limits, v, p, out, q);
    CountedAppends(git, limits, vs, v, p, q);
    FoundAppends(git, vs, v, p, q);
    CausedAppends(git, vs, v, p, q);
  }

  lemma AfterOutputFacts(git: Repository, limits: Limits, v: Visit, p: Progress, out: Content, q: Progress)
    requires v.place.entry.Blob? && Fetched(git, v) && OutputAt(git, v) == out && StoppedAt(limits, p) && !p.stop
    requires
      var counted := AfterOutput(p, v.place.entry, out);
      && q == counted.(occurrences := q.occurrences, seen := q.seen, truncated := q.truncated, stop := q.stop)
      && q.truncated == (if q.stop then counted.truncated + {Matches} else counted.truncated)
      && (q.stop ==> |q.occurrences| == limits.maxMatches)
    ensures q.files == p.files + 1 && q.blobs == p.blobs + 1 && q.bytes == p.bytes + |out.bytes|
    ensures forall why :: !OfListing(why) && !OfBounds(why) ==>
      (why in q.truncated <==> why in p.truncated || Cuts(git, v, why))
    ensures StoppedAt(limits, q)
  {
  }

  lemma StopAtFiles(git: Repository, limits: Limits, vs: seq<Visit>, p: Progress)
    requires Account(git, limits, vs, p) && p.files >= limits.maxFiles
    ensures Account(git, limits, vs, Stop(p, Files))
  {
    hide ShownBy, Fetched, Cuts;
  }

  /**
   One entry, visited or, at the file bound, not. Every visit is accounted for; a scan that git aborts was asking for
   as much of a blob as there was room for.
   */
  method ScanEntry(
    git: Repository, ghost content: Name -> seq<Byte>, limits: Limits, place: Place, ghost vs: seq<Visit>, p: Progress)
    returns (r: Ran<Progress>, ghost ws: seq<Visit>)
    requires Faithful(git, content) && Account(git, limits, vs, p) && !p.stop
    ensures ws == vs || (|ws| == |vs| + 1 && ws[..|vs|] == vs && ws[|vs|].place == place)
    ensures r.Output? ==> Account(git, limits, ws, r.value) && SameTreeReasons(p, r.value)
    ensures r.Output? ==> (ws == vs <==> Files in r.value.truncated)
    ensures r.Aborted? ==> AbortedAt(git, limits, ws)
  {
    hide Faithful, Counted, Found, Caused, Size, Shows, AsksForRoom;
    ws := vs;
    if p.files >= limits.maxFiles {
      StopAtFiles(git, limits, vs, p);
      return Output(Stop(p, Files)), ws;
    }
    ws := vs + [Visit(place, None)];
    var q := p.(files := p.files + 1);
    match place.entry {
      case Malformed =>
        VisitWithoutRequest(git, limits, vs, p, place, Skip(q, InvalidTreeRecords));
        return Output(Skip(q, InvalidTreeRecords)), ws;
      case Symlink =>
        VisitWithoutRequest(git, limits, vs, p, place, Skip(q, SymlinkEntries));
        return Output(Skip(q, SymlinkEntries)), ws;
      case Unsupported =>
        VisitWithoutRequest(git, limits, vs, p, place, Skip(q, UnsupportedEntries));
        return Output(Skip(q, UnsupportedEntries)), ws;
      case UnsafePath =>
        VisitWithoutRequest(git, limits, vs, p, place, Skip(q, UnsafePaths));
        return Output(Skip(q, UnsafePaths)), ws;
      case Blob(_, _, _) =>
        r, ws := ScanBlob(git, content, limits, place, vs, p);
    }
  }

  /** A blob that counts as the next file: fetched if there is room, and searched unless git failed. */
  method ScanBlob(
    git: Repository, ghost content: Name -> seq<Byte>, limits: Limits, place: Place, ghost vs: seq<Visit>, p: Progress)
    returns (r: Ran<Progress>, ghost ws: seq<Visit>)
    requires Faithful(git, content) && Account(git, limits, vs, p) && !p.stop
    requires p.files < limits.maxFiles && place.entry.Blob?
    ensures |ws| == |vs| + 1 && ws[..|vs|] == vs && ws[|vs|].place == place
    ensures r.Output? ==> Account(git, limits, ws, r.value) && SameTreeReasons(p, r.value)
    ensures r.Output? ==> Files !in r.value.truncated
    ensures r.Aborted? ==> AbortedAt(git, limits, ws)
  {
    hide Faithful, Counted, Found, Caused, Size, Shows, AsksForRoom;
    ws := vs + [Visit(place, None)];
    var q := p.(files := p.files + 1);
    var oid, path := place.entry.oid, place.entry.path;
    if place.entry.redacted {
      q := Skip(q, RedactedPaths);
    }
    if q.bytes >= limits.maxTotalBytes {
      VisitOutOfBytes(git, limits, vs, p, place, Stop(q, TotalBytes));
      return Output(Stop(q, TotalBytes)), ws;
    }
    var remaining := limits.maxTotalBytes - q.bytes;
    var limit := if limits.maxBlobBytes < remaining then limits.maxBlobBytes else remaining;
    ws := vs + [Visit(place, Some(limit))];
    AsksNext(git, limits, vs, p, place);
    var ran := git.blob(oid, limit);
    if ran.Aborted? {
      return Aborted, ws;
    }
    var out := ran.value;
    OutputFits(git, content, oid, limit);
    q := q.(blobs := q.blobs + 1, bytes := q.bytes + |out.bytes|);
    if out.overflow {
      q := Skip(q, BlobBytes);
    } else if out.failed {
      VisitFetched(git, limits, vs, p, place, out, Skip(q, BlobErrors));
      return Output(Skip(q, BlobErrors)), ws;
    }
    q := ScanPatterns(git, limits, out.bytes, path, place.commit, q);
    VisitFetched(git, limits, vs, p, place, out, q);
    return Output(q), ws;
  }

  /** The last visit asked for as much of its blob as there was room for, and git aborted. */
  ghost predicate AbortedAt(git: Repository, limits: Limits, vs: seq<Visit>) {
    && vs != []
    && (forall i :: 0 <= i < |vs| ==> AsksForRoom(git, limits, vs, i))
    && var last := vs[|vs| - 1];
       last.limit.Some? && last.place.entry.Blob? && git.blob(last.place.entry.oid, last.limit.value).Aborted?
  }

  lemma AsksNext(git: Repository, limits: Limits, vs: seq<Visit>, p: Progress, place: Place)
    requires Counted(git, limits, vs, p) && p.bytes < limits.maxTotalBytes && place.entry.Blob?
    ensures
      var ws := vs + [Visit(place, Some(RoomFor(limits, p.bytes)))];
      forall i :: 0 <= i < |ws| ==> AsksForRoom(git, limits, ws, i)
  {
    var v := Visit(place, Some(RoomFor(limits, p.bytes)));
    CountedAppends(git, limits, vs, v, p,
      p.(files := p.files + 1, blobs := p.blobs + 1,
         bytes := p.bytes + if Fetched(git, v) then |OutputAt(git, v).bytes| else 0));
  }

  lemma OutputFits(git: Repository, content: Name -> seq<Byte>, oid: Name, limit: nat)
    requires Faithful(git, content) && git.blob(oid, limit).Output?
    ensures |git.blob(oid, limit).value.bytes| <= limit
  {
  }

  // ---------------------------------------------------------------- one commit

  function Places(vs: seq<Visit>): seq<Place> {
    seq(|vs|, i requires 0 <= i < |vs| => vs[i].place)
  }

  function PlacesOf(commit: Name, entries: seq<Entry>): seq<Place> {
    seq(|entries|, i requires 0 <= i < |entries| => Place(commit, entries[i]))
  }

  /** The places of ws are those of vs and then a prefix of the given ones; which one, the progress tells. */
  ghost predicate Covers(vs: seq<Visit>, places: seq<Place>, ws: seq<Visit>, q: Progress) {
    && Places(ws) <= Places(vs) + places
    && (!q.stop ==> Places(ws) == Places(vs) + places)
    && (Files in q.truncated ==> |ws| < |vs| + |places|)
  }

  /** The entries of one tree, in order, until the scan stops. */
  method ScanTree(
    git: Repository, ghost content: Name -> seq<Byte>, limits: Limits, commit: Name, entries: seq<Entry>,
    ghost vs: seq<Visit>, p: Progress)
    returns (r: Ran<Progress>, ghost ws: seq<Visit>)
    requires Faithful(git, content) && Account(git, limits, vs, p) && !p.stop
    ensures r.Output? ==> Account(git, limits, ws, r.value) && SameTreeReasons(p, r.value)
    ensures r.Output? ==> Covers(vs, PlacesOf(commit, entries), ws, r.value)
    ensures r.Aborted? ==> AbortedAt(git, limits, ws) && Places(ws) <= Places(vs) + PlacesOf(commit, entries)
  {
    hide Faithful, Account, SameTreeReasons, AbortedAt;
    ws := vs;
    var q := p;
    SameReasons(p);
    for i := 0 to |entries|
      invariant Account(git, limits, ws, q) && SameTreeReasons(p, q) && !q.stop
      invariant Places(ws) == Places(vs) + PlacesOf(commit, entries[..i])
    {
      ghost var before, was := ws, q;
      var ran: Ran<Progress>;
      ran, ws := ScanEntry(git, content, limits, Place(commit, entries[i]), ws, q);
      PlacesUpTo(commit, entries, i);
      PlacesAppend(before, ws, Place(commit, entries[i]));
      if ran.Aborted? {
        return Aborted, ws;
      }
      q := ran.value;
      SameReasonsThen(p, was, q);
      StopsAtBound(git, limits, ws, q);
      if q.stop {
        return Output(q), ws;
      }
    }
    assert entries[..|entries|] == entries;
    NotStopped(git, limits, ws, q);
    return Output(q), ws;
  }

  lemma SameReasons(p: Progress)
    ensures SameTreeReasons(p, p)
  {
  }

  lemma SameReasonsThen(p: Progress, q: Progress, r: Progress)
    requires SameTreeReasons(p, q) && SameTreeReasons(q, r)
    ensures SameTreeReasons(p, r)
  {
  }

  lemma PlacesUpTo(commit: Name, entries: seq<Entry>, i: nat)
    requires i < |entries|
    ensures PlacesOf(commit, entries[..i]) + [Place(commit, entries[i])] == PlacesOf(commit, entries[..i + 1])
    ensures PlacesOf(commit, entries[..i + 1]) <= PlacesOf(commit, entries)
    ensures PlacesOf(commit, entries[..i]) <= PlacesOf(commit, entries)
  {
  }

  lemma PlacesAppend(vs: seq<Visit>, ws: seq<Visit>, place: Place)
    requires ws == vs || (|ws| == |vs| + 1 && ws[..|vs|] == vs && ws[|vs|].place == place)
    ensures ws != vs ==> Places(ws) == Places(vs) + [place]
  {
  }

  lemma StopsAtBound(git: Repository, limits: Limits, vs: seq<Visit>, p: Progress)
    requires Account(git, limits, vs, p)
    ensures Files in p.truncated ==> p.stop
  {
  }

  lemma NotStopped(git: Repository, limits: Limits, vs: seq<Visit>, p: Progress)
    requires Account(git, limits, vs, p) && !p.stop
    ensures Files !in p.truncated
  {
  }

  // ---------------------------------------------------------------- the whole scan

  predicate TreeListed(git: Repository, commit: Name) {
    git.tree(commit).Output? && !git.tree(commit).value.failed
  }

  /** The entries of the trees that could be listed, commit by commit. */
  function Listed(git: Repository, commits: seq<Name>): seq<Place> {
    if commits == [] then []
    else
      var last := commits[|commits| - 1];
      Listed(git, commits[..|commits| - 1])
      + if TreeListed(git, last) then PlacesOf(last, git.tree(last).value.entries) else []
  }

  lemma {:induction false} ListedPrefix(git: Repository, commits: seq<Name>, n: nat)
    requires n <= |commits|
    ensures Listed(git, commits[..n]) <= Listed(git, commits)
  {
    if n < |commits| {
      assert commits[..|commits| - 1][..n] == commits[..n];
      ListedPrefix(git, commits[..|commits| - 1], n);
    } else {
      assert commits[..n] == commits;
    }
  }

  lemma {:induction false} ListedIs(git: Repository, commits: seq<Name>, place: Place)
    ensures place in Listed(git, commits) <==>
      && place.commit in commits && TreeListed(git, place.commit)
      && place.entry in git.tree(place.commit).value.entries
  {
    if commits != [] {
      var last, rest := commits[|commits| - 1], commits[..|commits| - 1];
      ListedIs(git, rest, place);
      assert commits == rest + [last];
      if TreeListed(git, last) {
        PlacesOfIs(last, git.tree(last).value.entries, place);
      }
    }
  }

  lemma PlacesOfIs(commit: Name, entries: seq<Entry>, place: Place)
    ensures place in PlacesOf(commit, entries) <==> place.commit == commit && place.entry in entries
  {
    if place.commit == commit && place.entry in entries {
      var i :| 0 <= i < |entries| && entries[i] == place.entry;
      assert PlacesOf(commit, entries)[i] == place;
    }
  }

  function Examined(limits: Limits, enumerated: seq<Name>): seq<Name> {
    if |enumerated| > limits.maxCommits then enumerated[..limits.maxCommits] else enumerated
  }

  /** What the reasons about listings say of the first n commits. */
  ghost predicate ListingCaused(
    git: Repository, limits: Limits, enumerated: seq<Name>, overflow: bool, n: nat, p: Progress)
    requires n <= |Examined(limits, enumerated)|
  {
    var commits := Examined(limits, enumerated);
    && (CommitOutput in p.truncated <==> overflow)
    && (Commits in p.truncated <==> |enumerated| > limits.maxCommits)
    && (TreeErrors in p.truncated <==>
          exists i :: 0 <= i < n && git.tree(commits[i]).Output? && git.tree(commits[i]).value.failed)
    && (TreeOutput in p.truncated <==>
          exists i :: 0 <= i < n && TreeListed(git, commits[i]) && git.tree(commits[i]).value.overflow)
  }

  /**
   The account of a whole scan: it visited the listed entries in order, all of them unless it stopped at a bound, and
   reports coverage as cut for exactly the reasons there were.
   */
  ghost predicate ScanAccount(
    git: Repository, limits: Limits, enumerated: seq<Name>, overflow: bool, n: nat, vs: seq<Visit>, p: Progress)
  {
    var commits := Examined(limits, enumerated);
    && n <= |commits|
    && Account(git, limits, vs, p)
    && ListingCaused(git, limits, enumerated, overflow, n, p)
    && Covers([], Listed(git, commits[..n]), vs, p)
    && (!p.stop ==> n == |commits|)
  }

  /** What a scan that git aborts was doing. */
  ghost predicate ScanAborted(git: Repository, limits: Limits, commits: seq<Name>, vs: seq<Visit>) {
    || (exists commit :: commit in commits && git.tree(commit).Aborted?)
    || (AbortedAt(git, limits, vs) && Places(vs) <= Listed(git, commits))
  }

  /**
   Scans the enumerated commits within the limits. A scan that reports completeness has recorded exactly the
   matches of the history, each once; unless an output overflowed, everything it recorded is a match; and a clean
   history within the bounds is reported complete.
   */
  method ScanHistory(
    git: Repository, ghost content: Name -> seq<Byte>, limits: Limits, enumerated: seq<Name>, overflow: bool)
    returns (r: Ran<Report>, ghost n: nat, ghost vs: seq<Visit>)
    requires Faithful(git, content)
    ensures r.Aborted? ==> ScanAborted(git, limits, Examined(limits, enumerated), vs)
    ensures r.Output? ==> ScanAccount(git, limits, enumerated, overflow, n, vs, r.value.progress)
    ensures r.Output? ==>
      var report := r.value;
      var p := report.progress;
      && p.files <= limits.maxFiles && p.bytes <= limits.maxTotalBytes && |p.occurrences| <= limits.maxMatches
      && Distinct(p.occurrences)
      && report.commits == (if |enumerated| > limits.maxCommits then enumerated[..limits.maxCommits] else enumerated)
      && (report.complete <==> p.truncated == {} && report.commits != [])
      && (|enumerated| > limits.maxCommits || overflow ==> !report.complete)
      && (report.complete ==>
            forall key :: key in p.occurrences <==> InHistory(git, content, enumerated, key))
      && (BlobBytes !in p.truncated ==>
            forall key :: key in p.occurrences ==> InHistory(git, content, report.commits, key))
      && (report.status.NoSupportedMatch? <==> report.complete && p.occurrences == [])
      && (report.status.NoSupportedMatch? ==> forall key :: !InHistory(git, content, enumerated, key))
      && (report.status.ExposureObserved? <==> p.occurrences != [])
    ensures Clean(git, content, limits, enumerated, overflow) ==> r.Output? && r.value.complete
  {
    hide Faithful, Account, Covers, ListingCaused, Clean, AbortedAt, SameTreeReasons, InHistory, Listed;
    var truncated: set<Reason> := if overflow then {CommitOutput} else {};
    if |enumerated| > limits.maxCommits {
      truncated := truncated + {Commits};
    }
    var commits := if |enumerated| > limits.maxCommits then enumerated[..limits.maxCommits] else enumerated;
    var p := Progress([], {}, truncated, 0, 0, 0, false);
    var i := 0;
    n, vs := 0, [];
    NothingScanned(git, limits, enumerated, overflow, p);
    while i < |commits| && !p.stop
      invariant i == n <= |commits| && (n == 0 ==> p.occurrences == [])
      invariant Account(git, limits, vs, p) && ListingCaused(git, limits, enumerated, overflow, n, p)
      invariant Covers([], Listed(git, commits[..n]), vs, p)
      decreases |commits| - i
    {
      var commit := commits[i];
      assert commits[..n + 1][..n] == commits[..n];
      var listed := git.tree(commit);
      if listed.Aborted? {
        AbortedInTree(git, content, limits, enumerated, overflow, commit, vs);
        return Aborted, n, vs;
      }
      ghost var before := p;
      if listed.value.failed {
        p := Skip(p, TreeErrors);
        CommitSkipped(git, limits, enumerated, overflow, n, vs, before, p);
      } else {
        if listed.value.overflow {
          p := Skip(p, TreeOutput);
        }
        CommitListed(git, limits, enumerated, overflow, n, vs, before, p);
        ghost var done, cut := vs, p;
        var ran: Ran<Progress>;
        ran, vs := ScanTree(git, content, limits, commit, listed.value.entries, vs, p);
        if ran.Aborted? {
          AbortedInBlob(git, content, limits, enumerated, overflow, n, done, vs, before);
          return Aborted, n, vs;
        }
        p := ran.value;
        CommitScanned(git, limits, enumerated, overflow, n, done, before, cut, vs, p);
      }
      i, n := i + 1, n + 1;
    }
    StopIsKept(git, limits, vs, p);
    assert ScanAccount(git, limits, enumerated, overflow, n, vs, p);
    AccountDecides(git, content, limits, enumerated, overflow, n, vs, p);
    if Clean(git, content, limits, enumerated, overflow) {
      CleanIsComplete(git, content, limits, enumerated, overflow, n, vs, p);
    }
    var status :=
      if commits == [] then InsufficientEvidence
      else if p.occurrences != [] then ExposureObserved
      else if p.truncated != {} then InsufficientEvidence
      else NoSupportedMatch;
    return Output(Report(p, commits, p.truncated == {} && commits != [], status)), n, vs;
  }

  // ---------------------------------------------------------------- commit by commit

  lemma TreeReasonKeepsAccount(git: Repository, limits: Limits, vs: seq<Visit>, p: Progress, why: Reason)
    requires Account(git, limits, vs, p) && OfListing(why)
    ensures Account(git, limits, vs, Skip(p, why))
  {
    hide Fetched, Cuts, ShownBy, Size, AsksForRoom;
  }

  lemma NothingScanned(git: Repository, limits: Limits, enumerated: seq<Name>, overflow: bool, p: Progress)
    requires p == Progress([], {}, p.truncated, 0, 0, 0, false)
    requires p.truncated
      == (if overflow then {CommitOutput} else {}) + (if |enumerated| > limits.maxCommits then {Commits} else {})
    ensures Account(git, limits, [], p) && ListingCaused(git, limits, enumerated, overflow, 0, p)
    ensures Covers([], Listed(git, Examined(limits, enumerated)[..0]), [], p)
  {
  }

  lemma CommitSkipped(
    git: Repository, limits: Limits, enumerated: seq<Name>, overflow: bool, n: nat, vs: seq<Visit>,
    p: Progress, q: Progress)
    requires n < |Examined(limits, enumerated)| && !p.stop && q == Skip(p, TreeErrors)
    requires var tree := git.tree(Examined(limits, enumerated)[n]); tree.Output? && tree.value.failed
    requires Account(git, limits, vs, p) && ListingCaused(git, limits, enumerated, overflow, n, p)
    requires Covers([], Listed(git, Examined(limits, enumerated)[..n]), vs, p)
    ensures Account(git, limits, vs, q) && ListingCaused(git, limits, enumerated, overflow, n + 1, q)
    ensures Covers([], Listed(git, Examined(limits, enumerated)[..n + 1]), vs, q)
  {
    hide Account, Covers, Listed;
    TreeReasonKeepsAccount(git, limits, vs, p, TreeErrors);
    var commits := Examined(limits, enumerated);
    ListedNext(git, commits, n);
    assert Listed(git, commits[..n]) + [] == Listed(git, commits[..n]);
    CoversSame(git, limits, [], Listed(git, commits[..n]), vs, p, q);
  }

  lemma CoversSame(
    git: Repository, limits: Limits, vs: seq<Visit>, places: seq<Place>, ws: seq<Visit>, p: Progress, q: Progress)
    requires Covers(vs, places, ws, p) && p.stop == q.stop && (Files in p.truncated <==> Files in q.truncated)
    ensures Covers(vs, places, ws, q)
  {
  }

  lemma ListedNext(git: Repository, commits: seq<Name>, n: nat)
    requires n < |commits|
    ensures Listed(git, commits[..n + 1]) == Listed(git, commits[..n])
      + if TreeListed(git, commits[n]) then PlacesOf(commits[n], git.tree(commits[n]).value.entries) else []
  {
    assert commits[..n + 1][..n] == commits[..n];
  }

  lemma CommitListed(
    git: Repository, limits: Limits, enumerated: seq<Name>, overflow: bool, n: nat, vs: seq<Visit>,
    p: Progress, q: Progress)
    requires n < |Examined(limits, enumerated)| && Account(git, limits, vs, p)
    requires q == p || q == Skip(p, TreeOutput)
    ensures Account(git, limits, vs, q)
  {
    TreeReasonKeepsAccount(git, limits, vs, p, TreeOutput);
  }

  lemma CommitScanned(
    git: Repository, limits: Limits, enumerated: seq<Name>, overflow: bool, n: nat, vs: seq<Visit>,
    p: Progress, cut: Progress, ws: seq<Visit>, q: Progress)
    requires n < |Examined(limits, enumerated)| && TreeListed(git, Examined(limits, enumerated)[n]) && !p.stop
    requires cut == if git.tree(Examined(limits, enumerated)[n]).value.overflow then Skip(p, TreeOutput) else p
    requires ListingCaused(git, limits, enumerated, overflow, n, p) && SameTreeReasons(cut, q)
    requires Covers([], Listed(git, Examined(limits, enumerated)[..n]), vs, p)
    requires var commit := Examined(limits, enumerated)[n];
      Covers(vs, PlacesOf(commit, git.tree(commit).value.entries), ws, q)
    ensures ListingCaused(git, limits, enumerated, overflow, n + 1, q)
    ensures Covers([], Listed(git, Examined(limits, enumerated)[..n + 1]), ws, q)
  {
    hide Listed;
    var commits := Examined(limits, enumerated);
    ListedNext(git, commits, n);
    assert Places([]) == [];
    assert Places([]) + Listed(git, commits[..n]) == Listed(git, commits[..n]);
    assert Places([]) + Listed(git, commits[..n + 1]) == Listed(git, commits[..n + 1]);
    assert |Places(vs)| == |vs|;
    assert OfListing(CommitOutput) && OfListing(Commits) && OfListing(TreeErrors) && OfListing(TreeOutput);
  }

  lemma StopIsKept(git: Repository, limits: Limits, vs: seq<Visit>, p: Progress)
    requires Account(git, limits, vs, p)
    ensures p.stop ==> p.truncated != {}
  {
  }

  // ---------------------------------------------------------------- what the account is worth

  /** An output that neither failed nor overflowed shows exactly the matches of its blob. */
  lemma WholeOutputShows(git: Repository, content: Name -> seq<Byte>, v: Visit, key: Key)
    requires Faithful(git, content) && Fetched(git, v) && !Failed(git, v) && !Overflowed(git, v)
    ensures ShownAt(git, v, key) <==> InBlob(git, content, v.place.commit, v.place.entry, key)
  {
    assert git.patterns[..|git.patterns|] == git.patterns;
  }

  lemma VisitIsListed(git: Repository, commits: seq<Name>, n: nat, vs: seq<Visit>, p: Progress, v: Visit)
    requires n <= |commits| && Covers([], Listed(git, commits[..n]), vs, p) && v in vs
    ensures v.place in Listed(git, commits)
  {
    hide Listed;
    ListedPrefix(git, commits, n);
    var i :| 0 <= i < |vs| && vs[i] == v;
    assert Places([]) + Listed(git, commits[..n]) == Listed(git, commits[..n]);
    assert Places(vs)[i] == v.place && Listed(git, commits[..n])[i] == Listed(git, commits)[i];
  }

  lemma ListedIsVisited(git: Repository, commits: seq<Name>, vs: seq<Visit>, p: Progress, place: Place)
    returns (v: Visit)
    requires Covers([], Listed(git, commits), vs, p) && !p.stop && place in Listed(git, commits)
    ensures v in vs && v.place == place
  {
    assert Places([]) + Listed(git, commits) == Listed(git, commits);
    var i :| 0 <= i < |Places(vs)| && Places(vs)[i] == place;
    v := vs[i];
  }

  lemma FoundIsMatch(
    git: Repository, content: Name -> seq<Byte>, limits: Limits, enumerated: seq<Name>, overflow: bool,
    n: nat, vs: seq<Visit>, p: Progress, key: Key)
    requires Faithful(git, content) && ScanAccount(git, limits, enumerated, overflow, n, vs, p)
    requires key in p.occurrences && BlobBytes !in p.truncated
    ensures InHistory(git, content, Examined(limits, enumerated), key)
  {
    hide Covers, ListingCaused, Listed, ShownAt, Overflowed, Failed, Fetched, Counted, StoppedAt, InBlob;
    assert key in p.seen;
    var v :| v in vs && ShownAt(git, v, key);
    ShownIsFetched(git, v, key);
    assert !Cuts(git, v, BlobBytes);
    WholeOutputShows(git, content, v, key);
    VisitIsListed(git, Examined(limits, enumerated), n, vs, p, v);
    ListedIs(git, Examined(limits, enumerated), v.place);
    assert InEntries(git, content, v.place.commit, git.tree(v.place.commit).value.entries, key);
    BlobIsAt(git, content, v.place.commit, v.place.entry, key);
  }

  lemma ShownIsFetched(git: Repository, v: Visit, key: Key)
    requires ShownAt(git, v, key)
    ensures Fetched(git, v) && !Failed(git, v)
  {
  }

  lemma BlobIsAt(git: Repository, content: Name -> seq<Byte>, commit: Name, e: Entry, key: Key)
    requires InBlob(git, content, commit, e, key)
    ensures e.Blob? && key.commit == commit
  {
  }

  lemma MatchIsFound(
    git: Repository, content: Name -> seq<Byte>, limits: Limits, enumerated: seq<Name>, overflow: bool,
    n: nat, vs: seq<Visit>, p: Progress, key: Key)
    requires Faithful(git, content) && ScanAccount(git, limits, enumerated, overflow, n, vs, p)
    requires p.truncated == {} && InHistory(git, content, Examined(limits, enumerated), key)
    ensures key in p.occurrences
  {
    hide Covers, Listed, ShownAt, Overflowed, Failed, Fetched, Counted, InBlob;
    var commits := Examined(limits, enumerated);
    assert commits[..n] == commits;
    var commit :| commit in commits && git.tree(commit).Output?
      && InEntries(git, content, commit, git.tree(commit).value.entries, key);
    var e :| e in git.tree(commit).value.entries && InBlob(git, content, commit, e, key);
    var i :| 0 <= i < |commits| && commits[i] == commit;
    ListedIs(git, commits, Place(commit, e));
    var v := ListedIsVisited(git, commits, vs, p, Place(commit, e));
    BlobIsAt(git, content, commit, e, key);
    assert Fetched(git, v);
    NothingCut(git, vs, p, v);
    WholeOutputShows(git, content, v, key);
    assert ShownBy(git, vs, key);
  }

  lemma NothingCut(git: Repository, vs: seq<Visit>, p: Progress, v: Visit)
    requires Caused(git, vs, p) && p.truncated == {} && v in vs
    ensures !Failed(git, v) && !Overflowed(git, v)
  {
    assert BlobBytes !in p.truncated && BlobErrors !in p.truncated;
    assert !Cuts(git, v, BlobBytes) && !Cuts(git, v, BlobErrors);
  }

  lemma AccountDecides(
    git: Repository, content: Name -> seq<Byte>, limits: Limits, enumerated: seq<Name>, overflow: bool,
    n: nat, vs: seq<Visit>, p: Progress)
    requires Faithful(git, content) && ScanAccount(git, limits, enumerated, overflow, n, vs, p)
    ensures Bounded(p, limits)
    ensures |enumerated| > limits.maxCommits || overflow ==> p.truncated != {}
    ensures BlobBytes !in p.truncated ==>
      forall key :: key in p.occurrences ==> InHistory(git, content, Examined(limits, enumerated), key)
    ensures p.truncated == {} ==> forall key :: key in p.occurrences <==> InHistory(git, content, enumerated, key)
  {
    hide InHistory, Found, Caused, Counted, Covers, StoppedAt;
    if BlobBytes !in p.truncated {
      forall key | key in p.occurrences ensures InHistory(git, content, Examined(limits, enumerated), key) {
        FoundIsMatch(git, content, limits, enumerated, overflow, n, vs, p, key);
      }
    }
    if p.truncated == {} {
      assert Commits !in p.truncated;
      forall key | InHistory(git, content, enumerated, key) ensures key in p.occurrences {
        MatchIsFound(git, content, limits, enumerated, overflow, n, vs, p, key);
      }
    }
  }

  // ---------------------------------------------------------------- clean histories

  /** Git outputs a blob whole whenever it is asked for at least its size. */
  ghost predicate Responsive(git: Repository, content: Name -> seq<Byte>) {
    forall oid, limit :: |content(oid)| <= limit ==>
      git.blob(oid, limit).Output? && !git.blob(oid, limit).value.failed && !git.blob(oid, limit).value.overflow
  }

  function ContentSize(content: Name -> seq<Byte>, places: seq<Place>): nat {
    if places == [] then 0
    else
      var last := places[|places| - 1].entry;
      ContentSize(content, places[..|places| - 1]) + if last.Blob? then |content(last.oid)| else 0
  }

  ghost predicate PlainBlobs(content: Name -> seq<Byte>, maxBlobBytes: nat, places: seq<Place>) {
    forall place :: place in places ==>
      place.entry.Blob? && !place.entry.redacted && |content(place.entry.oid)| <= maxBlobBytes
  }

  /** All is listed and output whole, every entry is a plain blob, and no bound is reached. */
  ghost predicate Clean(
    git: Repository, content: Name -> seq<Byte>, limits: Limits, enumerated: seq<Name>, overflow: bool)
  {
    && !overflow && 0 < |enumerated| <= limits.maxCommits
    && (forall commit :: commit in enumerated ==>
          git.tree(commit).Output? && !git.tree(commit).value.failed && !git.tree(commit).value.overflow)
    && Responsive(git, content)
    && PlainBlobs(content, limits.maxBlobBytes, Listed(git, enumerated))
    && |Listed(git, enumerated)| <= limits.maxFiles
    && ContentSize(content, Listed(git, enumerated)) < limits.maxTotalBytes
    && exists all :: Bounds(git, content, enumerated, all) && |all| < limits.maxMatches
  }

  /** All matches of the history are among these. */
  ghost predicate Bounds(git: Repository, content: Name -> seq<Byte>, commits: seq<Name>, all: set<Key>) {
    forall key :: InHistory(git, content, commits, key) ==> key in all
  }

  lemma {:induction false} ContentGrows(content: Name -> seq<Byte>, places: seq<Place>, n: nat)
    requires n <= |places|
    ensures ContentSize(content, places[..n]) <= ContentSize(content, places)
  {
    if n < |places| {
      assert places[..|places| - 1][..n] == places[..n];
      ContentGrows(content, places[..|places| - 1], n);
    } else {
      assert places[..n] == places;
    }
  }

  /** Within the bounds every output that was asked for is whole, and the outputs are no more than the contents. */
  lemma {:induction false} OutputsAreWhole(
    git: Repository, content: Name -> seq<Byte>, limits: Limits, vs: seq<Visit>)
    requires Faithful(git, content) && Responsive(git, content)
    requires PlainBlobs(content, limits.maxBlobBytes, Places(vs))
    requires ContentSize(content, Places(vs)) < limits.maxTotalBytes
    requires forall i :: 0 <= i < |vs| ==> AsksForRoom(git, limits, vs, i)
    ensures Size(git, vs) <= ContentSize(content, Places(vs))
    ensures forall v :: v in vs && v.limit.Some? ==> Fetched(git, v) && !Failed(git, v) && !Overflowed(git, v)
    decreases |vs|
  {
    hide Responsive, Faithful;
    if vs != [] {
      var last, rest := vs[|vs| - 1], vs[..|vs| - 1];
      assert vs == rest + [last];
      assert Places(vs)[..|rest|] == Places(rest) && Places(vs)[|rest|] == last.place;
      forall place | place in Places(rest) ensures place in Places(vs) {
        var i :| 0 <= i < |rest| && Places(rest)[i] == place;
        assert Places(vs)[i] == place;
      }
      forall i | 0 <= i < |rest| ensures AsksForRoom(git, limits, rest, i) {
        assert AsksForRoom(git, limits, vs, i) && rest[..i] == vs[..i];
      }
      OutputsAreWhole(git, content, limits, rest);
      assert last.place in Places(vs);
      if last.limit.Some? {
        assert AsksForRoom(git, limits, vs, |rest|);
        OutputIsWhole(git, content, last.place.entry.oid, last.limit.value);
      }
    }
  }

  lemma OutputIsWhole(git: Repository, content: Name -> seq<Byte>, oid: Name, limit: nat)
    requires Faithful(git, content) && Responsive(git, content) && |content(oid)| <= limit
    ensures git.blob(oid, limit).Output?
    ensures
      var out := git.blob(oid, limit).value;
      !out.failed && !out.overflow && out.bytes == content(oid)
  {
  }

  lemma PrefixFits(
    git: Repository, content: Name -> seq<Byte>, limits: Limits, enumerated: seq<Name>, overflow: bool, vs: seq<Visit>)
    requires Clean(git, content, limits, enumerated, overflow) && Places(vs) <= Listed(git, enumerated)
    ensures PlainBlobs(content, limits.maxBlobBytes, Places(vs))
    ensures ContentSize(content, Places(vs)) < limits.maxTotalBytes
  {
    hide Responsive, InHistory, Listed;
    var all := Listed(git, enumerated);
    assert all[..|Places(vs)|] == Places(vs);
    ContentGrows(content, all, |Places(vs)|);
    forall place | place in Places(vs) ensures place in all {
      var i :| 0 <= i < |Places(vs)| && Places(vs)[i] == place;
      assert all[i] == place;
    }
  }

  lemma AbortedInTree(
    git: Repository, content: Name -> seq<Byte>, limits: Limits, enumerated: seq<Name>, overflow: bool, commit: Name,
    vs: seq<Visit>)
    requires commit in Examined(limits, enumerated) && git.tree(commit).Aborted?
    ensures ScanAborted(git, limits, Examined(limits, enumerated), vs)
    ensures !Clean(git, content, limits, enumerated, overflow)
  {
    hide Listed, InHistory, AbortedAt;
  }

  lemma AbortedInBlob(
    git: Repository, content: Name -> seq<Byte>, limits: Limits, enumerated: seq<Name>, overflow: bool,
    n: nat, vs: seq<Visit>, ws: seq<Visit>, p: Progress)
    requires Faithful(git, content) && n < |Examined(limits, enumerated)| && !p.stop
    requires TreeListed(git, Examined(limits, enumerated)[n]) && AbortedAt(git, limits, ws)
    requires Covers([], Listed(git, Examined(limits, enumerated)[..n]), vs, p)
    requires var commit := Examined(limits, enumerated)[n];
      Places(ws) <= Places(vs) + PlacesOf(commit, git.tree(commit).value.entries)
    ensures ScanAborted(git, limits, Examined(limits, enumerated), ws)
    ensures !Clean(git, content, limits, enumerated, overflow)
  {
    hide Listed, InHistory, Faithful, Responsive, PlainBlobs, AsksForRoom;
    var commits := Examined(limits, enumerated);
    ListedNext(git, commits, n);
    ListedPrefix(git, commits, n + 1);
    assert Places([]) + Listed(git, commits[..n]) == Listed(git, commits[..n]);
    assert Places(ws) <= Listed(git, commits[..n + 1]) <= Listed(git, commits);
    var last := ws[|ws| - 1];
    assert last in ws;
    if Clean(git, content, limits, enumerated, overflow) {
      PrefixFits(git, content, limits, enumerated, overflow, ws);
      OutputsAreWhole(git, content, limits, ws);
    }
  }

  lemma {:induction false} DistinctSize(keys: seq<Key>, all: set<Key>)
    requires Distinct(keys) && forall key :: key in keys ==> key in all
    ensures |keys| <= |all|
  {
    if keys != [] {
      var last, rest := keys[|keys| - 1], keys[..|keys| - 1];
      assert forall key :: key in rest ==> key in keys;
      assert last !in rest;
      DistinctSize(rest, all - {last});
    }
  }

  lemma CleanVisits(
    git: Repository, content: Name -> seq<Byte>, limits: Limits, enumerated: seq<Name>, overflow: bool,
    n: nat, vs: seq<Visit>, p: Progress)
    requires Faithful(git, content) && Clean(git, content, limits, enumerated, overflow)
    requires ScanAccount(git, limits, enumerated, overflow, n, vs, p)
    ensures Files !in p.truncated && TotalBytes !in p.truncated
    ensures forall why :: why in p.truncated ==> OfListing(why) || OfBounds(why)
  {
    hide InHistory, Responsive, PlainBlobs, AsksForRoom, Listed, Faithful, ListingCaused, Found, Caused, OfListing,
      OfBounds, Bounds;
    ListedPrefix(git, enumerated, n);
    assert Places([]) + Listed(git, enumerated[..n]) == Listed(git, enumerated[..n]);
    assert |Places(vs)| == |vs|;
    PrefixFits(git, content, limits, enumerated, overflow, vs);
    OutputsAreWhole(git, content, limits, vs);
    forall v | v in vs ensures v.place.entry.Blob? && !v.place.entry.redacted {
      PlainVisit(content, limits.maxBlobBytes, vs, v);
    }
    NoCuts(git, content, vs, p);
  }

  lemma CleanMatches(
    git: Repository, content: Name -> seq<Byte>, limits: Limits, enumerated: seq<Name>, overflow: bool,
    n: nat, vs: seq<Visit>, p: Progress)
    requires Faithful(git, content) && Clean(git, content, limits, enumerated, overflow)
    requires ScanAccount(git, limits, enumerated, overflow, n, vs, p) && BlobBytes !in p.truncated
    ensures Matches !in p.truncated
  {
    hide InHistory, Responsive, PlainBlobs, Listed, Faithful, ListingCaused, Found, Caused, Covers, Counted;
    AccountDecides(git, content, limits, enumerated, overflow, n, vs, p);
    var all :| Bounds(git, content, enumerated, all) && |all| < limits.maxMatches;
    DistinctSize(p.occurrences, all);
  }

  lemma CleanListings(
    git: Repository, content: Name -> seq<Byte>, limits: Limits, enumerated: seq<Name>, overflow: bool,
    n: nat, vs: seq<Visit>, p: Progress)
    requires Clean(git, content, limits, enumerated, overflow)
    requires ScanAccount(git, limits, enumerated, overflow, n, vs, p)
    ensures forall why :: OfListing(why) ==> why !in p.truncated
  {
    hide InHistory, Responsive, PlainBlobs, Listed, Account, Covers, Bounds;
  }

  /** A clean history within the bounds gives no reason to report coverage as cut. */
  lemma CleanIsComplete(
    git: Repository, content: Name -> seq<Byte>, limits: Limits, enumerated: seq<Name>, overflow: bool,
    n: nat, vs: seq<Visit>, p: Progress)
    requires Faithful(git, content) && ScanAccount(git, limits, enumerated, overflow, n, vs, p)
    requires Clean(git, content, limits, enumerated, overflow)
    ensures p.truncated == {} && enumerated != [] && Examined(limits, enumerated) == enumerated
  {
    hide InHistory, Responsive, PlainBlobs, Listed, Faithful, ListingCaused, Account, Covers, Bounds;
    CleanVisits(git, content, limits, enumerated, overflow, n, vs, p);
    CleanListings(git, content, limits, enumerated, overflow, n, vs, p);
    assert !OfListing(BlobBytes) && !OfBounds(BlobBytes);
    CleanMatches(git, content, limits, enumerated, overflow, n, vs, p);
    assert forall why :: OfBounds(why) ==> why !in p.truncated;
  }

  lemma PlainVisit(content: Name -> seq<Byte>, maxBlobBytes: nat, vs: seq<Visit>, v: Visit)
    requires PlainBlobs(content, maxBlobBytes, Places(vs)) && v in vs
    ensures v.place.entry.Blob? && !v.place.entry.redacted
  {
    var i :| 0 <= i < |vs| && vs[i] == v;
    assert Places(vs)[i] == v.place;
  }

  lemma NoCuts(git: Repository, content: Name -> seq<Byte>, vs: seq<Visit>, p: Progress)
    requires Caused(git, vs, p)
    requires forall v :: v in vs ==> v.place.entry.Blob? && !v.place.entry.redacted
    requires forall v :: v in vs && v.limit.Some? ==> Fetched(git, v) && !Failed(git, v) && !Overflowed(git, v)
    ensures forall why :: why in p.truncated ==> OfListing(why) || OfBounds(why)
  {
    forall why | why in p.truncated && !OfListing(why) && !OfBounds(why) ensures false {
      var v :| v in vs && Cuts(git, v, why);
    }
  }
}
