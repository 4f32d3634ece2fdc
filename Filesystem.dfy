// `filesystem.rs`: the background file-system side of the viewer. Watcher
// events are classified into file events, loaded images are forwarded, and the
// command-line paths are resolved into the set of image files to show and the
// directory to watch.
module Filesystem {
  import opened Common
  import opened Paths
  import opened RgbaImages

  // ---------------------------------------------------------------------------
  // Events
  // ---------------------------------------------------------------------------

  /** `notify::DebouncedEvent` (notify 4): what the debounced watcher reports.
      The `notify::Error` of `Error` is reduced to its text. */
  datatype DebouncedEvent =
    | NoticeWrite(path: Path)
    | NoticeRemove(path: Path)
    | Create(path: Path)
    | Write(path: Path)
    | Chmod(path: Path)
    | Remove(path: Path)
    | Rename(oldPath: Path, newPath: Path)
    | Rescan
    | Error(message: string, errorPath: Option<Path>)

  /** `FileEvent`: what the viewer is told about the watched directory. */
  datatype FileEvent =
    | Added(path: Path)
    | Removed(path: Path)
    | Modified(path: Path)
    | Renamed(oldPath: Path, newPath: Path)

  /** `OperationEvent`: the outcome of a requested read. */
  datatype OperationEvent =
    | ThumbnailLoaded(path: Path, image: Result<Image, IoError>)
    | ImageLoaded(path: Path, image: Result<Image, IoError>)

  /** `FileSystemEvent`: what the viewer receives (the variants `FileEvent` and
      `OperationEvent` of the source). */
  datatype FileSystemEvent =
    | File(fileEvent: FileEvent)
    | Operation(operationEvent: OperationEvent)

  /** `InternalFSEvent`: what the funnel thread receives, from the watcher or from a read job. */
  datatype InternalFSEvent =
    | Notify(notifyEvent: DebouncedEvent)
    | Op(opEvent: OperationEvent)

  /** The sending half of the unbounded channel to the viewer: the messages it
      holds and whether the receiving half is still alive. */
  datatype Channel = Channel(sent: seq<FileSystemEvent>, connected: bool)

  /** `crossbeam::channel::SendError`: hands back the message that could not be sent. */
  datatype SendError = SendError(message: FileSystemEvent)

  /** `Sender::send` on an unbounded channel: never blocks, fails only once the
      receiver is gone. */
  function Send(ch: Channel, e: FileSystemEvent): (r: (Channel, Result<(), SendError>))
    ensures r.0.connected == ch.connected
    ensures ch.connected ==> r.0.sent == ch.sent + [e] && r.1 == Ok(())
    ensures !ch.connected ==> r.0 == ch && r.1 == Err(SendError(e))
  {
    if ch.connected then (ch.(sent := ch.sent + [e]), Ok(())) else (ch, Err(SendError(e)))
  }

  /** The paths a watcher event is about. */
  function EventPaths(e: DebouncedEvent): seq<Path> {
    match e
    case NoticeWrite(p) => [p]
    case NoticeRemove(p) => [p]
    case Create(p) => [p]
    case Write(p) => [p]
    case Chmod(p) => [p]
    case Remove(p) => [p]
    case Rename(o, n) => [o, n]
    case Rescan => []
    case Error(_, p) => if p.Some? then [p.value] else []
  }

  /** The paths a file event is about. */
  function FileEventPaths(e: FileEvent): seq<Path> {
    match e
    case Added(p) => [p]
    case Removed(p) => [p]
    case Modified(p) => [p]
    case Renamed(o, n) => [o, n]
  }

  /** The `match` of `process_notify_event`: the file event, if any, a watcher
      event turns into. Each kind of file event comes from exactly one kind of
      watcher event; additions and modifications only for images, removals and
      renames for any path; and it names the same paths as the watcher event. */
  function Classify(event: DebouncedEvent, isImage: Path -> bool): (r: Option<FileEvent>)
    ensures (r.Some? && r.value.Added?) <==> (event.Create? && isImage(event.path))
    ensures (r.Some? && r.value.Modified?) <==> (event.Write? && isImage(event.path))
    ensures (r.Some? && r.value.Removed?) <==> event.Remove?
    ensures (r.Some? && r.value.Renamed?) <==> event.Rename?
    ensures r.Some? ==> FileEventPaths(r.value) == EventPaths(event)
  {
    match event
    case Create(path) => if isImage(path) then Some(Added(path)) else None
    case Write(path) => if isImage(path) then Some(Modified(path)) else None
    case Remove(path) => Some(Removed(path))
    case Rename(oldPath, newPath) => Some(Renamed(oldPath, newPath))
    case _ => None
  }

  /** `process_notify_event`: send the classified event, if any. Nothing but
      that one event is sent, and the call fails only when there was something
      to send and the viewer has hung up. */
  function ProcessNotifyEvent(event: DebouncedEvent, isImage: Path -> bool, ch: Channel)
    : (r: (Channel, Result<(), SendError>))
    ensures r.0.connected == ch.connected
    ensures Classify(event, isImage).None? ==> r == (ch, Ok(()))
    ensures Classify(event, isImage).Some? ==>
      r == Send(ch, File(Classify(event, isImage).value))
  {
    match Classify(event, isImage)
    case Some(e) => Send(ch, File(e))
    case None => (ch, Ok(()))
  }

  /** The case table of `process_notify_event` on a live channel. */
  lemma NotifyEventTable(event: DebouncedEvent, isImage: Path -> bool, ch: Channel)
    requires ch.connected
    ensures var (out, res) := ProcessNotifyEvent(event, isImage, ch);
      res == Ok(()) &&
      out.sent == ch.sent + match event
        case Create(p) => if isImage(p) then [File(Added(p))] else []
        case Write(p) => if isImage(p) then [File(Modified(p))] else []
        case Remove(p) => [File(Removed(p))]
        case Rename(o, n) => [File(Renamed(o, n))]
        case _ => []
  {
  }

  /** A rename is passed on as one event, never as a removal and an addition. */
  lemma RenameIsOneEvent(oldPath: Path, newPath: Path, isImage: Path -> bool, ch: Channel)
    requires ch.connected
    ensures ProcessNotifyEvent(Rename(oldPath, newPath), isImage, ch).0.sent ==
      ch.sent + [File(Renamed(oldPath, newPath))]
  {
  }

  /** `process_operation_event`: forward the outcome unchanged. */
  function ProcessOperationEvent(event: OperationEvent, ch: Channel): (r: (Channel, Result<(), SendError>))
    ensures r.0.connected == ch.connected
    ensures ch.connected ==> r.0.sent == ch.sent + [Operation(event)] && r.1.Ok?
    ensures !ch.connected ==> r.0 == ch && r.1 == Err(SendError(Operation(event)))
  {
    Send(ch, Operation(event))
  }

  // ---------------------------------------------------------------------------
  // Thumbnail size
  // ---------------------------------------------------------------------------

  /** `f32::min`. */
  function MinReal(a: real, b: real): real {
    if a <= b then a else b
  }

  lemma FloorOfQuotient(a: nat, b: nat)
    requires b > 0
    ensures (a as real / b as real).Floor == a / b
  {
    var q, m := a / b, a % b;
    assert a == q * b + m;
    assert a as real == q as real * b as real + m as real;
    assert a as real / b as real == q as real + m as real / b as real;
  }

  /** Scaling `a` by `n / d` and flooring is integer division. */
  lemma ScaledFloor(a: nat, n: nat, d: nat)
    requires d > 0
    ensures (a as real * (n as real / d as real)).Floor == a * n / d
  {
    assert a as real * (n as real / d as real) == (a * n) as real / d as real;
    FloorOfQuotient(a * n, d);
  }

  /** The longer side has the smaller ratio. */
  lemma RatioOrder(size: nat, long: nat, short: nat)
    requires long >= short > 0
    ensures size as real / long as real <= size as real / short as real
  {
    var a, b := size as real / long as real, size as real / short as real;
    assert a * long as real == size as real == b * short as real;
    assert a * short as real <= a * long as real;
  }

  /** Scaling by a factor at most 1 does not exceed `size`. */
  lemma ShortSideFits(size: nat, long: nat, short: nat)
    requires long >= short > 0
    ensures short * size / long <= size
  {
    var q := short * size / long;
    assert q * long <= short * size;
    assert short * size <= long * size;
    assert q * long <= size * long;
  }

  /** With the longer side limiting, it becomes exactly `size` and the shorter
      side its proportional share, rounded down. */
  lemma LimitingSide(size: nat, long: nat, short: nat)
    requires long >= short > 0
    ensures var s := size as real / long as real;
      (long as real * s).Floor == size && (short as real * s).Floor == short * size / long &&
      short * size / long <= size
  {
    ScaledFloor(long, size, long);
    assert long * size / long == size;
    ScaledFloor(short, size, long);
    ShortSideFits(size, long, short);
  }

  /** `a` scaled by `n / d`, rounded down. */
  function Proportional(a: nat, n: nat, d: nat): nat
    requires d > 0
  {
    a * n / d
  }

  /** The target size `to_thumbnail` computes for a `w` x `h` image: both sides
      scaled by the smaller of `size / w` and `size / h`, then floored. With a
      zero side the `f32` division gives infinity (or NaN when `size` is 0,
      which `min` skips), so the other side alone decides; a 0 x 0 image gives
      NaN, which `as u32` turns into 0. */
  function ThumbnailSize(w: nat, h: nat, size: nat): (r: (nat, nat))
    ensures r.0 <= size
    ensures r.1 <= size
    ensures w > 0 && h > 0 && w >= h ==> r.0 == size && r.1 == Proportional(h, size, w)
    ensures w > 0 && h > 0 && h >= w ==> r.1 == size && r.0 == Proportional(w, size, h)
    ensures w == 0 ==> r.0 == 0 && (h > 0 ==> r.1 == size)
    ensures h == 0 ==> r.1 == 0 && (w > 0 ==> r.0 == size)
  {
    if w == 0 && h == 0 then (0, 0)
    else if w == 0 then (0, size)
    else if h == 0 then (size, 0)
    else
      FlooredSides(w, h, size)
  }

  /** `s = (size / w).min(size / h)`. */
  function ScaleFactor(w: nat, h: nat, size: nat): real
    requires w > 0 && h > 0
  {
    MinReal(size as real / w as real, size as real / h as real)
  }

  /** `(a as f32 * s).floor()`. */
  function FloorScaled(a: nat, s: real): int {
    (a as real * s).Floor
  }

  /** The two floored sides of `to_thumbnail` for a non-degenerate image. */
  function FlooredSides(w: nat, h: nat, size: nat): (r: (nat, nat))
    requires w > 0 && h > 0
    ensures r.0 <= size && r.1 <= size
    ensures w >= h ==> r.0 == size && r.1 == Proportional(h, size, w)
    ensures h >= w ==> r.1 == size && r.0 == Proportional(w, size, h)
  {
    var s := ScaleFactor(w, h, size);
    ScaledSides(w, h, size);
    (FloorScaled(w, s), FloorScaled(h, s))
  }

  /** The factor is the longer side's ratio. */
  lemma LongSideFactor(size: nat, long: nat, short: nat)
    requires long >= short > 0
    ensures ScaleFactor(long, short, size) == size as real / long as real
    ensures ScaleFactor(short, long, size) == size as real / long as real
  {
    RatioOrder(size, long, short);
  }

  /** The floored sides when the first side is the longer one. */
  lemma ScaledSidesLong(size: nat, long: nat, short: nat)
    requires long >= short > 0
    ensures FloorScaled(long, ScaleFactor(long, short, size)) == size
    ensures FloorScaled(short, ScaleFactor(long, short, size)) == Proportional(short, size, long) <= size
    ensures FloorScaled(long, ScaleFactor(short, long, size)) == size
    ensures FloorScaled(short, ScaleFactor(short, long, size)) == Proportional(short, size, long)
  {
    LongSideFactor(size, long, short);
    LimitingSide(size, long, short);
  }

  lemma ScaledSides(w: nat, h: nat, size: nat)
    requires w > 0 && h > 0
    ensures 0 <= FloorScaled(w, ScaleFactor(w, h, size)) <= size
    ensures 0 <= FloorScaled(h, ScaleFactor(w, h, size)) <= size
    ensures w >= h ==> FloorScaled(w, ScaleFactor(w, h, size)) == size &&
                       FloorScaled(h, ScaleFactor(w, h, size)) == Proportional(h, size, w)
    ensures h >= w ==> FloorScaled(h, ScaleFactor(w, h, size)) == size &&
                       FloorScaled(w, ScaleFactor(w, h, size)) == Proportional(w, size, h)
  {
    if w >= h {
      ScaledSidesLong(size, w, h);
    }
    if h >= w {
      ScaledSidesLong(size, h, w);
    }
  }

  /** A 400 x 300 photograph gets a 150 x 112 thumbnail. */
  lemma LandscapeThumbnail()
    ensures ThumbnailSize(400, 300, 150) == (150, 112)
  {
  }

  // ---------------------------------------------------------------------------
  // The file system as the startup code sees it
  // ---------------------------------------------------------------------------

  /** What `is_file` / `is_dir` report for a path (they follow symbolic links,
      and report `false` for a path that cannot be inspected). */
  datatype Kind = RegularFile | Directory | Other

  /** A snapshot of the file system: `canonicalize`, the kind of each path,
      `read_dir` (each entry's path or the error reading it), and whether the
      watcher can be installed on a directory. */
  datatype Disk = Disk(
    canonicalize: Path -> Result<Path, IoError>,
    kind: Path -> Kind,
    readDir: Path -> Result<seq<Result<Path, IoError>>, IoError>,
    watch: Path -> Result<(), IoError>)

  /** The paths of `ps` of kind `k`, in order. */
  function FilterKind(disk: Disk, ps: seq<Path>, k: Kind): (r: seq<Path>)
    ensures |r| <= |ps|
    ensures forall p :: p in r <==> p in ps && disk.kind(p) == k
  {
    if ps == [] then []
    else
      var last := ps[|ps| - 1];
      FilterKind(disk, ps[..|ps| - 1], k) + (if disk.kind(last) == k then [last] else [])
  }

  /** Filtering keeps the input order: it distributes over concatenation. */
  lemma {:induction false} FilterKindAppend(disk: Disk, a: seq<Path>, b: seq<Path>, k: Kind)
    ensures FilterKind(disk, a + b, k) == FilterKind(disk, a, k) + FilterKind(disk, b, k)
    decreases |b|
  {
    if b != [] {
      var b' := b[..|b| - 1];
      assert (a + b)[..|a + b| - 1] == a + b';
      FilterKindAppend(disk, a, b', k);
    } else {
      assert a + b == a;
    }
  }

  /** `drain_files_dirs`: split the paths into files and directories, in input
      order, dropping paths that are neither. */
  method DrainFilesDirs(disk: Disk, paths: seq<Path>) returns (files: seq<Path>, dirs: seq<Path>)
    ensures files == FilterKind(disk, paths, RegularFile)
    ensures dirs == FilterKind(disk, paths, Directory)
  {
    files, dirs := [], [];
    for i := 0 to |paths|
      invariant files == FilterKind(disk, paths[..i], RegularFile)
      invariant dirs == FilterKind(disk, paths[..i], Directory)
    {
      assert paths[..i + 1][..i] == paths[..i];
      var path := paths[i];
      if disk.kind(path) == RegularFile {
        files := files + [path];
      } else if disk.kind(path) == Directory {
        dirs := dirs + [path];
      }
    }
    assert paths[..|paths|] == paths;
  }

  /** No path is both a file and a directory, so the two halves never share a path. */
  lemma DrainedHalvesDisjoint(disk: Disk, paths: seq<Path>)
    ensures forall p :: p in FilterKind(disk, paths, RegularFile) ==> p !in FilterKind(disk, paths, Directory)
  {
  }

  /** The paths of `ps` that are images, in order (`.filter(is_image)`). */
  function FilterImages(ps: seq<Path>, isImage: Path -> bool): (r: seq<Path>)
    ensures |r| <= |ps|
    ensures forall p :: p in r <==> p in ps && isImage(p)
  {
    if ps == [] then []
    else
      var last := ps[|ps| - 1];
      FilterImages(ps[..|ps| - 1], isImage) + (if isImage(last) then [last] else [])
  }

  /** Rust's `?` after pushing `xs`: a success gets `xs` in front, an error stays. */
  function Prepend(xs: seq<Path>, r: Result<seq<Path>, IoError>): Result<seq<Path>, IoError> {
    if r.Ok? then Ok(xs + r.value) else r
  }

  lemma PrependNil(r: Result<seq<Path>, IoError>)
    ensures Prepend([], r) == r
  {
    if r.Ok? {
      assert [] + r.value == r.value;
    }
  }

  lemma PrependAssoc(a: seq<Path>, b: seq<Path>, r: Result<seq<Path>, IoError>)
    ensures Prepend(a, Prepend(b, r)) == Prepend(a + b, r)
  {
    if r.Ok? {
      assert a + (b + r.value) == (a + b) + r.value;
    }
  }

  /** Whether a directory entry breaks the scan: it could not be read, or its
      path could not be canonicalized. */
  predicate EntryFails(disk: Disk, entry: Result<Path, IoError>) {
    entry.Err? || disk.canonicalize(entry.value).Err?
  }

  /** Whether a directory entry's canonical path is an image file. */
  predicate EntryIsImage(disk: Disk, isImage: Path -> bool, entry: Result<Path, IoError>, p: Path) {
    entry.Ok? && disk.canonicalize(entry.value) == Ok(p) && disk.kind(p) == RegularFile && isImage(p)
  }

  /** The loop of `collect_files` over the entries of a directory: the canonical
      paths of the entries that are image files, or the first error. */
  function ScanEntries(disk: Disk, isImage: Path -> bool, entries: seq<Result<Path, IoError>>)
    : (r: Result<seq<Path>, IoError>)
    ensures r.Err? <==> exists i :: 0 <= i < |entries| && EntryFails(disk, entries[i])
    ensures r.Ok? ==> forall p :: p in r.value <==>
      exists i :: 0 <= i < |entries| && EntryIsImage(disk, isImage, entries[i], p)
  {
    if entries == [] then Ok([])
    else
      var rest := ScanEntries(disk, isImage, entries[1..]);
      assert forall i :: 0 < i < |entries| ==> entries[i] == entries[1..][i - 1];
      match entries[0]
      case Err(e) => Err(e)
      case Ok(entry) =>
        match disk.canonicalize(entry)
        case Err(e) => Err(e)
        case Ok(p) =>
          Prepend(if disk.kind(p) == RegularFile && isImage(p) then [p] else [], rest)
  }

  /** `collect_files(dir)` as a value: the image files directly inside `dir`. */
  function ImagesIn(disk: Disk, isImage: Path -> bool, dir: Path): (r: Result<seq<Path>, IoError>)
    ensures r.Ok? ==> forall p :: p in r.value ==> disk.kind(p) == RegularFile && isImage(p)
  {
    match disk.readDir(dir)
    case Err(e) => Err(e)
    case Ok(entries) => ScanEntries(disk, isImage, entries)
  }

  /** `collect_files`: list `dir`, canonicalize each entry and keep the image
      files; the first error ends the listing. */
  method CollectFiles(disk: Disk, isImage: Path -> bool, dir: Path) returns (r: Result<seq<Path>, IoError>)
    ensures r == ImagesIn(disk, isImage, dir)
  {
    var entries :- disk.readDir(dir);
    var files := [];
    assert entries[0..] == entries;
    PrependNil(ScanEntries(disk, isImage, entries));
    for i := 0 to |entries|
      invariant ScanEntries(disk, isImage, entries) == Prepend(files, ScanEntries(disk, isImage, entries[i..]))
    {
      assert entries[i..][0] == entries[i] && entries[i..][1..] == entries[i + 1..];
      var entry :- entries[i];
      var path :- disk.canonicalize(entry);
      if disk.kind(path) == RegularFile && isImage(path) {
        PrependAssoc(files, [path], ScanEntries(disk, isImage, entries[i + 1..]));
        files := files + [path];
      } else {
        PrependNil(ScanEntries(disk, isImage, entries[i + 1..]));
      }
    }
    assert files + [] == files;
    return Ok(files);
  }

  /** The images of every directory of `dirs`, in order, or the first error. */
  function CollectAll(disk: Disk, isImage: Path -> bool, dirs: seq<Path>): (r: Result<seq<Path>, IoError>)
    ensures r.Ok? ==> forall p :: p in r.value ==> disk.kind(p) == RegularFile && isImage(p)
    ensures r.Ok? ==> forall i :: 0 <= i < |dirs| ==> ImagesIn(disk, isImage, dirs[i]).Ok?
    ensures r.Err? <==> exists i :: 0 <= i < |dirs| && ImagesIn(disk, isImage, dirs[i]).Err?
    ensures r.Err? ==>
      exists i :: 0 <= i < |dirs| && ImagesIn(disk, isImage, dirs[i]) == Err(r.error) &&
                  forall j :: 0 <= j < i ==> ImagesIn(disk, isImage, dirs[j]).Ok?
  {
    if dirs == [] then Ok([])
    else
      var found :- ImagesIn(disk, isImage, dirs[0]);
      var rest :- CollectAll(disk, isImage, dirs[1..]);
      assert forall i :: 0 < i < |dirs| ==> dirs[i] == dirs[1..][i - 1];
      Ok(found + rest)
  }

  /** What `CollectAll` returns contains every image of every directory. */
  lemma {:induction false} CollectAllCovers(disk: Disk, isImage: Path -> bool, dirs: seq<Path>, i: nat)
    requires i < |dirs| && CollectAll(disk, isImage, dirs).Ok?
    ensures forall p :: p in ImagesIn(disk, isImage, dirs[i]).value ==> p in CollectAll(disk, isImage, dirs).value
  {
    if i > 0 {
      assert dirs[i] == dirs[1..][i - 1];
      CollectAllCovers(disk, isImage, dirs[1..], i - 1);
    }
  }

  /** `paths.iter().map(canonicalize).collect::<Result<Vec<_>, _>>()`. */
  function CanonicalizeAll(disk: Disk, paths: seq<Path>): (r: Result<seq<Path>, IoError>)
    ensures r.Err? <==> exists i :: 0 <= i < |paths| && disk.canonicalize(paths[i]).Err?
    ensures r.Ok? ==> |r.value| == |paths|
    ensures r.Ok? ==> forall i :: 0 <= i < |paths| ==> disk.canonicalize(paths[i]) == Ok(r.value[i])
    ensures r.Err? ==>
      exists i :: 0 <= i < |paths| && disk.canonicalize(paths[i]) == Err(r.error) &&
                  forall j :: 0 <= j < i ==> disk.canonicalize(paths[j]).Ok?
  {
    if paths == [] then Ok([])
    else
      var c :- disk.canonicalize(paths[0]);
      var rest :- CanonicalizeAll(disk, paths[1..]);
      assert forall i :: 0 < i < |paths| ==> paths[i] == paths[1..][i - 1];
      Ok([c] + rest)
  }

  /** The parents of the given paths (the root has none). */
  function ParentsOf(fs: seq<Path>): set<Path> {
    if fs == [] then {}
    else
      var last := fs[|fs| - 1];
      ParentsOf(fs[..|fs| - 1]) + (match last.Parent() case Some(d) => {d} case None => {})
  }

  /** The parents collected are exactly those of the given paths. */
  lemma {:induction false} ParentsOfMembers(fs: seq<Path>)
    ensures forall d :: d in ParentsOf(fs) <==> exists f :: f in fs && f.Parent() == Some(d)
  {
    if fs != [] {
      var init, last := fs[..|fs| - 1], fs[|fs| - 1];
      ParentsOfMembers(init);
      assert fs == init + [last];
      forall d | d in ParentsOf(fs) ensures exists f :: f in fs && f.Parent() == Some(d) {
        if d !in ParentsOf(init) {
          assert last.Parent() == Some(d);
        }
      }
    }
  }

  /** Adding a path adds its parent, if it has one. */
  lemma ParentsOfSnoc(fs: seq<Path>, f: Path)
    ensures ParentsOf(fs + [f]) == ParentsOf(fs) + (if f.Parent().Some? then {f.Parent().value} else {})
  {
    assert (fs + [f])[..|fs|] == fs;
  }

  /** The only element of a one-element set. */
  lemma SingletonElement<T>(s: set<T>, x: T)
    requires |s| == 1 && x in s
    ensures s == {x}
  {
    var rest := s - {x};
    assert |rest| == 0;
    assert rest == {};
  }

  /** The stages of `select_root_and_files` on non-empty input, once the paths
      are canonical: the explicit image files, the explicit directories and the
      images found in them. */
  ghost function ExplicitImages(disk: Disk, isImage: Path -> bool, canon: seq<Path>): seq<Path> {
    FilterImages(FilterKind(disk, canon, RegularFile), isImage)
  }

  /** The directories that could be watched: the explicit ones and the parents
      of every file found so far. */
  ghost function Candidates(dirs: seq<Path>, files: seq<Path>): set<Path> {
    Elements(dirs) + ParentsOf(files)
  }

  /** The end of `select_root_and_files`: with exactly one candidate
      directory, watch it and add its images; otherwise watch nothing. */
  ghost function ChooseRoot(disk: Disk, isImage: Path -> bool, dirs: seq<Path>, files: seq<Path>)
    : Result<(Option<Path>, set<Path>), IoError>
  {
    var candidates := Candidates(dirs, files);
    if |candidates| == 1 then
      var d :| d in candidates;
      var more :- ImagesIn(disk, isImage, d);
      Ok((Some(d), Elements(files + more)))
    else
      Ok((None, Elements(files)))
  }

  /** `select_root_and_files` as a value: the directory to watch, which exists
      exactly when there is one candidate directory, and the set of image files
      to show, which then includes that directory's images. */
  ghost function Resolve(disk: Disk, isImage: Path -> bool, paths: seq<Path>)
    : Result<(Option<Path>, set<Path>), IoError>
  {
    if paths == [] then Ok((None, {}))
    else
      var canon :- CanonicalizeAll(disk, paths);
      var dirs := FilterKind(disk, canon, Directory);
      var found :- CollectAll(disk, isImage, dirs);
      ChooseRoot(disk, isImage, dirs, ExplicitImages(disk, isImage, canon) + found)
  }

  /** The loop of `select_root_and_files` over the explicit directories:
      append the images of each, stopping at the first error. */
  method ExtendWithDirectoryImages(disk: Disk, isImage: Path -> bool, files: seq<Path>, dirs: seq<Path>)
    returns (r: Result<seq<Path>, IoError>)
    ensures r == Prepend(files, CollectAll(disk, isImage, dirs))
  {
    var acc := files;
    for i := 0 to |dirs|
      invariant Prepend(files, CollectAll(disk, isImage, dirs)) ==
        Prepend(acc, CollectAll(disk, isImage, dirs[i..]))
    {
      assert dirs[i..][1..] == dirs[i + 1..];
      var newFiles :- CollectFiles(disk, isImage, dirs[i]);
      PrependAssoc(acc, newFiles, CollectAll(disk, isImage, dirs[i + 1..]));
      acc := acc + newFiles;
    }
    assert acc + [] == acc;
    return Ok(acc);
  }

  /** The loop of `select_root_and_files` that inserts the parent of every
      file into the set of explicit directories. */
  method CandidateDirs(dirs: seq<Path>, files: seq<Path>) returns (dirSet: set<Path>)
    ensures dirSet == Candidates(dirs, files)
  {
    dirSet := Elements(dirs);
    for i := 0 to |files|
      invariant dirSet == Elements(dirs) + ParentsOf(files[..i])
    {
      assert files[..i + 1] == files[..i] + [files[i]];
      ParentsOfSnoc(files[..i], files[i]);
      var parent := files[i].Parent();
      if parent.Some? {
        dirSet := dirSet + {parent.value};
      }
    }
    assert files[..|files|] == files;
  }

  /** `select_root_and_files`. */
  method SelectRootAndFiles(disk: Disk, isImage: Path -> bool, paths: seq<Path>)
    returns (r: Result<(Option<Path>, set<Path>), IoError>)
    ensures r == Resolve(disk, isImage, paths)
  {
    if |paths| == 0 {
      return Ok((None, {}));
    }
    var canon :- CanonicalizeAll(disk, paths);
    var explicitFiles, dirs := DrainFilesDirs(disk, canon);
    var files := FilterImages(explicitFiles, isImage);
    files :- ExtendWithDirectoryImages(disk, isImage, files, dirs);
    var dirSet := CandidateDirs(dirs, files);
    var root := None;
    if |dirSet| == 1 {
      var dir :| dir in dirSet;
      SingletonElement(dirSet, dir);
      var newFiles :- CollectFiles(disk, isImage, dir);
      files := files + newFiles;
      root := Some(dir);
    }
    return Ok((root, Elements(files)));
  }

  // ---------------------------------------------------------------------------
  // What the resolution promises
  // ---------------------------------------------------------------------------

  /** Without paths nothing is shown and nothing is watched. */
  lemma ResolveEmpty(disk: Disk, isImage: Path -> bool)
    ensures Resolve(disk, isImage, []) == Ok((None, {}))
  {
  }

  /** The stages a successful resolution of non-empty input went through. */
  lemma ResolveStages(disk: Disk, isImage: Path -> bool, paths: seq<Path>)
    requires paths != [] && Resolve(disk, isImage, paths).Ok?
    ensures CanonicalizeAll(disk, paths).Ok?
    ensures var canon := CanonicalizeAll(disk, paths).value;
      var dirs := FilterKind(disk, canon, Directory);
      CollectAll(disk, isImage, dirs).Ok? &&
      Resolve(disk, isImage, paths) ==
        ChooseRoot(disk, isImage, dirs, ExplicitImages(disk, isImage, canon) + CollectAll(disk, isImage, dirs).value)
  {
  }

  /** The final stage shows every file found, and besides them only images of
      the directory it watches. */
  lemma ChooseRootShows(disk: Disk, isImage: Path -> bool, dirs: seq<Path>, files: seq<Path>)
    requires ChooseRoot(disk, isImage, dirs, files).Ok?
    ensures var (root, shown) := ChooseRoot(disk, isImage, dirs, files).value;
      (forall f | f in files :: f in shown) &&
      (forall f | f in shown :: f in files ||
        (root.Some? && ImagesIn(disk, isImage, root.value).Ok? && f in ImagesIn(disk, isImage, root.value).value))
  {
  }

  /** Every file shown is an image and a regular file. */
  lemma ResolvedFilesAreImages(disk: Disk, isImage: Path -> bool, paths: seq<Path>, f: Path)
    requires Resolve(disk, isImage, paths).Ok? && f in Resolve(disk, isImage, paths).value.1
    ensures isImage(f) && disk.kind(f) == RegularFile
  {
    ResolveStages(disk, isImage, paths);
    var canon := CanonicalizeAll(disk, paths).value;
    var dirs := FilterKind(disk, canon, Directory);
    ChooseRootShows(disk, isImage, dirs, ExplicitImages(disk, isImage, canon) + CollectAll(disk, isImage, dirs).value);
  }

  /** A path that cannot be canonicalized makes the whole selection fail. */
  lemma CanonicalizeFailureFails(disk: Disk, isImage: Path -> bool, paths: seq<Path>, i: nat)
    requires i < |paths| && disk.canonicalize(paths[i]).Err?
    ensures Resolve(disk, isImage, paths).Err?
  {
  }

  /** Every explicitly named image file is shown. */
  lemma ExplicitImagesShown(disk: Disk, isImage: Path -> bool, paths: seq<Path>, i: nat, c: Path)
    requires i < |paths| && disk.canonicalize(paths[i]) == Ok(c)
    requires disk.kind(c) == RegularFile && isImage(c)
    requires Resolve(disk, isImage, paths).Ok?
    ensures c in Resolve(disk, isImage, paths).value.1
  {
    ResolveStages(disk, isImage, paths);
    var canon := CanonicalizeAll(disk, paths).value;
    var dirs := FilterKind(disk, canon, Directory);
    assert canon[i] == c;
    assert c in ExplicitImages(disk, isImage, canon);
    ChooseRootShows(disk, isImage, dirs, ExplicitImages(disk, isImage, canon) + CollectAll(disk, isImage, dirs).value);
  }

  /** Every image inside an explicitly named directory is shown. */
  lemma DirectoryImagesShown(disk: Disk, isImage: Path -> bool, paths: seq<Path>, i: nat, d: Path, f: Path)
    requires i < |paths| && disk.canonicalize(paths[i]) == Ok(d) && disk.kind(d) == Directory
    requires Resolve(disk, isImage, paths).Ok?
    requires ImagesIn(disk, isImage, d).Ok? && f in ImagesIn(disk, isImage, d).value
    ensures f in Resolve(disk, isImage, paths).value.1
  {
    ResolveStages(disk, isImage, paths);
    var canon := CanonicalizeAll(disk, paths).value;
    var dirs := FilterKind(disk, canon, Directory);
    assert canon[i] == d;
    assert d in dirs;
    var j :| 0 <= j < |dirs| && dirs[j] == d;
    CollectAllCovers(disk, isImage, dirs, j);
    ChooseRootShows(disk, isImage, dirs, ExplicitImages(disk, isImage, canon) + CollectAll(disk, isImage, dirs).value);
  }

  /** Two different candidate directories leave nothing to watch. */
  lemma TwoCandidatesNoRoot(disk: Disk, isImage: Path -> bool, dirs: seq<Path>, files: seq<Path>, d1: Path, d2: Path)
    requires d1 != d2 && d1 in Candidates(dirs, files) && d2 in Candidates(dirs, files)
    ensures ChooseRoot(disk, isImage, dirs, files) == Ok((None, Elements(files)))
  {
    var candidates := Candidates(dirs, files);
    if |candidates| == 1 {
      SingletonElement(candidates, d1);
      assert false;
    }
  }

  /** Two different directories named on the command line leave nothing to watch. */
  lemma TwoDirectoriesNoRoot(disk: Disk, isImage: Path -> bool, paths: seq<Path>,
                             i: nat, j: nat, d1: Path, d2: Path)
    requires i < |paths| && j < |paths| && d1 != d2
    requires disk.canonicalize(paths[i]) == Ok(d1) && disk.kind(d1) == Directory
    requires disk.canonicalize(paths[j]) == Ok(d2) && disk.kind(d2) == Directory
    requires Resolve(disk, isImage, paths).Ok?
    ensures Resolve(disk, isImage, paths).value.0 == None
  {
    ResolveStages(disk, isImage, paths);
    var canon := CanonicalizeAll(disk, paths).value;
    assert canon[i] == d1 && canon[j] == d2;
    var dirs := FilterKind(disk, canon, Directory);
    assert d1 in dirs && d2 in dirs;
    TwoCandidatesNoRoot(disk, isImage, dirs, ExplicitImages(disk, isImage, canon) + CollectAll(disk, isImage, dirs).value, d1, d2);
  }

  /** The root is watched exactly when the candidate directories are that one
      directory. */
  lemma RootIsSoleCandidate(disk: Disk, isImage: Path -> bool, paths: seq<Path>, d: Path)
    requires paths != [] && Resolve(disk, isImage, paths).Ok?
    ensures var canon := CanonicalizeAll(disk, paths).value;
      var dirs := FilterKind(disk, canon, Directory);
      var files := ExplicitImages(disk, isImage, canon) + CollectAll(disk, isImage, dirs).value;
      Resolve(disk, isImage, paths).value.0 == Some(d) <==> Candidates(dirs, files) == {d}
  {
    ResolveStages(disk, isImage, paths);
    var canon := CanonicalizeAll(disk, paths).value;
    var dirs := FilterKind(disk, canon, Directory);
    var files := ExplicitImages(disk, isImage, canon) + CollectAll(disk, isImage, dirs).value;
    var candidates := Candidates(dirs, files);
    if |candidates| == 1 {
      var e :| e in candidates;
      SingletonElement(candidates, e);
    }
  }

  /** A single regular image file resolves to itself and no directory. */
  lemma SingleImageStages(disk: Disk, isImage: Path -> bool, p: Path, c: Path)
    requires disk.canonicalize(p) == Ok(c) && disk.kind(c) == RegularFile && isImage(c)
    ensures Resolve(disk, isImage, [p]) == ChooseRoot(disk, isImage, [], [c])
  {
    var canon := [c];
    assert CanonicalizeAll(disk, [p]) == Ok(canon) by {
      var r := CanonicalizeAll(disk, [p]);
      assert forall i :: 0 <= i < |[p]| ==> [p][i] == p;
      assert r.Ok?;
      assert disk.canonicalize([p][0]) == Ok(r.value[0]);
      assert r.value == [c];
    }
    assert canon[..0] == [];
    assert FilterKind(disk, canon, Directory) == [];
    assert FilterKind(disk, canon, RegularFile) == [c];
    assert ExplicitImages(disk, isImage, canon) == [c];
    assert CollectAll(disk, isImage, []) == Ok([]);
    assert [c] + [] == [c];
  }

  /** With no directory and one file, the file's folder is the root. */
  lemma SingleFileChoosesParent(disk: Disk, isImage: Path -> bool, c: Path, d: Path, siblings: seq<Path>)
    requires c.Parent() == Some(d)
    requires ImagesIn(disk, isImage, d) == Ok(siblings)
    ensures ChooseRoot(disk, isImage, [], [c]) == Ok((Some(d), {c} + Elements(siblings)))
  {
    var files := [c];
    assert ParentsOf(files) == {d} by {
      assert files[..0] == [];
    }
    var noDirs: seq<Path> := [];
    assert Elements(noDirs) == {};
    assert Candidates(noDirs, files) == {d};
    assert Elements(files + siblings) == {c} + Elements(siblings);
  }

  /** Opening one image shows it with every image beside it, and watches its folder. */
  lemma SingleImageOpensItsFolder(disk: Disk, isImage: Path -> bool, p: Path, c: Path, d: Path, siblings: seq<Path>)
    requires disk.canonicalize(p) == Ok(c) && disk.kind(c) == RegularFile && isImage(c)
    requires c.Parent() == Some(d)
    requires ImagesIn(disk, isImage, d) == Ok(siblings)
    ensures Resolve(disk, isImage, [p]) == Ok((Some(d), {c} + Elements(siblings)))
  {
    SingleImageStages(disk, isImage, p, c);
    SingleFileChoosesParent(disk, isImage, c, d, siblings);
  }

  // ---------------------------------------------------------------------------
  // The file-system handle the viewer holds
  // ---------------------------------------------------------------------------

  /** A read the thread pools were asked to perform. */
  datatype Job = FullRead(path: Path) | ThumbnailRead(path: Path, size: nat)

  /** `FileSystem`: the receiving end of the event channel, the log of reads
      handed to the thread pools, and the watched directory. */
  class FileSystem {
    var receiver: seq<FileSystemEvent>
    var jobs: seq<Job>
    const watched: Option<Path>

    constructor (watched: Option<Path>)
      ensures receiver == [] && jobs == [] && this.watched == watched
    {
      receiver := [];
      jobs := [];
      this.watched := watched;
    }

    /** `FileSystem::start`: resolve the paths, watch the root if there is one,
        and queue one `Added` event per file, in the set's order. */
    static method Start(disk: Disk, isImage: Path -> bool, paths: seq<Path>)
      returns (r: Result<FileSystem, IoError>)
      ensures Resolve(disk, isImage, paths).Err? ==> r == Err(Resolve(disk, isImage, paths).error)
      ensures Resolve(disk, isImage, paths).Ok? ==>
        var (root, files) := Resolve(disk, isImage, paths).value;
        (root.Some? && disk.watch(root.value).Err? ==> r == Err(disk.watch(root.value).error)) &&
        (r.Ok? ==>
          fresh(r.value) && r.value.watched == root && r.value.jobs == [] &&
          |r.value.receiver| == |files| &&
          (forall e | e in r.value.receiver :: e.File? && e.fileEvent.Added? && e.fileEvent.path in files) &&
          (forall f | f in files :: File(Added(f)) in r.value.receiver))
      ensures r.Err? ==>
        (Resolve(disk, isImage, paths).Err? ||
         (Resolve(disk, isImage, paths).value.0.Some? &&
          disk.watch(Resolve(disk, isImage, paths).value.0.value).Err?))
    {
      var selected :- SelectRootAndFiles(disk, isImage, paths);
      var (root, files) := selected;
      if root.Some? {
        var _ :- disk.watch(root.value);
      }
      var fs := new FileSystem(root);
      var remaining := files;
      while remaining != {}
        invariant remaining <= files
        invariant fs.watched == root && fs.jobs == []
        invariant |fs.receiver| + |remaining| == |files|
        invariant forall e | e in fs.receiver ::
          e.File? && e.fileEvent.Added? && e.fileEvent.path in files - remaining
        invariant forall f | f in files - remaining :: File(Added(f)) in fs.receiver
        decreases |remaining|
      {
        var file :| file in remaining;
        fs.receiver := fs.receiver + [File(Added(file))];
        remaining := remaining - {file};
      }
      return Ok(fs);
    }

    /** `read_file`: hand a full read of `path` to the image pool. */
    method ReadFile(path: Path)
      modifies this
      ensures jobs == old(jobs) + [FullRead(path)]
      ensures receiver == old(receiver)
    {
      jobs := jobs + [FullRead(path)];
    }

    /** `read_thumbnail`: hand a thumbnail read of `path` to the thumbnail pool. */
    method ReadThumbnail(path: Path, size: nat)
      modifies this
      ensures jobs == old(jobs) + [ThumbnailRead(path, size)]
      ensures receiver == old(receiver)
    {
      jobs := jobs + [ThumbnailRead(path, size)];
    }

    /** One turn of the funnel thread: classify or forward one internal event
        onto the viewer's channel, which is alive as long as the viewer holds
        this handle. */
    method Forward(event: InternalFSEvent, isImage: Path -> bool)
      modifies this
      ensures event.Notify? ==>
        receiver == ProcessNotifyEvent(event.notifyEvent, isImage, Channel(old(receiver), true)).0.sent
      ensures event.Op? ==> receiver == old(receiver) + [Operation(event.opEvent)]
      ensures jobs == old(jobs)
    {
      var ch := Channel(receiver, true);
      var res;
      match event {
        case Notify(e) => ch, res := ProcessNotifyEvent(e, isImage, ch).0, ProcessNotifyEvent(e, isImage, ch).1;
        case Op(e) => ch, res := ProcessOperationEvent(e, ch).0, ProcessOperationEvent(e, ch).1;
      }
      receiver := ch.sent;
    }

    /** `receiver.try_recv()`: take the oldest queued event, if any. */
    method TryRecv() returns (e: Option<FileSystemEvent>)
      modifies this
      ensures old(receiver) == [] ==> e == None && receiver == []
      ensures old(receiver) != [] ==> e == Some(old(receiver)[0]) && receiver == old(receiver)[1..]
      ensures jobs == old(jobs)
    {
      if receiver == [] {
        return None;
      }
      e := Some(receiver[0]);
      receiver := receiver[1..];
    }
  }
}
