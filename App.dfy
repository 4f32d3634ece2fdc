// `main.rs`: the viewer's bookkeeping. `IMViewApp` keeps the list of image
// files, a view state per file, a thumbnail cache, a full-image cache and the
// image on show, and updates them for every event the file-system side sends.
module App {
  import opened Common
  import opened Paths
  import opened Filesystem
  import opened Images
  import opened Viewport

  /** `THUMBNAIL_SIZE`: the side, in pixels, thumbnails are requested at. */
  const THUMBNAIL_SIZE: nat := 150

  /** `retain(|p| p != &path)`: every occurrence of `p` dropped, the rest in order. */
  function RemoveAll(s: seq<Path>, p: Path): (r: seq<Path>)
    ensures forall x :: x in r <==> x in s && x != p
    ensures |r| <= |s|
    ensures p !in s ==> r == s
  {
    if s == [] then []
    else (if s[0] == p then [] else [s[0]]) + RemoveAll(s[1..], p)
  }

  /** Removing keeps the relative order: it distributes over concatenation. */
  lemma {:induction false} RemoveAllAppend(a: seq<Path>, b: seq<Path>, p: Path)
    ensures RemoveAll(a + b, p) == RemoveAll(a, p) + RemoveAll(b, p)
  {
    if a == [] {
      assert a + b == b;
    } else {
      assert (a + b)[0] == a[0] && (a + b)[1..] == a[1..] + b;
      RemoveAllAppend(a[1..], b, p);
      var h := if a[0] == p then [] else [a[0]];
      assert RemoveAll(a + b, p) == h + (RemoveAll(a[1..], p) + RemoveAll(b, p));
      assert h + (RemoveAll(a[1..], p) + RemoveAll(b, p)) == (h + RemoveAll(a[1..], p)) + RemoveAll(b, p);
    }
  }

  /** `iter().position(|p| p == &path)` on a path that is present: its first index. */
  function IndexOf(s: seq<Path>, p: Path): (i: nat)
    requires p in s
    ensures i < |s| && s[i] == p
    ensures forall j :: 0 <= j < i ==> s[j] != p
  {
    if s[0] == p then 0
    else
      assert p in s[1..];
      1 + IndexOf(s[1..], p)
  }

  // ---------------------------------------------------------------------------
  // The bookkeeping as values: the file list and the keys of the three maps
  // ---------------------------------------------------------------------------

  /** What the event handlers change: the file list, which paths have a view
      state, which have a cached thumbnail, which a cached full image. */
  datatype Books = Books(files: seq<Path>, states: set<Path>, thumbnails: set<Path>, fullImages: set<Path>)

  /** A rename needs the old path listed and with a view state (`rename_file` unwraps both lookups). */
  predicate CanRename(b: Books, e: FileEvent) {
    e.Renamed? ==> e.oldPath in b.files && e.oldPath in b.states
  }

  /** The effect of `process_file_event` on the books. A rename that would
      panic leaves the books alone; `RenamesTracked` keeps it from happening. */
  function FileStep(b: Books, e: FileEvent): Books {
    match e
    case Added(p) => b.(files := b.files + [p], states := b.states + {p})
    case Removed(p) => Books(RemoveAll(b.files, p), b.states - {p}, b.thumbnails - {p}, b.fullImages - {p})
    case Modified(p) => b.(thumbnails := b.thumbnails - {p}, fullImages := b.fullImages - {p})
    case Renamed(o, n) =>
      if o in b.files && o in b.states then
        Books(b.files[IndexOf(b.files, o) := n], b.states - {o} + {n},
              if o in b.thumbnails then b.thumbnails - {o} + {n} else b.thumbnails,
              if o in b.fullImages then b.fullImages - {o} + {n} else b.fullImages)
      else b
  }

  /** The effect of one received event on the books. */
  function Step(b: Books, ev: FileSystemEvent): Books {
    match ev
    case File(e) => FileStep(b, e)
    case Operation(ThumbnailLoaded(p, _)) => b.(thumbnails := b.thumbnails + {p})
    case Operation(ImageLoaded(p, _)) => b.(fullImages := b.fullImages + {p})
  }

  /** The reads one received event asks for. */
  function EventJobs(ev: FileSystemEvent): seq<Job> {
    match ev
    case File(Added(p)) => [ThumbnailRead(p, THUMBNAIL_SIZE)]
    case File(Modified(p)) => [ThumbnailRead(p, THUMBNAIL_SIZE)]
    case _ => []
  }

  /** The paths whose map entries one received event may change. */
  function EventTouches(ev: FileSystemEvent): set<Path> {
    match ev
    case File(Added(p)) => {p}
    case File(Removed(p)) => {p}
    case File(Modified(p)) => {p}
    case File(Renamed(o, n)) => {o, n}
    case Operation(e) => {e.path}
  }

  /** The paths whose map entries the events of `q` may change. */
  function BatchTouches(q: seq<FileSystemEvent>): set<Path> {
    if q == [] then {} else BatchTouches(q[..|q| - 1]) + EventTouches(q[|q| - 1])
  }

  /** Every entry of `before` whose path is outside `touched` is in `after` unchanged. */
  ghost predicate KeptOutside<V>(before: map<Path, V>, after: map<Path, V>, touched: set<Path>) {
    forall p | p in before && p !in touched :: p in after && after[p] == before[p]
  }

  /** Entries kept by two steps are kept by both together. */
  lemma KeptOutsideTrans<V>(m0: map<Path, V>, m1: map<Path, V>, m2: map<Path, V>, t1: set<Path>, t2: set<Path>)
    requires KeptOutside(m0, m1, t1) && KeptOutside(m1, m2, t2)
    ensures KeptOutside(m0, m2, t1 + t2)
  {
  }

  /** The books after handling the events of `q` in order. */
  function Replay(b: Books, q: seq<FileSystemEvent>): Books {
    if q == [] then b else Step(Replay(b, q[..|q| - 1]), q[|q| - 1])
  }

  /** The reads asked for while handling the events of `q`, in order. */
  function ReplayJobs(q: seq<FileSystemEvent>): seq<Job> {
    if q == [] then [] else ReplayJobs(q[..|q| - 1]) + EventJobs(q[|q| - 1])
  }

  /** Whether `q` holds a file event. */
  predicate HasFileEvent(q: seq<FileSystemEvent>) {
    q != [] && (q[|q| - 1].File? || HasFileEvent(q[..|q| - 1]))
  }

  /** Every rename in `q` finds its old path listed and with a view state at the
      moment it is handled. */
  predicate RenamesTracked(b: Books, q: seq<FileSystemEvent>)
    decreases |q|
  {
    q == [] ||
    ((q[0].File? ==> CanRename(b, q[0].fileEvent)) && RenamesTracked(Step(b, q[0]), q[1..]))
  }

  /** Handling one more event of `q` extends the replay by one step. */
  lemma ReplaySnoc(b: Books, q: seq<FileSystemEvent>, k: nat)
    requires k < |q|
    ensures Replay(b, q[..k + 1]) == Step(Replay(b, q[..k]), q[k])
    ensures ReplayJobs(q[..k + 1]) == ReplayJobs(q[..k]) + EventJobs(q[k])
    ensures HasFileEvent(q[..k + 1]) == (q[k].File? || HasFileEvent(q[..k]))
    ensures BatchTouches(q[..k + 1]) == BatchTouches(q[..k]) + EventTouches(q[k])
  {
    assert q[..k + 1][..k] == q[..k];
  }

  /** The rename precondition for the rest of `q` splits into one for its
      next event and one for what follows. */
  lemma RenamesTrackedHead(b: Books, q: seq<FileSystemEvent>, k: nat)
    requires k < |q| && RenamesTracked(b, q[k..])
    ensures q[k].File? ==> CanRename(b, q[k].fileEvent)
    ensures RenamesTracked(Step(b, q[k]), q[k + 1..])
  {
    assert q[k..][0] == q[k] && q[k..][1..] == q[k + 1..];
  }

  /** Every loaded image in `q` is a well-formed pixel buffer. */
  ghost predicate LoadsWellFormed(q: seq<FileSystemEvent>) {
    forall i :: 0 <= i < |q| && q[i].Operation? && q[i].operationEvent.image.Ok? ==>
      q[i].operationEvent.image.value.Valid()
  }

  /** Every view state belongs to a listed file. */
  predicate StatesListed(b: Books) {
    b.states <= Elements(b.files)
  }

  /** Handling an event keeps every view state attached to a listed file. */
  lemma StepKeepsStatesListed(b: Books, ev: FileSystemEvent)
    requires StatesListed(b)
    ensures StatesListed(Step(b, ev))
  {
    if ev.File? && ev.fileEvent.Renamed? {
      var o, n := ev.fileEvent.oldPath, ev.fileEvent.newPath;
      if o in b.files && o in b.states {
        var i := IndexOf(b.files, o);
        var files := b.files[i := n];
        forall x | x in b.states - {o} + {n} ensures x in files {
          if x == n {
            assert files[i] == n;
          } else {
            assert x in b.files;
            var j :| 0 <= j < |b.files| && b.files[j] == x;
            assert j != i && files[j] == x;
          }
        }
      }
    } else if ev.File? && ev.fileEvent.Added? {
      assert ev.fileEvent.path in b.files + [ev.fileEvent.path];
    }
  }

  /** ... and so does a whole batch, sorted or not. */
  lemma {:induction false} ReplayKeepsStatesListed(b: Books, q: seq<FileSystemEvent>)
    requires StatesListed(b)
    ensures StatesListed(Replay(b, q))
    ensures StatesListed(Replay(b, q).(files := SortPaths(Replay(b, q).files)))
  {
    if q != [] {
      ReplayKeepsStatesListed(b, q[..|q| - 1]);
      StepKeepsStatesListed(Replay(b, q[..|q| - 1]), q[|q| - 1]);
    }
    var r := Replay(b, q);
    var sorted := SortPaths(r.files);
    forall x | x in r.states ensures x in sorted {
      assert x in multiset(r.files);
    }
  }

  /** A batch without file events leaves the file list and the view states alone. */
  lemma {:induction false} NoFileEventsKeepFiles(b: Books, q: seq<FileSystemEvent>)
    requires !HasFileEvent(q)
    ensures Replay(b, q).files == b.files && Replay(b, q).states == b.states
  {
    if q != [] {
      NoFileEventsKeepFiles(b, q[..|q| - 1]);
    }
  }

  /** The watcher passes on the rename of any file in the directory, images or
      not; handling it panics when the old path was never listed. */
  lemma UnlistedRenameIsNotTracked(b: Books, o: Path, n: Path, isImage: Path -> bool)
    requires o !in b.files
    ensures var sent := ProcessNotifyEvent(Rename(o, n), isImage, Channel([], true)).0.sent;
      sent == [File(Renamed(o, n))] && !RenamesTracked(b, sent)
  {
  }

  /** The image on show after a batch: kept when the batch had no file events;
      otherwise cleared when no file is left, set to the first file when there
      was none, and kept otherwise. */
  function BatchCurrent(current: Option<Path>, hadFileEvents: bool, sorted: seq<Path>): Option<Path> {
    if !hadFileEvents then current
    else if sorted == [] then None
    else if current.None? then Some(sorted[0])
    else current
  }

  /** Removing the image on show while others remain keeps it on show: the
      view then names a path that has no view state, which the drawing code
      looks up with `unwrap`. */
  lemma RemovedCurrentStaysCurrent()
    ensures var a, c := Path(["a.png"]), Path(["c.png"]);
      var b := Books([a, c], {a, c}, {}, {});
      var q := [File(Removed(a))];
      var after := Replay(b, q);
      RenamesTracked(b, q) &&
      BatchCurrent(Some(a), HasFileEvent(q), SortPaths(after.files)) == Some(a) &&
      a !in after.states
  {
    var a, c := Path(["a.png"]), Path(["c.png"]);
    var q := [File(Removed(a))];
    assert q[..0] == [];
    assert RemoveAll([a, c], a) == [c] by {
      assert [a, c][1..] == [c];
      assert [c][1..] == [];
    }
    assert SortPaths([c]) == [c] by {
      assert [c][1..] == [];
    }
  }

  /** Renaming the image on show keeps the old path on show: it is then neither
      listed nor has a view state, which the drawing code looks up with
      `unwrap`. */
  lemma RenamedCurrentStaysCurrent()
    ensures var a, n := Path(["a.png"]), Path(["b.png"]);
      var b := Books([a], {a}, {}, {});
      var q := [File(Renamed(a, n))];
      var after := Replay(b, q);
      RenamesTracked(b, q) &&
      BatchCurrent(Some(a), HasFileEvent(q), SortPaths(after.files)) == Some(a) &&
      a !in after.files && a !in after.states
  {
    var a, n := Path(["a.png"]), Path(["b.png"]);
    var q := [File(Renamed(a, n))];
    assert q[..0] == [];
    assert [a][IndexOf([a], a) := n] == [n];
    assert SortPaths([n]) == [n] by {
      assert [n][1..] == [];
    }
  }

  /** When nothing was on show, or what was on show is still listed, the image
      on show after a batch is listed, and there is one exactly when the list
      is not empty. */
  lemma BatchCurrentListed(current: Option<Path>, files: seq<Path>)
    requires current.None? || current.value in files
    ensures var c := BatchCurrent(current, true, SortPaths(files));
      (c.None? <==> files == []) && (c.Some? ==> c.value in files)
  {
    var sorted := SortPaths(files);
    if files != [] {
      assert files[0] in multiset(sorted);
      assert sorted[0] in multiset(files);
    } else {
      assert |sorted| == |multiset(sorted)| == 0;
    }
  }

  // ---------------------------------------------------------------------------
  // The viewer
  // ---------------------------------------------------------------------------

  /** `IMViewApp`, without the egui context. `full_images_cache` is a map: the
      ten-entry eviction of `SizedCache` is not modelled. */
  class IMViewApp {
    const fileSystem: FileSystem
    var currentImage: Option<Path>
    var imageFiles: seq<Path>
    var imageStates: map<Path, ImageUIState>
    var thumbnailsCache: map<Path, ImageData>
    var fullImagesCache: map<Path, ImageData>

    /** The books of this viewer. */
    ghost function Bookkeeping(): Books
      reads this
    {
      Books(imageFiles, imageStates.Keys, thumbnailsCache.Keys, fullImagesCache.Keys)
    }

    /** Every map entry of a path outside `touched` is the one in the given maps. */
    ghost predicate AgreesOutside(states: map<Path, ImageUIState>, thumbs: map<Path, ImageData>,
                                  full: map<Path, ImageData>, touched: set<Path>)
      reads this
    {
      KeptOutside(states, imageStates, touched) &&
      KeptOutside(thumbs, thumbnailsCache, touched) &&
      KeptOutside(full, fullImagesCache, touched)
    }

    /** The three maps after `process_file_event(e)`, given those before. */
    ghost predicate FileStepMaps(e: FileEvent, states: map<Path, ImageUIState>,
                                 thumbs: map<Path, ImageData>, full: map<Path, ImageData>)
      reads this
    {
      match e
      case Added(p) =>
        p in imageStates && imageStates == states[p := imageStates[p]] &&
        thumbnailsCache == thumbs && fullImagesCache == full
      case Removed(p) =>
        imageStates == states - {p} && thumbnailsCache == thumbs - {p} && fullImagesCache == full - {p}
      case Modified(p) =>
        imageStates == states && thumbnailsCache == thumbs - {p} && fullImagesCache == full - {p}
      case Renamed(o, n) =>
        o in states && imageStates == (states - {o})[n := states[o]] &&
        thumbnailsCache == (if o in thumbs then (thumbs - {o})[n := thumbs[o]] else thumbs) &&
        fullImagesCache == (if o in full then (full - {o})[n := full[o]] else full)
    }

    /** The three maps after `process_operation_event(e)`, given those before:
        the loaded path gets a new entry in the cache the read was for. */
    ghost predicate OperationStepMaps(e: OperationEvent, states: map<Path, ImageUIState>,
                                      thumbs: map<Path, ImageData>, full: map<Path, ImageData>)
      reads this
    {
      imageStates == states &&
      match e
      case ThumbnailLoaded(p, _) =>
        p in thumbnailsCache && thumbnailsCache == thumbs[p := thumbnailsCache[p]] && fullImagesCache == full
      case ImageLoaded(p, _) =>
        p in fullImagesCache && fullImagesCache == full[p := fullImagesCache[p]] && thumbnailsCache == thumbs
    }

    /** `IMViewApp::new`: nothing listed, nothing cached, nothing on show. */
    constructor (fs: FileSystem)
      ensures fileSystem == fs && currentImage == None && imageFiles == []
      ensures imageStates == map[] && thumbnailsCache == map[] && fullImagesCache == map[]
    {
      fileSystem := fs;
      currentImage := None;
      imageFiles := [];
      imageStates := map[];
      thumbnailsCache := map[];
      fullImagesCache := map[];
    }

    /** `add_file`: list the path at the end (a second time if already listed),
        give it a fresh default view state, and ask for its thumbnail. */
    method AddFile(path: Path)
      modifies this, fileSystem
      ensures imageFiles == old(imageFiles) + [path]
      ensures path in imageStates && imageStates == old(imageStates)[path := imageStates[path]]
      ensures fresh(imageStates[path]) && imageStates[path].IsDefault()
      ensures thumbnailsCache == old(thumbnailsCache) && fullImagesCache == old(fullImagesCache)
      ensures currentImage == old(currentImage)
      ensures fileSystem.jobs == old(fileSystem.jobs) + [ThumbnailRead(path, THUMBNAIL_SIZE)]
      ensures fileSystem.receiver == old(fileSystem.receiver)
    {
      imageFiles := imageFiles + [path];
      var state := new ImageUIState();
      imageStates := imageStates[path := state];
      fileSystem.ReadThumbnail(path, THUMBNAIL_SIZE);
    }

    /** `remove_file`: unlist every occurrence and forget the path everywhere. */
    method RemoveFile(path: Path)
      modifies this
      ensures imageFiles == RemoveAll(old(imageFiles), path)
      ensures imageStates == old(imageStates) - {path}
      ensures thumbnailsCache == old(thumbnailsCache) - {path}
      ensures fullImagesCache == old(fullImagesCache) - {path}
      ensures currentImage == old(currentImage)
    {
      imageFiles := RemoveAll(imageFiles, path);
      imageStates := imageStates - {path};
      thumbnailsCache := thumbnailsCache - {path};
      fullImagesCache := fullImagesCache - {path};
    }

    /** `invalidate_file_data`: drop the cached images of the path and ask for a
        new thumbnail; the list and the view states stay. */
    method InvalidateFileData(path: Path)
      modifies this, fileSystem
      ensures thumbnailsCache == old(thumbnailsCache) - {path}
      ensures fullImagesCache == old(fullImagesCache) - {path}
      ensures imageFiles == old(imageFiles) && imageStates == old(imageStates)
      ensures currentImage == old(currentImage)
      ensures fileSystem.jobs == old(fileSystem.jobs) + [ThumbnailRead(path, THUMBNAIL_SIZE)]
      ensures fileSystem.receiver == old(fileSystem.receiver)
    {
      thumbnailsCache := thumbnailsCache - {path};
      fullImagesCache := fullImagesCache - {path};
      fileSystem.ReadThumbnail(path, THUMBNAIL_SIZE);
    }

    /** `rename_file`: put the new path in place of the first occurrence of the
        old one, move the view state, and move each cached image that exists.
        Both `unwrap`s of the source are preconditions. */
    method RenameFile(oldPath: Path, newPath: Path)
      requires oldPath in imageFiles && oldPath in imageStates
      modifies this
      ensures imageFiles == old(imageFiles)[IndexOf(old(imageFiles), oldPath) := newPath]
      ensures imageStates == (old(imageStates) - {oldPath})[newPath := old(imageStates)[oldPath]]
      ensures thumbnailsCache == if oldPath in old(thumbnailsCache)
        then (old(thumbnailsCache) - {oldPath})[newPath := old(thumbnailsCache)[oldPath]]
        else old(thumbnailsCache)
      ensures fullImagesCache == if oldPath in old(fullImagesCache)
        then (old(fullImagesCache) - {oldPath})[newPath := old(fullImagesCache)[oldPath]]
        else old(fullImagesCache)
      ensures currentImage == old(currentImage)
    {
      var index := IndexOf(imageFiles, oldPath);
      imageFiles := imageFiles[index := newPath];
      var state := imageStates[oldPath];
      imageStates := imageStates - {oldPath};
      imageStates := imageStates[newPath := state];
      if oldPath in thumbnailsCache {
        var data := thumbnailsCache[oldPath];
        thumbnailsCache := thumbnailsCache - {oldPath};
        thumbnailsCache := thumbnailsCache[newPath := data];
      }
      if oldPath in fullImagesCache {
        var data := fullImagesCache[oldPath];
        fullImagesCache := fullImagesCache - {oldPath};
        fullImagesCache := fullImagesCache[newPath := data];
      }
    }

    /** `process_file_event`: dispatch to the four handlers above. */
    method ProcessFileEvent(event: FileEvent)
      requires CanRename(Bookkeeping(), event)
      modifies this, fileSystem
      ensures Bookkeeping() == FileStep(old(Bookkeeping()), event)
      ensures FileStepMaps(event, old(imageStates), old(thumbnailsCache), old(fullImagesCache))
      ensures event.Added? ==> fresh(imageStates[event.path]) && imageStates[event.path].IsDefault()
      ensures fileSystem.jobs == old(fileSystem.jobs) + EventJobs(File(event))
      ensures fileSystem.receiver == old(fileSystem.receiver)
      ensures currentImage == old(currentImage)
    {
      match event {
        case Added(path) => AddFile(path);
        case Removed(path) => RemoveFile(path);
        case Modified(path) => InvalidateFileData(path);
        case Renamed(oldPath, newPath) => RenameFile(oldPath, newPath);
      }
    }

    /** `process_operation_event`: store what a read produced, an error entry
        or the loaded data, in the cache the read was for, replacing any entry
        the path had. */
    method ProcessOperationEvent(event: OperationEvent)
      requires event.image.Ok? ==> event.image.value.Valid()
      modifies this
      ensures event.ThumbnailLoaded? ==>
        event.path in thumbnailsCache &&
        thumbnailsCache == old(thumbnailsCache)[event.path := thumbnailsCache[event.path]] &&
        fresh(thumbnailsCache[event.path]) && fullImagesCache == old(fullImagesCache)
      ensures event.ImageLoaded? ==>
        event.path in fullImagesCache &&
        fullImagesCache == old(fullImagesCache)[event.path := fullImagesCache[event.path]] &&
        fresh(fullImagesCache[event.path]) && thumbnailsCache == old(thumbnailsCache)
      ensures var data := if event.ThumbnailLoaded? then thumbnailsCache[event.path]
                          else fullImagesCache[event.path];
        (event.image.Err? ==> data.errorMsg == Some(event.image.error.message) && data.image.None?) &&
        (event.image.Ok? ==> data.errorMsg.None? && data.width == event.image.value.width &&
                             data.height == event.image.value.height) &&
        (event.image.Ok? && event.ImageLoaded? ==> data.image == Some(event.image.value))
      ensures imageFiles == old(imageFiles) && imageStates == old(imageStates)
      ensures currentImage == old(currentImage)
    {
      var path, img := event.path, event.image;
      var data: ImageData;
      if img.Err? {
        data := new ImageData.Error(img.error);
      } else if event.ThumbnailLoaded? {
        data := new ImageData.Thumbnail(path, img.value);
      } else {
        data := new ImageData.FullImage(path, img.value);
      }
      if event.ThumbnailLoaded? {
        thumbnailsCache := thumbnailsCache[path := data];
      } else {
        fullImagesCache := fullImagesCache[path := data];
      }
    }

    /** One received event, dispatched to the file or the operation handler. */
    method HandleEvent(event: FileSystemEvent)
      requires event.File? ==> CanRename(Bookkeeping(), event.fileEvent)
      requires event.Operation? && event.operationEvent.image.Ok? ==> event.operationEvent.image.value.Valid()
      modifies this, fileSystem
      ensures Bookkeeping() == Step(old(Bookkeeping()), event)
      ensures event.File? ==> FileStepMaps(event.fileEvent, old(imageStates), old(thumbnailsCache), old(fullImagesCache))
      ensures event.Operation? ==>
        OperationStepMaps(event.operationEvent, old(imageStates), old(thumbnailsCache), old(fullImagesCache))
      ensures AgreesOutside(old(imageStates), old(thumbnailsCache), old(fullImagesCache), EventTouches(event))
      ensures fileSystem.jobs == old(fileSystem.jobs) + EventJobs(event)
      ensures fileSystem.receiver == old(fileSystem.receiver)
      ensures currentImage == old(currentImage)
    {
      match event {
        case File(e) =>
          ProcessFileEvent(e);
        case Operation(e) =>
          ProcessOperationEvent(e);
      }
    }

    /** The state after handling the first `k` events of the batch `q`, begun
        with books `b0`, jobs `jobs0` and maps `states0`, `thumbs0`, `full0`. */
    ghost predicate ReplayedSoFar(q: seq<FileSystemEvent>, k: nat, b0: Books, jobs0: seq<Job>, jobs: seq<Job>,
                                  states0: map<Path, ImageUIState>, thumbs0: map<Path, ImageData>,
                                  full0: map<Path, ImageData>)
      reads this
    {
      k <= |q| &&
      Bookkeeping() == Replay(b0, q[..k]) &&
      jobs == jobs0 + ReplayJobs(q[..k]) &&
      RenamesTracked(Bookkeeping(), q[k..]) &&
      AgreesOutside(states0, thumbs0, full0, BatchTouches(q[..k]))
    }

    /** `HandleEvent` on the next event of a batch: the replay extends by one
        step, and entries of paths no event so far has touched still hold their
        values from before the batch. */
    method HandleInBatch(event: FileSystemEvent, ghost q: seq<FileSystemEvent>, ghost k: nat,
                         ghost b0: Books, ghost jobs0: seq<Job>, ghost states0: map<Path, ImageUIState>,
                         ghost thumbs0: map<Path, ImageData>, ghost full0: map<Path, ImageData>)
      requires k < |q| && event == q[k] && LoadsWellFormed(q)
      requires ReplayedSoFar(q, k, b0, jobs0, fileSystem.jobs, states0, thumbs0, full0)
      modifies this, fileSystem
      ensures ReplayedSoFar(q, k + 1, b0, jobs0, fileSystem.jobs, states0, thumbs0, full0)
      ensures HasFileEvent(q[..k + 1]) == (event.File? || HasFileEvent(q[..k]))
      ensures fileSystem.receiver == old(fileSystem.receiver)
      ensures currentImage == old(currentImage)
    {
      RenamesTrackedHead(Bookkeeping(), q, k);
      ReplaySnoc(b0, q, k);
      ghost var states1, thumbs1, full1 := imageStates, thumbnailsCache, fullImagesCache;
      ghost var touched := BatchTouches(q[..k]);
      HandleEvent(event);
      KeptOutsideTrans(states0, states1, imageStates, touched, EventTouches(event));
      KeptOutsideTrans(thumbs0, thumbs1, thumbnailsCache, touched, EventTouches(event));
      KeptOutsideTrans(full0, full1, fullImagesCache, touched, EventTouches(event));
    }

    /** The receiving loop of `process_fs_events`: handle every queued event in
        order and report whether one of them was a file event. */
    method DrainEvents() returns (wasFileEvents: bool)
      requires RenamesTracked(Bookkeeping(), fileSystem.receiver)
      requires LoadsWellFormed(fileSystem.receiver)
      modifies this, fileSystem
      ensures fileSystem.receiver == []
      ensures Bookkeeping() == Replay(old(Bookkeeping()), old(fileSystem.receiver))
      ensures fileSystem.jobs == old(fileSystem.jobs) + ReplayJobs(old(fileSystem.receiver))
      ensures wasFileEvents == HasFileEvent(old(fileSystem.receiver))
      ensures AgreesOutside(old(imageStates), old(thumbnailsCache), old(fullImagesCache),
                            BatchTouches(old(fileSystem.receiver)))
      ensures currentImage == old(currentImage)
    {
      ghost var q := fileSystem.receiver;
      ghost var b0 := Bookkeeping();
      ghost var states0, thumbs0, full0 := imageStates, thumbnailsCache, fullImagesCache;
      ghost var jobs0 := fileSystem.jobs;
      ghost var k := 0;
      wasFileEvents := false;
      var event := fileSystem.TryRecv();
      assert q[..0] == [] && q[0..] == q;
      while event.Some?
        invariant 0 <= k <= |q|
        invariant k < |q| ==> event == Some(q[k]) && fileSystem.receiver == q[k + 1..]
        invariant k == |q| ==> event == None && fileSystem.receiver == []
        invariant ReplayedSoFar(q, k, b0, jobs0, fileSystem.jobs, states0, thumbs0, full0)
        invariant currentImage == old(currentImage)
        invariant wasFileEvents == HasFileEvent(q[..k])
        decreases |q| - k
      {
        if event.value.File? {
          wasFileEvents := true;
        }
        HandleInBatch(event.value, q, k, b0, jobs0, states0, thumbs0, full0);
        k := k + 1;
        event := fileSystem.TryRecv();
      }
      assert q[..|q|] == q;
    }

    /** The end of `process_fs_events`: after a batch with file events, sort
        the list; show its first file and ask for its full image when nothing
        was on show; show nothing when the list is empty. */
    method SettleAfterBatch(hadFileEvents: bool)
      modifies this, fileSystem
      ensures var sorted := SortPaths(old(imageFiles));
        imageFiles == (if hadFileEvents then sorted else old(imageFiles)) &&
        currentImage == BatchCurrent(old(currentImage), hadFileEvents, sorted) &&
        fileSystem.jobs == old(fileSystem.jobs) +
          (if hadFileEvents && old(currentImage).None? && sorted != [] then [FullRead(sorted[0])] else [])
      ensures imageStates == old(imageStates) && thumbnailsCache == old(thumbnailsCache)
      ensures fullImagesCache == old(fullImagesCache)
      ensures fileSystem.receiver == old(fileSystem.receiver)
    {
      if hadFileEvents {
        var sorted := SortPaths(imageFiles);
        imageFiles := sorted;
        if currentImage.None? && |sorted| >= 1 {
          currentImage := Some(sorted[0]);
          fileSystem.ReadFile(sorted[0]);
        }
        if |sorted| == 0 {
          currentImage := None;
        }
      }
    }

    /** `process_fs_events`: handle every queued event in order; after a batch
        with file events, sort the list and settle the image on show, asking
        for its full image when it is newly chosen. */
    method ProcessFsEvents()
      requires RenamesTracked(Bookkeeping(), fileSystem.receiver)
      requires LoadsWellFormed(fileSystem.receiver)
      requires StatesListed(Bookkeeping())
      modifies this, fileSystem
      ensures fileSystem.receiver == []
      ensures var q := old(fileSystem.receiver);
        var b := Replay(old(Bookkeeping()), q);
        var sorted := SortPaths(b.files);
        Bookkeeping() == (if HasFileEvent(q) then b.(files := sorted) else b) &&
        currentImage == BatchCurrent(old(currentImage), HasFileEvent(q), sorted) &&
        fileSystem.jobs == old(fileSystem.jobs) + ReplayJobs(q) +
          (if HasFileEvent(q) && old(currentImage).None? && sorted != [] then [FullRead(sorted[0])] else [])
      ensures !HasFileEvent(old(fileSystem.receiver)) ==>
        imageFiles == old(imageFiles) && currentImage == old(currentImage)
      ensures AgreesOutside(old(imageStates), old(thumbnailsCache), old(fullImagesCache),
                            BatchTouches(old(fileSystem.receiver)))
      ensures StatesListed(Bookkeeping())
    {
      ghost var q := fileSystem.receiver;
      ghost var b0 := Bookkeeping();
      ghost var states0, thumbs0, full0 := imageStates, thumbnailsCache, fullImagesCache;
      var wasFileEvents := DrainEvents();
      ghost var states1, thumbs1, full1 := imageStates, thumbnailsCache, fullImagesCache;
      assert KeptOutside(states0, states1, BatchTouches(q));
      assert KeptOutside(thumbs0, thumbs1, BatchTouches(q));
      assert KeptOutside(full0, full1, BatchTouches(q));
      SettleAfterBatch(wasFileEvents);
      if !wasFileEvents {
        NoFileEventsKeepFiles(b0, q);
      }
      ReplayKeepsStatesListed(b0, q);
    }
  }
}
