# imview, modelled in Dafny

imview is a small image viewer. It opens the image files and directories given
on the command line and shows them as thumbnails and as a full image. When
there is exactly one folder to watch, it watches that folder and follows files
being added, removed, modified and renamed. It can compare the two halves of
an image, side by side or one above the other, as a per-channel colour
difference.

This project models the parts of the viewer that decide what is shown. Each
part is proved against a specification.

- **`Filesystem`** (`src/filesystem.rs`):
  - Resolving the command-line paths into the set of images to show and the
    one directory to watch, if any (`select_root_and_files`,
    `drain_files_dirs`, `collect_files`).
  - Classifying watcher notifications into file events (`process_notify_event`).
  - Forwarding decode results (`process_operation_event`).
  - The thumbnail target size (`to_thumbnail`).
  - The `FileSystem` handle: it seeds one `Added` event per file and queues
    full-image and thumbnail reads.
- **`App`** (`src/main.rs`): the viewer's state.
  - The list of image files, the per-file view states, the two caches and the
    image on show.
  - The handlers for each file event and each decode result.
  - The batch loop `process_fs_events`. After a batch with file events, it
    sorts the list and settles the image on show.
- **`Images`** (`src/image_data.rs`):
  - What an `ImageData` holds after each constructor, and which texture each
    display mode uses.
  - The per-channel absolute difference of two images (`image_diff`).
  - The difference of an image's two halves (`create_vdiff_image`,
    `create_hdiff_image`).
  - How the `switch_*` methods compute each difference once and keep it.
- **`Viewport`** (`src/image_ui_state.rs`):
  - The per-image zoom and pan state.
  - `fix_bounds`, which keeps the visible window a legal zoom inside the unit
    square.
  - The UV rectangles for the full and the split views.
- **`Paths`**:
  - Canonical paths as sequences of components, with `PathBuf`'s
    lexicographic order.
  - A sort for `Vec::sort`, proved sorted and a permutation.
  - A proof that a sorted permutation is unique, so any correct sort gives the
    same list.
- **`RgbaImages`**: an RGBA buffer with `crop_imm`'s clamping.
- **`Common`**: the `Option` and `Result` wrappers.

The file system is a `Disk` value:
- `canonicalize`, the kind of a path, `read_dir` and starting a watch are
  total functions that may return an error;
- `is_image` is a predicate parameter.

`f32` coordinates in the viewport are `real`.

One detail of the code the model keeps: a single watched directory is listed
a second time, and its files are added to the set. The set removes duplicates.

## Model

| member | source | states |
|---|---|---|
| Paths.Path.Parent | src/filesystem.rs:347-351 | the parent exists exactly for a non-empty path and drops its last component |
| Paths.PathLeTotal | src/main.rs:83 | path order is total |
| Paths.PathLeAntisym | src/main.rs:83 | path order is antisymmetric |
| Paths.PathLeTrans | src/main.rs:83 | path order is transitive |
| Paths.PathLeRefl | src/main.rs:83 | path order is reflexive |
| Paths.InsertSorted | src/main.rs:83 | inserting into a sorted list keeps it sorted |
| Paths.SortPaths | src/main.rs:83 | `image_files.sort()` yields a sorted permutation of the list |
| Paths.SortedUnique | src/main.rs:83 | two sorted permutations of one list are equal, so the result does not depend on the sort algorithm |
| Paths.SortedFirstIsLeast | src/main.rs:84-86 | the first file after sorting is the least; `SettleAfterBatch` shows it |
| RgbaImages.Crop | src/image_data.rs:102-109 | `crop_imm` clips the rectangle to the image: each side is the requested one or what is left of the image past the offset, whichever is smaller; every pixel of the crop, clipped or not, lies inside the image and is the image's pixel at the offset position |
| Viewport.ClampZoom | src/image_ui_state.rs:22-23 | `clamp(ZOOM_MIN, ZOOM_MAX)` lies in [0.01, 1.0], keeps values already inside and maps values outside to the nearer bound |
| Viewport.FixedBounds | src/image_ui_state.rs:62-79 | after fixing, the scale is present exactly when it was and is clamped, the window lies inside the unit square, and an already fitting state is left unchanged |
| Viewport.ImageUIState.constructor | src/image_ui_state.rs:25-35 | a new state is in Full mode with gammas 2.2, split factors 0.5, no scale and centre (0.5, 0.5) |
| Viewport.ImageUIState.FixBounds | src/image_ui_state.rs:62-79 | the new scale and centre are `FixedBounds` of the old ones, the window fits, and the other settings are unchanged |
| Viewport.ImageUIState.SetScale | src/image_ui_state.rs:41-44 | the scale becomes the clamped argument and the window is refitted |
| Viewport.ImageUIState.SetScaleIfNone | src/image_ui_state.rs:46-50 | a state with a scale is unchanged; one without a scale behaves as `set_scale` |
| Viewport.ImageUIState.SetScaleDiff | src/image_ui_state.rs:52-55 | the scale becomes the clamped sum of the old scale (1.0 when none) and the difference, and the window is refitted |
| Viewport.ImageUIState.SetCenterDiff | src/image_ui_state.rs:57-60 | the centre moves by the difference and is then fitted; the scale stays in range |
| Viewport.ImageUIState.Scale | src/image_ui_state.rs:37-39 | `scale()` is the set scale, or 1.0 when no scale is set; in a fitted state it lies in [0.01, 1.0] |
| Viewport.ImageUIState.Left | src/image_ui_state.rs:81-83 | the left edge of the window; in a fitted state it lies between 0 and the centre |
| Viewport.ImageUIState.Right | src/image_ui_state.rs:85-87 | the right edge lies `scale()` to the right of the left edge, with the centre midway; in a fitted state it lies between the centre and 1 |
| Viewport.ImageUIState.Top | src/image_ui_state.rs:89-91 | the top edge of the window; in a fitted state it lies between 0 and the centre |
| Viewport.ImageUIState.Bottom | src/image_ui_state.rs:93-95 | the bottom edge lies `scale()` below the top edge, with the centre midway; in a fitted state it lies between the centre and 1 |
| Viewport.ImageUIState.UvFull | src/image_ui_state.rs:81-103 | the full view is a square of side `scale()` centred on the view centre |
| Viewport.ImageUIState.UvVSplit | src/image_ui_state.rs:105-116 | the left window is `ratio` of half the view wide and starts at the view's left edge mapped into the left half; the right window takes the rest and begins half a texture after the left one ends; both span the view's height (see also `VSplitHalves`) |
| Viewport.ImageUIState.UvHSplit | src/image_ui_state.rs:118-129 | the same along `y`: the top window is `ratio` of half the view high, the bottom one the rest, half a texture further down; both span the view's width (see also `HSplitHalves`) |
| Viewport.ImageUIState.VSplitHalves | src/image_ui_state.rs:105-116 | for a fitted window and a ratio in [0, 1], the left rectangle takes `ratio` of the half-width from the left half of the texture and the right rectangle takes the rest from the right half |
| Viewport.ImageUIState.HSplitHalves | src/image_ui_state.rs:118-129 | the same for the split into top and bottom halves |
| Images.ChannelDiffIsDistance | src/image_data.rs:118 | `(a - b).abs() as u8` never wraps for bytes: it is the symmetric distance, zero exactly when the channels are equal |
| Images.DiffImagePixels | src/image_data.rs:111-124 | each colour channel of the difference is the absolute difference of the inputs; alpha is kept from the first image; the size is the first image's |
| Images.ImageDiff | src/image_data.rs:111-124 | the nested loops over rows, columns and channels compute exactly `DiffImage` |
| Images.VerticalDiff | src/image_data.rs:102-109 | the side-by-side difference has half the width and the full height |
| Images.VerticalDiffPixels | src/image_data.rs:102-109 | pixel (x, y) compares column x with column x + w/2 |
| Images.HorizontalDiff | src/image_data.rs:93-100 | the top/bottom difference has the full width and half the height |
| Images.HorizontalDiffPixels | src/image_data.rs:93-100 | pixel (x, y) compares row y with row y + h/2 |
| Images.ImageData.Thumbnail | src/image_data.rs:20-34 | a thumbnail keeps its size and the `<path>_thmb` texture, with no pixels and no error |
| Images.ImageData.Error | src/image_data.rs:36-48 | an error entry has an empty name, zero size, no textures and the error message |
| Images.ImageData.FullImage | src/image_data.rs:50-64 | a full image keeps its pixels, its size and the `<path>_full` texture |
| Images.ImageData.TextureHandle | src/image_data.rs:86-91 | Full and both split modes use the colour texture; the two colour-difference modes use the difference texture |
| Images.ImageData.CreateVDiffImage | src/image_data.rs:102-109 | the result is the side-by-side difference of the stored image |
| Images.ImageData.CreateHDiffImage | src/image_data.rs:93-100 | the result is the top/bottom difference of the stored image |
| Images.ImageData.SwitchToVerticalColorDiff | src/image_data.rs:157-164 | the vertical difference is computed once and kept; the difference texture is `<name>_color_diff` |
| Images.ImageData.SwitchToHorizontalColorDiff | src/image_data.rs:149-155 | the horizontal difference is computed once and kept; the difference texture is `<name>_color_diff` |
| Images.ImageData.SwitchToColorImage | src/image_data.rs:166-169 | the colour texture becomes `<name>_full`; the cached differences are untouched |
| Filesystem.Send | src/filesystem.rs:269-273 | a connected channel appends the event; a closed one is unchanged and returns the event in the error |
| Filesystem.Classify | src/filesystem.rs:248-268 | Added iff Create of an image, Modified iff Write of an image, Removed iff Remove, Renamed iff Rename; every other notification is dropped; paths are kept |
| Filesystem.ProcessNotifyEvent | src/filesystem.rs:244-274 | a dropped notification sends nothing and succeeds; a classified one is sent |
| Filesystem.NotifyEventTable | src/filesystem.rs:248-273 | on a connected channel, the events sent per notification kind, as a table |
| Filesystem.RenameIsOneEvent | src/filesystem.rs:264-266 | a rename is forwarded as one Renamed event, whether or not either path is an image |
| Filesystem.ProcessOperationEvent | src/filesystem.rs:276-281 | a decode result is forwarded unchanged, or fails only on a closed channel |
| Filesystem.ThumbnailSize | src/filesystem.rs:216-226 | both sides fit in `size`; the longer side becomes `size` and the shorter its proportional share rounded down; a zero side stays zero while the other becomes `size` |
| Filesystem.LandscapeThumbnail | src/filesystem.rs:216-226 | a 400 x 300 image gets a 150 x 112 thumbnail |
| Filesystem.FloorOfQuotient | src/filesystem.rs:222-223 | flooring a quotient of naturals is integer division |
| Filesystem.LimitingSide | src/filesystem.rs:218-223 | scaled by the longer side's ratio, that side floors to `size` and the other to its share |
| Filesystem.RatioOrder | src/filesystem.rs:220 | the longer side has the smaller ratio, so `min` picks it |
| Filesystem.ScaledSides | src/filesystem.rs:217-223 | the floored sides for a non-degenerate image, in both orientations |
| Filesystem.FilterKind | src/filesystem.rs:299-305 | the kept paths are exactly the input paths of the given kind, in order |
| Filesystem.FilterKindAppend | src/filesystem.rs:299-305 | filtering distributes over concatenation, so it is order-preserving |
| Filesystem.DrainFilesDirs | src/filesystem.rs:296-307 | the loop splits the paths into the regular files and the directories, in input order, dropping anything else |
| Filesystem.DrainedHalvesDisjoint | src/filesystem.rs:300-304 | no path lands in both halves |
| Filesystem.FilterImages | src/filesystem.rs:336-339 | the kept files are exactly the input files that are images |
| Filesystem.ScanEntries | src/filesystem.rs:312-318 | listing fails iff some entry or its canonicalization fails; otherwise the result holds exactly the canonical entries that are image files |
| Filesystem.ImagesIn | src/filesystem.rs:309-320 | every file collected from a directory is a regular image file |
| Filesystem.CollectFiles | src/filesystem.rs:309-320 | the loop, with its early returns on error, computes `ImagesIn` |
| Filesystem.CollectAll | src/filesystem.rs:341-344 | collection fails iff some explicit directory's listing fails, and then with the error of the first one that fails; otherwise the images of every directory are collected |
| Filesystem.CollectAllCovers | src/filesystem.rs:341-344 | every image of each explicit directory is among those collected |
| Filesystem.CanonicalizeAll | src/filesystem.rs:329-334 | canonicalization fails iff some path fails, and then with the error of the first one that fails; otherwise it keeps length and order |
| Filesystem.ParentsOfMembers | src/filesystem.rs:346-351 | the parents added are exactly the parents of the files found |
| Filesystem.ParentsOfSnoc | src/filesystem.rs:347-351 | each file adds its parent, if it has one |
| Filesystem.ExtendWithDirectoryImages | src/filesystem.rs:341-344 | the loop appends each directory's images to the files, or returns the first error |
| Filesystem.CandidateDirs | src/filesystem.rs:346-351 | the loop builds the explicit directories plus the parents of all files |
| Filesystem.SelectRootAndFiles | src/filesystem.rs:322-368 | the whole resolution equals `Resolve`, the staged specification the lemmas below are about |
| Filesystem.ResolveEmpty | src/filesystem.rs:325-327 | no paths give no root and no files |
| Filesystem.ResolveStages | src/filesystem.rs:329-367 | a successful resolution canonicalized every path, listed every explicit directory, and then chose the root |
| Filesystem.ChooseRootShows | src/filesystem.rs:353-367 | the final set holds every file found, and besides them only images of the watched directory |
| Filesystem.ResolvedFilesAreImages | src/filesystem.rs:322-368 | every file to show is a regular image file |
| Filesystem.CanonicalizeFailureFails | src/filesystem.rs:329-334 | one path that cannot be canonicalized fails the whole resolution |
| Filesystem.ExplicitImagesShown | src/filesystem.rs:336-339 | every explicitly named image file is shown |
| Filesystem.DirectoryImagesShown | src/filesystem.rs:341-344 | every image inside an explicitly named directory is shown |
| Filesystem.TwoCandidatesNoRoot | src/filesystem.rs:346-366 | two different candidate directories, explicit or parents of files, leave nothing to watch, and no re-scan is done |
| Filesystem.TwoDirectoriesNoRoot | src/filesystem.rs:346-366 | two different directories on the command line leave nothing to watch |
| Filesystem.RootIsSoleCandidate | src/filesystem.rs:353-366 | the root is some directory iff the candidate set is exactly that directory |
| Filesystem.SingleImageStages | src/filesystem.rs:329-351 | one image argument resolves to itself as the only file, with no directories |
| Filesystem.SingleFileChoosesParent | src/filesystem.rs:353-367 | with one file and no directory, its folder is watched and its images are added |
| Filesystem.SingleImageOpensItsFolder | src/filesystem.rs:322-368 | opening one image shows it and every image beside it, and watches its folder |
| Filesystem.FileSystem.constructor | src/filesystem.rs:185-192 | a new handle has an empty event queue and no jobs |
| Filesystem.FileSystem.Start | src/filesystem.rs:79-193 | a resolution or watch error is returned; otherwise the handle watches the root and its queue holds exactly one Added event per file |
| Filesystem.FileSystem.ReadFile | src/filesystem.rs:195-209 | one full-image read is queued, and nothing else changes |
| Filesystem.FileSystem.ReadThumbnail | src/filesystem.rs:228-242 | one thumbnail read of the given size is queued, and nothing else changes |
| Filesystem.FileSystem.Forward | src/filesystem.rs:162-169 | the funnel step: a notification goes through the classifier and a decode result is forwarded as is |
| Filesystem.FileSystem.TryRecv | src/main.rs:73 | the oldest queued event is taken, or none when the queue is empty |
| App.RemoveAll | src/main.rs:122 | `retain` removes exactly the copies of the path and keeps a list without it unchanged |
| App.RemoveAllAppend | src/main.rs:122 | `retain` distributes over concatenation, so it keeps the order of the rest |
| App.IndexOf | src/main.rs:135-139 | `position` finds the first occurrence |
| App.ReplaySnoc | src/main.rs:73-81 | handling one more event extends the replayed books, jobs and file-event flag by one step |
| App.RenamesTrackedHead | src/main.rs:73-81 | the rename precondition of a batch splits into one for its next event and one for the rest |
| App.StepKeepsStatesListed | src/main.rs:94-180 | every handler keeps every path with a view state in the file list |
| App.ReplayKeepsStatesListed | src/main.rs:71-92 | a batch, and the sort after it, keep every path with a view state in the file list |
| App.NoFileEventsKeepFiles | src/main.rs:79 | decode results alone change neither the file list nor which paths have a view state |
| App.UnlistedRenameIsNotTracked | src/main.rs:134-141 | a watcher rename of an unlisted path is forwarded, and then violates `rename_file`'s precondition |
| App.RemovedCurrentStaysCurrent | src/main.rs:82-91 | removing the image on show while others remain leaves it on show, without a view state |
| App.RenamedCurrentStaysCurrent | src/main.rs:134-149 | renaming the image on show keeps the old path on show, though it is no longer listed and has no view state |
| App.BatchCurrentListed | src/main.rs:82-91 | when the old image on show was listed, after a batch with file events none is shown iff the list is empty, and the one shown is listed |
| App.IMViewApp.constructor | src/main.rs:59-69 | a new viewer lists nothing, caches nothing and shows nothing |
| App.IMViewApp.AddFile | src/main.rs:115-119 | the path is appended with a default view state, and one thumbnail read of size 150 is queued |
| App.IMViewApp.RemoveFile | src/main.rs:121-126 | the path leaves the list, the view states and both caches |
| App.IMViewApp.InvalidateFileData | src/main.rs:128-132 | both caches drop the path and a new thumbnail read is queued; the list and states are kept |
| App.IMViewApp.RenameFile | src/main.rs:134-149 | the first occurrence is replaced in place; the view state and any cache entries move to the new path |
| App.IMViewApp.ProcessFileEvent | src/main.rs:94-113 | each file event updates the books as `FileStep` says and queues the reads `EventJobs` says; per event kind, the view states and both caches are given in full: Added gives the path a fresh default state, Removed drops the path from all three maps, Modified drops it from both caches, Renamed moves the state and any cache entries to the new path |
| App.IMViewApp.ProcessOperationEvent | src/main.rs:151-180 | a decode result replaces the path's entry in the thumbnail or full-image cache, with an error entry or the loaded data; the list and states are kept |
| App.IMViewApp.HandleEvent | src/main.rs:74-80 | one event is dispatched to the file or the operation handler, as `Step` says, with the maps as each handler gives them; every map entry of a path the event does not name keeps its value |
| App.IMViewApp.HandleInBatch | src/main.rs:73-81 | one loop step: the books, jobs and untouched map entries after k + 1 events are those of the replay of the first k + 1 events |
| App.IMViewApp.DrainEvents | src/main.rs:72-81 | the loop empties the queue, replays every event in order and reports whether one was a file event; every map entry of a path no event names keeps its value |
| App.IMViewApp.SettleAfterBatch | src/main.rs:82-91 | after file events the list is sorted; the image on show becomes `BatchCurrent` of the old one: the first file, which is also read, when nothing was shown, nothing when the list is empty, and otherwise the old one; the maps are kept |
| App.IMViewApp.ProcessFsEvents | src/main.rs:71-92 | the queue ends empty; after a batch with file events the list is sorted, the first file is shown and read if nothing was shown, and nothing is shown if the list is empty; every path with a view state stays listed; every map entry of a path no event names keeps its value |

## Left out

- Threads and channels: the watcher thread, the two thread pools, the event
  funnel's `Select` loop and the shutdown flag are not modelled. The queue is
  a sequence; the funnel is one `Forward` step; a queued read is a `Job`
  value. Concurrency, interleaving and blocking are out of scope.
- The operating system: `canonicalize`, `is_file`, `is_dir`, `read_dir` and
  starting the watcher are fields of a `Disk` value. The watcher's debounce
  is not modelled; its error events are dropped by `Classify`.
- `map_err_notify` and the conversion of thread-pool build errors are left
  out. A thread-pool build failure cannot happen in the model.
- Image decoding and `imageops::thumbnail` resampling are external, so a
  decode result is an input. Only the target size computed by `to_thumbnail`
  is modelled.
- `is_image` is the external image-format predicate, so it is a parameter.
- `image_gamma` and texture upload are not modelled. The gamma argument of the
  `switch_*` methods is ignored; a texture is only its name.
- `SizedCache` keeps at most 10 full images and evicts the least recently
  used one; `update` refreshes an entry on every lookup. The model
  uses a plain map, so eviction is not modelled.
- `update`, `main`, the widgets and the files `utils.rs`, `loader.rs`,
  `image_item.rs` and `imview-image-ui` are not part of this model.
- The repaint `notifier` that the funnel calls after each event is not
  modelled.
- Filesystem.ThumbnailSize: the floors are exact here, because `f32` is
  modelled as real division. `f32` rounding may make a side one pixel
  smaller.
- Viewport: `f32` arithmetic is modelled as exact `real` arithmetic, so
  rounding in `fix_bounds` and the UV rectangles is not modelled.
- Filesystem.FileSystem.Start: watcher events that arrive before the seeded
  `Added` events are not modelled.
- App.IMViewApp.RenameFile: `rename_file` panics when the old path is not
  listed or has no view state. The model makes this a precondition.
  `UnlistedRenameIsNotTracked` shows that a watcher rename can break it.
- App.IMViewApp.ProcessFsEvents: the rename precondition is required for the
  whole batch (`RenamesTracked`), and every decoded image must be
  well-formed.
- The image on show is not cleared when it is removed while other files remain
  (`RemovedCurrentStaysCurrent`), nor moved when it is renamed
  (`RenamedCurrentStaysCurrent`). The model keeps this behaviour. `update`,
  which is not modelled, then looks up the view state of the image on show
  with `unwrap` (`src/main.rs:213`), which panics.
- App.IMViewApp.DrainEvents: the view states and caches of paths that the
  batch names are given only through the key sets that `Replay` tracks, not by
  the values stored. Entries of all other paths keep their values.
- App.IMViewApp.ProcessFsEvents: the same as for `DrainEvents`.
- Path components are `string`s, so a file name that is not valid UTF-8 cannot
  be represented; `ImageData`'s `f32` width and height are naturals, exact
  only below 2^24 in the source.
- Paths.SortPaths is an insertion sort, not `Vec::sort`. `SortedUnique`
  proves that any correct sort gives the same list.
