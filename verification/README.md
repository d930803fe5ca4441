# libva: driver loading, display lifecycle and attribute queries, in Dafny

This project models the part of libva that finds, loads, checks and unloads video drivers
(`va/va.c`), together with the DRM display it does that for (`va/drm/va_drm.c`,
`va/drm/va_drm_utils.c`), the fallback implementation of `vaQuerySurfaceAttributes`, the
`libva.conf` reader and the message formatter.

Each procedure of the C code is a Dafny method in its own form: loops over arrays, buffers cut up in
place, contexts whose fields are updated. Its contract says that the result and the new state are those of a
specification function; the lemmas then prove what libva promises about those functions.

- `CStrings` has C strings in character arrays and the library calls that read and cut them (`strtok_r`,
  `strspn`, `strcspn`, `strlen`, `strcmp`, `strncpy`, `snprintf`, `strdup`), against a pure definition of the segments
  of a text.
- `Config` is `va_parseConfig` with `fgets`; `Messages` is `va_errorMessage` and `va_infoMessage`.
- `CRuntime` is the process: every allocation and every `dlopen` may fail, in any pattern, and a ledger records live
  blocks, open libraries and how often the terminate entry was called for each. `ok` in the ledger turns false for good
  when a block is freed or used while not live, a library is closed or looked into while not open, or a driver is
  stopped twice or after its library was closed. Uses are recorded for every block: displays, contexts, the DRM state,
  names, the search path, paths, the three tables, and the buffers of messages and attribute queries. `strayCall` turns
  true when code of a closed library is called, `nullCall` when a missing entry is. So the ledger at the end of a run
  speaks about every call in it.
- `Surfaces` is `va_impl_query_surface_attributes`.
- `Hooks` holds the function tables, each entry with the library that owns its code: the checks of `va_openDriver`, and
  which entry each public function calls. `OwnEntryAnswers` relates the two: an entry is tested by the loader or at the
  call, never by both, and four are tested by neither.
- `Probe`, `Contexts`, `Loader` and `LoaderLaws` are `va_openDriver`; `DriverNames` and `NameLaws` are
  `va_new_opendriver` with the DRM backend's names; `Lifecycle` and `LifecycleLaws` are the calls on a display.
- `Witnesses` has surroundings that show what can happen; they make conditions exact.
- `Runs` is about whole runs: any number of DRM displays, any sequence of calls, any failures.

What a library exports and what its init and terminate functions answer are arbitrary functions of the handle and of
the context the driver is shown. Allocation and `dlopen` results are arbitrary functions of the request number, so one
proof covers every pattern.

## What the code does, where that may surprise

- On success `*num_attribs` is not written, although `va/va.h:1852-1853` says it is, and a null list is rejected although
  `va/va.h:1858-1860` allows it. The model follows the code.
- The backward scan for duplicates stops at the first entry that is not a pixel format, and it also compares with entries
  already dropped. `EarlyExitHarmless` says exactly when stopping early does no harm.
- Function tables, limits and vendor string are never cleared between attempts. `LeftoversValidate` says exactly when
  a driver that fills in nothing is accepted because of that.
- So an entry of an accepted driver can be code of an earlier library that was closed. `OwnEntries` and `EntryLibraryOpen`
  say exactly which entries, `StrayIffLeftover` exactly which runs call one, `StrayTerminate` is such a run, and
  `ThoroughNeverStrays` says what drivers must do to rule it out.
- `vaSetDriverName` does not free the name it replaces; `LeakedBlocks` says these are the only blocks ever lost.
- A second `vaInitialize` on a display with an open driver overwrites the handle if it succeeds and can leave the old
  driver without its terminate entry if it fails. Keeping the handle, and keeping a driver that can be terminated, is
  certain if and only if no driver is open (`HandleKeptIff`, `TerminateKeptIff`); `LeakedHandles` accounts for the rest.
- A backend that reports success with no names at all, and no choice by the user, makes `vaInitialize` succeed without
  a driver. `OpeningConserves` says this is the only such case; the DRM backend never does it.
- Of a configuration line longer than 1023 characters the value is cut, and of a name longer than that only the end
  counts, so that the line can bind a key that it does not name. `LookupRendered` says exactly what is found,
  and `ReadBack` that it is what the caller's buffer holds.
- The test for one-character lines in `va_parseConfig` never changes its result (`ShortLine`).

## Model

| member | source | states |
|---|---|---|
| `CStrings.StrtokR` | va/va.c:374-382 | strtok_r on a writable C string returns its first nonempty delimiter-free piece as a C string in place, leaves the rest as a C string behind it, and touches nothing in front of the restart point |
| `CStrings.SegmentsStep` | va/va.c:380-382 | one strtok_r step takes exactly the first segment of a text, and what is unread gets shorter, so the loop ends |
| `CStrings.SegmentsExact` | va/va.c:374-382 | the segments are nonempty and delimiter-free and together hold all non-delimiter characters in order |
| `CStrings.JoinRoundTrip` | va/va.c:374-382 | tokenizing a list of nonempty separator-free directories joined by the separator gives back the list |
| `Config.File.Fgets` | va/va.c:78 | a read takes up to 1023 characters, through the first newline, and terminates them |
| `Config.MatchLine` | va/va.c:79-87 | cutting a line up in place finds the key exactly if the first of its first two nonempty fields equals it, and yields the second |
| `Config.SearchFile` | va/va.c:77-96 | the first line that binds the key wins; the buffer then holds its value as a C string, or the first 1023 characters of it, with terminators behind; otherwise the buffer is untouched |
| `Config.ParseConfig` | va/va.c:69-113 | returns 0 exactly if the key is set in the file or else in the environment, with that value, or its first 1023 characters, as a C string in the buffer; a null key gives 1; the file is closed on every path |
| `Config.ShortLine` | va/va.c:79-80 | a one-character line never has two fields, so skipping it loses nothing |
| `Config.LookupRendered` | va/va.c:77-96 | what a key gives in any rendered list of name=value lines, of any length: the first line whose last piece of name equals it, with the value cut where its chunk ends; lines whose name ends with a chunk bind nothing |
| `Config.ConfigRoundTrip` | va/va.c:77-96 | if every line has at most 1023 characters, that is the first value bound to the name, also when the newline falls into a chunk of its own |
| `Config.FileBeatsEnvironment` | va/va.c:69-113 | for lines of any length, a binding in the file wins over the environment; a key the file does not bind is left to the environment |
| `Config.OneLineRoundTrip` | va/va.c:77-96 | any single binding comes back unchanged if and only if its line fits one chunk |
| `Config.ReadBack` | va/va.c:69-113 | end to end: with a file of name=value lines the buffer ends up holding the value of the first line that binds the key, or what fits of the environment's value; if all lines fit, that is the first value written for the key |
| `Messages.Message` | va/va.c:206-260 | an installed callback gets the text, once and complete, if and only if formatting works, the text is not empty, and it fits the stack buffer or a heap buffer can be had; the heap buffer is used only while live and freed on every path |
| `Surfaces.Fill` | va/va.c:1025-1046 | the fill loops write the five base attributes and the pixel formats at indices 0 to 5+N-1 of an array of length 11+N, also for a negative count; the exit in the loop is never taken |
| `Surfaces.HasDuplicate` | va/va.c:1074-1081 | the backward scan finds an equal fourcc exactly within the unbroken stretch of pixel formats that ends at the entry |
| `Surfaces.Sweep` | va/va.c:1053-1086 | the in-place sweep clears the flags of exactly the entries that do not survive and counts those that do |
| `Surfaces.CopyOut` | va/va.c:1093-1099 | the second pass writes exactly the counted survivors, in order, and nothing behind them |
| `Surfaces.QuerySurfaceAttributes` | va/va.c:972-1105 | each failing exit has its own status and leaves output and count alone: missing entry, either allocation, either driver answer; SUCCESS means that both driver answers were, and that the output starts with the survivors of the driver's array; a capacity that is too small is answered with the count; both temporary arrays are used only while live and freed |
| `Surfaces.EarlyExitHarmless` | va/va.c:1074-1081 | stopping the backward scan early never changes the result if and only if the pixel formats are contiguous |
| `Surfaces.TypesUnchanged` | va/va.c:1025-1099 | a driver that leaves entry types alone gets every supported other attribute and the supported first occurrence of each nonzero fourcc |
| `Surfaces.WantedDistinct` | va/va.c:1053-1099 | such a result has no fourcc twice, none that is zero, nothing unsupported, and lacks nothing that is wanted |
| `Surfaces.QueryThenRetry` | va/va.c:1087-1099 | two calls: when the first reports a larger count, the second, with another array, succeeds if and only if memory can be had and the array has room for that count; it writes exactly that many entries and leaves the rest |
| `Probe.InitNameInjective` | va/va.c:336-341 | different versions have different init symbols |
| `Probe.InitNameReads` | va/va.c:336-341 | the symbol reads back as the prefix, the major and the minor version, in this order |
| `Probe.InitNameFits` | va/va.c:406-420 | the symbol of any int version fits the 256-byte buffer |
| `Probe.FindMinorGreatest` | va/va.c:409-427 | the search selects the greatest minor version whose symbol is exported and fails only if there is none |
| `Probe.ProbeInit` | va/va.c:409-434 | the loops over the sentinel-terminated version table stay in bounds and compute that search |
| `Hooks.ValidateVerdict` | va/va.c:467-513 | the checks give UNIMPLEMENTED if a listed entry is missing, else UNKNOWN if a limit is zero or the vendor is null, else SUCCESS |
| `Hooks.RunChecksAppend` | va/va.c:467-513 | the checks are a fold: a later list of checks starts from the status the earlier ones left |
| `Hooks.DispatchSafe` | va/va.c:836-2454 | a public function never calls a null entry of a validated driver if and only if it is not vaQuerySurfaceError, vaBufferInfo, vaLockSurface or vaUnlockSurface |
| `Hooks.OwnEntryAnswers` | va/va.c:836-2454 | every public function but four calls the one entry of its own name, in that entry's table, exactly if it is set; if not, it is refused as UNIMPLEMENTED exactly if the loader does not insist on the entry, the four unchecked functions excepted, which crash like those the loader insists on |
| `Hooks.PreferredEntryAnswers` | va/va.c:972-1460 | the other four: which entry vaCreateSurfaces, vaMapBuffer, vaMapBuffer2 and vaQuerySurfaceAttributes prefer, and their answer when none is set |
| `Hooks.OtherEntriesOnList` | va/va.c:474-513 | of the remaining entries the loader insists on terminate, vaCreateSurfaces and vaMapBuffer only |
| `Loader.LoadDriver` | va/va.c:435-519 | allocates missing tables, runs init on live tables, checks the driver, closes a failed library and records a good one; entries that init assigns belong to its library |
| `Loader.WalkPath` | va/va.c:380-527 | the strtok_r loop tries exactly the segments of the search path, in order, until one decides |
| `Loader.OpenDriverName` | va/va.c:360-532 | the loader searches the environment's path if the caller is not setuid and it is set, else the built-in one |
| `LoaderLaws.LoadVerdict` | va/va.c:435-519 | the exact status of an attempt, and that what init left in the context stays there whether it succeeded or not |
| `LoaderLaws.InitWrites` | va/va.c:434-519 | after an attempt, failed or not, limits, vendor and every entry that init assigned are as it left them, and every other entry is as it was |
| `LoaderLaws.LeftoversValidate` | va/va.c:434-513 | a driver whose init sets nothing is accepted if and only if earlier attempts left a complete table and all limits |
| `LoaderLaws.OwnEntries` | va/va.c:434-519 | an entry of an accepted driver is code of its own library if and only if its init assigned it; any other is what an earlier attempt left there |
| `LoaderLaws.FirstUsableDecides` | va/va.c:380-531 | the first directory whose library opens and exports a compatible init symbol decides the name, whether its driver succeeds or fails; without one the status is UNKNOWN and the context unchanged |
| `LoaderLaws.UsableExact` | va/va.c:343-427 | a library is usable if and only if dlopen of directory, slash, name and `_drv_video.so` succeeds and it exports the init symbol of libva's major version and a minor version up to libva's |
| `LoaderLaws.OpenDriverDecides` | va/va.c:360-531 | the directories are those between the colons of the path, in order; the exact status and context of every outcome, also when the path cannot be copied |
| `LoaderLaws.OpenDriverConserves` | va/va.c:374-531 | on every path each opened library is closed once or is the one in the context's handle; success if and only if one was stored; name, path strings and the path copy are read only while live, the strings freed once |
| `DriverNames.GetDrmNames` | va/drm/va_drm_utils.c:37-113 | the DRM backend's names, with authentication on legacy nodes, the WSL alias, the table of drivers and the fallback to the kernel driver's name |
| `NameLaws.DrmNamesExact` | va/drm/va_drm.c:46-84 | OPERATION_FAILED if and only if a legacy node cannot be authenticated, UNKNOWN if the kernel driver's name cannot be had; else the names are the table's in order, d3d12 for vgem under WSL, or the kernel driver's own; on a render node authentication does not matter |
| `NameLaws.OtherNamesExact` | va/va.c:659-671 | another backend's status and names are passed on |
| `DriverNames.OpenChosenDriver` | va/va.c:651-712 | gets the names, lets the user's choice replace them, reads and tries them while they are live and then frees them |
| `NameLaws.GetNamesOwns` | va/drm/va_drm.c:71-84 | a backend hands over only names it allocated; on failure none, and the kernel driver's name is not leaked |
| `NameLaws.FreeNamesExact` | va/va.c:682-709 | freeing the array frees each of its blocks exactly once |
| `NameLaws.ChoiceIsOnlyName` | va/va.c:674-691 | the override beats the environment's choice, which setuid callers do not have; a choice is the only name tried |
| `NameLaws.NamesInOrder` | va/va.c:693-706 | names are tried in order until the first success; the status is that of the last name tried, or ALLOCATION_FAILED at a missing name |
| `NameLaws.OpeningConserves` | va/va.c:651-712 | names are read while live and freed once, only tables remain allocated, and a driver is open if and only if the status is SUCCESS and there was a name to try; with none, SUCCESS is reported and nothing changes |
| `Lifecycle.GetDisplayDRM` | va/drm/va_drm.c:86-127 | builds the display or, whichever allocation fails, frees what it had |
| `Lifecycle.NewDriverContext` | va/va.c:294-307 | the new context is zeroed and linked to its display |
| `Lifecycle.SetDriverName` | va/va.c:622-649 | rejects names of length 0 or from 256 on, else installs a copy if memory can be had |
| `Lifecycle.InitializeDisplay` | va/va.c:714-738 | an invalid display is refused; otherwise a driver is opened and the version reported whatever the status |
| `Lifecycle.TerminateDpy` | va/va.c:744-781 | calls the terminate entry, whichever library owns it, closes the driver, frees tables and override name, destroys the display if the driver agreed |
| `LifecycleLaws.GetDisplayEvolves` | va/drm/va_drm.c:86-127 | succeeds if and only if the node is valid and all three allocations are granted; the three blocks are distinct; failure leaves nothing behind |
| `LifecycleLaws.SetNameEvolves` | va/va.c:622-649 | INVALID_PARAMETER exactly for length 0 or above 255, ALLOCATION_FAILED exactly without memory; else the name is replaced and the old block dropped, nothing else changes |
| `LifecycleLaws.InitializeEvolves` | va/va.c:651-738 | the display gains at most tables and a handle; a new handle comes with a complete driver; an old one it replaces is dropped |
| `LifecycleLaws.InitializeTries` | va/va.c:651-738 | on a DRM display vaInitialize tries the override, else the environment's choice unless setuid, else the device's drivers, in order until the first success, in the environment's search path unless setuid |
| `LifecycleLaws.InitializeRefused` | va/va.c:651-712 | if the device is refused and nothing was chosen, that status is reported and the display is unchanged |
| `LifecycleLaws.SetuidIgnoresEnvironment` | va/va.c:368-681 | for a setuid caller no setting of the search path or of the driver name changes anything |
| `LifecycleLaws.RenderNodeNeedsNoAuthentication` | va/drm/va_drm.c:54-68 | on a render node the outcome of authentication changes nothing |
| `LifecycleLaws.DestroyExact` | va/drm/va_drm.c:35-44 | the three blocks left, and no others, are freed, each read before it goes and not after |
| `LifecycleLaws.TerminateExact` | va/va.c:744-781 | frees tables and name, calls the terminate entry once before closing the library, and destroys the display if and only if that call answered SUCCESS, else keeps what the call left in the context; the call is stray if and only if the owner of the entry is closed |
| `LifecycleLaws.TerminateRetry` | va/va.c:744-781 | repeating a failed terminate makes no driver call, frees exactly what is left and destroys the display |
| `LifecycleLaws.CallPublicExact` | va/va.c:836-2454 | any other public function changes no block and no library; it runs code of a closed library if and only if it calls an entry whose owner is closed |
| `LifecycleLaws.PublicCallsOwnEntry` | va/va.c:836-2454 | but for four of them, all it does is to run the entry of its own name in the library that owns it, or to refuse, or to crash, each in exactly the cases of `OwnEntryAnswers` |
| `Witnesses.WorkingOpens` | va/va.c:434-519 | with a driver that sets exactly what is required, initializing any display succeeds and opens it, also when a driver is open already |
| `Witnesses.HandleKeptIff` | va/va.c:518-519 | whatever the names and drivers do, vaInitialize loses no handle, if and only if no driver is open before it |
| `Witnesses.TerminateKeptIff` | va/va.c:434-519 | whatever they do, it leaves a driver that can be terminated, if and only if no driver is open before it |
| `Witnesses.ScavengerOpens` | va/va.c:434-519 | two names of which the first fails: a driver that sets nothing is opened with the table of the closed one |
| `Runs.StepKeepsInv` | va/va.c:622-781 | every call on every display keeps blocks and libraries accounted for, and the displays separate |
| `Runs.RunsAreSound` | va/va.c:622-781 | in every run no block is freed twice or used after it was freed, no library is closed twice, no driver stopped twice; what is live or open belongs to a display or was dropped |
| `Runs.LeakedBlocks` | va/va.c:647 | a live block belongs to no display if and only if it is a name that some vaSetDriverName of the run replaced |
| `Runs.LeakedHandles` | va/va.c:518-519 | an open library belongs to no display if and only if some vaInitialize of the run overwrote its handle |
| `Runs.NothingElseIsLeft` | va/va.c:744-781 | when all displays are gone, exactly the replaced names are live and exactly the overwritten handles are open |
| `Runs.TerminateTakesAll` | va/va.c:744-781 | a successful terminate leaves live exactly what the other displays own and the replaced names |
| `Runs.StepStops` | va/va.c:755-759 | the terminate entry is called for a library only by a vaTerminate on the display that holds it, once, and only such a call closes a library that is open between calls |
| `Runs.StopsOnce` | va/va.c:755-759 | in a whole run two calls that call the terminate entry for the same library are the same call, and the count of such calls is at most one |
| `Runs.DisciplinedRunsAreTidy` | va/va.c:434-519 | if no call initializes a display whose driver is open, and public functions other than the four are called only on open drivers, no handle is lost, every open driver has all required entries and tables, and no missing entry is called |
| `Runs.DriverCanBeOpened` | va/va.c:714-738 | such runs exist: one that gets a display and opens a driver on it |
| `Runs.DispatchIsSafe` | va/va.c:836-2454 | then every public function but the four, called on a display whose driver is open, calls only entries that are set |
| `Runs.EntryLibraryOpen` | va/va.c:434-519 | then the library behind an entry of an open driver is open if and only if the accepted init assigned that entry |
| `Runs.StrayIffLeftover` | va/va.c:434-781 | then code of a closed library is called in a run if and only if some vaTerminate or public call goes to an entry that the display's own library did not set |
| `Runs.ThoroughNeverStrays` | va/va.c:434-781 | it is never called if every init that succeeds assigns all entries that the tables hold |
| `Runs.StrayTerminate` | va/va.c:755-759 | a run of three calls in which vaInitialize succeeds and vaTerminate calls the terminate entry of a closed library |

## Left out

- Effects of `dlopen`, `dlsym`, `dlclose`, `access`, `fopen`, `getenv`, the uid checks and DRM authentication: their results are parameters of the model.
- Each successful `dlopen` gets a handle of its own; that the system may return one handle twice and count references is not modelled.
- A driver's init is taken to change only table entries, limits and the vendor string of its context, its terminate only the last two. Entries it assigns are null or functions of its own library. A driver that overwrites the pointers libva owns, or copies entries of another library, is not modelled.
- Messages inside the loader and the lifecycle calls: the heap buffer of a long message is proved to be freed in `Messages`, but the loader's own message calls are not part of its ledger. Formatting of message arguments is not modelled; a text is given complete. Its length is below the largest int.
- The driver-side message callbacks (va/va.c:262-278), which do not test for a null callback, and the setters of the callbacks.
- `va_MessagingInit`, tracing, `vaErrorStr`, `vaGetLibFunc`, the `vaMaxNum...` getters.
- The public functions are modelled by the entries they call and test, not by their arguments. What those entries do inside a driver is not modelled, so in runs the public calls change no block.
- `Hooks.Dispatch`: `vaQuerySurfaceAttributes` without a driver entry is taken to the point where both driver entries are called; its early exits are in `Surfaces`.
- Calls with a pointer to a display that was already destroyed, and `vaSetDriverName` with a null display: callers must not make them, so runs do not contain them.
- `Surfaces.QuerySurfaceAttributes`: a successful driver is taken to report at least -6 formats, below which the base attributes do not fit, and at most max_image_formats; other counts make the C code leave its arrays and are not covered.
- Backends other than DRM appear as a list of at most 20 texts to copy, or a failure that leaves no names; their own code is not modelled.
- Printing an init symbol is taken to succeed, since it has only two decimal numbers to print; printing a path may fail.
- Windows, X11, GLX, Wayland and Android code, and the codec, processing and protected-content headers.
- Threads: the code takes no locks, so runs are sequences of calls.
