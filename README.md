# BiglyBT: content-file directory, tag buttons and search views

A Dafny model of three pieces of BiglyBT, with proofs about them.

## What is modelled

- **Content directory** (`PlatformContentDirectory`). Looks up a download by its info-hash and, within it, a file by index. Each download keeps one `ContentFileHandler` in its user data, and that handler caches one `ContentFile` per file index. The model computes each file's properties on every read:
  - creation date;
  - category;
  - names of the manual tags;
  - per-mille completion;
  - ETA.

  It also keeps the listener registry and fans change notifications out to it. Listener callbacks are not run: each becomes an entry (`Notification`) appended to a log. Engine reads that can throw are `Read` values, so the source's catch blocks become explicit cases. The download manager is a map from hash to `Download`.
- **Tag button** (`TagCanvas`). Covers these state fields:
  - `enabled`, `selected` and `grayed`;
  - `disableAuto` and `enableWhenNoTaggables`;
  - the compact layout fields.

  Also modelled: the change-only-if-different setters, and the rule in `updateState` that derives the look from the taggables in view, an optional override and the tag's auto-add and auto-remove flags.
- **Search views** (`SearchHandler.handleSearch`). The sidebar id of a search is a prefix, then `"."`, then the hex of the text's `hashCode`, then `".s"` for a subscription search. An existing view with that id is reused. Otherwise the new view goes on the end of the list of active searches. When the list passes five entries the oldest is removed and closed, and its close listener then removes nothing. The MDI (the sidebar's multiple-document interface) is foreign: what it holds under an id, and whether it creates an entry, are parameters.

Modules:
- `Common`: `Option`, `NoDuplicates`, and `RemoveFirst`, which models Java's `List.remove(Object)`.
- `ContentProperties`: the pure property functions.
- `ContentDirectory`: the classes and the fire loops.
- `TagButton`: the tag button.
- `SearchHandling`: the search views.

Notes on the source's behaviour, which the model follows:
- A zero-length file reports a per-mille completion of 100 (PlatformContentDirectory.java line 299), not a full 1000.
- In `lookupContentDownload` and `lookupContentFile`, the casts of the hash and index attributes come before the `try`. So a mistyped hash, or a missing or mistyped index, raises an exception (`Raised`) rather than giving null.
- Listeners are kept as a list that allows duplicates, as `CopyOnWriteList` does, and `remove` takes out only the first copy.
- `OtherName(name)` stands for a property name other than the five known ones; the model does not carry the `PT_*` string values.
- An `Integer` attribute holds a 32-bit value (`Int32`).

## Model

| member | source | states |
|---|---|---|
| Common.RemoveFirst | core/src/com/biglybt/core/content/PlatformContentDirectory.java:403-409 | removing a listener deletes its first occurrence and keeps the others in order; an absent listener leaves the list as it is |
| Common.RemoveFirstLength | uis/src/com/biglybt/ui/swt/search/SearchHandler.java:138-144 | removing a present entry shortens the list by one |
| Common.RemoveFirstMembers | uis/src/com/biglybt/ui/swt/search/SearchHandler.java:138-144 | removal keeps every other element and adds none |
| Common.RemoveFirstDistinct | uis/src/com/biglybt/ui/swt/search/SearchHandler.java:138-144 | from a list without duplicates, removing an entry removes it altogether and keeps the list duplicate-free |
| Common.RemoveAfterAppend | core/src/com/biglybt/core/content/PlatformContentDirectory.java:395-409 | adding a new listener and then removing it restores the registry |
| ContentProperties.CategoryList | core/src/com/biglybt/core/content/PlatformContentDirectory.java:256-274 | the category array has at most one element; it is non-empty exactly when the file exists, the category read succeeds, and the name is non-empty and not "Categories.uncategorized" ignoring case; it then holds that name |
| ContentProperties.AddManualNames | core/src/com/biglybt/core/content/PlatformContentDirectory.java:283-291 | the loop only ever adds names: the names collected so far stay, in their order, at the front |
| ContentProperties.AddManualNamesSpec | core/src/com/biglybt/core/content/PlatformContentDirectory.java:283-291 | the loop over the tags collects each manual tag name once, and no other name |
| ContentProperties.ManualTagNames | core/src/com/biglybt/core/content/PlatformContentDirectory.java:276-293 | the tag names are duplicate-free and are exactly the display names of the manual tags |
| ContentProperties.JavaDiv | core/src/com/biglybt/core/content/PlatformContentDirectory.java:299 | Java's `/` on longs: the magnitude is the floor of the magnitudes' quotient and a non-zero quotient is negative exactly when the operands' signs differ, so it rounds toward zero and agrees with floor division for non-negative operands |
| ContentProperties.PercentDoneOf | core/src/com/biglybt/core/content/PlatformContentDirectory.java:295-299 | a zero-length file gives 100; a length-bounded non-negative count gives 0..1000; a complete non-empty file gives 1000; for a positive length the value is the floor of 1000*downloaded/length |
| ContentProperties.PercentBound | core/src/com/biglybt/core/content/PlatformContentDirectory.java:299 | Java's truncating division of 1000*downloaded by the length lies in 0..1000, and is 1000 when complete |
| ContentProperties.FileEta | core/src/com/biglybt/core/content/PlatformContentDirectory.java:344-372 | a missing file (the null-pointer exception caught) gives Long.MAX_VALUE; a complete file gives 0; an incomplete deleted or skipped file gives Long.MAX_VALUE; otherwise a failing engine read or a negative estimate gives Long.MAX_VALUE and a non-negative estimate is returned as it is |
| ContentProperties.FileProperty | core/src/com/biglybt/core/content/PlatformContentDirectory.java:244-309 | for each property name, whether getProperty returns null and what it returns: date and percent only for an existing file, tags only when the file exists and the tag query succeeds, categories and ETA always, any other name null |
| ContentDirectory.ContentFile.GetFile | core/src/com/biglybt/core/content/PlatformContentDirectory.java:237-242 | the file is read from the download's current state each time; there is one exactly within the file list |
| ContentDirectory.ContentFile.GetProperty | core/src/com/biglybt/core/content/PlatformContentDirectory.java:244-309 | every property is computed afresh from the download's current state; unknown names give null, the ETA is always a non-negative long, and date, tags and percent are null without a file |
| ContentDirectory.PerListenerAt | core/src/com/biglybt/core/content/PlatformContentDirectory.java:322-325 | the inner fire loop tells one listener about each file, in order, once each |
| ContentDirectory.FanOutSize | core/src/com/biglybt/core/content/PlatformContentDirectory.java:317-339 | a handler fire makes exactly listeners × cached files callbacks |
| ContentDirectory.FanOutAt | core/src/com/biglybt/core/content/PlatformContentDirectory.java:317-339 | callback number i·n+j goes to listener i about file j: every listener hears about every file, listener by listener |
| ContentDirectory.FanOutMembers | core/src/com/biglybt/core/content/PlatformContentDirectory.java:317-339 | every callback names a registered listener, a cached file and the fired property |
| ContentDirectory.BroadcastIsFanOut | core/src/com/biglybt/core/content/PlatformContentDirectory.java:374-392 | the static fire for one file is the fan-out over that single file: one callback per listener |
| ContentDirectory.ContentFileHandler.constructor | core/src/com/biglybt/core/content/PlatformContentDirectory.java:163-167 | a new handler belongs to its download and caches nothing |
| ContentDirectory.ContentFileHandler.FilesAreCache | core/src/com/biglybt/core/content/PlatformContentDirectory.java:161 | the cache's values list each cached file exactly once and nothing else |
| ContentDirectory.ContentFileHandler.GetContentFile | core/src/com/biglybt/core/content/PlatformContentDirectory.java:223-315 | a hit returns the cached object and changes nothing; a miss creates a file for this download and index, stores it, and changes no other entry |
| ContentDirectory.ContentFileHandler.FireCatsChanged | core/src/com/biglybt/core/content/PlatformContentDirectory.java:317-327 | the callbacks made are the fan-out of the categories property over listeners and cached files |
| ContentDirectory.ContentFileHandler.FireTagsChanged | core/src/com/biglybt/core/content/PlatformContentDirectory.java:329-339 | the callbacks made are the fan-out of the tags property over listeners and cached files |
| ContentDirectory.ContentFileHandler.CategoryWritten | core/src/com/biglybt/core/content/PlatformContentDirectory.java:169-183 | a written category fires the categories change for every cached file |
| ContentDirectory.ContentFileHandler.ManualTagChanged | core/src/com/biglybt/core/content/PlatformContentDirectory.java:185-220 | a manual tag added or removed fires the tags change for every cached file |
| ContentDirectory.TellListeners | core/src/com/biglybt/core/content/PlatformContentDirectory.java:320-326 | the outer loop appends exactly the fan-out over the listener list |
| ContentDirectory.TellListener | core/src/com/biglybt/core/content/PlatformContentDirectory.java:322-325 | the inner loop appends one callback per file, in order |
| ContentDirectory.LookupContentDownload | core/src/com/biglybt/core/content/PlatformContentDirectory.java:79-117 | raises exactly when the hash attribute has the wrong type; null exactly when the hash is missing or unknown; otherwise wraps the download under that hash |
| ContentDirectory.PlatformContentDirectory.constructor | core/src/com/biglybt/core/content/PlatformContentDirectory.java:65-69 | no listeners and no callbacks yet |
| ContentDirectory.PlatformContentDirectory.AddListener | core/src/com/biglybt/core/content/PlatformContentDirectory.java:395-401 | the listener is appended to the registry |
| ContentDirectory.PlatformContentDirectory.RemoveListener | core/src/com/biglybt/core/content/PlatformContentDirectory.java:403-409 | the registry loses the first occurrence of the listener |
| ContentDirectory.PlatformContentDirectory.FireCatsChanged | core/src/com/biglybt/core/content/PlatformContentDirectory.java:374-382 | every registered listener, in order, is told once about the file's categories |
| ContentDirectory.PlatformContentDirectory.FireTagsChanged | core/src/com/biglybt/core/content/PlatformContentDirectory.java:384-392 | every registered listener, in order, is told once about the file's tags |
| ContentDirectory.PlatformContentDirectory.HandlerFor | core/src/com/biglybt/core/content/PlatformContentDirectory.java:137-146 | the stored handler is reused; without one a fresh empty handler is created and stored under the handler key, and nothing else in the user data changes |
| ContentDirectory.PlatformContentDirectory.LookupContentFile | core/src/com/biglybt/core/content/PlatformContentDirectory.java:120-154 | raises exactly when the hash is mistyped or the index is missing or mistyped; null exactly when no download is found; otherwise the cached file for that download and index, reused if cached and fresh if not; the download keeps its handler and every other cached index; other downloads and handlers are unchanged |
| ContentDirectory.RepeatedLookup | core/src/com/biglybt/core/content/PlatformContentDirectory.java:227-232 | two lookups with the same attributes return the same result, the same object included |
| ContentDirectory.InterleavedLookup | core/src/com/biglybt/core/content/PlatformContentDirectory.java:137-148 | a lookup of index i, then of another index of the same download, then of i again: the third returns the object of the first |
| TagButton.ScanTaggables | uis/src/com/biglybt/ui/swt/widgets/TagCanvas.java:444-458 | despite the early breaks, hasTag holds exactly when some taggable has the tag, and hasNoTag exactly when some taggable lacks it |
| TagButton.FinalLook | uis/src/com/biglybt/ui/swt/widgets/TagCanvas.java:469-485 | selected exactly when some taggable has the tag; grayed exactly for a mixed selection or an untagged auto-add-and-remove tag; enabled exactly when the tag is not auto-add, or it is uniformly present and not auto-remove |
| TagButton.TagCanvas.constructor | uis/src/com/biglybt/ui/swt/widgets/TagCanvas.java:135-150 | isTagAuto holds exactly when the auto array has two or more entries and its first two are set; the button is enabled unless it is an auto tag with auto disabled; default layout |
| TagButton.TagCanvas.SetEnabled | uis/src/com/biglybt/ui/swt/widgets/TagCanvas.java:488-495 | the enabled flag takes the new value |
| TagButton.TagCanvas.SetDisableAuto | uis/src/com/biglybt/ui/swt/widgets/TagCanvas.java:259-267 | the same value changes nothing; a new value is stored and enabled becomes !isTagAuto or !disableAuto |
| TagButton.TagCanvas.SetSelected | uis/src/com/biglybt/ui/swt/widgets/TagCanvas.java:298-300 | a change of selection is stored and clears the gray; the same value changes nothing |
| TagButton.TagCanvas.SetSelectedWith | uis/src/com/biglybt/ui/swt/widgets/TagCanvas.java:302-310 | a change of selection is stored, and the gray is cleared only when it was set and unGray holds; the same value changes nothing |
| TagButton.TagCanvas.SetGrayed | uis/src/com/biglybt/ui/swt/widgets/TagCanvas.java:400-406 | grayed takes the new value and nothing else changes |
| TagButton.TagCanvas.SetEnableWhenNoTaggables | uis/src/com/biglybt/ui/swt/widgets/TagCanvas.java:525-531 | the flag takes the new value and nothing else changes |
| TagButton.TagCanvas.SetCompact | uis/src/com/biglybt/ui/swt/widgets/TagCanvas.java:541-564 | the same value changes nothing; otherwise every padding and curve field takes the compact or default constant, the image is hidden in compact mode, and the layout stays consistent with the flag |
| TagButton.TagCanvas.UpdateState | uis/src/com/biglybt/ui/swt/widgets/TagCanvas.java:425-486 | with no taggables and not enabled-when-none, the button is disabled and unselected with its gray kept; otherwise an auto array shorter than two raises after the enabling step, with selection and gray kept; otherwise the look is the final rule applied to the scanned flags, or to the override when there is one |
| SearchHandling.HashBits | uis/src/com/biglybt/ui/swt/search/SearchHandler.java:115 | the text's hashCode as 32 bits |
| SearchHandling.ToHex | uis/src/com/biglybt/ui/swt/search/SearchHandler.java:115 | toHexString gives a non-empty string of lower-case hex digits with no leading zero |
| SearchHandling.SearchId | uis/src/com/biglybt/ui/swt/search/SearchHandler.java:115 | the id starts with the prefix and a dot; a subscription id ends in ".s", a plain one in a hex digit |
| SearchHandling.HexRoundTrip | uis/src/com/biglybt/ui/swt/search/SearchHandler.java:115 | the hex part of the id reads back as the hash: the encoding loses nothing |
| SearchHandling.SubscribeSuffixDecides | uis/src/com/biglybt/ui/swt/search/SearchHandler.java:115 | an id ends in ".s" exactly when it is a subscription search's id |
| SearchHandling.SearchIdsOfTextDiffer | uis/src/com/biglybt/ui/swt/search/SearchHandler.java:115 | a subscription search and a plain search never get the same id |
| SearchHandling.AfterRecord | uis/src/com/biglybt/ui/swt/search/SearchHandler.java:146-154 | the new view is appended; from a full list the oldest is dropped from the front |
| SearchHandling.Evicted | uis/src/com/biglybt/ui/swt/search/SearchHandler.java:150-153 | a view is evicted exactly when the list already held five, and it is the oldest |
| SearchHandling.RecordAllKeepsNewest | uis/src/com/biglybt/ui/swt/search/SearchHandler.java:146-154 | any run of new views leaves exactly the newest five recorded views, oldest first |
| SearchHandling.MdiEntry.constructor | uis/src/com/biglybt/ui/swt/search/SearchHandler.java:128-133 | a created view carries its id and its query and is open |
| SearchHandling.SearchHandler.constructor | uis/src/com/biglybt/ui/swt/search/SearchHandler.java:72 | the list of active searches starts empty |
| SearchHandling.SearchHandler.EntryClosed | uis/src/com/biglybt/ui/swt/search/SearchHandler.java:138-144 | the close listener removes the view, keeps the others in order, and leaves at most five distinct open views |
| SearchHandling.SearchHandler.CloseView | uis/src/com/biglybt/ui/swt/search/SearchHandler.java:156-159 | closing a view marks it closed and its listener removes it from the list |
| SearchHandling.SearchHandler.HandleSearch | uis/src/com/biglybt/ui/swt/search/SearchHandler.java:111-162 | the id is the search id of the text; an existing view only gets the new query and the list is unchanged; a failed creation leaves the list unchanged; a new view is recorded first in, first out, the evicted view is the oldest and is closed; no other listed view changes its query, none but the evicted one is closed, and the list stays at most five distinct open views |

## Left out

- Concurrency is left out. `ConcurrentHashMap`, `CopyOnWriteList` and the `synchronized` blocks are modelled sequentially. Idempotent creation (`RepeatedLookup`) is claimed only for calls made one after another, not under races.
- ContentDirectory.ContentFileHandler.Files: `cfs.values()` has no fixed order. The model visits the cached files in insertion order. The properties proved about it (each cached file exactly once, the callback count, who hears about what) do not depend on that order.
- ContentProperties.ManualTagNames: the array comes from a `HashSet`, so its order is unspecified. The model uses first-occurrence order and states only duplicate-freedom and membership.
- ContentProperties.EqualsIgnoreCase: covers ASCII case mapping only, not the full Unicode case folding of `String.equalsIgnoreCase`.
- ContentProperties.PercentDoneOf: the long overflow of `1000 * downloaded` is not modelled (unbounded integers are used); it needs a file of more than about 9.2·10^15 bytes.
- In the source a throwing listener aborts the fire loop (there is no try around the callbacks), so the remaining listeners are not told. The model has no throwing listeners, so every callback is logged.
- Subscribing the handler to the category attribute and to manual-tag events is foreign code. `CategoryWritten` and `ManualTagChanged` give what those callbacks do, not the subscription.
- `getDiskManagerFileInfo(index)` comes from the download implementation, which is not part of this model. It is taken to give null outside the download's file list (`FileAt`).
- `downloadManager.getDownload(hash)` is not part of this model. It is taken to be a lookup in a map from hash to download, giving null for a null or unknown hash (`ResolveDownload`).
- The numeric value of tag type `TT_DOWNLOAD_MANUAL` is taken as 3. `TagType` is not part of this model.
- `registerDirectory`, `lookupContent` (which always returns null) and `ContentDownload.getProperty` (which always returns null) carry no behaviour worth a contract. `ContentDownload.GetProperty` is written out without one.
- A handler's constructor can throw while it subscribes to events; this is not modelled.
- TagCanvas:
  - rendering is not modelled: `paintControl`, `computeSize`, colours, fonts, images and name updates;
  - event handling is not modelled: `handleEvent` and the trigger callbacks;
  - the two-argument constructor, a shorthand for `(true, false)`, is left out.
- TagButton.TagCanvas.UpdateState: membership of a taggable in the tag (`tag.hasTaggable`) and the override (`trigger.tagSelectedOverride`) are given as inputs.
- SearchHandler:
  - the RCM plugin IPC and configuration lookups are not modelled;
  - the skin calls and `showEntry`/`showEntryByID` are not modelled;
  - the MDI's own bookkeeping of entries is not modelled;
  - the MDI prefix `SIDEBAR_SECTION_SEARCH` is a parameter.
- SearchHandling.SearchHandler: the static list `active_searches` is a field of one handler object.
- ContentDirectory.PlatformContentDirectory: the static `listeners` list and the static `fireCatsChanged(cf)`/`fireTagsChanged(cf)` are a field and methods of one directory object; the handlers reach the registry through that object.
- SearchHandling.HashBits: takes each Dafny character as one UTF-16 unit. Characters outside the Basic Multilingual Plane, which Java hashes as two units, are not modelled.
