/**
 * The content-file directory: lookup of a download by its info-hash, the
 * per-download handler kept in the download's user data that caches one
 * ContentFile per file index, the registry of directory listeners, and the
 * fan-out of change notifications to them. Listener callbacks are recorded
 * in a log instead of being run.
 */
module ContentDirectory {
  import opened Common
  import opened ContentProperties

  /** A ContentDirectoryListener, known only by its identity. */
  type ListenerId = nat

  /** The user-data key under which a download keeps its ContentFileHandler. */
  const CF_HANDLER_KEY: string := "PlatformContentDirectory:cfhandler"

  /** The keys of a lookup's attribute map (AT_BTIH, AT_FILE_INDEX) and any other key. */
  datatype AttrKey = AT_BTIH | AT_FILE_INDEX | OtherKey(name: string)

  const INT_MIN: int := -0x8000_0000
  const INT_MAX: int := 0x7fff_ffff

  /** A Java int. */
  type Int32 = x: int | INT_MIN <= x <= INT_MAX

  /** The Java objects an attribute map can hold: a byte[], an Integer, or anything else. */
  datatype AttrValue = ByteArray(bytes: seq<bv8>) | IntegerObject(value: Int32) | OtherObject

  type Attributes = map<AttrKey, AttrValue>

  /** How a call ends: it returns a possibly null reference, or an exception escapes. */
  datatype Call<T> = Returned(result: Option<T>) | Raised

  /** One listener callback, contentChanged(file, property). */
  datatype Notification = ContentChanged(listener: ListenerId, file: ContentFile, property: PropertyName)

  /** A download of the engine: its hash, its current state and its user data. */
  class Download {
    const hash: seq<bv8>
    var state: DownloadState
    var userData: map<string, ContentFileHandler>

    constructor (hash: seq<bv8>, state: DownloadState)
      ensures this.hash == hash && this.state == state && userData == map[]
    {
      this.hash := hash;
      this.state := state;
      userData := map[];
    }
  }

  /** The ContentDownload a lookup by hash returns: a wrapper around the download. */
  datatype ContentDownload = ContentDownload(download: Download)
  {
    /** A ContentDownload has no properties of its own. */
    function GetProperty(name: PropertyName): Option<PropertyValue>
    {
      None
    }
  }

  /** The view of one file of a download; its properties are read live from the download. */
  class ContentFile {
    const download: Download
    const index: int

    constructor (download: Download, index: int)
      ensures this.download == download && this.index == index
    {
      this.download := download;
      this.index := index;
    }

    /** getFile(): the download's file at this index, read from its current state. */
    function GetFile(): (f: Option<FileInfo>)
      reads download
      ensures f.Some? <==> 0 <= index < |download.state.files|
      ensures f.Some? ==> f.value == download.state.files[index]
    {
      FileAt(download.state, index)
    }

    /**
     * getProperty(name): computed afresh from the download's current state
     * on every call, nothing is cached in the ContentFile.
     */
    function GetProperty(name: PropertyName): (r: Option<PropertyValue>)
      reads download
      ensures r == FileProperty(download.state, index, name)
      ensures name.OtherName? ==> r == None
      ensures name == Eta ==> r.Some? && r.value.LongValue? && 0 <= r.value.n
      ensures (name == Date || name == Tags || name == PercentDone) && GetFile().None? ==> r == None
    {
      FileProperty(download.state, index, name)
    }
  }

  // ------------------------------------------------------------ notifications

  /** One listener told about each file in turn (the inner fire loop). */
  function PerListener(l: ListenerId, files: seq<ContentFile>, p: PropertyName): seq<Notification>
  {
    if files == [] then []
    else PerListener(l, files[..|files| - 1], p) + [ContentChanged(l, files[|files| - 1], p)]
  }

  /** Every listener told about every file, listener by listener (the handler's fire loops). */
  function FanOut(ls: seq<ListenerId>, files: seq<ContentFile>, p: PropertyName): seq<Notification>
  {
    if ls == [] then []
    else FanOut(ls[..|ls| - 1], files, p) + PerListener(ls[|ls| - 1], files, p)
  }

  /** Every listener told about one file (the static fire methods). */
  function Broadcast(ls: seq<ListenerId>, cf: ContentFile, p: PropertyName): seq<Notification>
  {
    if ls == [] then []
    else Broadcast(ls[..|ls| - 1], cf, p) + [ContentChanged(ls[|ls| - 1], cf, p)]
  }

  lemma {:induction false} PerListenerAt(l: ListenerId, files: seq<ContentFile>, p: PropertyName)
    ensures |PerListener(l, files, p)| == |files|
    ensures forall j :: 0 <= j < |files| ==> PerListener(l, files, p)[j] == ContentChanged(l, files[j], p)
  {
    if files != [] {
      PerListenerAt(l, files[..|files| - 1], p);
    }
  }

  /** A fan-out makes |listeners| * |files| callbacks. */
  lemma {:induction false} FanOutSize(ls: seq<ListenerId>, files: seq<ContentFile>, p: PropertyName)
    ensures |FanOut(ls, files, p)| == |ls| * |files|
  {
    if ls != [] {
      FanOutSize(ls[..|ls| - 1], files, p);
      PerListenerAt(ls[|ls| - 1], files, p);
      assert (|ls| - 1) * |files| + |files| == |ls| * |files|;
    }
  }

  /** The callback at position i * |files| + j is the one for listener i and file j. */
  lemma {:induction false} FanOutAt(ls: seq<ListenerId>, files: seq<ContentFile>, p: PropertyName, i: nat, j: nat)
    requires i < |ls| && j < |files|
    ensures i * |files| + j < |FanOut(ls, files, p)|
    ensures FanOut(ls, files, p)[i * |files| + j] == ContentChanged(ls[i], files[j], p)
  {
    var init := ls[..|ls| - 1];
    FanOutSize(init, files, p);
    PerListenerAt(ls[|ls| - 1], files, p);
    if i < |init| {
      RowBelow(i, |init|, j, |files|);
      FanOutAt(init, files, p, i, j);
      assert ls[i] == init[i];
    }
  }

  lemma MulMono(x: nat, y: nat, n: nat)
    requires x <= y
    ensures x * n <= y * n
  {
  }

  lemma RowBelow(i: nat, rows: nat, j: nat, n: nat)
    requires i < rows && j < n
    ensures i * n + j < rows * n
  {
    MulMono(i + 1, rows, n);
    assert (i + 1) * n == i * n + n;
  }

  /** Each callback of a fan-out names a listener and a file of its inputs, and the property fanned out. */
  lemma {:induction false} FanOutMembers(ls: seq<ListenerId>, files: seq<ContentFile>, p: PropertyName)
    ensures forall n :: n in FanOut(ls, files, p) ==> n.listener in ls && n.file in files && n.property == p
  {
    if ls != [] {
      var init := ls[..|ls| - 1];
      FanOutMembers(init, files, p);
      PerListenerAt(ls[|ls| - 1], files, p);
      forall n | n in FanOut(ls, files, p) ensures n.listener in ls && n.file in files && n.property == p {
        if n in FanOut(init, files, p) {
          assert n.listener in init;
        } else {
          assert n in PerListener(ls[|ls| - 1], files, p);
        }
      }
    }
  }

  /** A static fire for one file is the handler's fan-out over that file alone. */
  lemma {:induction false} BroadcastIsFanOut(ls: seq<ListenerId>, cf: ContentFile, p: PropertyName)
    ensures Broadcast(ls, cf, p) == FanOut(ls, [cf], p)
    ensures |Broadcast(ls, cf, p)| == |ls|
  {
    if ls != [] {
      BroadcastIsFanOut(ls[..|ls| - 1], cf, p);
      assert [cf][..0] == [];
      assert PerListener(ls[|ls| - 1], [cf], p) == [ContentChanged(ls[|ls| - 1], cf, p)];
    }
  }

  // ------------------------------------------------------------------ handler

  lemma {:induction false} DistinctCard(ks: seq<int>, s: set<int>)
    requires NoDuplicates(ks)
    requires forall k :: k in ks <==> k in s
    ensures |s| == |ks|
  {
    if ks != [] {
      var last := ks[|ks| - 1];
      var init := ks[..|ks| - 1];
      assert last !in init;
      forall k ensures k in init <==> k in s - {last} {
        if k in s - {last} { assert k in ks; }
      }
      DistinctCard(init, s - {last});
    } else {
      assert forall k :: k !in s;
      assert s == {};
    }
  }

  /**
   * ContentFileHandler: created once per download, it caches one ContentFile
   * per file index. order lists the cached indices in the order that
   * cfs.values() visits them.
   */
  class ContentFileHandler {
    const download: Download
    var cfs: map<int, ContentFile>
    var order: seq<int>

    ghost predicate Valid()
      reads this
    {
      && NoDuplicates(order)
      && (forall i :: 0 <= i < |order| ==> order[i] in cfs)
      && (forall k :: k in order <==> k in cfs)
      && (forall k :: k in cfs ==> cfs[k].download == download && cfs[k].index == k)
    }

    constructor (download: Download)
      ensures this.download == download && cfs == map[] && order == [] && Valid()
    {
      this.download := download;
      cfs := map[];
      order := [];
    }

    /** cfs.values(), in the order that it visits the cached files. */
    function Files(): seq<ContentFile>
      reads this
      requires Valid()
    {
      seq(|order|, i requires 0 <= i < |order| && order[i] in cfs reads this => cfs[order[i]])
    }

    /** cfs.values() lists each cached file exactly once, and nothing else. */
    lemma FilesAreCache()
      requires Valid()
      ensures |Files()| == |cfs|
      ensures forall i :: 0 <= i < |Files()| ==>
                Files()[i].download == download && Files()[i].index in cfs && cfs[Files()[i].index] == Files()[i]
      ensures forall k :: k in cfs ==> cfs[k] in Files()
      ensures NoDuplicates(Files())
    {
      DistinctCard(order, cfs.Keys);
      var fs := Files();
      assert forall i :: 0 <= i < |fs| ==> fs[i] == cfs[order[i]] && cfs[order[i]].index == order[i];
      assert forall k :: k in cfs ==> cfs[k] == fs[IndexOf(order, k)];
      assert forall i, j :: 0 <= i < j < |fs| ==> fs[i].index != fs[j].index;
    }

    /** getContentFile(index): the cached file for index, created and stored on a miss. */
    method GetContentFile(index: int) returns (cf: ContentFile)
      requires Valid()
      modifies this
      ensures Valid()
      ensures cf.download == download && cf.index == index
      ensures index in cfs && cfs[index] == cf
      ensures index in old(cfs) ==> cf == old(cfs[index]) && cfs == old(cfs) && order == old(order)
      ensures index !in old(cfs) ==> fresh(cf) && cfs == old(cfs)[index := cf] && order == old(order) + [index]
    {
      if index in cfs {
        cf := cfs[index];
        return;
      }
      cf := new ContentFile(download, index);
      cfs := cfs[index := cf];
      order := order + [index];
    }

    /** fireCatsChanged(): every listener is told about every cached file's categories. */
    method FireCatsChanged(dir: PlatformContentDirectory)
      requires Valid()
      modifies dir`log
      ensures dir.log == old(dir.log) + FanOut(dir.listeners, Files(), Categories)
    {
      FireAll(dir, Categories);
    }

    /** fireTagsChanged(): every listener is told about every cached file's tags. */
    method FireTagsChanged(dir: PlatformContentDirectory)
      requires Valid()
      modifies dir`log
      ensures dir.log == old(dir.log) + FanOut(dir.listeners, Files(), Tags)
    {
      FireAll(dir, Tags);
    }

    /** The attribute listener: the download's category was written. */
    method CategoryWritten(dir: PlatformContentDirectory)
      requires Valid()
      modifies dir`log
      ensures dir.log == old(dir.log) + FanOut(dir.listeners, Files(), Categories)
    {
      FireCatsChanged(dir);
    }

    /** The manual-tag listener: a manual tag was added to or removed from the download. */
    method ManualTagChanged(dir: PlatformContentDirectory)
      requires Valid()
      modifies dir`log
      ensures dir.log == old(dir.log) + FanOut(dir.listeners, Files(), Tags)
    {
      FireTagsChanged(dir);
    }

    method FireAll(dir: PlatformContentDirectory, p: PropertyName)
      requires Valid()
      modifies dir`log
      ensures dir.log == old(dir.log) + FanOut(dir.listeners, Files(), p)
    {
      TellListeners(dir, Files(), p);
    }
  }

  /** The fire loops: each listener in turn is told about every file. */
  method TellListeners(dir: PlatformContentDirectory, files: seq<ContentFile>, p: PropertyName)
    modifies dir`log
    ensures dir.log == old(dir.log) + FanOut(dir.listeners, files, p)
  {
    var ls := dir.listeners;
    var i := 0;
    while i < |ls|
      invariant 0 <= i <= |ls|
      invariant dir.log == old(dir.log) + FanOut(ls[..i], files, p)
    {
      TellListener(dir, ls[i], files, p);
      assert ls[..i + 1][..i] == ls[..i];
      i := i + 1;
    }
    assert ls[..i] == ls;
  }

  /** The inner fire loop: one listener is told about each file in turn. */
  method TellListener(dir: PlatformContentDirectory, l: ListenerId, files: seq<ContentFile>, p: PropertyName)
    modifies dir`log
    ensures dir.log == old(dir.log) + PerListener(l, files, p)
  {
    var j := 0;
    while j < |files|
      invariant 0 <= j <= |files|
      invariant dir.log == old(dir.log) + PerListener(l, files[..j], p)
    {
      dir.log := dir.log + [ContentChanged(l, files[j], p)];
      assert files[..j + 1][..j] == files[..j];
      j := j + 1;
    }
    assert files[..j] == files;
  }

  // ------------------------------------------------------------------- lookup

  /** The (byte[]) cast of the AT_BTIH attribute succeeds: absent or a byte array. */
  predicate HashAttrWellTyped(attrs: Attributes)
  {
    AT_BTIH !in attrs || attrs[AT_BTIH].ByteArray?
  }

  /** The ((Integer) ...).intValue() of the AT_FILE_INDEX attribute succeeds. */
  predicate IndexAttrWellTyped(attrs: Attributes)
  {
    AT_FILE_INDEX in attrs && attrs[AT_FILE_INDEX].IntegerObject?
  }

  /** downloadManager.getDownload(hash): a null or unknown hash finds nothing. */
  function ResolveDownload(downloads: map<seq<bv8>, Download>, attrs: Attributes): (r: Option<Download>)
    requires HashAttrWellTyped(attrs)
    ensures r.Some? <==> AT_BTIH in attrs && attrs[AT_BTIH].bytes in downloads
    ensures r.Some? ==> r.value == downloads[attrs[AT_BTIH].bytes]
  {
    if AT_BTIH in attrs && attrs[AT_BTIH].bytes in downloads then Some(downloads[attrs[AT_BTIH].bytes])
    else None
  }

  /**
   * lookupContentDownload: the cast of the hash attribute stands before the
   * try, so only a hash of the wrong type raises; a missing hash or an
   * unknown download gives null.
   */
  function LookupContentDownload(downloads: map<seq<bv8>, Download>, attrs: Attributes): (r: Call<ContentDownload>)
    ensures r.Raised? <==> !HashAttrWellTyped(attrs)
    ensures r.Returned? && r.result.None? <==>
              HashAttrWellTyped(attrs) && (AT_BTIH !in attrs || attrs[AT_BTIH].bytes !in downloads)
    ensures r.Returned? && r.result.Some? ==>
              AT_BTIH in attrs && r.result.value.download == downloads[attrs[AT_BTIH].bytes]
  {
    if !HashAttrWellTyped(attrs) then Raised
    else match ResolveDownload(downloads, attrs)
      case None => Returned(None)
      case Some(d) => Returned(Some(ContentDownload(d)))
  }

  /** The objects a download's handler slot refers to. */
  function HandlerSlot(d: Download): set<ContentFileHandler>
    reads d
  {
    if CF_HANDLER_KEY in d.userData then {d.userData[CF_HANDLER_KEY]} else {}
  }

  /** The handler stored in d's user data belongs to d and is consistent. */
  ghost predicate Wired(d: Download)
    reads d, HandlerSlot(d)
  {
    CF_HANDLER_KEY in d.userData ==>
      d.userData[CF_HANDLER_KEY].download == d && d.userData[CF_HANDLER_KEY].Valid()
  }

  ghost function Handlers(downloads: map<seq<bv8>, Download>): set<ContentFileHandler>
    reads downloads.Values
  {
    set d, h | d in downloads.Values && h in HandlerSlot(d) :: h
  }

  ghost predicate AllWired(downloads: map<seq<bv8>, Download>)
    reads downloads.Values, Handlers(downloads)
  {
    forall d :: d in downloads.Values ==> Wired(d)
  }

  /** The ContentFile cached for index in d's handler, if any. */
  ghost function Cached(d: Download, index: int): Option<ContentFile>
    reads d, HandlerSlot(d)
  {
    if CF_HANDLER_KEY in d.userData && index in d.userData[CF_HANDLER_KEY].cfs
    then Some(d.userData[CF_HANDLER_KEY].cfs[index]) else None
  }

  /**
   * The directory's shared state: the listener list (the static
   * CopyOnWriteList) and the log of callbacks made to the listeners.
   */
  class PlatformContentDirectory {
    var listeners: seq<ListenerId>
    var log: seq<Notification>

    constructor ()
      ensures listeners == [] && log == []
    {
      listeners := [];
      log := [];
    }

    method AddListener(l: ListenerId)
      modifies this`listeners
      ensures listeners == old(listeners) + [l]
    {
      listeners := listeners + [l];
    }

    method RemoveListener(l: ListenerId)
      modifies this`listeners
      ensures listeners == RemoveFirst(old(listeners), l)
    {
      listeners := RemoveFirst(listeners, l);
    }

    /** The static fireCatsChanged(cf): one callback per listener. */
    method FireCatsChanged(cf: ContentFile)
      modifies this`log
      ensures log == old(log) + Broadcast(listeners, cf, Categories)
    {
      BroadcastAll(cf, Categories);
    }

    /** The static fireTagsChanged(cf): one callback per listener. */
    method FireTagsChanged(cf: ContentFile)
      modifies this`log
      ensures log == old(log) + Broadcast(listeners, cf, Tags)
    {
      BroadcastAll(cf, Tags);
    }

    method BroadcastAll(cf: ContentFile, p: PropertyName)
      modifies this`log
      ensures log == old(log) + Broadcast(listeners, cf, p)
    {
      var i := 0;
      while i < |listeners|
        invariant 0 <= i <= |listeners|
        invariant log == old(log) + Broadcast(listeners[..i], cf, p)
      {
        log := log + [ContentChanged(listeners[i], cf, p)];
        assert listeners[..i + 1][..i] == listeners[..i];
        i := i + 1;
      }
      assert listeners[..i] == listeners;
    }

    /** getUserData(key), and on a miss a new handler stored with setUserData(key, ...). */
    method HandlerFor(d: Download) returns (h: ContentFileHandler)
      requires Wired(d)
      modifies d`userData
      ensures Wired(d) && h.Valid() && h.download == d
      ensures CF_HANDLER_KEY in d.userData && d.userData[CF_HANDLER_KEY] == h
      ensures CF_HANDLER_KEY in old(d.userData) ==> h == old(d.userData[CF_HANDLER_KEY]) && d.userData == old(d.userData)
      ensures CF_HANDLER_KEY !in old(d.userData) ==>
                fresh(h) && h.cfs == map[] && d.userData == old(d.userData)[CF_HANDLER_KEY := h]
    {
      if CF_HANDLER_KEY in d.userData {
        h := d.userData[CF_HANDLER_KEY];
      } else {
        h := new ContentFileHandler(d);
        d.userData := d.userData[CF_HANDLER_KEY := h];
      }
    }

    /**
     * lookupContentFile: the casts of both attributes stand before the try,
     * so a mistyped hash or a missing or mistyped index raises; an unknown
     * download gives null; otherwise the download's handler (reused, or
     * created once) returns its cached ContentFile for the index.
     */
    method LookupContentFile(downloads: map<seq<bv8>, Download>, attrs: Attributes) returns (r: Call<ContentFile>)
      requires AllWired(downloads)
      modifies downloads.Values, Handlers(downloads)
      ensures AllWired(downloads)
      ensures r.Raised? <==> !(HashAttrWellTyped(attrs) && IndexAttrWellTyped(attrs))
      ensures r.Returned? ==> (r.result.Some? <==> ResolveDownload(downloads, attrs).Some?)
      ensures r.Returned? && r.result.Some? ==>
                var d := ResolveDownload(downloads, attrs).value;
                var index := attrs[AT_FILE_INDEX].value;
                && r.result.value.download == d && r.result.value.index == index
                && Cached(d, index) == r.result
                && (old(Cached(d, index)).Some? ==> r.result == old(Cached(d, index)))
                && (old(Cached(d, index)).None? ==> fresh(r.result.value))
                && (CF_HANDLER_KEY in old(d.userData) ==>
                      CF_HANDLER_KEY in d.userData && d.userData[CF_HANDLER_KEY] == old(d.userData[CF_HANDLER_KEY]))
                && (forall k :: k != index ==> Cached(d, k) == old(Cached(d, k)))
      ensures forall d :: d in downloads.Values && (r.Raised? || r.result.None? || d != r.result.value.download) ==>
                d.userData == old(d.userData)
      ensures forall h :: h in old(Handlers(downloads)) && (r.Raised? || r.result.None? || h.download != r.result.value.download) ==>
                h.cfs == old(h.cfs) && h.order == old(h.order)
      ensures fresh(Handlers(downloads) - old(Handlers(downloads)))
    {
      if !HashAttrWellTyped(attrs) || !IndexAttrWellTyped(attrs) {
        return Raised;
      }
      var index := attrs[AT_FILE_INDEX].value;
      var found := ResolveDownload(downloads, attrs);
      if found.None? {
        return Returned(None);
      }
      var d := found.value;
      assert d in downloads.Values by { assert downloads[attrs[AT_BTIH].bytes] == d; }
      ghost var before := Handlers(downloads);
      assert HandlerSlot(d) <= before;
      var h := HandlerFor(d);
      var cf := h.GetContentFile(index);
      r := Returned(Some(cf));
      forall d' | d' in downloads.Values ensures Wired(d') {
        if d' != d && CF_HANDLER_KEY in d'.userData {
          assert HandlerSlot(d') <= before;
          assert d'.userData[CF_HANDLER_KEY] != h;
        }
      }
    }
  }

  /** Two lookups in a row with the same attributes give the same result, the same object included. */
  method RepeatedLookup(dir: PlatformContentDirectory, downloads: map<seq<bv8>, Download>, attrs: Attributes)
    returns (first: Call<ContentFile>, second: Call<ContentFile>)
    requires AllWired(downloads)
    modifies downloads.Values, Handlers(downloads)
    ensures AllWired(downloads)
    ensures first == second
  {
    first := dir.LookupContentFile(downloads, attrs);
    second := dir.LookupContentFile(downloads, attrs);
  }

  /**
   * Lookups of index i, then of another index j of the same download, then of
   * i again: the third returns the very object of the first, because the
   * download keeps its handler and the lookup of j leaves the entry for i.
   */
  method InterleavedLookup(dir: PlatformContentDirectory, downloads: map<seq<bv8>, Download>,
                           attrs: Attributes, j: Int32)
    returns (first: Call<ContentFile>, second: Call<ContentFile>, third: Call<ContentFile>)
    requires AllWired(downloads)
    modifies downloads.Values, Handlers(downloads)
    ensures AllWired(downloads)
    ensures first == third
    ensures first.Returned? && first.result.Some? ==>
              second.Returned? && second.result.Some? && second.result.value.download == first.result.value.download
              && second.result.value.index == j
  {
    var other := attrs[AT_FILE_INDEX := IntegerObject(j)];
    first := dir.LookupContentFile(downloads, attrs);
    second := dir.LookupContentFile(downloads, other);
    third := dir.LookupContentFile(downloads, attrs);
  }
}
