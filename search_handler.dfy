/**
 * The bookkeeping of search views (SearchHandler.handleSearch): the sidebar
 * id of a search, reuse of an open view with that id, and the list of open
 * search views, which keeps at most five and closes the oldest when a sixth
 * is opened. The multiple-document interface (MDI) is foreign: its lookup of
 * an entry by id and its creation of an entry are parameters.
 */
module SearchHandling {
  import opened Common

  /** The size past which the oldest search view is closed. */
  const MAX_ACTIVE_SEARCHES: nat := 5

  /** 2^32: Java int arithmetic is taken modulo this. */
  const TWO_32: nat := 0x1_0000_0000

  // ------------------------------------------------------------------ the id

  /**
   * The 32 bits of Java's String.hashCode: h = 31 * h + c over the characters,
   * wrapping around at 32 bits. Integer.toHexString prints these bits
   * unsigned, so the signed value is never needed.
   */
  function HashBits(s: string): (h: nat)
    ensures h < TWO_32
  {
    if s == [] then 0
    else (31 * HashBits(s[..|s| - 1]) + s[|s| - 1] as int) % TWO_32
  }

  predicate IsHexDigit(c: char)
  {
    '0' <= c <= '9' || 'a' <= c <= 'f'
  }

  function HexDigit(d: nat): (c: char)
    requires d < 16
    ensures IsHexDigit(c)
  {
    if d < 10 then ('0' as int + d) as char else ('a' as int + d - 10) as char
  }

  function DigitValue(c: char): (d: nat)
    requires IsHexDigit(c)
    ensures d < 16
  {
    if c <= '9' then c as int - '0' as int else c as int - 'a' as int + 10
  }

  /** Integer.toHexString on the bits of a value: lower-case digits, no leading zeros. */
  function ToHex(n: nat): (r: string)
    ensures |r| >= 1
    ensures forall i :: 0 <= i < |r| ==> IsHexDigit(r[i])
    ensures |r| == 1 || r[0] != '0'
  {
    if n < 16 then [HexDigit(n)] else ToHex(n / 16) + [HexDigit(n % 16)]
  }

  /** Reading a string of hex digits back as a number. */
  function FromHex(s: string): nat
    requires forall i :: 0 <= i < |s| ==> IsHexDigit(s[i])
  {
    if s == [] then 0 else 16 * FromHex(s[..|s| - 1]) + DigitValue(s[|s| - 1])
  }

  /** The hex part of a search id gives the hash back, so it is a faithful encoding. */
  lemma {:induction false} HexRoundTrip(n: nat)
    ensures FromHex(ToHex(n)) == n
  {
    if n >= 16 {
      HexRoundTrip(n / 16);
      var r := ToHex(n);
      assert r[..|r| - 1] == ToHex(n / 16);
      assert DigitValue(HexDigit(n % 16)) == n % 16;
    } else {
      assert DigitValue(HexDigit(n)) == n;
    }
  }

  /** The sidebar id of a search for text: prefix "." hex(hashCode) and ".s" for a subscription search. */
  function SearchId(prefix: string, text: string, toSubscribe: bool): (id: string)
    ensures |id| > |prefix| + 1 && id[..|prefix| + 1] == prefix + "."
    ensures toSubscribe ==> id[|id| - 2..] == ".s"
    ensures !toSubscribe ==> IsHexDigit(id[|id| - 1])
  {
    prefix + "." + ToHex(HashBits(text)) + (if toSubscribe then ".s" else "")
  }

  predicate EndsWithSubscribeSuffix(id: string)
  {
    |id| >= 2 && id[|id| - 2..] == ".s"
  }

  /**
   * An id ends in ".s" exactly when it is the id of a subscription search,
   * whatever the prefix and text, so a plain search and a subscription search
   * never share a view.
   */
  lemma SubscribeSuffixDecides(prefix: string, text: string, toSubscribe: bool)
    ensures EndsWithSubscribeSuffix(SearchId(prefix, text, toSubscribe)) <==> toSubscribe
  {
  }

  lemma SearchIdsOfTextDiffer(prefix: string, text1: string, text2: string)
    ensures SearchId(prefix, text1, true) != SearchId(prefix, text2, false)
  {
  }

  // --------------------------------------------------- the list of active views

  /** The list after add(entry) and, past the limit, remove(0). */
  function AfterRecord<T>(active: seq<T>, e: T): (r: seq<T>)
    ensures |active| < MAX_ACTIVE_SEARCHES ==> r == active + [e]
    ensures |active| >= MAX_ACTIVE_SEARCHES ==> r == active[1..] + [e]
  {
    var added := active + [e];
    if |added| > MAX_ACTIVE_SEARCHES then added[1..] else added
  }

  /** The entry that remove(0) takes out, if the append went past the limit. */
  function Evicted<T>(active: seq<T>, e: T): (r: Option<T>)
    ensures r.Some? <==> |active| >= MAX_ACTIVE_SEARCHES
    ensures r.Some? ==> r.value == active[0]
  {
    var added := active + [e];
    if |added| > MAX_ACTIVE_SEARCHES then Some(added[0]) else None
  }

  /** Recording the entries es one after another. */
  function RecordAll<T>(active: seq<T>, es: seq<T>): seq<T>
  {
    if es == [] then active else AfterRecord(RecordAll(active, es[..|es| - 1]), es[|es| - 1])
  }

  /** The newest n elements of s, in their order. */
  function Newest<T>(s: seq<T>, n: nat): seq<T>
  {
    if |s| <= n then s else s[|s| - n..]
  }

  /**
   * First in, first out: from a list within the limit, any run of new views
   * leaves exactly the newest five of all views ever recorded, oldest first.
   */
  lemma {:induction false} RecordAllKeepsNewest<T>(active: seq<T>, es: seq<T>)
    requires |active| <= MAX_ACTIVE_SEARCHES
    ensures RecordAll(active, es) == Newest(active + es, MAX_ACTIVE_SEARCHES)
  {
    if es != [] {
      var init, last := es[..|es| - 1], es[|es| - 1];
      RecordAllKeepsNewest(active, init);
      assert active + es == (active + init) + [last];
    }
  }

  /** A search as the view's datasource holds it: the text and whether it subscribes. */
  datatype SearchQuery = SearchQuery(term: string, toSubscribe: bool)

  /** An entry of the sidebar (MdiEntry), with what this model tracks of it. */
  class MdiEntry {
    const id: string
    var datasource: SearchQuery
    var closed: bool

    constructor (id: string, sq: SearchQuery)
      ensures this.id == id && datasource == sq && !closed
    {
      this.id := id;
      datasource := sq;
      closed := false;
    }
  }

  /** What handleSearch did with the view. */
  datatype Outcome = Reused | NotCreated | Opened

  /** The static list active_searches, wrapped in an object. */
  class SearchHandler {
    var activeSearches: seq<MdiEntry>

    /** Every listed view other than skip is still open. */
    ghost predicate AllOpenExcept(skip: Option<MdiEntry>)
      reads this, activeSearches
    {
      forall i :: 0 <= i < |activeSearches| && Some(activeSearches[i]) != skip ==> !activeSearches[i].closed
    }

    /** At most five views, each listed once and still open. */
    ghost predicate Valid()
      reads this, activeSearches
    {
      && |activeSearches| <= MAX_ACTIVE_SEARCHES
      && NoDuplicates(activeSearches)
      && AllOpenExcept(None)
    }

    constructor ()
      ensures Valid() && activeSearches == []
    {
      activeSearches := [];
    }

    /** The close listener: remove(e) from the list; an absent entry is a no-op. */
    method EntryClosed(e: MdiEntry)
      requires |activeSearches| <= MAX_ACTIVE_SEARCHES && NoDuplicates(activeSearches)
      requires AllOpenExcept(Some(e))
      modifies this
      ensures Valid()
      ensures activeSearches == RemoveFirst(old(activeSearches), e)
      ensures e !in activeSearches
    {
      RemoveFirstDistinct(activeSearches, e);
      RemoveFirstMembers(activeSearches, e);
      activeSearches := RemoveFirst(activeSearches, e);
    }

    /** closeView(): the view is closed and its close listener runs. */
    method CloseView(e: MdiEntry)
      requires Valid()
      modifies this, e`closed
      ensures Valid() && e.closed
      ensures activeSearches == RemoveFirst(old(activeSearches), e)
    {
      e.closed := true;
      EntryClosed(e);
    }

    /**
     * handleSearch(text, toSubscribe). existing is what the MDI holds under
     * the computed id, and createSucceeds whether its createEntryFromSkinRef
     * returns a view. A reused view only gets the new query; a new view is
     * recorded, and past five the oldest is removed and closed, its close
     * listener then finding nothing left to remove.
     */
    method HandleSearch(prefix: string, text: string, toSubscribe: bool,
                        existing: Option<MdiEntry>, createSucceeds: bool)
      returns (id: string, outcome: Outcome, entry: Option<MdiEntry>, evicted: Option<MdiEntry>)
      requires Valid()
      requires existing.Some? ==> existing.value.id == SearchId(prefix, text, toSubscribe)
      modifies this, activeSearches, if existing.Some? then {existing.value} else {}
      ensures Valid()
      ensures id == SearchId(prefix, text, toSubscribe)
      ensures existing.Some? ==>
                && outcome == Reused && entry == existing && evicted == None
                && activeSearches == old(activeSearches)
                && existing.value.datasource == SearchQuery(text, toSubscribe)
      ensures existing.None? && !createSucceeds ==>
                outcome == NotCreated && entry == None && evicted == None
                && activeSearches == old(activeSearches)
      ensures existing.None? && createSucceeds ==>
                && outcome == Opened && entry.Some? && fresh(entry.value)
                && entry.value.id == id && entry.value.datasource == SearchQuery(text, toSubscribe)
                && activeSearches == AfterRecord(old(activeSearches), entry.value)
                && evicted == Evicted(old(activeSearches), entry.value)
                && (evicted.Some? ==> evicted.value.closed)
      ensures forall x :: x in old(activeSearches) && Some(x) != existing ==> x.datasource == old(x.datasource)
      ensures forall x :: x in old(activeSearches) && Some(x) != evicted ==> x.closed == old(x.closed)
      ensures existing.Some? ==> existing.value.closed == old(existing.value.closed)
    {
      var sq := SearchQuery(text, toSubscribe);
      id := SearchId(prefix, text, toSubscribe);
      evicted := None;
      if existing.Some? {
        existing.value.datasource := sq;
        return id, Reused, existing, None;
      }
      if !createSucceeds {
        return id, NotCreated, None, None;
      }
      var e := new MdiEntry(id, sq);
      entry := Some(e);
      outcome := Opened;
      var toRemove: Option<MdiEntry> := None;
      var before := activeSearches;
      activeSearches := activeSearches + [e];
      if |activeSearches| > MAX_ACTIVE_SEARCHES {
        toRemove := Some(activeSearches[0]);
        activeSearches := activeSearches[1..];
      }
      assert activeSearches == AfterRecord(before, e);
      assert NoDuplicates(activeSearches) by {
        assert forall i :: 0 <= i < |before| ==> before[i] != e;
      }
      if toRemove.Some? {
        var x := toRemove.value;
        assert x == before[0];
        assert x !in activeSearches by {
          assert forall i :: 0 <= i < |activeSearches| ==> i < |activeSearches| - 1 ==> activeSearches[i] == before[i + 1];
        }
        CloseView(x);
        assert activeSearches == AfterRecord(before, e);
      }
      evicted := toRemove;
    }
  }
}
