/** The home screen: the hotspot catalog, loaded from the network with the
    stored copy as fallback, and the user's inventory of collected
    hotspots, kept in the store. */
module Home {
  import opened Platform

  // ---------------------------------------------------------------------
  // Inventory lists

  /** Some entry of `s` has identity `id`. */
  ghost predicate HasId(s: seq<Hotspot>, id: string)
  {
    exists x | x in s :: x.id == id
  }

  /** No two entries of `s` share an `id`. */
  ghost predicate UniqueIds(s: seq<Hotspot>)
  {
    forall i, j | 0 <= i < j < |s| :: s[i].id != s[j].id
  }

  /** `r` is `s` with some entries dropped and the rest in their order. */
  ghost predicate IsSubsequence(r: seq<Hotspot>, s: seq<Hotspot>)
    decreases |s|
  {
    r == [] || (s != [] && ((r[0] == s[0] && IsSubsequence(r[1..], s[1..])) || IsSubsequence(r, s[1..])))
  }

  /** `inventory.find((inv) => inv.id === id)`: the first entry with that id. */
  function FindById(s: seq<Hotspot>, id: string): (r: Option<Hotspot>)
    ensures r.Some? <==> HasId(s, id)
    ensures r.Some? ==> r.value in s && r.value.id == id
    ensures r.Some? ==> exists k | 0 <= k < |s| :: s[k] == r.value && forall j | 0 <= j < k :: s[j].id != id
  {
    if s == [] then None
    else if s[0].id == id then Some(s[0])
    else
      assert forall x | x in s && x != s[0] :: x in s[1..];
      var r := FindById(s[1..], id);
      assert r.Some? ==> exists k | 0 <= k < |s| :: s[k] == r.value && forall j | 0 <= j < k :: s[j].id != id by {
        if r.Some? {
          var k :| 0 <= k < |s[1..]| && s[1..][k] == r.value && forall j | 0 <= j < k :: s[1..][j].id != id;
          assert s[k + 1] == r.value;
          assert forall j | 0 <= j < k + 1 :: s[j].id != id by {
            forall j | 0 <= j < k + 1 ensures s[j].id != id {
              if j > 0 { assert s[j] == s[1..][j - 1]; }
            }
          }
        }
      }
      r
  }

  /** `inventory.filter((inv) => inv.id !== id)`. */
  function WithoutId(s: seq<Hotspot>, id: string): (r: seq<Hotspot>)
    ensures forall x :: x in r <==> x in s && x.id != id
    ensures |r| <= |s|
  {
    if s == [] then []
    else
      assert forall x | x in s && x != s[0] :: x in s[1..];
      (if s[0].id != id then [s[0]] else []) + WithoutId(s[1..], id)
  }

  /** Removing keeps the other entries in their relative order. */
  lemma {:induction false} WithoutIdKeepsOrder(s: seq<Hotspot>, id: string)
    ensures IsSubsequence(WithoutId(s, id), s)
  {
    if s != [] {
      WithoutIdKeepsOrder(s[1..], id);
      var t := WithoutId(s[1..], id);
      if s[0].id != id {
        assert WithoutId(s, id) == [s[0]] + t;
        assert ([s[0]] + t)[1..] == t;
      } else {
        assert WithoutId(s, id) == t;
      }
    }
  }

  /** Removing works entry by entry: it distributes over concatenation. */
  lemma {:induction false} WithoutIdOfConcat(a: seq<Hotspot>, b: seq<Hotspot>, id: string)
    ensures WithoutId(a + b, id) == WithoutId(a, id) + WithoutId(b, id)
  {
    if a == [] {
      assert a + b == b;
    } else {
      assert (a + b)[1..] == a[1..] + b;
      WithoutIdOfConcat(a[1..], b, id);
    }
  }

  /** Entries whose id differs are never touched: with no entry to remove,
      the list comes back unchanged. */
  lemma {:induction false} WithoutAbsentId(s: seq<Hotspot>, id: string)
    requires !HasId(s, id)
    ensures WithoutId(s, id) == s
  {
    if s != [] {
      assert s[0] in s;
      assert forall x | x in s[1..] :: x in s;
      WithoutAbsentId(s[1..], id);
      assert [s[0]] + s[1..] == s;
    }
  }

  /** Removing an item just added gives back the list it was added to. */
  lemma AddThenRemove(s: seq<Hotspot>, item: Hotspot)
    requires !HasId(s, item.id)
    ensures WithoutId(s + [item], item.id) == s
  {
    WithoutIdOfConcat(s, [item], item.id);
    WithoutAbsentId(s, item.id);
    assert WithoutId([item], item.id) == [];
  }

  /** Removing twice removes nothing more. */
  lemma RemoveIsIdempotent(s: seq<Hotspot>, id: string)
    ensures WithoutId(WithoutId(s, id), id) == WithoutId(s, id)
  {
    WithoutAbsentId(WithoutId(s, id), id);
  }

  /** Appending an item whose id is new keeps the ids unique. */
  lemma UniqueIdsAppend(s: seq<Hotspot>, item: Hotspot)
    requires UniqueIds(s) && !HasId(s, item.id)
    ensures UniqueIds(s + [item])
  {
  }

  /** Prepending an entry whose id is new keeps the ids unique. */
  lemma UniqueIdsCons(x: Hotspot, s: seq<Hotspot>)
    requires UniqueIds(s) && !HasId(s, x.id)
    ensures UniqueIds([x] + s)
  {
  }

  /** Removing keeps the ids unique. */
  lemma {:induction false} UniqueIdsWithoutId(s: seq<Hotspot>, id: string)
    requires UniqueIds(s)
    ensures UniqueIds(WithoutId(s, id))
  {
    if s != [] {
      var rest := s[1..];
      assert UniqueIds(rest) by {
        forall i, j | 0 <= i < j < |rest| ensures rest[i].id != rest[j].id {
          assert rest[i] == s[i + 1] && rest[j] == s[j + 1];
        }
      }
      UniqueIdsWithoutId(rest, id);
      var t := WithoutId(rest, id);
      if s[0].id != id {
        assert !HasId(t, s[0].id) by {
          forall x | x in t ensures x.id != s[0].id {
            assert x in rest;
            var k :| 0 <= k < |rest| && rest[k] == x;
            assert s[k + 1] == x;
          }
        }
        UniqueIdsCons(s[0], t);
        assert WithoutId(s, id) == [s[0]] + t;
      } else {
        assert WithoutId(s, id) == t;
      }
    }
  }

  // ---------------------------------------------------------------------
  // The screen's state

  /** Only `response.ok` responses whose body parses count as a fetched
      catalog; anything else takes the fallback path, as a thrown network
      error does. */
  function OkBody(f: Fetch): (r: Option<seq<Hotspot>>)
    ensures r.Some? ==> f.Received? && f.response.ok && f.response.body == r
    ensures f.Received? && f.response.ok ==> r == f.response.body
  {
    if f.Received? && f.response.ok then f.response.body else None
  }

  /** A response that is not ok is handled exactly like a network failure. */
  lemma NotOkIsNetworkFailure(body: Option<seq<Hotspot>>)
    ensures OkBody(Received(Response(false, body))) == OkBody(NetworkFailure) == None
  {
  }

  class HomeScreen {
    /** The catalog shown: `useState([])`. */
    var data: seq<Hotspot>
    var inventory: seq<Hotspot>
    var loading: bool
    const store: KeyValueStore
    const json: Codec

    /** The stored inventory reads back as the one in memory. */
    ghost predicate InventoryPersisted()
      reads this, store
    {
      ReadList(json, Lookup(store.entries, InventoryKey)) == Parsed(inventory)
    }

    constructor (store: KeyValueStore, json: Codec)
      ensures this.store == store && this.json == json
      ensures data == [] && inventory == [] && loading
    {
      this.store := store;
      this.json := json;
      data, inventory, loading := [], [], true;
    }

    /** `fetchData`: the fetched catalog replaces both `data` and the
        stored copy; on any failure the stored copy, if there is one, is
        shown and nothing is written. `loading` ends false on every path. */
    method FetchData(fetch: Fetch) returns (settled: Settlement)
      modifies this`data, this`loading, store
      ensures !loading
      ensures OkBody(fetch).Some? ==>
        && data == OkBody(fetch).value
        && store.entries == old(store.entries)[HotspotsCacheKey := json.stringify(data)]
        && settled == Resolved
      ensures OkBody(fetch).None? ==>
        && store.entries == old(store.entries)
        && match ReadList(json, Lookup(old(store.entries), HotspotsCacheKey))
           case Parsed(cached) => data == cached && settled == Resolved
           case Missing => data == old(data) && settled == Resolved
           case Unparseable => data == old(data) && settled == Rejected
    {
      var fetched := OkBody(fetch);
      if fetched.Some? {
        data := fetched.value;
        store.SetItem(HotspotsCacheKey, json.stringify(fetched.value));
        settled := Resolved;
      } else {
        var cached := store.GetItem(HotspotsCacheKey);
        if Truthy(cached) {
          var parsed := json.parse(cached.value);
          if parsed.Some? {
            data := parsed.value;
            settled := Resolved;
          } else {
            // JSON.parse throws inside the catch block; only `finally` runs.
            settled := Rejected;
          }
        } else {
          settled := Resolved;
        }
      }
      loading := false;
    }

    /** `loadInventory`: a stored inventory replaces the one in memory; with
        nothing stored it stays as it was. It never writes. */
    method LoadInventory() returns (settled: Settlement)
      modifies this`inventory
      ensures match ReadList(json, Lookup(store.entries, InventoryKey))
        case Parsed(stored) => inventory == stored && settled == Resolved
        case Missing => inventory == old(inventory) && settled == Resolved
        case Unparseable => inventory == old(inventory) && settled == Rejected
    {
      var stored := store.GetItem(InventoryKey);
      settled := Resolved;
      if Truthy(stored) {
        var parsed := json.parse(stored.value);
        if parsed.Some? {
          inventory := parsed.value;
        } else {
          settled := Rejected;
        }
      }
    }

    /** `addToInventory`: an item whose id is already there changes nothing
        and writes nothing; otherwise it is appended and the whole new list
        is written. */
    method AddToInventory(item: Hotspot) returns (added: bool)
      modifies this`inventory, store
      ensures added <==> !HasId(old(inventory), item.id)
      ensures added ==>
        && inventory == old(inventory) + [item]
        && store.entries == old(store.entries)[InventoryKey := json.stringify(inventory)]
      ensures !added ==> inventory == old(inventory) && store.entries == old(store.entries)
      ensures HasId(inventory, item.id)
      ensures UniqueIds(old(inventory)) ==> UniqueIds(inventory)
      ensures added && RoundTrips(json, inventory) ==> InventoryPersisted()
    {
      var alreadyAdded := FindById(inventory, item.id);
      if alreadyAdded.Some? {
        added := false;
        return;
      }
      var newInventory := inventory + [item];
      inventory := newInventory;
      store.SetItem(InventoryKey, json.stringify(newInventory));
      added := true;
      assert item in inventory;
      if UniqueIds(old(inventory)) {
        UniqueIdsAppend(old(inventory), item);
      }
      if RoundTrips(json, inventory) {
        ReadWrittenList(json, inventory);
      }
    }

    /** `removeFromInventory`: every entry with the item's id goes, the rest
        keep their order, and the new list is written even when nothing was
        removed. */
    method RemoveFromInventory(item: Hotspot)
      modifies this`inventory, store
      ensures inventory == WithoutId(old(inventory), item.id)
      ensures store.entries == old(store.entries)[InventoryKey := json.stringify(inventory)]
      ensures !HasId(inventory, item.id)
      ensures IsSubsequence(inventory, old(inventory))
      ensures UniqueIds(old(inventory)) ==> UniqueIds(inventory)
      ensures RoundTrips(json, inventory) ==> InventoryPersisted()
    {
      var updatedInventory := WithoutId(inventory, item.id);
      WithoutIdKeepsOrder(inventory, item.id);
      if UniqueIds(inventory) {
        UniqueIdsWithoutId(inventory, item.id);
      }
      inventory := updatedInventory;
      store.SetItem(InventoryKey, json.stringify(updatedInventory));
      if RoundTrips(json, inventory) {
        ReadWrittenList(json, inventory);
      }
    }
  }

  /** A successful load, then a load during an outage on a new screen over
      the same store, then a load during an outage over an empty store:
      the catalog is the fetched one, then the same list from the stored copy, then
      empty. */
  method CatalogFallback(json: Codec, catalog: seq<Hotspot>, initial: map<string, string>)
    returns (live: seq<Hotspot>, cached: seq<Hotspot>, empty: seq<Hotspot>)
    requires RoundTrips(json, catalog)
    ensures live == catalog && cached == catalog && empty == []
  {
    var store := new KeyValueStore(initial);
    var first := new HomeScreen(store, json);
    var _ := first.FetchData(Received(Response(true, Some(catalog))));
    live := first.data;
    ReadWrittenList(json, catalog);
    var second := new HomeScreen(store, json);
    var _ := second.FetchData(NetworkFailure);
    cached := second.data;
    var cleared := new KeyValueStore(map[]);
    var third := new HomeScreen(cleared, json);
    var _ := third.FetchData(NetworkFailure);
    empty := third.data;
  }

  /** A screen that loads a stored inventory and adds an item, then a new
      screen over the same store that loads again: the reloaded inventory
      holds the item exactly once. */
  method InventorySurvivesRestart(json: Codec, start: seq<Hotspot>, item: Hotspot)
    returns (reloaded: seq<Hotspot>)
    requires RoundTrips(json, start)
    requires !HasId(start, item.id) ==> RoundTrips(json, start + [item])
    requires UniqueIds(start)
    ensures reloaded == if HasId(start, item.id) then start else start + [item]
    ensures UniqueIds(reloaded) && HasId(reloaded, item.id)
  {
    var store := new KeyValueStore(map[InventoryKey := json.stringify(start)]);
    ReadWrittenList(json, start);
    var screen := new HomeScreen(store, json);
    var _ := screen.LoadInventory();
    var _ := screen.AddToInventory(item);
    var again := new HomeScreen(store, json);
    var _ := again.LoadInventory();
    reloaded := again.inventory;
  }
}
