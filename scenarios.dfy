/**
 * The browser's saved what-if scenarios: reading the stored list, and merging a list of
 * scenarios into it. Scenarios are matched by a canonical key (the server id when there is
 * one, else the local id); for one key the newer scenario wins; a server-confirmed scenario
 * replaces its optimistic local copy; incoming scenarios come first; at most 50 are kept and
 * written back.
 */
module Scenarios {
  import opened Common
  import opened Js
  import Dict

  /** A scenario: a plain object with `id`, `serverId`, `updatedAt`, `createdAt`, ... */
  type Item = JsObject

  /** A `Map` key: `'srv-' + serverId` or the local id itself. */
  type Key = JsValue

  /**
   * The storage slot as `JSON.parse` sees it: nothing (or an empty string), text that does
   * not parse, or a list of scenarios.
   */
  datatype Slot = Empty | Garbage | Items(list: seq<Item>)

  /** `finalList.slice(0, 50)`. */
  const Cap: nat := 50

  /** The list a slot holds, `[]` when it holds none. */
  function Existing(slot: Slot): seq<Item> {
    if slot.Items? then slot.list else []
  }

  // ---------------------------------------------------------------------------------------
  // Normalising and keying
  // ---------------------------------------------------------------------------------------

  /** `item.updatedAt || item.createdAt || new Date().toISOString()`; `now` is the clock's text. */
  function Stamp(it: Item, now: string): JsValue {
    Or(Or(Field(it, "updatedAt"), Field(it, "createdAt")), JStr(now))
  }

  /** `{ ...item, updatedAt: ... }`: an existing `updatedAt` keeps its place. */
  function Norm(it: Item, now: string): Item {
    Dict.Put(it, "updatedAt", Stamp(it, now))
  }

  /** `norm(arr)`. */
  function NormAll(items: seq<Item>, now: string): (r: seq<Item>)
    ensures |r| == |items|
  {
    seq(|items|, i requires 0 <= i < |items| => Norm(items[i], now))
  }

  /** `keyOf(it)`: `'srv-' + serverId` when `serverId` is truthy, else a truthy `id`; `None` is `null`. */
  function KeyOf(it: Item, pr: Printer): Option<Key> {
    var sid := Field(it, "serverId");
    var id := Field(it, "id");
    if Truthy(sid) then Some(JStr("srv-" + ToStr(sid, pr)))
    else if Truthy(id) then Some(id)
    else None
  }

  /** `new Date(x).getTime() || 0`: an invalid date counts as time 0. */
  function Time(v: JsValue, cal: Calendar): int {
    NewDate(v, cal).GetOr(0)
  }

  // ---------------------------------------------------------------------------------------
  // The merge
  // ---------------------------------------------------------------------------------------

  /** `mergedMap` after the loop over the stored scenarios: each keyed one under its key. */
  function PresentMap(present: seq<Item>, pr: Printer): seq<(Key, Item)> {
    if present == [] then []
    else
      var mm := PresentMap(present[..|present| - 1], pr);
      var it := present[|present| - 1];
      match KeyOf(it, pr)
      case None => mm
      case Some(k) => Dict.Put(mm, k, it)
  }

  /** `presentById`: the stored scenarios with a truthy `id`, by that id. */
  function ById(present: seq<Item>): seq<(Key, Item)> {
    if present == [] then []
    else
      var m := ById(present[..|present| - 1]);
      var it := present[|present| - 1];
      if Truthy(Field(it, "id")) then Dict.Put(m, Field(it, "id"), it) else m
  }

  /**
   * An incoming scenario with both a server id and a local id deletes the entry of the stored
   * scenario with that local id, under that scenario's own key.
   */
  function DropOptimistic(mm: seq<(Key, Item)>, byId: seq<(Key, Item)>, it: Item, pr: Printer): seq<(Key, Item)> {
    if Truthy(Field(it, "serverId")) && Truthy(Field(it, "id")) then
      match Dict.Get(byId, Field(it, "id"))
      case None => mm
      case Some(opt) =>
        match KeyOf(opt, pr)
        case Some(ok) => if Dict.Get(mm, ok).Some? then Dict.Delete(mm, ok) else mm
        case None => mm
    else mm
  }

  /** One pass of the loop over the incoming scenarios: the newer (or equally new) scenario wins. */
  function Absorb(mm: seq<(Key, Item)>, byId: seq<(Key, Item)>, it: Item, cal: Calendar, pr: Printer): seq<(Key, Item)> {
    var m1 := DropOptimistic(mm, byId, it, pr);
    match KeyOf(it, pr)
    case None => m1
    case Some(k) =>
      match Dict.Get(m1, k)
      case None => Dict.Put(m1, k, it)
      case Some(prev) =>
        if Time(Field(it, "updatedAt"), cal) >= Time(Field(prev, "updatedAt"), cal) then Dict.Put(m1, k, it) else m1
  }

  /** `mergedMap` after the incoming scenarios. */
  function AbsorbAll(mm: seq<(Key, Item)>, byId: seq<(Key, Item)>, incoming: seq<Item>, cal: Calendar, pr: Printer): seq<(Key, Item)> {
    if incoming == [] then mm
    else Absorb(AbsorbAll(mm, byId, incoming[..|incoming| - 1], cal, pr), byId, incoming[|incoming| - 1], cal, pr)
  }

  /** `incoming.map(keyOf).filter(Boolean)`. */
  function IncomingKeys(incoming: seq<Item>, pr: Printer): seq<Key> {
    if incoming == [] then []
    else
      var ks := IncomingKeys(incoming[..|incoming| - 1], pr);
      match KeyOf(incoming[|incoming| - 1], pr)
      case None => ks
      case Some(k) => ks + [k]
  }

  /** The scenarios pushed by the loop over the incoming keys. */
  function Front<K(==), V>(mm: seq<(K, V)>, ks: seq<K>): seq<V> {
    if ks == [] then []
    else
      var f := Front(mm, ks[..|ks| - 1]);
      match Dict.Get(mm, ks[|ks| - 1])
      case None => f
      case Some(it) => f + [it]
  }

  /** `added`: the incoming keys the map holds. */
  function Added<K(==), V>(mm: seq<(K, V)>, ks: seq<K>): set<K> {
    set k | k in ks && Dict.Get(mm, k).Some?
  }

  /** The scenarios pushed by the loop over the map, skipping the keys already added. */
  function Rest<K(==), V>(entries: seq<(K, V)>, added: set<K>): seq<V> {
    if entries == [] then []
    else
      var r := Rest(entries[..|entries| - 1], added);
      var e := entries[|entries| - 1];
      if e.0 in added then r else r + [e.1]
  }

  /** `mergedMap` after both loops. */
  function Merged(existing: seq<Item>, incomingList: seq<Item>, now: string, cal: Calendar, pr: Printer): seq<(Key, Item)> {
    var present := NormAll(existing, now);
    AbsorbAll(PresentMap(present, pr), ById(present), NormAll(incomingList, now), cal, pr)
  }

  /** `finalList`: the incoming keys' scenarios in incoming order, then the rest in map order. */
  function FinalList(existing: seq<Item>, incomingList: seq<Item>, now: string, cal: Calendar, pr: Printer): seq<Item> {
    var mm := Merged(existing, incomingList, now, cal, pr);
    var ks := IncomingKeys(NormAll(incomingList, now), pr);
    Front(mm, ks) + Rest(mm, Added(mm, ks))
  }

  /** What the merge returns and writes when nothing throws. */
  function MergeResult(existing: seq<Item>, incomingList: seq<Item>, now: string, cal: Calendar, pr: Printer): seq<Item> {
    SliceTo(FinalList(existing, incomingList, now, cal, pr), Cap)
  }

  // ---------------------------------------------------------------------------------------
  // The loops
  // ---------------------------------------------------------------------------------------

  /** `for (const it of present) { ... mergedMap.set(k, it) }`. */
  method IndexPresent(present: seq<Item>, pr: Printer) returns (mm: seq<(Key, Item)>)
    ensures mm == PresentMap(present, pr)
  {
    mm := [];
    for i := 0 to |present|
      invariant mm == PresentMap(present[..i], pr)
    {
      assert present[..i + 1][..i] == present[..i];
      var k := KeyOf(present[i], pr);
      if k.None? {
        continue;
      }
      mm := Dict.Put(mm, k.value, present[i]);
    }
    assert present[..|present|] == present;
  }

  /** `for (const it of present) { if (it && it.id) presentById.set(it.id, it) }`. */
  method IndexById(present: seq<Item>) returns (byId: seq<(Key, Item)>)
    ensures byId == ById(present)
  {
    byId := [];
    for i := 0 to |present|
      invariant byId == ById(present[..i])
    {
      assert present[..i + 1][..i] == present[..i];
      if Truthy(Field(present[i], "id")) {
        byId := Dict.Put(byId, Field(present[i], "id"), present[i]);
      }
    }
    assert present[..|present|] == present;
  }

  /** One pass of `for (const it of incoming) { ... }`. */
  method AbsorbOne(mm: seq<(Key, Item)>, byId: seq<(Key, Item)>, it: Item, cal: Calendar, pr: Printer)
    returns (next: seq<(Key, Item)>)
    ensures next == Absorb(mm, byId, it, cal, pr)
  {
    next := mm;
    if Truthy(Field(it, "serverId")) && Truthy(Field(it, "id")) {
      var optimistic := Dict.Get(byId, Field(it, "id"));
      if optimistic.Some? {
        var optKey := KeyOf(optimistic.value, pr);
        if optKey.Some? && Dict.Get(next, optKey.value).Some? {
          next := Dict.Delete(next, optKey.value);
        }
      }
    }
    var k := KeyOf(it, pr);
    if k.None? {
      return;
    }
    var prev := Dict.Get(next, k.value);
    if prev.None? {
      next := Dict.Put(next, k.value, it);
      return;
    }
    var prevT := Time(Field(prev.value, "updatedAt"), cal);
    var curT := Time(Field(it, "updatedAt"), cal);
    if curT >= prevT {
      next := Dict.Put(next, k.value, it);
    }
  }

  method AbsorbIncoming(mm0: seq<(Key, Item)>, byId: seq<(Key, Item)>, incoming: seq<Item>, cal: Calendar, pr: Printer)
    returns (mm: seq<(Key, Item)>)
    ensures mm == AbsorbAll(mm0, byId, incoming, cal, pr)
  {
    mm := mm0;
    for i := 0 to |incoming|
      invariant mm == AbsorbAll(mm0, byId, incoming[..i], cal, pr)
    {
      assert incoming[..i + 1][..i] == incoming[..i];
      mm := AbsorbOne(mm, byId, incoming[i], cal, pr);
    }
    assert incoming[..|incoming|] == incoming;
  }

  /** `incoming.map(keyOf).filter(Boolean)`. */
  method CollectKeys(incoming: seq<Item>, pr: Printer) returns (ks: seq<Key>)
    ensures ks == IncomingKeys(incoming, pr)
  {
    ks := [];
    for i := 0 to |incoming|
      invariant ks == IncomingKeys(incoming[..i], pr)
    {
      assert incoming[..i + 1][..i] == incoming[..i];
      var k := KeyOf(incoming[i], pr);
      if k.Some? {
        ks := ks + [k.value];
      }
    }
    assert incoming[..|incoming|] == incoming;
  }

  /** `for (const k of incomingKeys) { ... }`: the scenarios pushed and the keys added. */
  method PushIncoming(mm: seq<(Key, Item)>, ks: seq<Key>) returns (front: seq<Item>, added: set<Key>)
    ensures front == Front(mm, ks) && added == Added(mm, ks)
  {
    front := [];
    added := {};
    for i := 0 to |ks|
      invariant front == Front(mm, ks[..i])
      invariant added == set k | k in ks[..i] && Dict.Get(mm, k).Some?
    {
      assert ks[..i + 1][..i] == ks[..i];
      assert forall k :: k in ks[..i + 1] <==> k in ks[..i] || k == ks[i];
      var it := Dict.Get(mm, ks[i]);
      if it.Some? {
        front := front + [it.value];
        added := added + {ks[i]};
      }
    }
    assert ks[..|ks|] == ks;
  }

  /** `for (const [k, it] of mergedMap) { if (added.has(k)) continue; finalList.push(it) }`. */
  method PushRest(mm: seq<(Key, Item)>, added: set<Key>, front: seq<Item>) returns (finalList: seq<Item>)
    ensures finalList == front + Rest(mm, added)
  {
    finalList := front;
    for j := 0 to |mm|
      invariant finalList == front + Rest(mm[..j], added)
    {
      assert mm[..j + 1][..j] == mm[..j];
      if mm[j].0 in added {
        continue;
      }
      finalList := finalList + [mm[j].1];
    }
    assert mm[..|mm|] == mm;
  }

  // ---------------------------------------------------------------------------------------
  // Properties
  // ---------------------------------------------------------------------------------------

  /** The canonical key: the server key when there is a server id, else a truthy local id, else none. */
  lemma KeyOfFacts(it: Item, pr: Printer)
    ensures Truthy(Field(it, "serverId")) ==> KeyOf(it, pr) == Some(JStr("srv-" + ToStr(Field(it, "serverId"), pr)))
    ensures !Truthy(Field(it, "serverId")) && Truthy(Field(it, "id")) ==> KeyOf(it, pr) == Some(Field(it, "id"))
    ensures KeyOf(it, pr).None? <==> !Truthy(Field(it, "serverId")) && !Truthy(Field(it, "id"))
    ensures KeyOf(it, pr).Some? ==> Truthy(KeyOf(it, pr).value)
  {
  }

  /** Normalising sets `updatedAt` (keeping a truthy one) and leaves every other field alone. */
  lemma NormFacts(it: Item, now: string, f: string)
    ensures Field(Norm(it, now), "updatedAt") == Stamp(it, now)
    ensures Truthy(Field(it, "updatedAt")) ==> Field(Norm(it, now), "updatedAt") == Field(it, "updatedAt")
    ensures f != "updatedAt" ==> Field(Norm(it, now), f) == Field(it, f)
  {
    Dict.GetKeys(it, f);
    Dict.GetPut(it, "updatedAt", Stamp(it, now), f);
    Dict.GetPut(it, "updatedAt", Stamp(it, now), "updatedAt");
    Dict.PutKeys(it, "updatedAt", Stamp(it, now));
    Dict.GetKeys(Norm(it, now), f);
    Dict.GetKeys(Norm(it, now), "updatedAt");
  }

  /** Every entry sits under the key its value names, each key once. */
  ghost predicate KeyedBy<K, V>(mm: seq<(K, V)>, key: V -> Option<K>) {
    Dict.Distinct(Dict.Keys(mm)) && forall e :: e in mm ==> key(e.1) == Some(e.0)
  }

  /** No two elements of the list share a key. */
  ghost predicate UniqueBy<K, V>(list: seq<V>, key: V -> Option<K>) {
    forall i, j :: 0 <= i < j < |list| ==> key(list[i]) != key(list[j])
  }

  /** The canonical key as a function of the scenario. */
  function KeyFn(pr: Printer): Item -> Option<Key> {
    (it: Item) => KeyOf(it, pr)
  }

  /** Every entry of the map sits under its scenario's own canonical key, each key once. */
  ghost predicate Keyed(mm: seq<(Key, Item)>, pr: Printer) {
    KeyedBy(mm, KeyFn(pr))
  }

  lemma PutKeyed(mm: seq<(Key, Item)>, it: Item, pr: Printer)
    requires Keyed(mm, pr) && KeyOf(it, pr).Some?
    ensures Keyed(Dict.Put(mm, KeyOf(it, pr).value, it), pr)
  {
    Dict.PutEntries(mm, KeyOf(it, pr).value, it);
    Dict.PutKeepsDistinct(mm, KeyOf(it, pr).value, it);
  }

  /** The stored scenarios are indexed under their keys; for a shared key the last one stays. */
  lemma {:induction false} PresentMapKeyed(present: seq<Item>, pr: Printer)
    ensures Keyed(PresentMap(present, pr), pr)
  {
    if present != [] {
      PresentMapKeyed(present[..|present| - 1], pr);
      var it := present[|present| - 1];
      if KeyOf(it, pr).Some? {
        PutKeyed(PresentMap(present[..|present| - 1], pr), it, pr);
      }
    }
  }

  /** Dropping the optimistic copy removes exactly that copy's entry. */
  lemma DropOptimisticFacts(mm: seq<(Key, Item)>, byId: seq<(Key, Item)>, it: Item, pr: Printer, x: Key)
    requires Keyed(mm, pr)
    ensures Keyed(DropOptimistic(mm, byId, it, pr), pr)
    ensures var opt := Dict.Get(byId, Field(it, "id"));
      if Truthy(Field(it, "serverId")) && Truthy(Field(it, "id")) && opt.Some? && KeyOf(opt.value, pr) == Some(x)
      then Dict.Get(DropOptimistic(mm, byId, it, pr), x).None?
      else Dict.Get(DropOptimistic(mm, byId, it, pr), x) == Dict.Get(mm, x) || !(Truthy(Field(it, "serverId")) && Truthy(Field(it, "id")))
    ensures !(Truthy(Field(it, "serverId")) && Truthy(Field(it, "id"))) ==> DropOptimistic(mm, byId, it, pr) == mm
  {
    var opt := Dict.Get(byId, Field(it, "id"));
    if Truthy(Field(it, "serverId")) && Truthy(Field(it, "id")) && opt.Some? && KeyOf(opt.value, pr).Some? {
      var ok := KeyOf(opt.value, pr).value;
      Dict.DeleteEntries(mm, ok);
      Dict.DeleteKeepsDistinct(mm, ok);
      Dict.GetDelete(mm, ok, x);
    }
  }

  /**
   * For the incoming scenario's key the newer scenario wins, an equal time going to the
   * incoming one, and a missing entry takes the incoming one; every other key keeps its
   * entry unless it is the key of the optimistic copy just dropped.
   */
  lemma AbsorbFacts(mm: seq<(Key, Item)>, byId: seq<(Key, Item)>, it: Item, cal: Calendar, pr: Printer, x: Key)
    requires Keyed(mm, pr)
    ensures Keyed(Absorb(mm, byId, it, cal, pr), pr)
    ensures var m1 := DropOptimistic(mm, byId, it, pr);
      KeyOf(it, pr) == Some(x) ==>
        Dict.Get(Absorb(mm, byId, it, cal, pr), x) ==
          match Dict.Get(m1, x)
          case None => Some(it)
          case Some(prev) => if Time(Field(it, "updatedAt"), cal) >= Time(Field(prev, "updatedAt"), cal) then Some(it) else Some(prev)
    ensures KeyOf(it, pr) != Some(x) ==> Dict.Get(Absorb(mm, byId, it, cal, pr), x) == Dict.Get(DropOptimistic(mm, byId, it, pr), x)
  {
    var m1 := DropOptimistic(mm, byId, it, pr);
    DropOptimisticFacts(mm, byId, it, pr, x);
    if KeyOf(it, pr).Some? {
      var k := KeyOf(it, pr).value;
      PutKeyed(m1, it, pr);
      Dict.GetPut(m1, k, it, x);
    }
  }

  /** A scenario with neither a server id nor a local id changes nothing. */
  lemma UnkeyedIgnored(mm: seq<(Key, Item)>, byId: seq<(Key, Item)>, it: Item, cal: Calendar, pr: Printer, present: seq<Item>)
    requires KeyOf(it, pr).None?
    ensures Absorb(mm, byId, it, cal, pr) == mm
    ensures PresentMap(present + [it], pr) == PresentMap(present, pr)
  {
    assert (present + [it])[..|present|] == present;
  }

  /** The merged map stays keyed through the incoming scenarios. */
  lemma {:induction false} AbsorbAllKeyed(mm: seq<(Key, Item)>, byId: seq<(Key, Item)>, incoming: seq<Item>, cal: Calendar, pr: Printer)
    requires Keyed(mm, pr)
    ensures Keyed(AbsorbAll(mm, byId, incoming, cal, pr), pr)
  {
    if incoming != [] {
      AbsorbAllKeyed(mm, byId, incoming[..|incoming| - 1], cal, pr);
      AbsorbFacts(AbsorbAll(mm, byId, incoming[..|incoming| - 1], cal, pr), byId, incoming[|incoming| - 1], cal, pr, JNull);
    }
  }

  lemma MergedKeyed(existing: seq<Item>, incomingList: seq<Item>, now: string, cal: Calendar, pr: Printer)
    ensures Keyed(Merged(existing, incomingList, now, cal, pr), pr)
  {
    var present := NormAll(existing, now);
    PresentMapKeyed(present, pr);
    AbsorbAllKeyed(PresentMap(present, pr), ById(present), NormAll(incomingList, now), cal, pr);
  }

  lemma DistinctPrefix<K>(ks: seq<K>)
    requires Dict.Distinct(ks) && ks != []
    ensures Dict.Distinct(ks[..|ks| - 1])
  {
    var p := ks[..|ks| - 1];
    forall i, j | 0 <= i < j < |p| ensures p[i] != p[j] {
      assert p[i] == ks[i] && p[j] == ks[j];
    }
  }

  /** The front holds, in order, the map's value for each key it has; distinct keys give distinct values. */
  lemma {:induction false} FrontFacts<K, V>(mm: seq<(K, V)>, ks: seq<K>, key: V -> Option<K>)
    requires KeyedBy(mm, key)
    ensures forall x :: x in Front(mm, ks) ==> key(x).Some? && key(x).value in Added(mm, ks) && Dict.Get(mm, key(x).value) == Some(x)
    ensures Dict.Distinct(ks) ==> UniqueBy(Front(mm, ks), key)
    ensures |Front(mm, ks)| <= |ks|
  {
    if ks != [] {
      var p := ks[..|ks| - 1];
      var k := ks[|ks| - 1];
      FrontFacts(mm, p, key);
      var f := Front(mm, p);
      assert forall y :: y in p ==> y in ks;
      if Dict.Get(mm, k).Some? {
        var it := Dict.Get(mm, k).value;
        Dict.GetEntry(mm, k);
        assert key(it) == Some(k);
        if Dict.Distinct(ks) {
          DistinctPrefix(ks);
          forall i | 0 <= i < |f| ensures key(f[i]) != Some(k) {
            assert f[i] in f;
            var m :| 0 <= m < |p| && p[m] == key(f[i]).value;
            assert ks[m] == p[m];
          }
          var fr := f + [it];
          forall i, j | 0 <= i < j < |fr| ensures key(fr[i]) != key(fr[j]) {
            assert fr[i] == f[i];
            if j < |f| {
              assert fr[j] == f[j];
            }
          }
        }
      } else if Dict.Distinct(ks) {
        DistinctPrefix(ks);
      }
    }
  }

  lemma KeyedPrefix<K, V>(entries: seq<(K, V)>, key: V -> Option<K>)
    requires KeyedBy(entries, key) && entries != []
    ensures KeyedBy(entries[..|entries| - 1], key)
  {
    var p := entries[..|entries| - 1];
    forall i, j | 0 <= i < j < |Dict.Keys(p)| ensures Dict.Keys(p)[i] != Dict.Keys(p)[j] {
      assert Dict.Keys(p)[i] == Dict.Keys(entries)[i] && Dict.Keys(p)[j] == Dict.Keys(entries)[j];
    }
    assert forall e :: e in p ==> e in entries;
  }

  /** The rest holds, in map order, the values whose key is not already added. */
  lemma {:induction false} RestFacts<K, V>(entries: seq<(K, V)>, added: set<K>, key: V -> Option<K>)
    requires KeyedBy(entries, key)
    ensures forall x :: x in Rest(entries, added) ==> key(x).Some? && key(x).value !in added && (key(x).value, x) in entries
    ensures forall e :: e in entries && e.0 !in added ==> e.1 in Rest(entries, added)
    ensures UniqueBy(Rest(entries, added), key)
  {
    if entries != [] {
      var p := entries[..|entries| - 1];
      var e := entries[|entries| - 1];
      KeyedPrefix(entries, key);
      RestFacts(p, added, key);
      var r := Rest(p, added);
      assert entries == p + [e];
      if e.0 !in added {
        forall i | 0 <= i < |r| ensures key(r[i]) != Some(e.0) {
          assert r[i] in r;
          var m :| 0 <= m < |p| && p[m] == (key(r[i]).value, r[i]);
          assert Dict.Keys(entries)[m] != Dict.Keys(entries)[|entries| - 1];
        }
        var rr := r + [e.1];
        forall i, j | 0 <= i < j < |rr| ensures key(rr[i]) != key(rr[j]) {
          assert rr[i] == r[i];
          if j < |r| {
            assert rr[j] == r[j];
          }
        }
      }
    }
  }

  /** An added key's value is in the front. */
  lemma {:induction false} FrontHas<K, V>(mm: seq<(K, V)>, ks: seq<K>, k: K)
    requires k in Added(mm, ks)
    ensures Dict.Get(mm, k).Some? && Dict.Get(mm, k).value in Front(mm, ks)
  {
    var p := ks[..|ks| - 1];
    if ks[|ks| - 1] != k {
      assert k in p;
      FrontHas(mm, p, k);
    }
  }

  /** Every value of the map reaches the front or the rest. */
  lemma FrontRestCover<K, V>(mm: seq<(K, V)>, ks: seq<K>, key: V -> Option<K>)
    requires KeyedBy(mm, key)
    ensures forall e :: e in mm ==> e.1 in Front(mm, ks) + Rest(mm, Added(mm, ks))
  {
    RestFacts(mm, Added(mm, ks), key);
    forall e | e in mm && e.0 in Added(mm, ks) ensures e.1 in Front(mm, ks) {
      var m :| 0 <= m < |mm| && mm[m] == e;
      Dict.DistinctGet(mm, m);
      FrontHas(mm, ks, e.0);
    }
  }

  /** Each listed value is the map's value for its own key; the front's keys are in `ks`, the rest's are not. */
  lemma FrontRestSides<K, V>(mm: seq<(K, V)>, ks: seq<K>, key: V -> Option<K>)
    requires KeyedBy(mm, key)
    ensures forall x :: x in Rest(mm, Added(mm, ks)) ==> key(x).Some? && key(x).value !in ks && Dict.Get(mm, key(x).value) == Some(x)
    ensures forall x :: x in Front(mm, ks) ==> key(x).Some? && key(x).value in ks && Dict.Get(mm, key(x).value) == Some(x)
  {
    FrontFacts(mm, ks, key);
    RestFacts(mm, Added(mm, ks), key);
    forall x | x in Rest(mm, Added(mm, ks)) ensures key(x).value !in ks && Dict.Get(mm, key(x).value) == Some(x) {
      var m :| 0 <= m < |mm| && mm[m] == (key(x).value, x);
      Dict.DistinctGet(mm, m);
    }
  }

  /** Distinct incoming keys give a list without a repeated key. */
  lemma FrontRestUnique<K, V>(mm: seq<(K, V)>, ks: seq<K>, key: V -> Option<K>)
    requires KeyedBy(mm, key) && Dict.Distinct(ks)
    ensures UniqueBy(Front(mm, ks) + Rest(mm, Added(mm, ks)), key)
  {
    var f := Front(mm, ks);
    var r := Rest(mm, Added(mm, ks));
    var fl := f + r;
    FrontFacts(mm, ks, key);
    FrontRestSides(mm, ks, key);
    RestFacts(mm, Added(mm, ks), key);
    forall i, j | 0 <= i < j < |fl| ensures key(fl[i]) != key(fl[j]) {
      if j < |f| {
        assert fl[i] == f[i] && fl[j] == f[j];
      } else if i >= |f| {
        assert fl[i] == r[i - |f|] && fl[j] == r[j - |f|];
      } else {
        assert fl[i] == f[i] && f[i] in f && fl[j] == r[j - |f|] && r[j - |f|] in r;
      }
    }
  }

  /**
   * The front then the rest: every value of the map appears, each one is the map's value for
   * its key, the front's keys are among `ks` and the rest's are not, and distinct `ks` give a
   * list without a repeated key.
   */
  lemma FrontRestFacts<K, V>(mm: seq<(K, V)>, ks: seq<K>, key: V -> Option<K>)
    requires KeyedBy(mm, key)
    ensures var fl := Front(mm, ks) + Rest(mm, Added(mm, ks));
      && (forall e :: e in mm ==> e.1 in fl)
      && (forall x :: x in fl ==> key(x).Some? && Dict.Get(mm, key(x).value) == Some(x))
      && (forall i :: 0 <= i < |Front(mm, ks)| ==> key(fl[i]).Some? && key(fl[i]).value in ks)
      && (forall i :: |Front(mm, ks)| <= i < |fl| ==> key(fl[i]).Some? && key(fl[i]).value !in ks)
      && (Dict.Distinct(ks) ==> UniqueBy(fl, key))
  {
    var f := Front(mm, ks);
    var r := Rest(mm, Added(mm, ks));
    var fl := f + r;
    FrontRestCover(mm, ks, key);
    FrontRestSides(mm, ks, key);
    forall i | 0 <= i < |f| ensures key(fl[i]).Some? && key(fl[i]).value in ks {
      assert fl[i] == f[i] && f[i] in f;
    }
    forall i | |f| <= i < |fl| ensures key(fl[i]).Some? && key(fl[i]).value !in ks {
      assert fl[i] == r[i - |f|] && r[i - |f|] in r;
    }
    if Dict.Distinct(ks) {
      FrontRestUnique(mm, ks, key);
    }
  }

  /**
   * The final list is the incoming keys' scenarios first, then every other merged scenario;
   * no merged scenario is lost before the cap, and when the incoming keys are distinct no key
   * appears twice.
   */
  lemma FinalListFacts(existing: seq<Item>, incomingList: seq<Item>, now: string, cal: Calendar, pr: Printer)
    ensures var mm := Merged(existing, incomingList, now, cal, pr);
      var ks := IncomingKeys(NormAll(incomingList, now), pr);
      var fl := FinalList(existing, incomingList, now, cal, pr);
      && (forall e :: e in mm ==> e.1 in fl)
      && (forall x :: x in fl ==> KeyFn(pr)(x).Some? && Dict.Get(mm, KeyFn(pr)(x).value) == Some(x))
      && (forall i :: 0 <= i < |Front(mm, ks)| ==> KeyFn(pr)(fl[i]).Some? && KeyFn(pr)(fl[i]).value in ks)
      && (forall i :: |Front(mm, ks)| <= i < |fl| ==> KeyFn(pr)(fl[i]).Some? && KeyFn(pr)(fl[i]).value !in ks)
      && (Dict.Distinct(ks) ==> UniqueBy(fl, KeyFn(pr)))
  {
    var mm := Merged(existing, incomingList, now, cal, pr);
    var ks := IncomingKeys(NormAll(incomingList, now), pr);
    MergedKeyed(existing, incomingList, now, cal, pr);
    FrontRestFacts(mm, ks, KeyFn(pr));
  }

  /** A key that comes twice among the incoming keys puts its value in the front twice. */
  lemma {:induction false} RepeatedKeyTwice<K, V>(mm: seq<(K, V)>, ks: seq<K>, i: nat, j: nat)
    requires i < j < |ks| && ks[i] == ks[j] && Dict.Get(mm, ks[i]).Some?
    ensures multiset(Front(mm, ks))[Dict.Get(mm, ks[i]).value] >= 2
  {
    var p := ks[..|ks| - 1];
    var w := Dict.Get(mm, ks[i]).value;
    if j < |ks| - 1 {
      assert p[i] == ks[i] && p[j] == ks[j];
      RepeatedKeyTwice(mm, p, i, j);
    } else {
      assert p[i] == ks[i];
      assert ks[i] in Added(mm, p);
      FrontHas(mm, p, ks[i]);
      assert Front(mm, ks) == Front(mm, p) + [w];
    }
  }

  /**
   * A stored optimistic scenario (a local id, no server id) and its server-confirmed copy with
   * the same local id: the merge keeps just the confirmed copy, whatever the two times.
   */
  lemma ConfirmReplacesOptimistic(o: Item, c: Item, now: string, cal: Calendar, pr: Printer)
    requires !Truthy(Field(o, "serverId")) && Truthy(Field(o, "id"))
    requires Truthy(Field(c, "serverId")) && Field(c, "id") == Field(o, "id")
    ensures MergeResult([o], [c], now, cal, pr) == [Norm(c, now)]
  {
    var no := Norm(o, now);
    var nc := Norm(c, now);
    NormFacts(o, now, "id");
    NormFacts(o, now, "serverId");
    NormFacts(c, now, "id");
    NormFacts(c, now, "serverId");
    assert NormAll([o], now) == [no];
    assert NormAll([c], now) == [nc];
    var k := KeyOf(nc, pr).value;
    ConfirmAbsorbed(no, nc, cal, pr);
    assert [nc][..0] == [];
    assert AbsorbAll(PresentMap([no], pr), ById([no]), [nc], cal, pr) == [(k, nc)];
    EmptyStorageTail(k, nc);
    assert IncomingKeys([nc], pr) == [k];
  }

  /** The confirmed copy's pass deletes the optimistic entry and stores the copy under its server key. */
  lemma ConfirmAbsorbed(no: Item, nc: Item, cal: Calendar, pr: Printer)
    requires !Truthy(Field(no, "serverId")) && Truthy(Field(no, "id"))
    requires Truthy(Field(nc, "serverId")) && Field(nc, "id") == Field(no, "id")
    ensures Absorb(PresentMap([no], pr), ById([no]), nc, cal, pr) == [(KeyOf(nc, pr).value, nc)]
  {
    var id := Field(no, "id");
    assert [no][..0] == [];
    assert KeyOf(no, pr) == Some(id);
    assert PresentMap([no][..0], pr) == [] && ById([no][..0]) == [];
    assert Dict.Put([], id, no) == [(id, no)];
    var mm0 := PresentMap([no], pr);
    assert mm0 == [(id, no)];
    var byId := ById([no]);
    assert byId == [(id, no)];
    assert DropOptimistic(mm0, byId, nc, pr) == [];
  }

  /** The front and rest of a one-entry map under its own key. */
  lemma EmptyStorageTail(k: Key, n: Item)
    ensures Front([(k, n)], [k]) + Rest([(k, n)], Added([(k, n)], [k])) == [n]
  {
    assert [k][..0] == [];
    assert Front([(k, n)], [k]) == [n];
    assert Added([(k, n)], [k]) == {k};
    assert [(k, n)][..0] == [];
    assert Rest([(k, n)], {k}) == [];
  }

  /** With nothing stored, a keyed incoming scenario is what the merge returns and writes. */
  lemma EmptyStoragePersistsIncoming(it: Item, now: string, cal: Calendar, pr: Printer)
    requires KeyOf(Norm(it, now), pr).Some?
    ensures MergeResult([], [it], now, cal, pr) == [Norm(it, now)]
  {
    var n := Norm(it, now);
    var k := KeyOf(n, pr).value;
    assert NormAll([it], now) == [n];
    assert NormAll([], now) == [];
    assert DropOptimistic([], [], n, pr) == [];
    assert Absorb([], [], n, cal, pr) == [(k, n)];
    assert [n][..0] == [];
    assert AbsorbAll([], [], [n], cal, pr) == [(k, n)];
    assert IncomingKeys([n], pr) == [k];
    EmptyStorageTail(k, n);
  }

  /** At most 50 scenarios, the first ones of the final list. */
  lemma MergeResultFacts(existing: seq<Item>, incomingList: seq<Item>, now: string, cal: Calendar, pr: Printer)
    ensures var out := MergeResult(existing, incomingList, now, cal, pr);
      var fl := FinalList(existing, incomingList, now, cal, pr);
      |out| == MinInt(Cap, |fl|) && out == fl[..|out|]
  {
  }

  // ---------------------------------------------------------------------------------------
  // The storage
  // ---------------------------------------------------------------------------------------

  /** The `localStorage` entry the scenarios are saved under. */
  class ScenarioStorage {
    var slot: Slot

    constructor(s: Slot)
      ensures slot == s
    {
      slot := s;
    }

    /** `readSavedScenarios()`; `readFails` says whether `getItem` throws. */
    function Read(readFails: bool): (r: seq<Item>)
      reads this
      ensures readFails || !slot.Items? ==> r == []
    {
      if readFails then [] else Existing(slot)
    }

    method ReadSavedScenarios(readFails: bool) returns (list: seq<Item>)
      ensures list == Read(readFails)
    {
      if readFails {
        return [];
      }
      match slot
      case Items(l) => list := l;
      case _ => list := [];
    }

    /** `persistScenarios(list)`; a failing `setItem` is swallowed. */
    method PersistScenarios(list: seq<Item>, writeFails: bool)
      modifies this
      ensures slot == if writeFails then old(slot) else Items(list)
    {
      if !writeFails {
        slot := Items(list);
      }
    }

    /**
     * `mergeAndPersistScenarios(incomingList)`; `readFails` and `writeFails` say whether
     * `getItem` and `setItem` throw, `now` is the clock's ISO text. When either throws, the
     * incoming list is returned and nothing is written.
     */
    method MergeAndPersistScenarios(incomingList: seq<Item>, now: string, cal: Calendar, pr: Printer, readFails: bool, writeFails: bool)
      returns (out: seq<Item>)
      modifies this
      ensures readFails || writeFails ==> out == incomingList && slot == old(slot)
      ensures !readFails && !writeFails ==> out == MergeResult(Existing(old(slot)), incomingList, now, cal, pr) && slot == Items(out)
      ensures |out| <= Cap || out == incomingList
    {
      if readFails {
        return incomingList;
      }
      var existing := Existing(slot);
      var incoming := NormAll(incomingList, now);
      var present := NormAll(existing, now);
      var mm := IndexPresent(present, pr);
      var byId := IndexById(present);
      mm := AbsorbIncoming(mm, byId, incoming, cal, pr);
      var ks := CollectKeys(incoming, pr);
      var front, added := PushIncoming(mm, ks);
      var finalList := PushRest(mm, added, front);
      out := SliceTo(finalList, Cap);
      if writeFails {
        return incomingList;
      }
      slot := Items(out);
    }
  }
}
