/** What the filter of a request may be unpacked to, whatever order Go visits the entries of a map in. */
module DispatcherFilters {
  import opened Text
  import opened Json
  import opened Dispatcher

  function KindOf(ms: seq<Member>): string {
    match Lookup(ms, "type") case Some(Str(text)) => text case _ => ""
  }

  /** What the entry under a key sets the parameter to: a string or an array under "parameter", an object anywhere. */
  function SetBy(marshal: Json -> string, ms: seq<Member>, key: string): Option<string> {
    match Lookup(ms, key)
    case None => None
    case Some(Lit(_)) => None
    case Some(Str(text)) => if key == "parameter" then Some(text) else None
    case Some(Arr(items)) => if key == "parameter" then Some("[" + marshal(Arr(items))) else None
    case Some(Obj(members)) => Some("{" + marshal(Obj(members)))
  }

  /** Some entry sets the parameter, and one of them to this text; or none does. */
  predicate MaySet(marshal: Json -> string, ms: seq<Member>, text: string) {
    if exists i :: 0 <= i < |ms| && SetBy(marshal, ms, ms[i].key).Some? then
      exists i :: 0 <= i < |ms| && SetBy(marshal, ms, ms[i].key) == Some(text)
    else text == ""
  }

  predicate MayBe(marshal: Json -> string, j: Json, f: Filter) {
    if j.Obj? then f.kind == KindOf(j.members) && MaySet(marshal, j.members, f.parameter) else f == Filter("", "")
  }

  /** The elements that a filter list is made of. */
  function ItemsOf(filter: Value): seq<Json> {
    match filter
    case Other(Arr(items)) => items
    case Other(Obj(_)) => [filter.json]
    case _ => []
  }

  predicate MayUnpack(marshal: Json -> string, filter: Value, fs: seq<Filter>) {
    |fs| == |ItemsOf(filter)| && forall i :: 0 <= i < |fs| ==> MayBe(marshal, ItemsOf(filter)[i], fs[i])
  }

  // ---------------------------------------------------------------- whatever is unpacked may be

  lemma {:induction false} LookupKey(ms: seq<Member>, key: string)
    ensures Lookup(ms, key).Some? ==> exists i :: 0 <= i < |ms| && ms[i].key == key
  {
    if ms != [] && ms[|ms| - 1].key != key {
      LookupKey(ms[..|ms| - 1], key);
    }
  }

  /** The kind and the parameter behind some of the entries. */
  lemma {:induction false} VisitedSo(marshal: Json -> string, ms: seq<Member>, keys: seq<string>)
    ensures var f := VisitAll(marshal, ms, keys);
            && f.kind == (if "type" in keys then KindOf(ms) else "")
            && (if exists i :: 0 <= i < |keys| && SetBy(marshal, ms, keys[i]).Some? then
                  exists i :: 0 <= i < |keys| && SetBy(marshal, ms, keys[i]) == Some(f.parameter)
                else f.parameter == "")
  {
    if keys != [] {
      var n := |keys| - 1;
      var f := VisitAll(marshal, ms, keys);
      VisitedSo(marshal, ms, keys[..n]);
      hide Setter, VisitAll;
      VisitOne(marshal, ms, keys);
      var before := VisitAll(marshal, ms, keys[..n]);
      assert "type" in keys <==> "type" in keys[..n] || keys[n] == "type";
      if SetBy(marshal, ms, keys[n]).Some? {
        assert SetBy(marshal, ms, keys[n]) == Some(f.parameter);
      } else {
        assert f.parameter == before.parameter;
        if i :| 0 <= i < |keys| && SetBy(marshal, ms, keys[i]).Some? {
          assert keys[..n][i] == keys[i];
        }
      }
    }
  }

  lemma VisitOne(marshal: Json -> string, ms: seq<Member>, keys: seq<string>)
    requires keys != []
    ensures var n := |keys| - 1;
            var f, before, key := VisitAll(marshal, ms, keys), VisitAll(marshal, ms, keys[..n]), keys[n];
            && f.kind == (if key == "type" && Lookup(ms, key).Some? && Lookup(ms, key).value.Str? then KindOf(ms)
                          else before.kind)
            && f.parameter == (match SetBy(marshal, ms, key) case Some(text) => text case None => before.parameter)
  {
    var n := |keys| - 1;
    var before, key := VisitAll(marshal, ms, keys[..n]), keys[n];
    VisitAllOne(marshal, ms, keys);
    hide VisitAll, Lookup;
    if Lookup(ms, key).Some? {
      VisitSets(marshal, before, key, Lookup(ms, key).value);
    }
    hide Visit, Setter;
  }

  lemma VisitAllOne(marshal: Json -> string, ms: seq<Member>, keys: seq<string>)
    requires keys != []
    ensures var n := |keys| - 1;
            var before := VisitAll(marshal, ms, keys[..n]);
            VisitAll(marshal, ms, keys)
            == match Lookup(ms, keys[n]) case None => before case Some(value) => Visit(marshal, before, keys[n], value)
  {
    hide Visit, Lookup;
  }

  lemma VisitSets(marshal: Json -> string, f: Filter, key: string, value: Json)
    ensures Visit(marshal, f, key, value).kind == if key == "type" && value.Str? then value.text else f.kind
    ensures Visit(marshal, f, key, value).parameter
         == match Setter(marshal, key, value) case Some(text) => text case None => f.parameter
  {
    assert "type"[0] != "parameter"[0];
  }

  lemma {:induction false} KeysAreOrder(ms: seq<Member>)
    ensures IsOrder(KeysOf(ms), ms)
  {
    if ms != [] {
      var n := |ms| - 1;
      var keys := KeysOf(ms[..n]);
      KeysAreOrder(ms[..n]);
      forall i | 0 <= i < |keys| ensures Lookup(ms, keys[i]).Some? {
        assert Lookup(ms[..n], keys[i]).Some?;
      }
      forall i | 0 <= i < |ms| ensures ms[i].key in KeysOf(ms) {
        assert i < n ==> ms[..n][i].key in keys;
      }
    }
  }

  lemma OrderMay(marshal: Json -> string, ms: seq<Member>, keys: seq<string>)
    requires IsOrder(keys, ms)
    ensures MayBe(marshal, Obj(ms), VisitAll(marshal, ms, keys))
  {
    hide VisitAll, Setter, Lookup;
    VisitedSo(marshal, ms, keys);
    var f := VisitAll(marshal, ms, keys);
    if "type" !in keys && Lookup(ms, "type").Some? {
      LookupKey(ms, "type");
    }
    if i :| 0 <= i < |ms| && SetBy(marshal, ms, ms[i].key).Some? {
      var k :| 0 <= k < |keys| && keys[k] == ms[i].key;
      assert SetBy(marshal, ms, keys[k]).Some?;
      var j :| 0 <= j < |keys| && SetBy(marshal, ms, keys[j]) == Some(f.parameter);
      LookupKey(ms, keys[j]);
    } else {
      forall k | 0 <= k < |keys| ensures SetBy(marshal, ms, keys[k]) == None {
        LookupKey(ms, keys[k]);
      }
    }
  }

  /** Whatever the order, the unpacked list is one of those. */
  lemma UnpackedMay(w: World, filter: Value)
    ensures MayUnpack(w.marshal, filter, Unpacked(w, filter))
  {
    hide VisitAll, KeysOf, IsOrder;
    forall i | 0 <= i < |ItemsOf(filter)| ensures MayBe(w.marshal, ItemsOf(filter)[i], Unpacked(w, filter)[i]) {
      var j := ItemsOf(filter)[i];
      assert Unpacked(w, filter)[i] == FilterOf(w, i, j);
      if j.Obj? {
        KeysAreOrder(j.members);
        OrderMay(w.marshal, j.members, Visited(w, i, j.members));
      }
    }
  }

  // ---------------------------------------------------------------- whatever may be is unpacked in some order

  function Without(keys: seq<string>, key: string): seq<string> {
    if keys == [] then []
    else
      var rest, last := Without(keys[..|keys| - 1], key), keys[|keys| - 1];
      if last == key then rest else rest + [last]
  }

  lemma {:induction false} WithoutHolds(keys: seq<string>, key: string)
    requires Distinct(keys)
    ensures Distinct(Without(keys, key)) && forall k :: k in Without(keys, key) <==> k in keys && k != key
  {
    if keys != [] {
      var n := |keys| - 1;
      WithoutHolds(keys[..n], key);
      assert keys == keys[..n] + [keys[n]];
      assert forall i :: 0 <= i < n ==> keys[..n][i] == keys[i] && keys[i] != keys[n];
      assert keys[n] !in keys[..n] && keys[n] !in Without(keys[..n], key);
    }
  }

  /** The order in which this key comes last. */
  function LastOrder(ms: seq<Member>, key: string): seq<string> {
    Without(KeysOf(ms), key) + [key]
  }

  lemma LastIsOrder(ms: seq<Member>, i: nat)
    requires i < |ms|
    ensures IsOrder(LastOrder(ms, ms[i].key), ms)
  {
    hide KeysOf, Lookup, Without;
    var keys, key := KeysOf(ms), ms[i].key;
    KeysAreOrder(ms);
    WithoutHolds(keys, key);
    var order := LastOrder(ms, key);
    forall k | 0 <= k < |order| ensures Lookup(ms, order[k]).Some? {
      assert order[k] in keys;
    }
  }

  /** A server where each map is visited in its order of this list. */
  function Choice(orders: seq<seq<string>>): (nat, seq<Member>) -> seq<string> {
    (i: nat, ms) => if i < |orders| then orders[i] else []
  }

  lemma OrderFor(marshal: Json -> string, j: Json, f: Filter) returns (order: seq<string>)
    requires j.Obj? && MayBe(marshal, j, f)
    ensures IsOrder(order, j.members) && VisitAll(marshal, j.members, order) == f
  {
    hide VisitAll, Setter, Lookup, KeysOf, KindOf;
    var ms := j.members;
    KeysAreOrder(ms);
    order := KeysOf(ms);
    if i :| 0 <= i < |ms| && SetBy(marshal, ms, ms[i].key) == Some(f.parameter) {
      LastIsOrder(ms, i);
      order := LastOrder(ms, ms[i].key);
      VisitOne(marshal, ms, order);
    }
    hide SetBy;
    OrderMay(marshal, ms, order);
    var g := VisitAll(marshal, ms, order);
    assert g.kind == f.kind && g.parameter == f.parameter;
  }

  lemma OrdersFor(marshal: Json -> string, items: seq<Json>, fs: seq<Filter>) returns (orders: seq<seq<string>>)
    requires |fs| == |items| && forall i :: 0 <= i < |fs| ==> MayBe(marshal, items[i], fs[i])
    ensures |orders| == |items|
    ensures forall i :: 0 <= i < |items| && items[i].Obj? ==>
              IsOrder(orders[i], items[i].members) && VisitAll(marshal, items[i].members, orders[i]) == fs[i]
  {
    hide VisitAll, MayBe, IsOrder;
    orders := [];
    for i := 0 to |items|
      invariant |orders| == i
      invariant forall k :: 0 <= k < i && items[k].Obj? ==>
                  IsOrder(orders[k], items[k].members) && VisitAll(marshal, items[k].members, orders[k]) == fs[k]
    {
      var order := [];
      if items[i].Obj? {
        order := OrderFor(marshal, items[i], fs[i]);
      }
      orders := orders + [order];
    }
  }

  lemma UnpackedSo(w: World, filter: Value, fs: seq<Filter>, orders: seq<seq<string>>)
    requires w.order == Choice(orders) && MayUnpack(w.marshal, filter, fs) && |orders| == |fs|
    requires forall i :: 0 <= i < |orders| && ItemsOf(filter)[i].Obj? ==>
               var ms := ItemsOf(filter)[i].members;
               IsOrder(orders[i], ms) && VisitAll(w.marshal, ms, orders[i]) == fs[i]
    ensures Unpacked(w, filter) == fs
  {
    hide VisitAll, IsOrder, KeysOf;
    forall i | 0 <= i < |fs| ensures Unpacked(w, filter)[i] == fs[i] {
      var j := ItemsOf(filter)[i];
      assert MayBe(w.marshal, j, fs[i]);
      assert Unpacked(w, filter)[i] == FilterOf(w, i, j);
      if j.Obj? {
        assert w.order(i, j.members) == orders[i];
      }
    }
    assert |Unpacked(w, filter)| == |fs|;
  }

  /** These are just the lists that a filter may be unpacked to, over the orders in which Go may visit the maps. */
  lemma UnpackedIff(w: World, filter: Value, fs: seq<Filter>)
    ensures MayUnpack(w.marshal, filter, fs) <==> exists order :: Unpacked(w.(order := order), filter) == fs
  {
    hide MayBe, VisitAll, IsOrder, Unpacked;
    if MayUnpack(w.marshal, filter, fs) {
      var orders := OrdersFor(w.marshal, ItemsOf(filter), fs);
      UnpackedSo(w.(order := Choice(orders)), filter, fs, orders);
    }
    if order :| Unpacked(w.(order := order), filter) == fs {
      UnpackedMay(w.(order := order), filter);
    }
  }

  // ---------------------------------------------------------------- server_capabilities

  function ItemKind(j: Json): string {
    if j.Obj? then KindOf(j.members) else ""
  }

  /** A filter that asks for the server's capabilities, if its parameter is the last entry that Go visits. */
  predicate AsksCapabilities(j: Json) {
    ItemKind(j) == "dynamic-metadata" && Lookup(j.members, "parameter") == Some(Json.Str("server_capabilities"))
  }

  /** Such a filter stands in front of the first paths or static-metadata filter. */
  predicate CapabilitiesFirst(items: seq<Json>) {
    items != [] && ItemKind(items[0]) != "paths" && ItemKind(items[0]) != "static-metadata"
    && (AsksCapabilities(items[0]) || CapabilitiesFirst(items[1..]))
  }

  lemma MaySetIff(marshal: Json -> string, ms: seq<Member>)
    ensures MaySet(marshal, ms, "server_capabilities")
       <==> Lookup(ms, "parameter") == Some(Json.Str("server_capabilities"))
  {
    hide Lookup;
    var text := "server_capabilities";
    assert text[0] == 's';
    if Lookup(ms, "parameter") == Some(Json.Str(text)) {
      LookupKey(ms, "parameter");
      var i :| 0 <= i < |ms| && ms[i].key == "parameter";
      assert SetBy(marshal, ms, ms[i].key) == Some(text);
    }
    forall key | SetBy(marshal, ms, key) == Some(text)
      ensures key == "parameter" && Lookup(ms, key) == Some(Json.Str(text))
    {
      var value := Lookup(ms, key).value;
      assert ("[" + marshal(value))[0] == '[' && ("{" + marshal(value))[0] == '{';
    }
  }

  /** Some filter that the element may be unpacked to. */
  function SomeFilter(marshal: Json -> string, j: Json): (f: Filter)
    ensures MayBe(marshal, j, f)
  {
    if j.Obj? then
      KeysAreOrder(j.members);
      OrderMay(marshal, j.members, KeysOf(j.members));
      VisitAll(marshal, j.members, KeysOf(j.members))
    else Filter("", "")
  }

  lemma CapabilitiesMay(marshal: Json -> string, j: Json)
    ensures AsksCapabilities(j) <==> MayBe(marshal, j, Filter("dynamic-metadata", "server_capabilities"))
  {
    if j.Obj? {
      MaySetIff(marshal, j.members);
    }
  }
}
