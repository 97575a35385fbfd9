/** The product list and how a synced list is merged into it. */
module ProductCatalog {
  import opened Bits
  import opened Records
  import opened Wrappers
  import opened Settings
  import Format

  predicate Known(server: seq<Product>, name: Text) {
    exists j :: 0 <= j < |server| && server[j].name == name
  }

  /** Created on the device, and not yet listed by the server under its name. */
  predicate Survives(p: Product, server: seq<Product>) {
    p.barcode == [] && !Known(server, p.name)
  }

  function Survivors(items: seq<Product>, server: seq<Product>): seq<Product>
    decreases |items|
  {
    if |items| == 0 then []
    else if Survives(items[0], server) then [items[0]] + Survivors(items[1..], server)
    else Survivors(items[1..], server)
  }

  function Take<T>(s: seq<T>, n: nat): seq<T> {
    if |s| <= n then s else s[..n]
  }

  /** The server's list, then the surviving local products in their order, cut to
      what the catalog can hold. */
  function Merged(items: seq<Product>, server: seq<Product>): seq<Product>
    requires |server| <= MAX_PRODUCTS
  {
    server + Take(Survivors(items, server), MAX_PRODUCTS - |server|)
  }

  lemma {:induction false} SurvivorsAppend(a: seq<Product>, b: seq<Product>, server: seq<Product>)
    ensures Survivors(a + b, server) == Survivors(a, server) + Survivors(b, server)
    decreases |a|
  {
    if |a| == 0 {
      assert a + b == b;
    } else {
      assert (a + b)[1..] == a[1..] + b;
      SurvivorsAppend(a[1..], b, server);
    }
  }

  lemma {:induction false} AllSurvive(items: seq<Product>, server: seq<Product>)
    requires forall i :: 0 <= i < |items| ==> Survives(items[i], server)
    ensures Survivors(items, server) == items
    decreases |items|
  {
    if |items| > 0 {
      AllSurvive(items[1..], server);
    }
  }

  lemma {:induction false} NoneSurvive(items: seq<Product>, server: seq<Product>)
    requires forall i :: 0 <= i < |items| ==> Known(server, items[i].name)
    ensures Survivors(items, server) == []
    decreases |items|
  {
    if |items| > 0 {
      NoneSurvive(items[1..], server);
    }
  }

  lemma {:induction false} SurvivorsSurvive(items: seq<Product>, server: seq<Product>)
    ensures forall i :: 0 <= i < |Survivors(items, server)| ==> Survives(Survivors(items, server)[i], server)
    decreases |items|
  {
    if |items| > 0 {
      SurvivorsSurvive(items[1..], server);
    }
  }

  /** Applying the same synced list again changes nothing. */
  lemma MergeIdempotent(items: seq<Product>, server: seq<Product>)
    requires |server| <= MAX_PRODUCTS
    ensures Merged(Merged(items, server), server) == Merged(items, server)
  {
    var kept := Take(Survivors(items, server), MAX_PRODUCTS - |server|);
    SurvivorsSurvive(items, server);
    SurvivorsAppend(server, kept, server);
    NoneSurvive(server, server);
    AllSurvive(kept, server);
  }

  /** A sync never deletes a beer added at the fridge unless the server lists its name
      or there is no room, and never reorders or invents one. */
  lemma MergeKeepsLocals(items: seq<Product>, server: seq<Product>, p: Product)
    requires |server| + |Survivors(items, server)| <= 32
    ensures p in Merged(items, server) <==>
              p in server
              || (p in items && p.barcode == [] && forall j :: 0 <= j < |server| ==> server[j].name != p.name)
  {
    SurvivorsExactly(items, server, p);
  }

  lemma {:induction false} SurvivorsExactly(items: seq<Product>, server: seq<Product>, p: Product)
    ensures p in Survivors(items, server) <==> p in items && Survives(p, server)
    decreases |items|
  {
    if |items| > 0 {
      assert items == [items[0]] + items[1..];
      SurvivorsExactly(items[1..], server, p);
    }
  }

  // ---- Counting by state ------------------------------------------------------

  function Count(items: seq<Product>, active: bool): (n: nat)
    ensures n <= |items|
    decreases |items|
  {
    if |items| == 0 then 0
    else Count(items[..|items| - 1], active) + if items[|items| - 1].active == active then 1 else 0
  }

  function Places(items: seq<Product>, active: bool): set<nat> {
    set i: nat | i < |items| && items[i].active == active
  }

  lemma PlacesGrow(items: seq<Product>, active: bool, n: nat)
    requires |items| == n + 1
    ensures Places(items, active) == Places(items[..n], active) + if items[n].active == active then {n} else {}
    ensures n !in Places(items[..n], active)
  {}

  /** It is the number of places with such a product. */
  lemma {:induction false} CountIs(items: seq<Product>, active: bool)
    ensures Count(items, active) == |Places(items, active)|
    decreases |items|
  {
    if |items| > 0 {
      CountIs(items[..|items| - 1], active);
      PlacesGrow(items, active, |items| - 1);
    } else {
      assert Places(items, active) == {};
    }
  }

  lemma {:induction false} CountGrows(items: seq<Product>, active: bool, i: nat)
    requires i <= |items|
    ensures Count(items[..i], active) <= Count(items, active)
    decreases |items| - i
  {
    if i < |items| {
      assert items[..i + 1][..i] == items[..i];
      CountGrows(items, active, i + 1);
    } else {
      assert items[..i] == items;
    }
  }

  class Catalog {
    const items: array<Product>
    var count: nat
    var revision: Uint32
    var dirty: bool

    ghost predicate Valid()
      reads this, items
    {
      items.Length == MAX_PRODUCTS && count <= MAX_PRODUCTS
    }

    ghost function Contents(): (s: seq<Product>)
      requires Valid()
      reads this, items
      ensures |s| <= MAX_PRODUCTS
    {
      items[..count]
    }

    constructor ()
      ensures Valid() && Contents() == [] && revision == 0 && !dirty && fresh(items)
    {
      items := new Product[MAX_PRODUCTS](_ => Format.BLANK_PRODUCT);
      count := 0;
      revision := 0;
      dirty := false;
    }

    /** The index of the index-th product in the wanted state: exactly `index`
        matching products stand before it. */
    method NthMatching(index: nat, active: bool) returns (found: Option<nat>)
      requires Valid()
      ensures found.None? <==> Count(Contents(), active) <= index
      ensures found.Some? ==>
                && found.value < |Contents()| && Contents()[found.value].active == active
                && Count(Contents()[..found.value], active) == index
    {
      var seen := 0;
      for i := 0 to count
        invariant seen == Count(Contents()[..i], active) <= index
      {
        assert Contents()[..i + 1][..i] == Contents()[..i];
        if items[i].active == active {
          if seen == index {
            CountGrows(Contents(), active, i + 1);
            return Some(i);
          }
          seen := seen + 1;
        }
      }
      assert Contents()[..count] == Contents();
      return None;
    }

    method CountMatching(active: bool) returns (n: nat)
      requires Valid()
      ensures n == Count(Contents(), active)
    {
      n := 0;
      for i := 0 to count
        invariant n == Count(Contents()[..i], active)
      {
        assert Contents()[..i + 1][..i] == Contents()[..i];
        if items[i].active == active {
          n := n + 1;
        }
      }
      assert Contents()[..count] == Contents();
    }

    method Archive(index: int) returns (ok: bool)
      requires Valid()
      modifies this`dirty, items
      ensures Valid() && ok == (0 <= index < |old(Contents())| && old(Contents())[index].active)
      ensures Contents() == if ok then old(Contents())[index := old(Contents())[index].(active := false)] else old(Contents())
      ensures dirty == (old(dirty) || ok)
    {
      if index < 0 || index >= count || !items[index].active {
        return false;
      }
      items[index] := items[index].(active := false);
      dirty := true;
      return true;
    }

    /** The locally created products are set aside, the server's list takes their
        place, and those the server does not know are put back. */
    method ReplaceAll(server: seq<Product>, revision: Uint32) returns (ok: bool)
      requires Valid()
      modifies this, items
      ensures Valid() && ok == (|server| <= MAX_PRODUCTS)
      ensures ok ==> Contents() == Merged(old(Contents()), server) && this.revision == revision && dirty
      ensures !ok ==> Contents() == old(Contents()) && this.revision == old(this.revision) && dirty == old(dirty)
    {
      if |server| > MAX_PRODUCTS {
        return false;
      }
      var local := SetAside();
      count := 0;
      for i := 0 to |server|
        invariant Valid() && count == i
        invariant items[..count] == server[..i]
      {
        items[count] := server[i];
        count := count + 1;
      }
      assert server[..|server|] == server;
      PutBack(local, server);
      SetAsideSurvivors(old(Contents()), server);
      this.revision := revision;
      dirty := true;
      return true;
    }

    method SetAside() returns (local: seq<Product>)
      requires Valid()
      ensures local == Barcodeless(Contents())
      ensures forall i :: 0 <= i < |local| ==> local[i].barcode == []
    {
      local := [];
      for i := 0 to count
        invariant forall j :: 0 <= j < |local| ==> local[j].barcode == []
        invariant local == Barcodeless(Contents()[..i])
      {
        assert Contents()[..i + 1][..i] == Contents()[..i];
        if items[i].barcode == [] {
          local := local + [items[i]];
        }
      }
      assert Contents()[..count] == Contents();
    }

    method PutBack(local: seq<Product>, server: seq<Product>)
      requires Valid() && Contents() == server
      requires forall i :: 0 <= i < |local| ==> local[i].barcode == []
      modifies this, items
      ensures Valid() && Contents() == Merged(local, server)
    {
      var i := 0;
      while i < |local| && count < MAX_PRODUCTS
        invariant i <= |local| && Valid()
        invariant Contents() == server + Survivors(local[..i], server)
      {
        assert local[..i + 1] == local[..i] + [local[i]];
        SurvivorsAppend(local[..i], [local[i]], server);
        var superseded := Superseded(local[i].name, server);
        if !superseded {
          items[count] := local[i];
          count := count + 1;
        }
        i := i + 1;
      }
      assert local == local[..i] + local[i..];
      SurvivorsAppend(local[..i], local[i..], server);
    }
  }

  /** Whether the server's list has a product of this name. */
  method Superseded(name: Text, server: seq<Product>) returns (superseded: bool)
    ensures superseded == Known(server, name)
  {
    superseded := false;
    var j := 0;
    while j < |server| && !superseded
      invariant j <= |server|
      invariant superseded ==> Known(server, name)
      invariant !superseded ==> forall i :: 0 <= i < j ==> server[i].name != name
    {
      superseded := server[j].name == name;
      j := j + 1;
    }
  }

  function Barcodeless(items: seq<Product>): seq<Product>
    decreases |items|
  {
    if |items| == 0 then []
    else
      var last := items[|items| - 1];
      Barcodeless(items[..|items| - 1]) + if last.barcode == [] then [last] else []
  }

  /** Only products without a barcode can survive, so setting them aside first loses
      nothing. */
  lemma {:induction false} SetAsideSurvivors(items: seq<Product>, server: seq<Product>)
    ensures Survivors(Barcodeless(items), server) == Survivors(items, server)
    decreases |items|
  {
    if |items| > 0 {
      var init, last := items[..|items| - 1], items[|items| - 1];
      SetAsideSurvivors(init, server);
      assert items == init + [last];
      SurvivorsAppend(init, [last], server);
      SurvivorsAppend(Barcodeless(init), if last.barcode == [] then [last] else [], server);
    }
  }
}
