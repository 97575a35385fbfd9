/** What the shelf cap does to a replay: a change that was accepted can be refused the
    second time. The room that a queue needs to be safe from it is exact. */
module ShelfCap {
  import opened Records
  import opened Sets
  import opened Settings
  import opened Server
  import opened Replay

  /** A name of n letters, and the product without a barcode that has it. */
  function Label(n: nat): (name: Text)
    ensures |name| == n
  {
    seq(n, i => 65)
  }

  function Beer(n: nat): Key {
    ByName(Label(n))
  }

  function Change(n: nat, kind: Kind): Entry {
    Entry([], [], Label(n), [], [], 0, false, kind)
  }

  predicate Any(e: Entry) {
    true
  }

  lemma Distinct(m: nat, n: nat)
    requires m != n
    ensures Beer(m) != Beer(n) && Label(m) != Label(n)
  {
    assert |Label(m)| != |Label(n)|;
  }

  /** Every product has a name and no barcode. */
  predicate Plain(products: Products) {
    forall key :: key in products ==> products[key].name != [] && key == ByName(products[key].name)
  }

  // ---- Changes in turn --------------------------------------------------------

  /** What taking x off a shelf or putting it back comes to. */
  ghost predicate Moves<T>(shelf: set<T>, x: T, back: bool, taken: bool, after: set<T>) {
    && (taken <==> !back || |shelf| < MAX_ACTIVE_PRODUCTS || x in shelf)
    && after == if !back then shelf - {x} else if taken then shelf + {x} else shelf
  }

  function Move(n: nat, back: bool): Entry {
    Change(n, if back then Restore else Archive)
  }

  function Trail(products: Products, q: seq<Entry>): Products
    decreases |q|
  {
    if |q| == 0 then products else Trail(Patched(products, q[0]), q[1..])
  }

  /** Every change of the queue is accepted. */
  predicate AllTaken(products: Products, q: seq<Entry>)
    decreases |q|
  {
    |q| > 0 ==> Takes(products, q[0]) && AllTaken(Patched(products, q[0]), q[1..])
  }

  lemma Moved(products: Products, n: nat, back: bool)
    requires Plain(products) && Beer(n) in products
    ensures var p := Patched(products, Move(n, back));
            && Plain(p) && p.Keys == products.Keys
            && Moves(Shelved(products), Beer(n), back, Takes(products, Move(n, back)), Shelved(p))
  {
    if back && Beer(n) in Shelved(products) {
      assert products[Beer(n)].name == Move(n, back).productName;
    }
  }

  lemma Front(products: Products, n: nat, back: bool, rest: seq<Entry>) returns (p: Products, taken: bool)
    requires Plain(products) && Beer(n) in products
    ensures Plain(p) && p.Keys == products.Keys && Moves(Shelved(products), Beer(n), back, taken, Shelved(p))
    ensures Trail(products, [Move(n, back)] + rest) == Trail(p, rest)
    ensures AllTaken(products, [Move(n, back)] + rest) <==> taken && AllTaken(p, rest)
  {
    Moved(products, n, back);
    p, taken := Patched(products, Move(n, back)), Takes(products, Move(n, back));
    assert ([Move(n, back)] + rest)[1..] == rest;
  }

  lemma {:induction false} PassTrail(s: Sheet, q: seq<Entry>)
    requires forall i :: 0 <= i < |q| ==> q[i].kind.IsProductChange()
    ensures Pass(s, q, Any).products == Trail(s.products, q)
    decreases |q|
  {
    if |q| > 0 {
      PassTrail(Served(s, q[0], true), q[1..]);
    }
  }

  /** A product comes on the shelf while fewer than eight are on it; and on a full one if
      its barcode is there already or, without one, any product of its name. */
  lemma PlaceIff(products: Products, e: Entry)
    requires e.kind == Restore && KeyOf(e) in products
    ensures Takes(products, e) <==>
              || |Shelved(products)| < 8
              || (e.barcode != [] && ByBarcode(e.barcode) in Shelved(products))
              || (e.barcode == [] && exists key :: key in Shelved(products) && products[key].name == e.productName)
  {
    if e.barcode == [] {
      if key :| key in products && OnShelf(products[key]) && products[key].name == e.productName {
        assert key in Shelved(products);
      }
    }
  }

  // ---- Five changes that do not replay ----------------------------------------

  function Swaps(): seq<Entry> {
    [Move(1, false)] + ([Move(8, true)] + Back())
  }

  function Back(): seq<Entry> {
    [Move(1, true)] + ([Move(8, false)] + ([Move(9, true)] + []))
  }

  /** The first time every change is accepted, and x is back in the end; the second time
      y takes the place of x, which is refused. */
  lemma Turns<T>(s: set<T>, x: T, y: T, z: T, a: set<T>, b: set<T>, c: set<T>, d: set<T>, e: set<T>,
                 ta: bool, tb: bool, tc: bool, td: bool, te: bool)
    requires x != y && x != z && y != z && x in s && y !in s && |s| == if z in s then 8 else 7
    requires Moves(s, x, false, ta, a) && Moves(a, y, true, tb, b) && Moves(b, x, true, tc, c)
    requires Moves(c, y, false, td, d) && Moves(d, z, true, te, e)
    ensures z !in s ==> ta && tb && tc && td && te && x in e && y !in e && z in e && |e| == 8
    ensures z in s ==> !tc && x !in e
  {
    assert |a| == |s| - 1;
    assert tb && |b| == |s|;
    if z !in s {
      assert e == s + {z};
    }
  }

  /** Seven beers on the shelf, beer 1 among them, and beer 8 archived; or eight with
      beer 9. */
  predicate Stock(products: Products) {
    && Plain(products) && Beer(1) in products && Beer(8) in products && Beer(9) in products
    && Beer(1) in Shelved(products) && Beer(8) !in Shelved(products)
    && |Shelved(products)| == if Beer(9) in Shelved(products) then 8 else 7
  }

  lemma BackTurns(b: Products)
    returns (c: Products, d: Products, e: Products, tc: bool, td: bool, te: bool)
    requires Plain(b) && Beer(1) in b && Beer(8) in b && Beer(9) in b
    ensures Plain(e) && e.Keys == b.Keys && Trail(b, Back()) == e && (AllTaken(b, Back()) <==> tc && td && te)
    ensures Moves(Shelved(b), Beer(1), true, tc, Shelved(c)) && Moves(Shelved(c), Beer(8), false, td, Shelved(d))
    ensures Moves(Shelved(d), Beer(9), true, te, Shelved(e))
  {
    c, tc := Front(b, 1, true, [Move(8, false)] + ([Move(9, true)] + []));
    d, td := Front(c, 8, false, [Move(9, true)] + []);
    e, te := Front(d, 9, true, []);
  }

  lemma SwapsTurn(products: Products)
    requires Stock(products)
    ensures var p := Trail(products, Swaps());
            if Beer(9) in Shelved(products) then Beer(1) !in Shelved(p)
            else AllTaken(products, Swaps()) && Beer(1) in Shelved(p) && Beer(9) in Shelved(p) && Stock(p)
  {
    Distinct(1, 8);
    Distinct(1, 9);
    Distinct(8, 9);
    var a, ta := Front(products, 1, false, [Move(8, true)] + Back());
    var b, tb := Front(a, 8, true, Back());
    var c, d, e, tc, td, te := BackTurns(b);
    Turns(Shelved(products), Beer(1), Beer(8), Beer(9), Shelved(a), Shelved(b), Shelved(c), Shelved(d), Shelved(e),
          ta, tb, tc, td, te);
    assert Trail(products, Swaps()) == e;
    assert AllTaken(products, Swaps()) <==> ta && tb && tc && td && te;
  }

  /** The server accepts every change; sent again, they take beer 1 off the shelf. */
  lemma CapDiverges(s: Sheet)
    requires Stock(s.products) && Beer(9) !in Shelved(s.products)
    ensures var q := Swaps();
            && AllTaken(s.products, q) && Beer(1) in Shelved(Pass(s, q, Any).products)
            && Beer(1) !in Shelved(Pass(Pass(s, q[..5], Any), q, Any).products)
  {
    var once := Pass(s, Swaps(), Any);
    assert Swaps()[..5] == Swaps();
    PassTrail(s, Swaps());
    SwapsTurn(s.products);
    PassTrail(once, Swaps());
    SwapsTurn(once.products);
  }

  // ---- Two that do not --------------------------------------------------------

  /** Put back beer 9, which finds no room, and then make some. */
  function Late(): seq<Entry> {
    [Move(9, true)] + ([Move(1, false)] + [])
  }

  lemma LateTurns(products: Products) returns (a: Products, b: Products, ta: bool, tb: bool)
    requires Plain(products) && Beer(1) in products && Beer(9) in products
    ensures Plain(b) && b.Keys == products.Keys && Trail(products, Late()) == b
    ensures Moves(Shelved(products), Beer(9), true, ta, Shelved(a)) && Moves(Shelved(a), Beer(1), false, tb, Shelved(b))
  {
    a, ta := Front(products, 9, true, [Move(1, false)] + []);
    b, tb := Front(a, 1, false, []);
  }

  /** The first change is refused on a full shelf; sent again, it is not. */
  lemma TwoDiverge(s: Sheet)
    requires Plain(s.products) && Beer(1) in Shelved(s.products) && |Shelved(s.products)| == MAX_ACTIVE_PRODUCTS
    requires Beer(9) in s.products && Beer(9) !in Shelved(s.products)
    ensures Beer(9) !in Shelved(Pass(s, Late(), Any).products)
    ensures Beer(9) in Shelved(Pass(Pass(s, Late()[..2], Any), Late(), Any).products)
  {
    var once := Pass(s, Late(), Any);
    assert Late()[..2] == Late();
    Distinct(1, 9);
    PassTrail(s, Late());
    PassTrail(once, Late());
    var a, b, ta, tb := LateTurns(s.products);
    var c, d, tc, td := LateTurns(once.products);
  }

  // ---- The room is exact ------------------------------------------------------

  function Crate(n: nat): Products {
    if n == 0 then map[] else Crate(n - 1)[Beer(n) := Shelf(Label(n), 100, false, true)]
  }

  lemma {:induction false} CrateHolds(n: nat)
    ensures forall key :: key in Crate(n) ==> exists i: nat :: 1 <= i <= n && key == Beer(i)
    ensures Plain(Crate(n)) && |Shelved(Crate(n))| == n && Shelved(Crate(n)) == Crate(n).Keys
    ensures n > 0 ==> Beer(1) in Crate(n)
  {
    if n > 0 {
      CrateHolds(n - 1);
      forall i: nat | i < n
        ensures Beer(i) != Beer(n)
      {
        Distinct(i, n);
      }
      assert Beer(n) !in Crate(n - 1);
      assert Shelved(Crate(n)) == Shelved(Crate(n - 1)) + {Beer(n)};
    }
  }

  function Bench(): Products {
    Crate(7)[Beer(8) := Shelf(Label(8), 100, false, false)][Beer(9) := Shelf(Label(9), 100, false, false)]
  }

  lemma BenchStock()
    ensures Stock(Bench()) && Beer(9) !in Shelved(Bench())
  {
    CrateHolds(7);
    forall i: nat | i < 8
      ensures Beer(i) != Beer(8) && Beer(i) != Beer(9)
    {
      Distinct(i, 8);
      Distinct(i, 9);
    }
    Distinct(8, 9);
    assert Shelved(Bench()) == Shelved(Crate(7));
  }

  lemma SwapsRaise()
    ensures Raised(Swaps(), Any) <= {Beer(1), Beer(8), Beer(9)}
  {
    var q := Swaps();
    forall key | key in Raised(q, Any)
      ensures key in {Beer(1), Beer(8), Beer(9)}
    {
      var i :| 0 <= i < |q| && (q[i].kind == Create || q[i].kind == Restore) && Any(q[i]) && KeyOf(q[i]) == key;
    }
  }

  lemma NinePlaces<T>(shelf: set<T>, x: T, y: T, z: T, raised: set<T>)
    requires |shelf| == 7 && x in shelf && raised <= {x, y, z}
    ensures |shelf + raised| <= 9
  {
    Subset(shelf + raised, shelf + {y} + {z});
  }

  ghost predicate ReplaysWithin(m: nat) {
    forall s: Sheet, q: seq<Entry>, k: nat :: k <= |q| && |Shelved(s.products) + Raised(q, Any)| <= m ==>
      Pass(Pass(s, q[..k], Any), q, Any).products == Pass(s, q, Any).products
  }

  /** All queues replay on all sheets whose shelf and whose queue need at most m places
      together, if and only if m is at most the eight that there are. */
  lemma RoomIsExact(m: nat)
    ensures ReplaysWithin(m) <==> m <= MAX_ACTIVE_PRODUCTS
  {
    if m <= MAX_ACTIVE_PRODUCTS {
      forall s: Sheet, q: seq<Entry>, k: nat | k <= |q| && |Shelved(s.products) + Raised(q, Any)| <= m
        ensures Pass(Pass(s, q[..k], Any), q, Any).products == Pass(s, q, Any).products
      {
        ReplayedProducts(s, q, k, Any);
      }
    } else {
      var s, q := Sheet([], Bench()), Swaps();
      BenchStock();
      SwapsRaise();
      NinePlaces(Shelved(Bench()), Beer(1), Beer(8), Beer(9), Raised(q, Any));
      CapDiverges(s);
      assert Pass(Pass(s, q[..5], Any), q, Any).products != Pass(s, q, Any).products;
    }
  }
}
