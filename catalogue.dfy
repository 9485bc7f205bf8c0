/** The product catalogue: an ordered list of (name, cost) records without duplicates. */
module Catalogue {

  /** VendingMachine.Product: an immutable pair; equality is structural (name and cost). */
  datatype Product = Product(name: string, cost: real)

  /** No product occurs twice. */
  predicate Distinct(catalogue: seq<Product>)
  {
    forall i, j :: 0 <= i < j < |catalogue| ==> catalogue[i] != catalogue[j]
  }

  /** The new catalogue and AddProduct's answer. */
  datatype Insertion = Insertion(catalogue: seq<Product>, added: bool)

  /** AddProduct: append the product unless an equal one is already present. */
  function Insert(catalogue: seq<Product>, p: Product): (r: Insertion)
    ensures r.added <==> p !in catalogue
    ensures r.added ==> r.catalogue == catalogue + [p]
    ensures !r.added ==> r.catalogue == catalogue
    ensures p in r.catalogue
    ensures Distinct(catalogue) ==> Distinct(r.catalogue)
  {
    if p !in catalogue then Insertion(catalogue + [p], true) else Insertion(catalogue, false)
  }

  /** Inserting the same product a second time is refused and changes nothing. */
  lemma InsertTwiceRefused(catalogue: seq<Product>, p: Product)
    ensures var once := Insert(catalogue, p);
            Insert(once.catalogue, p) == Insertion(once.catalogue, false)
  {
  }

  /** AddProduct called once for each product of ps, in order: the earlier catalogue stays a
      prefix, each call adds at most one entry, and every product of ps is present at the end. */
  function InsertAll(catalogue: seq<Product>, ps: seq<Product>): (r: seq<Product>)
    ensures catalogue <= r
    ensures |r| <= |catalogue| + |ps|
    ensures forall p :: p in ps ==> p in r
    decreases |ps|
  {
    if ps == [] then catalogue else InsertAll(Insert(catalogue, ps[0]).catalogue, ps[1..])
  }

  /** Repeated insertion keeps the catalogue free of duplicates, keeps what was there as a
      prefix, makes every inserted product present, and adds at most one entry per call. */
  lemma {:induction false} InsertAllDistinct(catalogue: seq<Product>, ps: seq<Product>)
    requires Distinct(catalogue)
    ensures var c := InsertAll(catalogue, ps);
            Distinct(c) && catalogue <= c && |c| <= |catalogue| + |ps| &&
            forall p :: p in ps ==> p in c
    decreases |ps|
  {
    if ps != [] {
      var next := Insert(catalogue, ps[0]).catalogue;
      InsertAllDistinct(next, ps[1..]);
      var c := InsertAll(next, ps[1..]);
      forall p | p in ps ensures p in c {
        if p != ps[0] {
          assert p in ps[1..];
        }
      }
    }
  }

  /** The five products Main adds at start-up (VendingMachine.cs, Main), all with a positive
      price. */
  function SeedProducts(): (r: seq<Product>)
    ensures |r| == 5
    ensures forall p :: p in r ==> p.cost > 0.0
  {
    [ Product("Chocolate Bar", 0.80),
      Product("Soda Can", 0.70),
      Product("Soda Bottle", 1.25),
      Product("Crisps", 0.50),
      Product("Cookies", 1.10) ]
  }

  /** The catalogue after Main's five AddProduct calls: what was there stays in front, at most
      five entries are added, and every seed product is on offer. */
  function Seed(catalogue: seq<Product>): (r: seq<Product>)
    ensures catalogue <= r && |r| <= |catalogue| + 5
    ensures forall p :: p in SeedProducts() ==> p in r
  {
    InsertAll(catalogue, SeedProducts())
  }

  /** Inserting products that are all new, and new to each other, simply appends them. */
  lemma {:induction false} InsertAllFresh(catalogue: seq<Product>, ps: seq<Product>)
    requires Distinct(catalogue + ps)
    ensures InsertAll(catalogue, ps) == catalogue + ps
    decreases |ps|
  {
    if ps == [] {
      assert catalogue + ps == catalogue;
    } else {
      var all := catalogue + ps;
      assert ps[0] !in catalogue by {
        forall i | 0 <= i < |catalogue| ensures catalogue[i] != ps[0] {
          assert all[i] == catalogue[i] && all[|catalogue|] == ps[0];
        }
      }
      assert (catalogue + [ps[0]]) + ps[1..] == all;
      InsertAllFresh(catalogue + [ps[0]], ps[1..]);
    }
  }

  /** Started from an empty catalogue, seeding gives the five products, numbered 1..5 in the
      order Main adds them. */
  lemma SeedFromEmpty()
    ensures Seed([]) == SeedProducts()
    ensures Distinct(Seed([]))
  {
    var p := SeedProducts();
    // the five names have pairwise different lengths, so no two products are equal
    assert |p[0].name| == 13 && |p[1].name| == 8 && |p[2].name| == 11;
    assert |p[3].name| == 6 && |p[4].name| == 7;
    assert Distinct(p) by {
      forall i, j | 0 <= i < j < |p| ensures p[i] != p[j] {
        assert |p[i].name| != |p[j].name|;
      }
    }
    assert [] + p == p;
    InsertAllFresh([], p);
  }
}
