/** The product catalog: the fixed table the cart handlers look products up in.
    The table is seeded once with five products and never changes at runtime, so it
    is modelled as a constant sequence of rows in insertion order, whose `id` column
    is the primary key. */
module Catalog {

  datatype Option<T> = None | Some(value: T)

  /** One row of the `products` table. Prices are exact whole currency units. */
  datatype Product = Product(id: int, name: string, price: int)

  /** The seed rows, in the order they are inserted. */
  const SEED: seq<Product> := [
    Product(1, "Top", 1000),
    Product(2, "Jeans", 2000),
    Product(3, "Jewelery", 500),
    Product(4, "Shoes", 3000),
    Product(5, "Bags", 5000)
  ]

  /** The row of `table` whose id is `id`, if there is one (`WHERE id = ?`). */
  function Find(table: seq<Product>, id: int): (r: Option<Product>)
    ensures r.Some? ==> r.value in table && r.value.id == id
    ensures r.None? <==> forall p :: p in table ==> p.id != id
  {
    if table == [] then None
    else if table[0].id == id then Some(table[0])
    else Find(table[1..], id)
  }

  /** Looking a product up in the seeded catalog: exactly the ids 1 to 5 exist. */
  function FindById(id: int): (r: Option<Product>)
    ensures r.Some? <==> 1 <= id <= 5
    ensures r.Some? ==> r.value.id == id
  {
    Find(SEED, id)
  }

  /** The `id` column is a primary key: no two seed rows share an id. */
  predicate UniqueKeys(table: seq<Product>)
  {
    forall i, j :: 0 <= i < j < |table| ==> table[i].id != table[j].id
  }

  /** Each seed row is what its own id resolves to. */
  lemma FindSeedRow(k: int)
    requires 0 <= k < |SEED|
    ensures FindById(SEED[k].id) == Some(SEED[k])
  {
    assert UniqueKeys(SEED);
    var r := FindById(SEED[k].id);
    var j :| 0 <= j < |SEED| && SEED[j] == r.value;
  }
}
