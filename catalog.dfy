/**
 * The product catalog: the `products` table, which holds the only prices the
 * backend trusts. Prices are whole euro cents.
 */
module Catalog {
  datatype Product = Product(name: string, price: nat)

  /** The product sold for collection at the shop. */
  const PickupPackId := 1
  /** The product sold for Friday home delivery. */
  const DeliveryBundleId := 2

  /** The two rows installed at every start-up: 5.00 and 14.00 euros. */
  const SeedRows: map<int, Product> := map[
    PickupPackId := Product("Pacote (10 pães) — retirada na loja — saco a vácuo", 500),
    DeliveryBundleId := Product("Entrega — 20 pães (2×10) — saco a vácuo (sexta-feira)", 1400)
  ]

  /**
   * `SELECT id,name,price FROM products WHERE id IN ids`, read into a
   * dictionary: an id asked for but not in the table is simply absent.
   */
  function Lookup(rows: map<int, Product>, ids: set<int>): (found: map<int, Product>)
    ensures forall id :: id in found <==> id in ids && id in rows
    ensures forall id :: id in found ==> found[id] == rows[id]
  {
    map id | id in ids && id in rows :: rows[id]
  }

  /** The `products` table, which start-up rewrites in place. */
  class ProductTable {
    var rows: map<int, Product>

    /** The table as an earlier run of the backend may have left it. */
    constructor (existing: map<int, Product>)
      ensures rows == existing
    {
      rows := existing;
    }

    /**
     * The start-up re-seed: delete every row, then insert the two known
     * products. Whatever the table held before is gone.
     */
    method Reseed()
      modifies this
      ensures rows == SeedRows
      ensures rows.Keys == {PickupPackId, DeliveryBundleId}
      ensures rows[PickupPackId].price == 500 && rows[DeliveryBundleId].price == 1400
    {
      rows := map[];
      rows := rows[PickupPackId := SeedRows[PickupPackId]];
      rows := rows[DeliveryBundleId := SeedRows[DeliveryBundleId]];
    }
  }
}
