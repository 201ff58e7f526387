/**
 * Prices of the case, in integer cents (src/app/config/products.ts):
 * a base price and one increment per material and per finish.
 */
module Products {

  /** The `PRODUCT_PRICE.material` record. */
  datatype MaterialPrices = MaterialPrices(silicone: int, polycarbonate: int)

  /** The `PRODUCT_PRICE.finish` record. */
  datatype FinishPrices = FinishPrices(smooth: int, textured: int)

  datatype ProductPrice = ProductPrice(material: MaterialPrices, finish: FinishPrices)

  const PRODUCT_PRICE: ProductPrice :=
    ProductPrice(MaterialPrices(silicone := 0, polycarbonate := 5_00),
                 FinishPrices(smooth := 0, textured := 3_00))

  const BASE_PRICE: int := 14_00

  /** The constants of the table: $14 base, +$5 polycarbonate, +$3 textured, the rest free. */
  lemma PriceConstants()
    ensures BASE_PRICE == 1400
    ensures PRODUCT_PRICE.material.silicone == 0 && PRODUCT_PRICE.material.polycarbonate == 500
    ensures PRODUCT_PRICE.finish.smooth == 0 && PRODUCT_PRICE.finish.textured == 300
  {
  }

  /** No increment is a discount, and the default variant of each category is free. */
  lemma IncrementsNonNegative()
    ensures PRODUCT_PRICE.material.silicone >= 0 && PRODUCT_PRICE.material.polycarbonate >= 0
    ensures PRODUCT_PRICE.finish.smooth >= 0 && PRODUCT_PRICE.finish.textured >= 0
    ensures PRODUCT_PRICE.material.silicone == 0 && PRODUCT_PRICE.finish.smooth == 0
    ensures BASE_PRICE > 0
  {
  }
}
