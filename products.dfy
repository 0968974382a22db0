/** A product record as the catalog service delivers it. */
module Products {

  /** Prices are whole cents; the service's decimal prices are not modelled. */
  datatype Product = Product(
    id: int,
    title: string,
    price: int,
    category: string,
    image: string,
    description: string)
}
