/** The product entity the products screen lists and searches. */
module ProductsModel {
  /** A product as the screen reads it (`ProductsModel` keeps more fields). */
  datatype Product = Product(id: int, title: string)
}
