/** The entities the storefront exchanges with its back-end services
    (src/types/index.ts). Money is counted in integer cents, so a price of
    12.50 EUR is 1250. */
module Types {
  import opened Wrappers

  /** `User.role`: 'customer' | 'admin'. */
  datatype Role = CustomerRole | AdminRole

  /** The identity kept by the authentication store. */
  datatype User = User(id: int, email: string, role: Role)

  /** A customer record as the customer service returns it. */
  datatype Customer = Customer(
    id: int,
    firstName: string,
    lastName: string,
    email: string,
    phone: Option<string>,
    role: Role,
    address: string,
    city: string,
    postalCode: string,
    country: string,
    createdAt: string,
    updatedAt: string)

  /** A catalog product: a read-only mirror of the product service. */
  datatype Product = Product(
    id: int,
    name: string,   // `label` in the source, a reserved word here
    description: Option<string>,
    price: int,
    stock: int,
    createdAt: string,
    updatedAt: string)

  /** One cart line: the product as it was when it was added, and a quantity. */
  datatype CartItem = CartItem(product: Product, quantity: int)

  /** The places the pages send the browser to. */
  datatype Route = HomeRoute | LoginRoute | OrderRoute(orderId: int)
}
