/** The storefront's records (shared/schema.ts), one datatype per entity.
    Ids and timestamps are opaque strings; prices and multipliers are reals
    (the source's floating-point rounding is not modelled). */
module Schema {
  import opened Wrappers

  /** The three roles; pricing tables and promotions only use the last two. */
  datatype UserType = Admin | Loja | Restaurante

  datatype Priority = Low | Medium | High

  datatype User = User(
    id: string, email: string, password: string, name: string,
    userType: UserType, createdAt: string)

  /** A user without the fields the store generates (`InsertUser`). */
  datatype NewUser = NewUser(email: string, password: string, name: string, userType: UserType)

  datatype Category = Category(
    id: string, name: string, icon: string, productCount: int, createdAt: string)

  datatype Color = Color(id: string, name: string, hexValue: string, createdAt: string)

  datatype PricingTable = PricingTable(
    id: string, name: string, description: string, multiplier: real,
    userType: UserType, isActive: bool, createdAt: string)

  datatype Product = Product(
    id: string, name: string, description: string, basePrice: real,
    categoryId: string, images: seq<string>, colors: seq<string>,
    isActive: bool, createdAt: string, updatedAt: string)

  datatype Promotion = Promotion(
    id: string, title: string, description: string, discountPercentage: Option<real>,
    categoryIds: seq<string>, userTypes: seq<UserType>, startDate: string, endDate: string,
    isActive: bool, createdAt: string)

  datatype Announcement = Announcement(
    id: string, title: string, content: string, userTypes: seq<UserType>,
    priority: Priority, isActive: bool, createdAt: string)

  /** One line of the shopping cart. */
  datatype CartItem = CartItem(
    id: string, productId: string, productName: string, productImage: string,
    colorId: string, colorName: string, quantity: int, unitPrice: real, totalPrice: real)
}
