/**
 * The documents the server keeps and the shapes of its HTTP answers.
 * Mongo's generated `_id`s are opaque strings here.
 */
module Records {
  import opened Wrappers

  type ObjectId = string

  /** The singleton contact-settings document; both fields default to "" in its schema. */
  datatype Settings = Settings(whatsappNumber: string, telegramUsername: string)

  /** `new Setting()`: what GET /api/settings answers before any save. */
  const DefaultSettings := Settings("", "")

  /** A catalogue product: name, image, price, optional struck-through price, stock, description. */
  datatype Product = Product(
    id: ObjectId,
    nama: string,
    gambar: string,
    harga: int,
    hargaCoret: Option<int>,
    stok: int,
    deskripsi: string,
    createdAt: int)

  /** The request body of a product write: the fields it names, each present or absent. */
  datatype ProductFields = ProductFields(
    nama: Option<string>,
    gambar: Option<string>,
    harga: Option<int>,
    hargaCoret: Option<int>,
    stok: Option<int>,
    deskripsi: Option<string>)

  /** What an HTTP handler sends back. */
  datatype Body =
    | StatusText(text: string)                               // res.sendStatus(code)
    | Message(message: string)                               // { message }
    | TokenBody(token: string)                               // { token }
    | ProductMessage(message: string, product: Product)      // { message, product }
    | ProductJson(product: Product)
    | ProductsJson(products: set<Product>)
    | SettingsMessage(message: string, settings: Settings)   // { message, settings }
    | SettingsJson(settings: Settings)

  datatype Response = Response(status: int, body: Body)
}
