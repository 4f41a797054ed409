/**
 * The Express server of server.js over an in-memory store: the admin
 * collection, the product collection keyed by id, and the optional settings
 * singleton. Each handler is a method; protected writes pass the request's
 * `Authorization` header through the access gate first. The ids Mongo
 * assigns, bcrypt's salt and the clock are parameters of the handlers.
 */
module Catalogue {
  import opened Wrappers
  import opened Records
  import opened Bcrypt
  import opened Jwt
  import opened AccessGate
  import Auth

  /** The body of POST /api/products as the new document takes it. */
  datatype ProductInput = ProductInput(
    nama: string, gambar: string, harga: int, hargaCoret: Option<int>, stok: int, deskripsi: string)

  /** `new Product(req.body)` saved under the id Mongo assigns, stamped with the creation time. */
  function NewProduct(id: ObjectId, input: ProductInput, now: int): (p: Product)
    ensures p.id == id && p.createdAt == now
    ensures p.nama == input.nama && p.gambar == input.gambar && p.deskripsi == input.deskripsi
    ensures p.harga == input.harga && p.hargaCoret == input.hargaCoret && p.stok == input.stok
  {
    Product(id, input.nama, input.gambar, input.harga, input.hargaCoret, input.stok, input.deskripsi, now)
  }

  /** The update `findByIdAndUpdate(id, req.body)` applies: every field the body names is set, the rest kept. */
  function ApplyFields(p: Product, f: ProductFields): (r: Product)
    ensures r.id == p.id && r.createdAt == p.createdAt
    ensures r.nama == (if f.nama.Some? then f.nama.value else p.nama)
    ensures r.gambar == (if f.gambar.Some? then f.gambar.value else p.gambar)
    ensures r.harga == (if f.harga.Some? then f.harga.value else p.harga)
    ensures r.hargaCoret == (if f.hargaCoret.Some? then f.hargaCoret else p.hargaCoret)
    ensures r.stok == (if f.stok.Some? then f.stok.value else p.stok)
    ensures r.deskripsi == (if f.deskripsi.Some? then f.deskripsi.value else p.deskripsi)
    ensures f == ProductFields(None, None, None, None, None, None) ==> r == p
  {
    Product(p.id, f.nama.GetOr(p.nama), f.gambar.GetOr(p.gambar), f.harga.GetOr(p.harga),
            if f.hargaCoret.Some? then f.hargaCoret else p.hargaCoret,
            f.stok.GetOr(p.stok), f.deskripsi.GetOr(p.deskripsi), p.createdAt)
  }

  /** Applying the same body twice is applying it once. */
  lemma ApplyFieldsIdempotent(p: Product, f: ProductFields)
    ensures ApplyFields(ApplyFields(p, f), f) == ApplyFields(p, f)
  {
  }

  const ProductNotFound := Response(404, Message("Produk tidak ditemukan"))

  class Server {
    /** The admin collection, in store order. */
    var admins: seq<Auth.Admin>
    /** The product collection, by `_id`. */
    var products: map<ObjectId, Product>
    /** The settings singleton, absent until the first save. */
    var settings: Option<Settings>

    /** `process.env.JWT_SECRET` and the library primitives the handlers call. */
    const secret: string
    const kdf: Kdf
    const sign: Signer
    const verify: Verifier

    /** At most one admin, and every product is stored under its own id. */
    ghost predicate Valid()
      reads this
    {
      && |admins| <= 1
      && forall id :: id in products ==> products[id].id == id
    }

    /** A server over an empty database. */
    constructor (secret: string, kdf: Kdf, sign: Signer, verify: Verifier)
      ensures Valid()
      ensures admins == [] && products == map[] && settings == None
      ensures this.secret == secret && this.kdf == kdf && this.sign == sign && this.verify == verify
    {
      this.secret, this.kdf, this.sign, this.verify := secret, kdf, sign, verify;
      admins, products, settings := [], map[], None;
    }

    /** POST /api/auth/register: refused with 400 once an admin exists, so there is never more than one. */
    method Register(id: ObjectId, username: string, password: string, salt: Salt) returns (resp: Response)
      requires Valid()
      modifies this`admins
      ensures Valid()
      ensures (admins, resp) == Auth.Register(old(admins), kdf, id, username, password, salt)
      ensures old(admins) != [] ==> admins == old(admins) && resp == Auth.RegistrationClosed
      ensures old(admins) == [] ==> |admins| == 1 && admins[0].username == username && Compare(kdf, password, admins[0].password)
    {
      var r := Auth.Register(admins, kdf, id, username, password, salt);
      admins := r.0;
      resp := r.1;
    }

    /** POST /api/auth/login at time `now`; changes nothing. */
    method Login(username: string, password: string, now: int) returns (resp: Response)
      requires Valid()
      ensures resp == Auth.Login(admins, kdf, sign, secret, username, password, now)
      ensures resp.status != 200 ==> resp == Auth.InvalidCredentials
      ensures resp.status == 200 <==> exists a :: a in admins && a.username == username && Compare(kdf, password, a.password)
    {
      resp := Auth.Login(admins, kdf, sign, secret, username, password, now);
    }

    /** POST /api/products (protected): the new product under the id Mongo assigns; a clashing id is a 500. */
    method CreateProduct(header: Option<string>, now: int, id: ObjectId, input: ProductInput) returns (resp: Response)
      requires Valid()
      modifies this`products
      ensures Valid()
      ensures var d := Gate(verify, secret, header, now);
        && (!d.Allow? ==> resp == Rejection(d) && products == old(products))
        && (d.Allow? && id in old(products) ==> resp.status == 500 && products == old(products))
        && (d.Allow? && id !in old(products) ==>
              products == old(products)[id := NewProduct(id, input, now)]
              && resp == Response(201, ProductMessage("Produk berhasil ditambahkan", NewProduct(id, input, now))))
    {
      var d := Gate(verify, secret, header, now);
      if !d.Allow? {
        resp := Rejection(d);
        return;
      }
      if id in products {
        resp := Response(500, Message("Gagal menambahkan produk"));
        return;
      }
      var p := NewProduct(id, input, now);
      products := products[id := p];
      resp := Response(201, ProductMessage("Produk berhasil ditambahkan", p));
    }

    /** PUT /api/products/:id (protected): 404 and no change for a missing id; otherwise that product alone is updated. */
    method UpdateProduct(header: Option<string>, now: int, id: ObjectId, fields: ProductFields) returns (resp: Response)
      requires Valid()
      modifies this`products
      ensures Valid()
      ensures var d := Gate(verify, secret, header, now);
        && (!d.Allow? ==> resp == Rejection(d) && products == old(products))
        && (d.Allow? && id !in old(products) ==> resp == ProductNotFound && products == old(products))
        && (d.Allow? && id in old(products) ==>
              products == old(products)[id := ApplyFields(old(products)[id], fields)]
              && resp == Response(200, ProductMessage("Produk berhasil diperbarui", products[id])))
    {
      var d := Gate(verify, secret, header, now);
      if !d.Allow? {
        resp := Rejection(d);
        return;
      }
      if id !in products {
        resp := ProductNotFound;
        return;
      }
      var updated := ApplyFields(products[id], fields);
      products := products[id := updated];
      resp := Response(200, ProductMessage("Produk berhasil diperbarui", updated));
    }

    /** DELETE /api/products/:id (protected): 404 and no change for a missing id; otherwise exactly that product goes. */
    method DeleteProduct(header: Option<string>, now: int, id: ObjectId) returns (resp: Response)
      requires Valid()
      modifies this`products
      ensures Valid()
      ensures var d := Gate(verify, secret, header, now);
        && (!d.Allow? ==> resp == Rejection(d) && products == old(products))
        && (d.Allow? && id !in old(products) ==> resp == ProductNotFound && products == old(products))
        && (d.Allow? && id in old(products) ==>
              products == old(products) - {id} && resp == Response(200, Message("Produk berhasil dihapus")))
    {
      var d := Gate(verify, secret, header, now);
      if !d.Allow? {
        resp := Rejection(d);
        return;
      }
      if id !in products {
        resp := ProductNotFound;
        return;
      }
      products := products - {id};
      resp := Response(200, Message("Produk berhasil dihapus"));
    }

    /** POST /api/settings (protected): upserts the singleton with both fields of the body. */
    method SaveSettings(header: Option<string>, now: int, whatsappNumber: string, telegramUsername: string)
      returns (resp: Response)
      requires Valid()
      modifies this`settings
      ensures Valid()
      ensures var d := Gate(verify, secret, header, now);
        && (!d.Allow? ==> resp == Rejection(d) && settings == old(settings))
        && (d.Allow? ==>
              settings == Some(Settings(whatsappNumber, telegramUsername))
              && resp == Response(200, SettingsMessage("Pengaturan berhasil disimpan", settings.value)))
    {
      var d := Gate(verify, secret, header, now);
      if !d.Allow? {
        resp := Rejection(d);
        return;
      }
      var s := Settings(whatsappNumber, telegramUsername);
      settings := Some(s);
      resp := Response(200, SettingsMessage("Pengaturan berhasil disimpan", s));
    }

    /** GET /api/settings (public): the saved settings, or the empty default, which is not saved. */
    method GetSettings() returns (resp: Response)
      ensures resp.status == 200 && resp.body.SettingsJson?
      ensures settings.Some? ==> resp.body.settings == settings.value
      ensures settings.None? ==> resp.body.settings.whatsappNumber == "" && resp.body.settings.telegramUsername == ""
    {
      resp := Response(200, SettingsJson(settings.GetOr(DefaultSettings)));
    }

    /** GET /api/products/:id (public): the product, or 404. */
    method GetProduct(id: ObjectId) returns (resp: Response)
      requires Valid()
      ensures id in products <==> resp.status == 200
      ensures id in products ==> resp.body == ProductJson(products[id]) && resp.body.product.id == id
      ensures id !in products ==> resp == ProductNotFound
    {
      if id in products {
        resp := Response(200, ProductJson(products[id]));
      } else {
        resp := ProductNotFound;
      }
    }

    /** GET /api/products (public): every stored product. */
    method ListProducts() returns (resp: Response)
      requires Valid()
      ensures resp.status == 200 && resp.body.ProductsJson?
      ensures forall p :: p in resp.body.products <==> p.id in products && products[p.id] == p
    {
      resp := Response(200, ProductsJson(products.Values));
    }
  }
}
