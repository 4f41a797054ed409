/**
 * The product detail page (public/js/product-page.js): the stock label and
 * the contact buttons it renders, the quantity stepper, and the WhatsApp and
 * Telegram order links it keeps up to date with the quantity.
 * `toLocaleString('id-ID')` and `encodeURIComponent` are function values the
 * model does not look into.
 */
module ProductPage {
  import opened Wrappers
  import opened Text
  import opened Records
  import AdminSettings

  /**
   * The text under "Stok Tersedia": "<stok> unit" while there is stock,
   * "Habis" otherwise. Positive stock shows as its decimal digits, without a
   * leading zero, which read back as the stock.
   */
  function StockLabel(stok: int): (shown: string)
    ensures shown == "Habis" <==> stok <= 0
    ensures stok > 0 ==> (
      && |shown| > 5 && shown[|shown| - 5..] == " unit"
      && (forall i :: 0 <= i < |shown| - 5 ==> IsDigit(shown[i]))
      && shown[0] != '0'
      && DecimalValue(shown[..|shown| - 5]) == stok)
  {
    if stok > 0 then
      var digits := NatToDecimal(stok);
      DecimalRoundTrip(stok);
      assert (digits + " unit")[..|digits|] == digits;
      digits + " unit"
    else "Habis"
  }

  datatype Channel = WhatsApp | Telegram

  /** The setting a channel's button and link depend on. */
  function SettingFor(channel: Channel, settings: Settings): string {
    match channel
    case WhatsApp => settings.whatsappNumber
    case Telegram => settings.telegramUsername
  }

  /** The contact buttons `renderProductDetails` puts on the page, WhatsApp first: one per channel whose setting is non-empty. */
  function ContactButtons(settings: Settings): (buttons: seq<Channel>)
    ensures forall c :: c in buttons <==> SettingFor(c, settings) != []
    ensures |buttons| <= 2 && (|buttons| == 2 ==> buttons == [WhatsApp, Telegram])
  {
    (if settings.whatsappNumber != [] then [WhatsApp] else [])
    + (if settings.telegramUsername != [] then [Telegram] else [])
  }

  /** `totalHarga`: the price times the quantity. */
  function OrderTotal(harga: int, quantity: int): int {
    harga * quantity
  }

  /** The first line of the order message and the product name in bold. */
  function OrderHeading(product: Product): (h: string)
    ensures h != [] && IsTrimmed(h)
  {
    var h := "Hai kak, saya mau order:\n*" + product.nama + "*";
    assert h[0] == 'H' && h[|h| - 1] == '*';
    h
  }

  /** The quantity, the total and the closing lines, up to the page URL. */
  function OrderDetails(product: Product, quantity: nat, formatRupiah: int -> string): string {
    "\n\n====================\n"
    + "\U{1F6D2} Quantity: " + NatToDecimal(quantity) + " pcs\n"
    + "\U{1F4B0} Total Biaya: Rp " + formatRupiah(OrderTotal(product.harga, quantity)) + "\n====================\n\n"
    + "Mohon info untuk langkah selanjutnya. Terima kasih.\n\nLink Produk:\n"
  }

  /** The template of `updateContactLinks` between its opening newline and its closing indentation. */
  function OrderText(product: Product, quantity: nat, pageUrl: string, formatRupiah: int -> string): string {
    OrderHeading(product) + (OrderDetails(product, quantity, formatRupiah) + pageUrl)
  }

  /** The indentation before the template's closing backquote. */
  const ClosingIndent := "\n        "

  /**
   * `trim` on the template: an opening newline, the heading, the details, the
   * page URL and the closing indentation. The heading always survives; the
   * rest survives whole when the URL does not end in white space.
   */
  function TrimmedTemplate(heading: string, details: string, pageUrl: string): (m: string)
    requires heading != [] && IsTrimmed(heading)
    ensures IsTrimmed(m) && StartsWith(m, heading)
    ensures pageUrl != [] && !IsWhiteSpace(pageUrl[|pageUrl| - 1]) ==> m == heading + (details + pageUrl)
  {
    var rest := details + pageUrl;
    assert AllWhiteSpace("\n") && AllWhiteSpace(ClosingIndent);
    TrimKeepsHead("\n", heading, rest, ClosingIndent);
    var message := Trim("\n" + (heading + rest) + ClosingIndent);
    if pageUrl != [] && !IsWhiteSpace(pageUrl[|pageUrl| - 1]) then
      assert (heading + rest)[|heading + rest| - 1] == pageUrl[|pageUrl| - 1];
      TrimBetween("\n", heading + rest, ClosingIndent);
      message
    else message
  }

  /**
   * The order message before encoding: the template, trimmed. It always opens
   * with the greeting and the product name; the trim takes off exactly the
   * template's opening newline and closing indentation when the page URL does
   * not end in white space.
   */
  function OrderMessage(product: Product, quantity: nat, pageUrl: string, formatRupiah: int -> string): (m: string)
    ensures IsTrimmed(m)
    ensures StartsWith(m, OrderHeading(product))
    ensures pageUrl != [] && !IsWhiteSpace(pageUrl[|pageUrl| - 1]) ==> m == OrderText(product, quantity, pageUrl, formatRupiah)
  {
    TrimmedTemplate(OrderHeading(product), OrderDetails(product, quantity, formatRupiah), pageUrl)
  }

  const WhatsAppBase := "https://api.whatsapp.com/send?phone="
  const TelegramBase := "https://t.me/"

  /** The href `updateContactLinks` gives a channel's button: set only when the channel's setting is non-empty. */
  function ContactLink(channel: Channel, settings: Settings, encodedMessage: string): (link: Option<string>)
    ensures link.Some? <==> SettingFor(channel, settings) != []
    ensures link.Some? && channel == WhatsApp ==>
      link.value == WhatsAppBase + settings.whatsappNumber + "&text=" + encodedMessage
    ensures link.Some? && channel == Telegram ==>
      link.value == TelegramBase + settings.telegramUsername + "?text=" + encodedMessage
  {
    var target := SettingFor(channel, settings);
    if target == [] then None
    else match channel
      case WhatsApp => Some(WhatsAppBase + target + "&text=" + encodedMessage)
      case Telegram => Some(TelegramBase + target + "?text=" + encodedMessage)
  }

  /** Every rendered button gets a link, and no link is built for a button that is not there. */
  lemma LinksMatchButtons(settings: Settings, encodedMessage: string, channel: Channel)
    ensures ContactLink(channel, settings, encodedMessage).Some? <==> channel in ContactButtons(settings)
  {
  }

  /**
   * Settings saved from the admin form with a non-blank number give a WhatsApp
   * link whose phone starts with the country code.
   */
  lemma SavedNumberLinkHasCountryCode(whatsappInput: string, telegramInput: string, encodedMessage: string)
    requires !AllWhiteSpace(whatsappInput)
    ensures var link := ContactLink(WhatsApp, AdminSettings.SubmittedSettings(whatsappInput, telegramInput), encodedMessage);
      link.Some? && StartsWith(link.value, WhatsAppBase + AdminSettings.CountryCode)
  {
    var number := AdminSettings.NormaliseWhatsApp(whatsappInput);
    TrimEmptyIffBlank(whatsappInput);
    AdminSettings.SavedNumberHasCountryCode(whatsappInput);
    var link := WhatsAppBase + number + "&text=" + encodedMessage;
    assert link[..|WhatsAppBase| + 2] == WhatsAppBase + number[..2];
  }

  datatype Click = Minus | Plus

  /** One click on the stepper: minus only above 1, plus only below the stock. */
  function Step(quantity: int, stok: int, click: Click): (r: int)
    ensures click == Minus ==> r <= quantity && (r < quantity <==> quantity > 1)
    ensures click == Plus ==> r >= quantity && (r > quantity <==> quantity < stok)
    ensures r - quantity in {-1, 0, 1}
  {
    match click
    case Minus => if quantity > 1 then quantity - 1 else quantity
    case Plus => if quantity < stok then quantity + 1 else quantity
  }

  /** A click that changes the quantity moves the order total by exactly one unit price; one that does not, leaves it. */
  lemma ClickMovesTotal(harga: int, quantity: int, stok: int)
    ensures OrderTotal(harga, Step(quantity, stok, Minus))
      == if quantity > 1 then OrderTotal(harga, quantity) - harga else OrderTotal(harga, quantity)
    ensures OrderTotal(harga, Step(quantity, stok, Plus))
      == if quantity < stok then OrderTotal(harga, quantity) + harga else OrderTotal(harga, quantity)
  {
    assert harga * (quantity - 1) == harga * quantity - harga;
    assert harga * (quantity + 1) == harga * quantity + harga;
  }

  /** The quantity after a run of clicks. */
  function QuantityAfter(quantity: int, stok: int, clicks: seq<Click>): int
    decreases |clicks|
  {
    if clicks == [] then quantity else QuantityAfter(Step(quantity, stok, clicks[0]), stok, clicks[1..])
  }

  /** The range the stepper keeps the quantity in: at least 1, and at most the stock when there is any. */
  predicate InRange(quantity: int, stok: int) {
    1 <= quantity && (quantity <= stok || quantity == 1)
  }

  /** No run of clicks takes the quantity out of range. */
  lemma {:induction false} ClicksStayInRange(quantity: int, stok: int, clicks: seq<Click>)
    requires InRange(quantity, stok)
    ensures InRange(QuantityAfter(quantity, stok, clicks), stok)
    decreases |clicks|
  {
    if clicks != [] {
      ClicksStayInRange(Step(quantity, stok, clicks[0]), stok, clicks[1..]);
    }
  }

  /** With at most one unit in stock the quantity never leaves 1. */
  lemma {:induction false} LowStockPinsQuantity(stok: int, clicks: seq<Click>)
    requires stok <= 1
    ensures QuantityAfter(1, stok, clicks) == 1
    decreases |clicks|
  {
    if clicks != [] {
      LowStockPinsQuantity(stok, clicks[1..]);
    }
  }

  /**
   * The rendered page after `setupQuantityButtons`: the quantity input and
   * the hrefs of the two contact buttons (None for a button that is not there).
   */
  class Page {
    const product: Product
    const settings: Settings
    /** `window.location.href`. */
    const pageUrl: string
    /** `toLocaleString('id-ID')` on the total. */
    const formatRupiah: int -> string
    /** `encodeURIComponent`. */
    const encode: string -> string
    /** The order message `updateContactLinks` builds for a quantity, over this page's product, URL and price format. */
    const orderMessage: nat -> string

    var quantity: int
    var whatsappHref: Option<string>
    var telegramHref: Option<string>

    /** The href of a channel's button for the current quantity, as `updateContactLinks` sets it. */
    function LinkFor(channel: Channel): (link: Option<string>)
      reads this`quantity
      requires quantity >= 1
      ensures link.Some? <==> channel in ContactButtons(settings)
      ensures link.Some? && channel == WhatsApp ==>
        link.value == WhatsAppBase + settings.whatsappNumber + "&text=" + encode(orderMessage(quantity))
      ensures link.Some? && channel == Telegram ==>
        link.value == TelegramBase + settings.telegramUsername + "?text=" + encode(orderMessage(quantity))
    {
      ContactLink(channel, settings, encode(orderMessage(quantity)))
    }

    /** The quantity is in range and both hrefs match it. */
    ghost predicate Valid()
      reads this
    {
      && InRange(quantity, product.stok)
      && whatsappHref == LinkFor(WhatsApp)
      && telegramHref == LinkFor(Telegram)
    }

    /** `renderProductDetails` then `setupQuantityButtons`: quantity 1 and the initial links. */
    constructor (product: Product, settings: Settings, pageUrl: string, formatRupiah: int -> string, encode: string -> string)
      ensures Valid()
      ensures this.product == product && this.settings == settings && this.pageUrl == pageUrl
      ensures this.formatRupiah == formatRupiah && this.encode == encode
      ensures forall q: nat :: orderMessage(q) == OrderMessage(product, q, pageUrl, formatRupiah)
      ensures quantity == 1
    {
      this.product, this.settings, this.pageUrl := product, settings, pageUrl;
      this.formatRupiah, this.encode := formatRupiah, encode;
      this.orderMessage := (q: nat) => OrderMessage(product, q, pageUrl, formatRupiah);
      quantity := 1;
      new;
      whatsappHref := LinkFor(WhatsApp);
      telegramHref := LinkFor(Telegram);
    }

    /** The minus button: one less while above 1, with the links rebuilt; otherwise nothing changes. */
    method ClickMinus()
      requires Valid()
      modifies this`quantity, this`whatsappHref, this`telegramHref
      ensures Valid()
      ensures quantity == Step(old(quantity), product.stok, Minus)
      ensures old(quantity) > 1 ==> quantity == old(quantity) - 1
      ensures old(quantity) <= 1 ==> quantity == old(quantity) && whatsappHref == old(whatsappHref) && telegramHref == old(telegramHref)
    {
      var current := quantity;
      if current > 1 {
        quantity := current - 1;
        whatsappHref, telegramHref := LinkFor(WhatsApp), LinkFor(Telegram);
      }
    }

    /** The plus button: one more while below the stock, with the links rebuilt; otherwise nothing changes. */
    method ClickPlus()
      requires Valid()
      modifies this`quantity, this`whatsappHref, this`telegramHref
      ensures Valid()
      ensures quantity == Step(old(quantity), product.stok, Plus)
      ensures old(quantity) < product.stok ==> quantity == old(quantity) + 1
      ensures old(quantity) >= product.stok ==> quantity == old(quantity) && whatsappHref == old(whatsappHref) && telegramHref == old(telegramHref)
    {
      var current := quantity;
      if current < product.stok {
        quantity := current + 1;
        whatsappHref, telegramHref := LinkFor(WhatsApp), LinkFor(Telegram);
      }
    }
  }
}
