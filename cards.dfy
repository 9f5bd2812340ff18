/**
 * The product and vendor records as the API delivers them, and the fallback
 * rules the cards apply to them. Every field may be missing; each rule is a
 * total function that still yields something to show.
 */
module Cards {
  import opened Wrappers

  /** Shown when a product has no usable first image. */
  const PlaceholderImage: string := "https://images.unsplash.com/photo-1519681393784-d120267933ba?w=800"

  /** The generated-avatar address; the encoded vendor name is appended as its seed. */
  const AvatarPrefix: string := "https://api.dicebear.com/7.x/initials/svg?seed="

  /** Shown when a vendor gives no location. */
  const Worldwide: string := "Worldwide"

  const InStockLabel: string := "In stock"
  const OutOfStockLabel: string := "Out of stock"

  datatype Product = Product(
    inStock: Option<bool>,
    images: Option<seq<string>>)

  datatype Vendor = Vendor(
    name: Option<string>,
    location: Option<string>,
    verified: Option<bool>,
    bio: Option<string>,
    logo: Option<string>,
    categories: Option<seq<string>>)

  /** What a product card decides: the picture to load and the availability label. */
  datatype ProductView = ProductView(imageSrc: string, stockLabel: string, inStock: bool)

  /** What a vendor card decides: the logo, the location line, the badge and the bio paragraph. */
  datatype VendorView = VendorView(logoSrc: string, locationText: string, verifiedBadge: bool, bio: Option<string>)

  /** JavaScript truthiness of an optional string: present and not empty. */
  predicate Truthy(s: Option<string>)
    ensures !Truthy(s) <==> s == None || s == Some("")
  {
    s.Some? && s.value != ""
  }

  /** JavaScript truthiness of an optional boolean: a missing flag is falsy, like `false`. */
  predicate IsTrue(b: Option<bool>)
    ensures !IsTrue(b) <==> b.None? || !b.value
  {
    b == Some(true)
  }

  /** `s || fallback` on an optional string. */
  function OrElse(s: Option<string>, fallback: string): (r: string)
    ensures Truthy(s) ==> r == s.value
    ensures !Truthy(s) ==> r == fallback
    ensures fallback != "" ==> r != ""
  {
    if Truthy(s) then s.value else fallback
  }

  /** `images?.[0]`: missing when the list is missing or empty. */
  function FirstImage(images: Option<seq<string>>): (r: Option<string>)
    ensures r.Some? <==> images.Some? && |images.value| > 0
    ensures r.Some? ==> r.value == images.value[0]
  {
    if images.Some? && |images.value| > 0 then Some(images.value[0]) else None
  }

  /** `p.images?.[0] || PlaceholderImage`. */
  function ImageSrc(images: Option<seq<string>>): (src: string)
    ensures src != ""
    ensures images.Some? && |images.value| > 0 && images.value[0] != "" ==> src == images.value[0]
    ensures images.None? || |images.value| == 0 || images.value[0] == "" ==> src == PlaceholderImage
  {
    OrElse(FirstImage(images), PlaceholderImage)
  }

  /** `p.in_stock ? 'In stock' : 'Out of stock'`. */
  function StockLabel(inStock: Option<bool>): (shown: string)
    ensures shown == InStockLabel || shown == OutOfStockLabel
    ensures shown == InStockLabel <==> IsTrue(inStock)
  {
    if IsTrue(inStock) then InStockLabel else OutOfStockLabel
  }

  /** The text `encodeURIComponent` is given: a missing name converts to "undefined". */
  function SeedText(name: Option<string>): (text: string)
    ensures name.Some? ==> text == name.value
    ensures name.None? ==> text == "undefined"
  {
    name.GetOr("undefined")
  }

  /**
   * `v.logo || AvatarPrefix + encodeURIComponent(v.name)`. The URI-component
   * encoder is a parameter: its byte-level rules are not modelled.
   */
  function LogoSrc(logo: Option<string>, name: Option<string>, encode: string -> string): (src: string)
    ensures src != ""
    ensures Truthy(logo) ==> src == logo.value
    ensures !Truthy(logo) ==> src == AvatarPrefix + encode(SeedText(name))
  {
    OrElse(logo, AvatarPrefix + encode(SeedText(name)))
  }

  /** `v.location || 'Worldwide'`. */
  function LocationText(location: Option<string>): (text: string)
    ensures text != ""
    ensures Truthy(location) ==> text == location.value
    ensures !Truthy(location) ==> text == Worldwide
  {
    OrElse(location, Worldwide)
  }

  /** The bio paragraph, rendered only for a non-empty bio (`v.bio && <p>`). */
  function BioParagraph(bio: Option<string>): (p: Option<string>)
    ensures p.Some? <==> Truthy(bio)
    ensures p.Some? ==> p.value == bio.value
  {
    if Truthy(bio) then bio else None
  }

  /** The product card (`ProductCard`, and the same markup inline on the products page). */
  function ProductCard(p: Product): (view: ProductView)
    ensures view.imageSrc == ImageSrc(p.images)
    ensures view.stockLabel == StockLabel(p.inStock)
    ensures view.inStock == IsTrue(p.inStock)
  {
    ProductView(ImageSrc(p.images), StockLabel(p.inStock), IsTrue(p.inStock))
  }

  /** The vendor card (`VendorCard`, and the first part of the vendors page tile). */
  function VendorCard(v: Vendor, encode: string -> string): (view: VendorView)
    ensures view.logoSrc == LogoSrc(v.logo, v.name, encode)
    ensures view.locationText == LocationText(v.location)
    ensures view.verifiedBadge <==> IsTrue(v.verified)
    ensures view.bio == BioParagraph(v.bio)
  {
    VendorView(LogoSrc(v.logo, v.name, encode), LocationText(v.location), IsTrue(v.verified), BioParagraph(v.bio))
  }

  /** The grid: one card per record, in the order of the list. */
  function ProductGrid(items: seq<Product>): (cards: seq<ProductView>)
    ensures |cards| == |items|
    ensures forall i :: 0 <= i < |items| ==> cards[i] == ProductCard(items[i])
  {
    if items == [] then [] else [ProductCard(items[0])] + ProductGrid(items[1..])
  }

  /** The grid: one card per record, in the order of the list. */
  function VendorGrid(items: seq<Vendor>, encode: string -> string): (cards: seq<VendorView>)
    ensures |cards| == |items|
    ensures forall i :: 0 <= i < |items| ==> cards[i] == VendorCard(items[i], encode)
  {
    if items == [] then [] else [VendorCard(items[0], encode)] + VendorGrid(items[1..], encode)
  }

  /** The stock label and the badge colour agree: exactly one label, chosen by the flag. */
  lemma StockLabelExactlyOne(p: Product)
    ensures ProductCard(p).stockLabel == InStockLabel <==> ProductCard(p).inStock
    ensures ProductCard(p).stockLabel == OutOfStockLabel <==> !ProductCard(p).inStock
  {
  }

  /**
   * The generated logo is keyed by the name alone: two vendors without a logo
   * get the same address exactly when their encoded names are equal.
   */
  lemma AvatarKeyedByName(v: Vendor, w: Vendor, encode: string -> string)
    requires !Truthy(v.logo) && !Truthy(w.logo)
    ensures LogoSrc(v.logo, v.name, encode) == LogoSrc(w.logo, w.name, encode)
            <==> encode(SeedText(v.name)) == encode(SeedText(w.name))
  {
    var a, b := encode(SeedText(v.name)), encode(SeedText(w.name));
    if AvatarPrefix + a == AvatarPrefix + b {
      assert a == (AvatarPrefix + a)[|AvatarPrefix|..];
      assert b == (AvatarPrefix + b)[|AvatarPrefix|..];
    }
  }

  /**
   * "Worldwide" is shown exactly when the location is missing or empty, or
   * when it literally is "Worldwide".
   */
  lemma WorldwideExactly(location: Option<string>)
    ensures LocationText(location) == Worldwide <==> !Truthy(location) || location.value == Worldwide
  {
  }

  /** An empty list renders an empty grid and nothing else. */
  lemma EmptyGrids(encode: string -> string)
    ensures ProductGrid([]) == [] && VendorGrid([], encode) == []
  {
  }
}
