/**
 * The closed catalogs of case options (src/app/validators/options-validator.ts):
 * colours, phone models, materials and finishes. Every entry carries a display
 * label (`caption` here: `label` is a Dafny keyword) and a value token; materials and finishes also carry a description and
 * a price increment taken from `Products.PRODUCT_PRICE`.
 */
module OptionsValidator {
  import opened Wrappers
  import Products

  /** A colour; `tw` is the Tailwind colour the preview paints with. */
  datatype Color = Color(caption: string, value: string, tw: string)

  datatype PhoneModel = PhoneModel(caption: string, value: string)

  /** A material or a finish: `description` is `undefined` for the free variant. */
  datatype PricedOption = PricedOption(caption: string, value: string, description: Option<string>, price: int)

  /** `{name, options}`: a catalog with the name the configurator keys it by. */
  datatype Catalog<T> = Catalog(name: string, options: seq<T>)

  const COLORS: seq<Color> := [
    Color("Black", "black", "zinc-900"),
    Color("Blue", "blue", "blue-950"),
    Color("Rose", "rose", "rose-950")
  ]

  const MODELS: Catalog<PhoneModel> := Catalog("models", [
    PhoneModel("iPhone X", "iphonex"),
    PhoneModel("iPhone 11", "iphone11"),
    PhoneModel("iPhone 12", "iphone12"),
    PhoneModel("iPhone 13", "iphone14"),
    PhoneModel("iPhone 15", "iphone15")
  ])

  const MATERIALS: Catalog<PricedOption> := Catalog("material", [
    PricedOption("Silicone", "silicone", None, Products.PRODUCT_PRICE.material.silicone),
    PricedOption("Polycarbonate", "polycarbonate", Some("Scratch resistant coating"),
                 Products.PRODUCT_PRICE.material.polycarbonate)
  ])

  const FINISHES: Catalog<PricedOption> := Catalog("finish", [
    PricedOption("Smooth Finish", "smooth", None, Products.PRODUCT_PRICE.finish.smooth),
    PricedOption("Textured Finish", "textured", Some("Soft gripy texture"),
                 Products.PRODUCT_PRICE.finish.textured)
  ])

  function ColorValue(c: Color): string { c.value }
  function ColorCaption(c: Color): string { c.caption }
  function ModelValue(m: PhoneModel): string { m.value }
  function ModelCaption(m: PhoneModel): string { m.caption }
  function PricedValue(p: PricedOption): string { p.value }
  function PricedCaption(p: PricedOption): string { p.caption }

  /** No two entries of `s` share a key. */
  ghost predicate DistinctBy<T>(s: seq<T>, key: T -> string) {
    forall i, j :: 0 <= i < j < |s| ==> key(s[i]) != key(s[j])
  }

  /** The catalog entry whose key is `v`, the first one if several share it. */
  function FindByKey<T>(s: seq<T>, key: T -> string, v: string): (r: Option<T>)
    ensures r.Some? ==> r.value in s && key(r.value) == v
    ensures r.None? ==> forall x :: x in s ==> key(x) != v
  {
    if s == [] then None
    else if key(s[0]) == v then Some(s[0])
    else FindByKey(s[1..], key, v)
  }

  /** With distinct keys, looking an entry up by its own key finds that entry. */
  lemma {:induction false} FindByOwnKey<T>(s: seq<T>, key: T -> string, x: T)
    requires DistinctBy(s, key)
    requires x in s
    ensures FindByKey(s, key, key(x)) == Some(x)
  {
    if s[0] != x {
      assert x in s[1..];
      var k :| 0 <= k < |s| && s[k] == x;
      assert key(s[0]) != key(s[k]);
      assert DistinctBy(s[1..], key) by {
        forall i, j | 0 <= i < j < |s[1..]|
          ensures key(s[1..][i]) != key(s[1..][j])
        {
          assert s[1..][i] == s[i + 1] && s[1..][j] == s[j + 1];
        }
      }
      FindByOwnKey(s[1..], key, x);
    }
  }

  /** 3 colours, 5 models, 2 materials, 2 finishes. */
  lemma CatalogSizes()
    ensures |COLORS| == 3 && |MODELS.options| == 5
    ensures |MATERIALS.options| == 2 && |FINISHES.options| == 2
  {
  }

  /**
   * Value tokens are pairwise distinct in every catalog, the model labelled
   * "iPhone 13" (token "iphone14") included.
   */
  lemma ValuesDistinct()
    ensures DistinctBy(COLORS, ColorValue)
    ensures DistinctBy(MODELS.options, ModelValue)
    ensures DistinctBy(MATERIALS.options, PricedValue)
    ensures DistinctBy(FINISHES.options, PricedValue)
    ensures MODELS.options[3].caption == "iPhone 13" && MODELS.options[3].value == "iphone14"
  {
  }

  /**
   * Labels are pairwise distinct in every catalog: the page keys the colour and
   * model items by label (and the material and finish items by value token).
   */
  lemma LabelsDistinct()
    ensures DistinctBy(COLORS, ColorCaption)
    ensures DistinctBy(MODELS.options, ModelCaption)
    ensures DistinctBy(MATERIALS.options, PricedCaption)
    ensures DistinctBy(FINISHES.options, PricedCaption)
  {
  }

  /**
   * The material and finish catalogs are named after the option fields the
   * configurator stores them under; the models catalog's name is not used as a key.
   */
  lemma CatalogNames()
    ensures MATERIALS.name == "material" && FINISHES.name == "finish"
    ensures MATERIALS.name != FINISHES.name
    ensures MODELS.name == "models"
  {
  }

  /** Each material and finish is priced from the matching `PRODUCT_PRICE` entry. */
  lemma PricesFromProductPrice()
    ensures MATERIALS.options[0].price == Products.PRODUCT_PRICE.material.silicone
    ensures MATERIALS.options[1].price == Products.PRODUCT_PRICE.material.polycarbonate
    ensures FINISHES.options[0].price == Products.PRODUCT_PRICE.finish.smooth
    ensures FINISHES.options[1].price == Products.PRODUCT_PRICE.finish.textured
    ensures forall p :: p in MATERIALS.options + FINISHES.options ==> p.price >= 0
  {
  }

  /**
   * Materials and finishes carry a description exactly when they cost extra;
   * the first entry of each is the free default.
   */
  lemma DescriptionsOnSurcharges()
    ensures forall p :: p in MATERIALS.options + FINISHES.options ==>
      (p.description.Some? <==> p.price > 0)
    ensures MATERIALS.options[0].price == 0 && FINISHES.options[0].price == 0
  {
  }
}
