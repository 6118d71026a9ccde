/** The product record shown on each card, and the built-in demo list. */
module Products {

  /** One discounted product. `image` is optional in the source; every record the
      source builds carries a string there, the empty string standing for "none". */
  datatype Product = Product(
    name: string,
    discount: string,
    validUntil: string,
    eanCode: string,
    image: string)

  /** The fields a record needs to be listed: name, discount and EAN all non-empty
      (JavaScript truthiness of a string). */
  predicate HasEssentials(p: Product) {
    p.name != "" && p.discount != "" && p.eanCode != ""
  }

  /** The six fixed records used whenever live data cannot be obtained. */
  const DemoNutella: Product :=
    Product("Nutella 750g Glas", "-2,50 €", "2024-02-15", "8000500037508",
            "https://images.unsplash.com/photo-1558961363-fa8fdf82db35?w=300&h=200&fit=crop")
  const DemoCocaCola: Product :=
    Product("Coca Cola Zero 6x1,5L", "-1,99 €", "2024-02-20", "5449000000996",
            "https://images.unsplash.com/photo-1561758033-d89a9ad46330?w=300&h=200&fit=crop")
  const DemoMilka: Product :=
    Product("Milka Schokolade 100g", "-0,75 €", "2024-02-10", "7622210951052",
            "https://images.unsplash.com/photo-1549007994-cb92caebd54b?w=300&h=200&fit=crop")
  const DemoHaribo: Product :=
    Product("Haribo Goldbären 200g", "-0,50 €", "2024-02-12", "4001686301081",
            "https://images.unsplash.com/photo-1582058091505-f87a2e55a40f?w=300&h=200&fit=crop")
  const DemoRedBull: Product :=
    Product("Red Bull Energy Drink 250ml", "-0,30 €", "2024-02-18", "9002490100059",
            "https://images.unsplash.com/photo-1570197788417-0e82375c9371?w=300&h=200&fit=crop")
  const DemoKnorr: Product :=
    Product("Knorr Fix Spaghetti Bolognese", "-0,25 €", "2024-02-25", "8712566401234",
            "https://images.unsplash.com/photo-1551462099-fcb0e0d9db95?w=300&h=200&fit=crop")

  function DemoData(): (demo: seq<Product>)
    ensures |demo| == 6
  {
    [DemoNutella, DemoCocaCola, DemoMilka, DemoHaribo, DemoRedBull, DemoKnorr]
  }

  /** Every demo record would survive the row validation, carries an image and a
      13-character EAN. */
  lemma DemoDataComplete()
    ensures forall k :: 0 <= k < |DemoData()| ==>
      HasEssentials(DemoData()[k]) && DemoData()[k].image != "" && |DemoData()[k].eanCode| == 13
  {
  }
}
