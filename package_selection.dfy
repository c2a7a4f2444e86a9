/** The checkout's package cards: three packages whose price is the agency's base
    price times a fixed multiplier. */
module PackageSelection {

  datatype Package = Package(id: string, name: string, multiplier: real, popular: bool)

  /** `packages` (features, icons and colours are presentation). */
  const Packages: seq<Package> := [
    Package("BASIC", "Basic", 1.0, false),
    Package("STANDARD", "Standard", 1.5, true),
    Package("PREMIUM", "Premium", 2.5, false)
  ]

  /** `basePrice * pkg.multiplier`. */
  function Price(basePrice: real, p: Package): real {
    basePrice * p.multiplier
  }

  /** What a click on a card reports through `onSelect`. */
  datatype Selection = Selection(packageId: string, price: real)

  /** Clicking card `i`. */
  function Select(basePrice: real, i: nat): (s: Selection)
    requires i < |Packages|
    ensures s.packageId == Packages[i].id && s.price == Price(basePrice, Packages[i])
  {
    Selection(Packages[i].id, Price(basePrice, Packages[i]))
  }

  /** Three packages, BASIC, STANDARD and PREMIUM in that order, with distinct ids,
      and only STANDARD is marked popular. */
  lemma TableShape()
    ensures |Packages| == 3
    ensures Packages[0].id == "BASIC" && Packages[1].id == "STANDARD" && Packages[2].id == "PREMIUM"
    ensures forall i, j :: 0 <= i < j < |Packages| ==> Packages[i].id != Packages[j].id
    ensures forall i :: 0 <= i < |Packages| ==> (Packages[i].popular <==> Packages[i].id == "STANDARD")
  {
    assert "BASIC" != "STANDARD" && "BASIC" != "PREMIUM" by {
      assert |"BASIC"| != |"STANDARD"| && |"BASIC"| != |"PREMIUM"|;
    }
    assert "STANDARD" != "PREMIUM" by {
      assert "STANDARD"[0] != "PREMIUM"[0];
    }
  }

  /** BASIC costs the base price, and for a non-negative base price the cards get
      dearer from left to right (1, 1.5 and 2.5 times the base). */
  lemma PricesOrdered(basePrice: real)
    ensures Select(basePrice, 0).price == basePrice
    ensures Select(basePrice, 1).price == basePrice * 1.5 && Select(basePrice, 2).price == basePrice * 2.5
    ensures basePrice >= 0.0 ==> Select(basePrice, 0).price <= Select(basePrice, 1).price <= Select(basePrice, 2).price
  {
  }
}
