/** The static menu that every cart and order refers to. */
module Catalog {
  import opened Wrappers

  /** One purchasable menu entry. The float `rating` is display-only and omitted. */
  datatype CatalogItem = CatalogItem(
    id: string,
    name: string,
    description: string,
    price: int,
    image: string,
    category: string)

  /** No two entries share an id. */
  ghost predicate UniqueIds(catalog: seq<CatalogItem>) {
    forall i, j :: 0 <= i < j < |catalog| ==> catalog[i].id != catalog[j].id
  }

  /** Every price is a positive whole amount. */
  ghost predicate PositivePrices(catalog: seq<CatalogItem>) {
    forall i :: 0 <= i < |catalog| ==> catalog[i].price > 0
  }

  ghost predicate HasId(catalog: seq<CatalogItem>, id: string) {
    exists i :: 0 <= i < |catalog| && catalog[i].id == id
  }

  /** `foodList.find(food => food.id === id)`: the FIRST entry carrying `id`. */
  function Find(catalog: seq<CatalogItem>, id: string): (r: Option<CatalogItem>)
    ensures r.None? <==> !HasId(catalog, id)
    ensures r.Some? ==> exists i :: 0 <= i < |catalog| && catalog[i] == r.value && r.value.id == id
                                    && forall j :: 0 <= j < i ==> catalog[j].id != id
  {
    if |catalog| == 0 then None
    else if catalog[0].id == id then Some(catalog[0])
    else
      var rest := Find(catalog[1..], id);
      assert forall i :: 0 <= i < |catalog| - 1 ==> catalog[1..][i] == catalog[i + 1];
      assert HasId(catalog, id) ==> HasId(catalog[1..], id) by {
        if HasId(catalog, id) {
          var i :| 0 <= i < |catalog| && catalog[i].id == id;
          assert catalog[1..][i - 1].id == id;
        }
      }
      rest
  }

  /** The shipped menu (`mockFoodList`). */
  const FoodList: seq<CatalogItem> := [
    CatalogItem("1", "Margherita Pizza", "Fresh tomatoes, mozzarella, basil on a crispy crust", 450,
      "https://images.unsplash.com/photo-1604382355076-af4b0eb60143?w=400&q=80", "Pizza"),
    CatalogItem("2", "Chicken Burger", "Juicy grilled chicken with lettuce, tomato & special sauce", 280,
      "https://images.unsplash.com/photo-1568901346375-23c9450c58cd?w=400&q=80", "Burgers"),
    CatalogItem("3", "Pad Thai", "Classic Thai stir-fried noodles with shrimp & peanuts", 350,
      "https://images.unsplash.com/photo-1559314809-0d155014e29e?w=400&q=80", "Noodles"),
    CatalogItem("4", "Caesar Salad", "Crisp romaine, parmesan, croutons with caesar dressing", 220,
      "https://images.unsplash.com/photo-1546793665-c74683f339c1?w=400&q=80", "Salads"),
    CatalogItem("5", "Beef Biryani", "Aromatic basmati rice with tender beef & exotic spices", 380,
      "https://images.unsplash.com/photo-1563379091339-03b21ab4a4f8?w=400&q=80", "Rice"),
    CatalogItem("6", "Sushi Platter", "Assorted fresh sushi rolls with wasabi & ginger", 650,
      "https://images.unsplash.com/photo-1579871494447-9811cf80d66c?w=400&q=80", "Japanese"),
    CatalogItem("7", "Chocolate Cake", "Rich dark chocolate layers with ganache frosting", 180,
      "https://images.unsplash.com/photo-1578985545062-69928b1d9587?w=400&q=80", "Desserts"),
    CatalogItem("8", "Mango Smoothie", "Fresh tropical mangoes blended with yogurt", 120,
      "https://images.unsplash.com/photo-1623065422902-30a2d299bbe4?w=400&q=80", "Drinks"),
    CatalogItem("9", "Pepperoni Pizza", "Classic pepperoni with mozzarella & tomato sauce", 520,
      "https://images.unsplash.com/photo-1628840042765-356cda07504e?w=400&q=80", "Pizza"),
    CatalogItem("10", "Veggie Wrap", "Grilled vegetables with hummus in a tortilla wrap", 200,
      "https://images.unsplash.com/photo-1626700051175-6818013e1d4f?w=400&q=80", "Wraps"),
    CatalogItem("11", "Fried Rice", "Wok-tossed rice with vegetables, egg & soy sauce", 250,
      "https://images.unsplash.com/photo-1603133872878-684f208fb84b?w=400&q=80", "Rice"),
    CatalogItem("12", "Ice Cream Sundae", "Three scoops with chocolate, caramel & whipped cream", 150,
      "https://images.unsplash.com/photo-1563805042-7684c019e1cb?w=400&q=80", "Desserts")
  ]

  /** The shipped menu's ids, in menu order. */
  const FoodIds: seq<string> := ["1", "2", "3", "4", "5", "6", "7", "8", "9", "10", "11", "12"]

  /** The twelve shipped ids are pairwise distinct. */
  lemma FoodIdsDistinct()
    ensures |FoodIds| == 12
    ensures forall i, j | 0 <= i < j < |FoodIds| :: FoodIds[i] != FoodIds[j]
  {
    forall i, j | 0 <= i < j < |FoodIds| ensures FoodIds[i] != FoodIds[j] {
      if |FoodIds[i]| == |FoodIds[j]| {
        assert FoodIds[i][|FoodIds[i]| - 1] != FoodIds[j][|FoodIds[j]| - 1];
      }
    }
  }

  /** Entry i of the shipped menu carries the i-th shipped id. */
  lemma FoodListIds()
    ensures |FoodList| == |FoodIds|
    ensures forall i | 0 <= i < |FoodList| :: FoodList[i].id == FoodIds[i]
  {
    assert FoodList[0].id == FoodIds[0] && FoodList[1].id == FoodIds[1] && FoodList[2].id == FoodIds[2];
    assert FoodList[3].id == FoodIds[3] && FoodList[4].id == FoodIds[4] && FoodList[5].id == FoodIds[5];
    assert FoodList[6].id == FoodIds[6] && FoodList[7].id == FoodIds[7] && FoodList[8].id == FoodIds[8];
    assert FoodList[9].id == FoodIds[9] && FoodList[10].id == FoodIds[10] && FoodList[11].id == FoodIds[11];
  }

  /** Every shipped price is positive. */
  lemma FoodListPrices()
    ensures |FoodList| == 12
    ensures forall i | 0 <= i < |FoodList| :: FoodList[i].price > 0
  {
    assert FoodList[0].price > 0 && FoodList[1].price > 0 && FoodList[2].price > 0;
    assert FoodList[3].price > 0 && FoodList[4].price > 0 && FoodList[5].price > 0;
    assert FoodList[6].price > 0 && FoodList[7].price > 0 && FoodList[8].price > 0;
    assert FoodList[9].price > 0 && FoodList[10].price > 0 && FoodList[11].price > 0;
  }

  /** The shipped menu has twelve entries with distinct ids and positive prices. */
  lemma FoodListWellFormed()
    ensures |FoodList| == 12
    ensures UniqueIds(FoodList)
    ensures PositivePrices(FoodList)
  {
    FoodIdsDistinct();
    FoodListIds();
    FoodListPrices();
  }
}
