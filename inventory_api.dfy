/** `pages/api/inventory.js`: the inventory route over the shared store,
    stamping entries under `lastUpdated`. */
module InventoryApi {
  import opened Common
  import opened ApiStore

  const StampField := "lastUpdated"

  /** The two entries the module starts with; `loaded` is the time the module
      was loaded. Quantities are kept as their text. */
  function Seed(loaded: int): (s: seq<Entry>)
    ensures |s| == 2 && IdsInOrder(s)
    ensures Field(s[0].fields, "item") == Some("Flower Waste") && Field(s[0].fields, "quantity") == Some("50")
    ensures Field(s[1].fields, "item") == Some("Organic Ash") && Field(s[1].fields, "quantity") == Some("30")
    ensures forall i :: 0 <= i < |s| ==> s[i].stamp == loaded
  {
    [Entry(map["item" := "Flower Waste", "quantity" := "50"], 1, loaded),
     Entry(map["item" := "Organic Ash", "quantity" := "30"], 2, loaded)]
  }

  /** The route as the module is loaded: its array holds the seed and is
      numbered in order. */
  method Load(loaded: int) returns (store: Store)
    ensures fresh(store) && store.entries == Seed(loaded) && store.stampField == StampField
    ensures store.Valid()
  {
    store := new Store(Seed(loaded), StampField);
  }
}
