/** `pages/api/waste.js`: the waste-collection route over the shared store,
    stamping entries under `collectedDate`. */
module WasteApi {
  import opened Common
  import opened ApiStore

  const StampField := "collectedDate"

  /** The two entries the module starts with; `loaded` is the time the module
      was loaded. Quantities are kept as their text. */
  function Seed(loaded: int): (s: seq<Entry>)
    ensures |s| == 2 && IdsInOrder(s)
    ensures Field(s[0].fields, "type") == Some("Flower") && Field(s[0].fields, "quantity") == Some("100")
    ensures Field(s[1].fields, "type") == Some("Garland") && Field(s[1].fields, "quantity") == Some("50")
    ensures forall i :: 0 <= i < |s| ==> s[i].stamp == loaded
  {
    [Entry(map["type" := "Flower", "quantity" := "100"], 1, loaded),
     Entry(map["type" := "Garland", "quantity" := "50"], 2, loaded)]
  }

  /** The route as the module is loaded: its array holds the seed and is
      numbered in order. */
  method Load(loaded: int) returns (store: Store)
    ensures fresh(store) && store.entries == Seed(loaded) && store.stampField == StampField
    ensures store.Valid()
  {
    store := new Store(Seed(loaded), StampField);
  }
}
