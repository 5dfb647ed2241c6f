/** The in-memory API routes: a module-level array of entries that GET
    returns, POST appends to with the next id and a fresh timestamp, and
    every other method refuses with 405. */
module ApiStore {
  import opened Common

  /** A stored entry: the request body's own fields, the id the route
      assigns, and the timestamp it writes under its own field name. */
  datatype Entry = Entry(fields: Record, id: int, stamp: int)

  /** What a handler sends: 200 with the whole array, 201 with the new
      entry, or 405 with an `Allow` header and a text body. */
  datatype Response = Listed(entries: seq<Entry>) | Created(entry: Entry)
                    | NotAllowed(allow: seq<string>, text: string)

  function StatusCode(r: Response): int
  {
    match r
    case Listed(_) => 200
    case Created(_) => 201
    case NotAllowed(_, _) => 405
  }

  const AllowedMethods := ["GET", "POST"]

  /** The body of the 405 reply, for any verb including an unknown one. */
  function NotAllowedText(verb: string): (t: string)
    ensures |t| == |verb| + 19
    ensures t[..7] == "Method " && t[|t| - 12..] == " Not Allowed" && t[7..|t| - 12] == verb
  {
    "Method " + verb + " Not Allowed"
  }

  /** `{ ...req.body, id: length + 1, [stampField]: new Date() }` on an array
      of `n` entries: whatever `id` or timestamp the body carried is
      overridden, and every other field of the body is kept. */
  function NewEntry(body: Record, n: nat, stampField: string, now: int): (e: Entry)
    ensures e.id == n + 1 && e.stamp == now
    ensures "id" !in e.fields && stampField !in e.fields
    ensures forall k :: k != "id" && k != stampField ==> Field(e.fields, k) == Field(body, k)
  {
    Entry(body - {"id", stampField}, n + 1, now)
  }

  /** The entry at index `i` has id `i + 1`. */
  predicate IdsInOrder(es: seq<Entry>)
  {
    forall i :: 0 <= i < |es| ==> es[i].id == i + 1
  }

  /** Numbered in order, no two entries share an id. */
  lemma IdsInOrderDistinct(es: seq<Entry>)
    requires IdsInOrder(es)
    ensures forall i, j :: 0 <= i < j < |es| ==> es[i].id != es[j].id
  {
  }

  /** Appending the entry POST builds keeps the numbering, whatever id the
      body carried. */
  lemma PostKeepsOrder(es: seq<Entry>, body: Record, stampField: string, now: int)
    requires IdsInOrder(es)
    ensures IdsInOrder(es + [NewEntry(body, |es|, stampField, now)])
  {
  }

  class Store {
    /** The module-level array. */
    var entries: seq<Entry>
    /** The name of the field POST stamps with the current time. */
    const stampField: string

    /** The numbering the array keeps. */
    predicate Valid()
      reads this
    {
      IdsInOrder(entries)
    }

    /** The module as it is loaded, with its seed entries. */
    constructor (seed: seq<Entry>, stampField: string)
      ensures entries == seed && this.stampField == stampField
    {
      entries := seed;
      this.stampField := stampField;
    }

    /** `handler(req, res)`: `verb` is `req.method`, `body` is `req.body` and
        `now` the time of the request. */
    method Handle(verb: string, body: Record, now: int) returns (resp: Response)
      modifies this`entries
      ensures verb == "GET" ==> entries == old(entries) && resp == Listed(old(entries))
      ensures verb == "POST" ==>
        && entries == old(entries) + [NewEntry(body, |old(entries)|, stampField, now)]
        && resp == Created(NewEntry(body, |old(entries)|, stampField, now))
      ensures verb != "GET" && verb != "POST" ==>
        entries == old(entries) && resp == NotAllowed(AllowedMethods, NotAllowedText(verb))
      ensures old(Valid()) ==> Valid()
    {
      if verb == "GET" {
        resp := Listed(entries);
      } else if verb == "POST" {
        var e := NewEntry(body, |entries|, stampField, now);
        entries := entries + [e];
        resp := Created(e);
      } else {
        resp := NotAllowed(AllowedMethods, NotAllowedText(verb));
      }
    }
  }

  /** One POST on a freshly loaded module and the GET after it: the GET
      lists the seed followed by the posted entry, which has the next id, and
      the ids stay distinct. */
  method PostThenGet(seed: seq<Entry>, stampField: string, body: Record, t1: int, t2: int)
    returns (created: Response, listed: Response)
    requires IdsInOrder(seed)
    ensures StatusCode(created) == 201 && created.entry.id == |seed| + 1
    ensures listed == Listed(seed + [created.entry])
    ensures forall i, j :: 0 <= i < j < |listed.entries| ==> listed.entries[i].id != listed.entries[j].id
  {
    var store := new Store(seed, stampField);
    created := store.Handle("POST", body, t1);
    listed := store.Handle("GET", map[], t2);
    PostKeepsOrder(seed, body, stampField, t1);
    IdsInOrderDistinct(listed.entries);
  }
}
