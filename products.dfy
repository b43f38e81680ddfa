/** The product catalogue: the list of product summaries and the look-up of
    one product by id. The catalogue file that both handlers read on every
    request is a parameter here, and neither operation changes it. */
module Products {
  import opened Wrappers

  /** A JSON value as json.load returns it. */
  datatype Value =
    | Null
    | Bool(b: bool)
    | Int(i: int)
    | Str(s: string)
    | Array(items: seq<Value>)
    | Object(fields: map<string, Value>)

  /** A product record: a JSON object with any fields. */
  type Record = map<string, Value>

  /** Python's v == n for an int n: an int compares by value and a bool is
      the int 1 or 0; null, strings, lists and objects equal no int. */
  predicate EqualsInt(v: Value, n: int) {
    match v
    case Int(i) => i == n
    case Bool(b) => (if b then 1 else 0) == n
    case _ => false
  }

  /** product.get("id") == product_id: a record without "id" yields None,
      which equals no int. */
  predicate HasId(p: Record, productId: int) {
    "id" in p && EqualsInt(p["id"], productId)
  }

  const SummaryKeys: set<string> := {"id", "title", "category", "image"}

  const NotFound: Error := HttpError(404, "Product not found")

  /** One list entry: exactly id, title, category and image of the record. */
  function Summary(p: Record): (r: Record)
    requires SummaryKeys <= p.Keys
    ensures r.Keys == SummaryKeys
    ensures forall k :: k in r ==> r[k] == p[k]
  {
    map k | k in SummaryKeys :: p[k]
  }

  /** get_products: one summary per record, in catalogue order. A record that
      lacks one of the four fields makes product[...] raise KeyError, which the
      framework answers with a 500. */
  function ListProducts(catalog: seq<Record>): (r: Result<seq<Record>>)
    ensures r.Ok? <==> forall i :: 0 <= i < |catalog| ==> SummaryKeys <= catalog[i].Keys
    ensures r.Err? ==> r.error == InternalServerError
    ensures r.Ok? ==> |r.value| == |catalog|
    ensures r.Ok? ==> forall i :: 0 <= i < |catalog| ==>
      r.value[i].Keys == SummaryKeys && forall k :: k in SummaryKeys ==> r.value[i][k] == catalog[i][k]
  {
    if forall i :: 0 <= i < |catalog| ==> SummaryKeys <= catalog[i].Keys then
      Ok(seq(|catalog|, i requires 0 <= i < |catalog| => Summary(catalog[i])))
    else
      Err(InternalServerError)
  }

  /** Position i holds the first record whose id equals productId. */
  predicate FirstMatch(catalog: seq<Record>, productId: int, i: int) {
    && 0 <= i < |catalog|
    && HasId(catalog[i], productId)
    && forall j :: 0 <= j < i ==> !HasId(catalog[j], productId)
  }

  /** get_product: the first record in catalogue order whose id equals
      productId, unmodified with all its fields; 404 when none does. */
  function GetProduct(catalog: seq<Record>, productId: int): (r: Result<Record>)
    ensures r.Err? <==> forall i :: 0 <= i < |catalog| ==> !HasId(catalog[i], productId)
    ensures r.Err? ==> r.error == NotFound
    ensures r.Ok? ==> exists i :: FirstMatch(catalog, productId, i) && catalog[i] == r.value
  {
    if catalog == [] then Err(NotFound)
    else if HasId(catalog[0], productId) then Ok(catalog[0])
    else
      var r := GetProduct(catalog[1..], productId);
      assert forall i :: 1 <= i < |catalog| ==> catalog[i] == catalog[1..][i - 1];
      assert r.Ok? ==> exists i :: FirstMatch(catalog, productId, i) && catalog[i] == r.value by {
        if r.Ok? {
          var i :| FirstMatch(catalog[1..], productId, i) && catalog[1..][i] == r.value;
          assert FirstMatch(catalog, productId, i + 1);
        }
      }
      r
  }

  /** A record without an id field is never returned by the look-up. */
  lemma RecordWithoutIdNeverMatches(catalog: seq<Record>, productId: int)
    requires forall i :: 0 <= i < |catalog| ==> "id" !in catalog[i]
    ensures GetProduct(catalog, productId) == Err(NotFound)
  {
  }

  /** Looking up in the summary list finds the summary of what looking up in
      the catalogue finds, and misses exactly when that misses: the list
      keeps every id and the catalogue order. */
  lemma {:induction false} LookupCommutesWithSummary(catalog: seq<Record>, productId: int)
    requires ListProducts(catalog).Ok?
    ensures var found := GetProduct(catalog, productId);
      GetProduct(ListProducts(catalog).value, productId)
        == if found.Ok? then Ok(Summary(found.value)) else found
  {
    if catalog != [] {
      var s := ListProducts(catalog).value;
      assert ListProducts(catalog[1..]).value == s[1..];
      assert HasId(s[0], productId) == HasId(catalog[0], productId);
      LookupCommutesWithSummary(catalog[1..], productId);
    }
  }

  /** A JSON true in the id field equals product id 1, as in Python. */
  lemma TrueIdMatchesOne(p: Record)
    requires "id" in p && p["id"] == Bool(true)
    ensures GetProduct([p], 1) == Ok(p)
  {
  }
}
