/**
 * The body of one asynchronous task: classify the response of the data
 * fetch, and on a usable response run the index calculation. Every path
 * returns an outcome; nothing escapes as an error.
 */
module Task {
  import opened Wrappers
  import opened Cpi

  /** One element of the `categories` list: a JSON object, or anything else (null, a number, ...). */
  datatype Entry = Record(category: Category) | NotRecord

  /**
   * The `categories` value of the decoded body. An absent key reads as the
   * empty list. `NotList` is null, a boolean, a number, a string or an
   * object: `len` raises on the first three; an empty string or object is
   * caught by the emptiness test, and on a non-empty one the first `.get`
   * raises, so every one of them ends in failure.
   */
  datatype CategoriesField = Absent | Items(entries: seq<Entry>) | NotList

  /** The decoded payload of a successful fetch; `comparisonDate` is only logged. */
  datatype RequestData = RequestData(categories: CategoriesField)

  /** A response body either decodes to a JSON object or makes the decoding raise. */
  datatype Body = Decoded(data: RequestData) | Malformed

  /** What the GET for the request's data produced: a response, or a transport error. */
  datatype FetchResult = Responded(status: int, body: Body) | TransportError

  /** Only a 200 response whose body decodes to an object reaches the calculation. */
  predicate Usable(fetched: FetchResult) {
    fetched.Responded? && fetched.status == 200 && fetched.body.Decoded?
  }

  /**
   * The category records of a list, or `None` when some element is not an
   * object, on which `.get` raises while the total is summed.
   */
  function Records(entries: seq<Entry>): (r: Option<seq<Category>>)
    ensures r.Some? <==> forall i :: 0 <= i < |entries| ==> entries[i].Record?
    ensures r.Some? ==>
      |r.value| == |entries| && forall i :: 0 <= i < |entries| ==> r.value[i] == entries[i].category
  {
    if |entries| == 0 then Some([])
    else
      var front := Records(entries[..|entries| - 1]);
      var last := entries[|entries| - 1];
      if front.Some? && last.Record? then Some(front.value + [last.category]) else None
  }

  /** The category list the calculation runs on, when the body provides one. */
  function CategoryList(data: RequestData): Option<seq<Category>> {
    match data.categories
    case Absent => Some([])
    case Items(entries) => Records(entries)
    case NotList => None
  }

  /** The outcome the task returns for a fetch result. */
  function FetchOutcome(id: RequestId, fetched: FetchResult): (r: Outcome)
    ensures r.id == id
    ensures r.success <==> r.personalCPI.Some?
    ensures !Usable(fetched) ==> r == Failure(id)
    ensures fetched.Responded? && fetched.status != 200 ==> r == Failure(id)
    ensures fetched.TransportError? ==> r == Failure(id)
    ensures Usable(fetched) && fetched.body.data.categories.NotList? ==> r == Failure(id)
    ensures Usable(fetched) && fetched.body.data.categories.Absent? ==> r == Failure(id)
    ensures Usable(fetched) && CategoryList(fetched.body.data).Some? ==>
      r == Evaluate(id, CategoryList(fetched.body.data).value)
  {
    if Usable(fetched) && CategoryList(fetched.body.data).Some?
    then Evaluate(id, CategoryList(fetched.body.data).value)
    else Failure(id)
  }

  /**
   * A `categories` list with an element that is not an object fails, and a
   * success needs a list whose every element is an object.
   */
  lemma FetchOutcomeNeedsRecords(id: RequestId, data: RequestData)
    ensures
      (data.categories.Items? &&
       exists i :: 0 <= i < |data.categories.entries| && data.categories.entries[i].NotRecord?)
      ==> FetchOutcome(id, Responded(200, Decoded(data))) == Failure(id)
    ensures FetchOutcome(id, Responded(200, Decoded(data))).success ==>
      (data.categories.Items? &&
       forall i :: 0 <= i < |data.categories.entries| ==> data.categories.entries[i].Record?)
  {
  }

  /**
   * The accumulation loop over the categories: the weighted sum and whether
   * some category qualified.
   */
  method Accumulate(categories: seq<Category>, total: real) returns (cpi: real, hasValid: bool)
    requires total != 0.0
    ensures cpi == CpiSum(categories, total)
    ensures hasValid == AnyQualifies(categories)
  {
    cpi := 0.0;
    hasValid := false;
    for i := 0 to |categories|
      invariant cpi == CpiSum(categories[..i], total)
      invariant hasValid == AnyQualifies(categories[..i])
    {
      var userSpent := Amount(categories[i].userSpent);
      var basePrice := Amount(categories[i].basePrice);
      if basePrice > 0.0 && userSpent > 0.0 {
        var weight := userSpent / total;
        var change := (userSpent - basePrice) / basePrice;
        cpi := cpi + weight * change;
        hasValid := true;
      }
      assert categories[..i + 1][..i] == categories[..i];
    }
    assert categories[..|categories|] == categories;
  }

  /** The task itself: the early exits around the accumulation loop. */
  method CalculatePersonalCpi(id: RequestId, fetched: FetchResult) returns (o: Outcome)
    ensures o == FetchOutcome(id, fetched)
  {
    if fetched.TransportError? {
      return Failure(id);
    }
    if fetched.status != 200 {
      return Failure(id);
    }
    if fetched.body.Malformed? {
      return Failure(id);
    }
    var field := fetched.body.data.categories;
    if field.NotList? {
      return Failure(id);
    }
    var entries := if field.Items? then field.entries else [];
    if entries == [] {
      return Failure(id);
    }
    var records := Records(entries);
    if records.None? {
      return Failure(id);
    }
    var categories := records.value;
    assert FetchOutcome(id, fetched) == Evaluate(id, categories);
    var total := TotalSpent(categories);
    if total == 0.0 {
      return Failure(id);
    }
    var cpi, hasValid := Accumulate(categories, total);
    if !hasValid {
      return Failure(id);
    }
    return Outcome(id, Some(Round2(cpi * 100.0)), true);
  }
}
