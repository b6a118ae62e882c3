/**
 * The quotation form: the customer's details plus the cart become one request to
 * the quotation backend, and the answer becomes either a download link or an
 * error message. Any change to the details or to the cart drops a link that was
 * produced for the old ones.
 */
module QuotationForm {
  import opened Wrappers
  import opened Services
  import opened Products
  import opened Cart

  const FailedMessage := "Failed to generate quotation"
  const UnexpectedMessage := "An unexpected error occurred"

  /** `formData`. */
  datatype Details = Details(customer_name: string, quotation_number: string, quotation_date: string)

  /** One entry of `selected_products`. */
  datatype QuotationLine = QuotationLine(product_id: string, name: string, price: string, quantity: int, image_url: string)

  /** `{ ...formData, selected_products }`. */
  datatype Payload = Payload(details: Details, selected_products: seq<QuotationLine>)

  /** What `generateQuotation(payload)` does: answers with a link, answers with a failure, or throws. */
  datatype QuoteResult =
    | Generated(downloadUrl: string)      // { success: true, data: { downloadUrl } }
    | GenerationFailed(error: string)     // { success: false, error }; a missing error is ""
    | Threw

  /** The entry a cart item becomes. */
  function LineOf(item: CartItem): QuotationLine
  {
    QuotationLine(item.product.product_id, item.product.product_name, item.product.price, item.quantity, item.product.image_url)
  }

  /** `items.map(...)`: one entry per cart item, in cart order, each carrying that item's fields. */
  function Lines(items: seq<CartItem>): (r: seq<QuotationLine>)
    ensures |r| == |items|
    ensures forall k :: 0 <= k < |r| ==>
      && r[k].product_id == items[k].product.product_id
      && r[k].name == items[k].product.product_name
      && r[k].price == items[k].product.price
      && r[k].quantity == items[k].quantity
      && r[k].image_url == items[k].product.image_url
  {
    seq(|items|, k requires 0 <= k < |items| => LineOf(items[k]))
  }

  /** Every product id in the cart appears in the payload, and nothing else does. */
  lemma LinesCoverCart(items: seq<CartItem>, id: string)
    ensures InCart(items, id) <==> exists k :: 0 <= k < |Lines(items)| && Lines(items)[k].product_id == id
  {
    var r := Lines(items);
    if InCart(items, id) {
      var k :| 0 <= k < |items| && IdOf(items[k]) == id;
      assert r[k].product_id == id;
    }
    if exists k :: 0 <= k < |r| && r[k].product_id == id {
      var k :| 0 <= k < |r| && r[k].product_id == id;
      assert IdOf(items[k]) == id;
    }
  }

  /** `isFormValid`, which enables the submit button; it admits only a non-empty payload. */
  predicate IsFormValid(d: Details, items: seq<CartItem>)
    ensures IsFormValid(d, items) ==> d.customer_name != "" && d.quotation_number != "" && |Lines(items)| > 0
  {
    d.customer_name != "" && d.quotation_number != "" && |items| > 0
  }

  /** The form's state, with the requests it has sent so far. */
  datatype QuoteState = QuoteState(
    details: Details,
    loading: bool,
    error: Option<string>,
    downloadUrl: Option<string>,
    requests: seq<Payload>)
  {
    /** A link and an error are never shown together, and no request is in flight between events. */
    predicate Fits()
    {
      !loading && !(error.Some? && downloadUrl.Some?)
    }
  }

  function InitialState(quotationNumber: string, quotationDate: string): (r: QuoteState)
    ensures r.Fits() && r.requests == [] && r.downloadUrl.None? && r.error.None?
  {
    QuoteState(Details("", quotationNumber, quotationDate), false, None, None, [])
  }

  /** What the page shows once the backend has answered. */
  function Answered(s: QuoteState, result: QuoteResult): QuoteState
  {
    match result
    case Generated(url) => s.(loading := false, error := None, downloadUrl := Some(url))
    case GenerationFailed(e) => s.(loading := false, error := Some(OrElse(e, FailedMessage)), downloadUrl := None)
    case Threw => s.(loading := false, error := Some(UnexpectedMessage), downloadUrl := None)
  }

  /** `handleSubmit`: nothing for an empty cart, else one request and its answer. */
  function Submitted(s: QuoteState, items: seq<CartItem>, result: QuoteResult): (r: QuoteState)
    ensures |items| == 0 ==> r == s
    ensures |items| > 0 ==>
      && r.details == s.details && !r.loading && |r.requests| == |s.requests| + 1
      && r.requests[..|s.requests|] == s.requests && r.requests[|s.requests|].selected_products == Lines(items)
  {
    if |items| == 0 then s
    else Answered(s.(requests := s.requests + [Payload(s.details, Lines(items))]), result)
  }

  /** An edit of one field, or a new cart: the link is dropped, and nothing is sent. */
  function Edited(s: QuoteState, d: Details): (r: QuoteState)
    ensures r.details == d && r.downloadUrl.None?
    ensures r.requests == s.requests && r.error == s.error && r.loading == s.loading
  {
    s.(details := d, downloadUrl := None)
  }

  /**
   * Submitting with an empty cart sends nothing and changes nothing. Otherwise
   * exactly one request goes out, carrying the details and the cart, and the
   * answer decides the link or the message.
   */
  lemma SubmitOutcome(s: QuoteState, items: seq<CartItem>, result: QuoteResult)
    ensures var t := Submitted(s, items, result);
      && (|items| == 0 ==> t == s)
      && (|items| > 0 ==>
        && t.requests == s.requests + [Payload(s.details, Lines(items))]
        && t.details == s.details && !t.loading
        && (t.downloadUrl.Some? <==> result.Generated?)
        && (result.Generated? ==> t.downloadUrl == Some(result.downloadUrl) && t.error.None?)
        && (result.GenerationFailed? && result.error != "" ==> t.error == Some(result.error))
        && (result.GenerationFailed? && result.error == "" ==> t.error == Some(FailedMessage))
        && (result.Threw? ==> t.error == Some(UnexpectedMessage)))
  {
  }

  /**
   * A request goes out exactly when the cart is non-empty, whatever the details
   * hold; so a submission the enabled button allows always sends one.
   */
  lemma RequestIffItems(s: QuoteState, items: seq<CartItem>, result: QuoteResult)
    ensures |Submitted(s, items, result).requests| == |s.requests| + (if |items| > 0 then 1 else 0)
    ensures IsFormValid(s.details, items) ==> |Submitted(s, items, result).requests| == |s.requests| + 1
  {
  }

  /** Every event keeps the state fitting, and an edit leaves no link. */
  lemma EventsKeepFit(s: QuoteState, items: seq<CartItem>, result: QuoteResult, d: Details)
    requires s.Fits()
    ensures Submitted(s, items, result).Fits()
    ensures Edited(s, d).Fits() && Edited(s, d).downloadUrl.None?
    ensures Edited(s, d).requests == s.requests && Edited(s, d).error == s.error
  {
  }

  class Form {
    var details: Details
    var loading: bool
    var error: Option<string>
    var downloadUrl: Option<string>
    /** The requests sent to the quotation backend, oldest first. */
    var requests: seq<Payload>

    function State(): QuoteState
      reads this
    {
      QuoteState(details, loading, error, downloadUrl, requests)
    }

    predicate Valid()
      reads this
    {
      State().Fits()
    }

    /** The random quotation number and today's date are given. */
    constructor(quotationNumber: string, quotationDate: string)
      ensures State() == InitialState(quotationNumber, quotationDate) && Valid()
    {
      details := Details("", quotationNumber, quotationDate);
      loading := false;
      error := None;
      downloadUrl := None;
      requests := [];
    }

    method EditCustomerName(value: string)
      requires Valid()
      modifies this
      ensures Valid()
      ensures State() == Edited(old(State()), old(details).(customer_name := value))
    {
      details := details.(customer_name := value);
      downloadUrl := None;
    }

    method EditQuotationDate(value: string)
      requires Valid()
      modifies this
      ensures Valid()
      ensures State() == Edited(old(State()), old(details).(quotation_date := value))
    {
      details := details.(quotation_date := value);
      downloadUrl := None;
    }

    method EditQuotationNumber(value: string)
      requires Valid()
      modifies this
      ensures Valid()
      ensures State() == Edited(old(State()), old(details).(quotation_number := value))
    {
      details := details.(quotation_number := value);
      downloadUrl := None;
    }

    /** The effect that runs whenever `items` changes. */
    method ItemsChanged()
      requires Valid()
      modifies this
      ensures Valid()
      ensures State() == Edited(old(State()), old(details))
    {
      downloadUrl := None;
    }

    /** `handleSubmit`, with the backend's answer given. */
    method Submit(items: seq<CartItem>, result: QuoteResult)
      requires Valid()
      modifies this
      ensures Valid()
      ensures State() == Submitted(old(State()), items, result)
    {
      EventsKeepFit(State(), items, result, details);
      if |items| == 0 {
        return;
      }
      loading := true;
      error := None;
      downloadUrl := None;
      var payload := Payload(details, Lines(items));
      requests := requests + [payload];
      match result {
        case Generated(url) =>
          downloadUrl := Some(url);
        case GenerationFailed(e) =>
          error := Some(OrElse(e, FailedMessage));
        case Threw =>
          error := Some(UnexpectedMessage);
      }
      loading := false;
    }
  }
}
