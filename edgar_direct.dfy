/** The direct reader of a company's latest filing
    (core/edgar_direct_manager.py): look up the text of one item of the
    filing, falling back to a fixed text when the item is missing, or join
    the texts of several items. The filing is the map from item label to
    item text that the `edgar` library's filing object is subscripted as. */
module EdgarDirect {
  import opened Wrappers
  import opened Text

  /** The filing object, as the items it can be subscripted with. */
  type Filing = map<string, string>

  /** The text that stands in for an item the filing does not have. */
  const NotAvailable: string := "Not Available"

  /** Two line breaks between the texts of consecutive items. */
  const ItemSeparator: string := "\n\n"

  /** The form the manager reads when the caller names none. */
  const DefaultReportType: string := "10-K"

  /** `filing_obj[item]`, with a `KeyError` turned into `"Not Available"`. */
  function ItemOrNotAvailable(filing: Filing, item: string): (r: string)
    ensures item in filing ==> r == filing[item]
    ensures item !in filing ==> r == NotAvailable
  {
    if item in filing then filing[item] else NotAvailable
  }

  /** The text of each item, in the order of the items. */
  function ItemTexts(filing: Filing, items: seq<string>): (r: seq<string>)
    ensures |r| == |items|
    ensures forall i :: 0 <= i < |items| ==> r[i] == ItemOrNotAvailable(filing, items[i])
  {
    if items == [] then []
    else [ItemOrNotAvailable(filing, items[0])] + ItemTexts(filing, items[1..])
  }

  /** What `get_items_concat` returns for a filing that was fetched. */
  function ItemsConcat(filing: Filing, items: seq<string>): string
  {
    Join(ItemSeparator, ItemTexts(filing, items))
  }

  /** Looking the items up in two batches and joining the two results with
      the separator gives the same text as one batch. */
  lemma ItemsConcatAppend(filing: Filing, a: seq<string>, b: seq<string>)
    requires |a| > 0 && |b| > 0
    ensures ItemsConcat(filing, a + b)
            == ItemsConcat(filing, a) + ItemSeparator + ItemsConcat(filing, b)
  {
    var ta, tb := ItemTexts(filing, a), ItemTexts(filing, b);
    var tab := ItemTexts(filing, a + b);
    assert tab == ta + tb by {
      forall i | 0 <= i < |tab|
        ensures tab[i] == (ta + tb)[i]
      {
        if i < |a| {
          assert (a + b)[i] == a[i];
        } else {
          assert (a + b)[i] == b[i - |a|];
        }
      }
    }
    JoinAppend(ItemSeparator, ItemTexts(filing, a), ItemTexts(filing, b));
  }

  /** The joined text is as long as all item texts, a missing item counting
      as the 13 characters of `"Not Available"`, plus two characters between
      each two items. */
  lemma ItemsConcatLength(filing: Filing, items: seq<string>)
    requires |items| > 0
    ensures |ItemsConcat(filing, items)|
            == TotalLength(ItemTexts(filing, items)) + 2 * (|items| - 1)
  {
    JoinLength(ItemSeparator, ItemTexts(filing, items));
  }

  /** A filing none of whose items is present yields `"Not Available"` once
      per item: a missing item never ends the lookups early. */
  lemma AllMissing(filing: Filing, items: seq<string>)
    requires forall i :: 0 <= i < |items| ==> items[i] !in filing
    ensures ItemTexts(filing, items) == seq(|items|, _ => NotAvailable)
    ensures ItemsConcat(filing, items) == Join(ItemSeparator, seq(|items|, _ => NotAvailable))
  {
  }

  /** `EdgarDirectManager`: a ticker, a form type, and the fetch of the
      latest filing of that form, which may raise. */
  class EdgarDirectManager {
    const tickerSymbol: string
    const reportType: string
    /** The `edgar` lookup `Company(ticker).get_filings(form=...).latest(1).obj()`;
        it runs again on every call. */
    const latestFiling: (string, string) -> Result<Filing>

    /** The ticker is stored upper-cased, the form as given, `"10-K"` when
        the caller names none. */
    constructor (ticker: string, latestFiling: (string, string) -> Result<Filing>,
                 reportType: string := DefaultReportType)
      ensures tickerSymbol == Upper(ticker)
      ensures this.reportType == reportType
      ensures this.latestFiling == latestFiling
    {
      tickerSymbol := Upper(ticker);
      this.reportType := reportType;
      this.latestFiling := latestFiling;
    }

    /** `_get_full_filing_obj()`. */
    function FullFiling(): Result<Filing>
    {
      latestFiling(tickerSymbol, reportType)
    }

    /** `get_item_text(item)`: the item's text if the filing has it, exactly
        `"Not Available"` if it does not; a failed fetch propagates. */
    function GetItemText(item: string): (r: Result<string>)
      ensures r.Failure? <==> FullFiling().Failure?
      ensures r.Failure? ==> r.error == FullFiling().error
      ensures r.Success? && item in FullFiling().value ==> r.value == FullFiling().value[item]
      ensures r.Success? && item !in FullFiling().value ==> r.value == NotAvailable
    {
      match FullFiling()
      case Failure(e) => Failure(e)
      case Success(filing) => Success(ItemOrNotAvailable(filing, item))
    }

    /** `get_items_concat(items)`: one lookup per item, in order, each
        missing one replaced by `"Not Available"`, joined by two line breaks.
        No items give the empty text, and one item gives what
        `get_item_text` gives for it. */
    method GetItemsConcat(items: seq<string>) returns (r: Result<string>)
      ensures r.Failure? <==> FullFiling().Failure?
      ensures r.Failure? ==> r.error == FullFiling().error
      ensures r.Success? ==> r.value == ItemsConcat(FullFiling().value, items)
      ensures r.Success? && items == [] ==> r.value == ""
      ensures |items| == 1 ==> r == GetItemText(items[0])
    {
      var fetched := FullFiling();
      if fetched.Failure? {
        return Failure(fetched.error);
      }
      var filing := fetched.value;
      var chunks: seq<string> := [];
      for i := 0 to |items|
        invariant chunks == ItemTexts(filing, items[..i])
      {
        var text := ItemOrNotAvailable(filing, items[i]);
        chunks := chunks + [text];
      }
      assert items[..|items|] == items;
      r := Success(Join(ItemSeparator, chunks));
    }
  }
}
