/**
 * The attachment card (frontend/src/components/FileAttachment.tsx): which
 * rows it shows, the header/body window of at most five data rows, the
 * "Showing 5 of N rows" footer, and its expand toggle.
 */
module FileAttachmentView {
  import opened Js
  import opened FileParser

  const MaxRows: nat := 5
  const FooterLead := "Showing "
  const FooterMid := " of "
  const FooterTail := " rows"

  /** `isPreview ? file.preview : file.content` */
  function Displayed(a: Attachment, isPreview: bool): seq<seq<string>> {
    if isPreview then a.preview else a.content
  }

  /** `!previewData?.length`: the card renders nothing at all. */
  predicate RendersNothing(rows: seq<seq<string>>) {
    |rows| == 0
  }

  /** The table heading: the first row. */
  function HeaderRow(rows: seq<seq<string>>): seq<string>
    requires |rows| > 0
  {
    rows[0]
  }

  /** `previewData.slice(1, maxRows + 1)`: the rows after the header, at most five, in order. */
  function BodyRows(rows: seq<seq<string>>): (body: seq<seq<string>>)
    ensures |body| <= MaxRows
    ensures |rows| == 0 ==> body == []
    ensures |rows| > 0 ==> |body| == Min(|rows| - 1, MaxRows)
    ensures forall i :: 0 <= i < |body| ==> body[i] == rows[i + 1]
  {
    Slice(rows, 1, MaxRows + 1)
  }

  /** The footer is shown exactly when rows were left out of the body. */
  predicate FooterShown(rows: seq<seq<string>>) {
    |rows| > MaxRows + 1
  }

  function FooterText(rows: seq<seq<string>>): string
    requires FooterShown(rows)
  {
    FooterLead + NatToString(MaxRows) + FooterMid + NatToString(|rows| - 1) + FooterTail
  }

  /** Without a footer, header and body together are every displayed row. */
  lemma NoFooterShowsEverything(rows: seq<seq<string>>)
    requires |rows| > 0 && !FooterShown(rows)
    ensures [HeaderRow(rows)] + BodyRows(rows) == rows
  {
    var body := BodyRows(rows);
    assert |body| == |rows| - 1;
    assert forall i :: 0 <= i < |rows| ==> ([HeaderRow(rows)] + body)[i] == rows[i];
  }

  /**
   * With a footer the body shows five rows, and the footer reads
   * "Showing 5 of N rows" where the digits N spell the number of data rows
   * (every displayed row but the header).
   */
  lemma FooterCountsDataRows(rows: seq<seq<string>>)
    requires FooterShown(rows)
    ensures |BodyRows(rows)| == MaxRows
    ensures exists n: string ::
      && FooterText(rows) == FooterLead + "5" + FooterMid + n + FooterTail
      && n != [] && (forall i :: 0 <= i < |n| ==> IsDigit(n[i])) && (|n| > 1 ==> n[0] != '0')
      && ReadDecimal(n) == |rows| - 1
  {
    var n := NatToString(|rows| - 1);
    NatToStringRoundTrip(|rows| - 1);
    assert NatToString(MaxRows) == "5" by { assert NatToString(MaxRows) == [DigitChar(5)]; }
    assert FooterText(rows) == FooterLead + "5" + FooterMid + n + FooterTail;
    assert n != [] && (forall i :: 0 <= i < |n| ==> IsDigit(n[i])) && (|n| > 1 ==> n[0] != '0') && ReadDecimal(n) == |rows| - 1;
  }

  /**
   * For a parsed attachment the preview card and the full card show the same
   * header and body, and the preview never has a footer.
   */
  lemma PreviewShowsSameWindow(file: FileInfo, a: Attachment)
    requires BuiltFrom(file, a)
    ensures !RendersNothing(Displayed(a, true)) && !RendersNothing(Displayed(a, false))
    ensures HeaderRow(Displayed(a, true)) == HeaderRow(Displayed(a, false))
    ensures BodyRows(Displayed(a, true)) == BodyRows(Displayed(a, false))
    ensures !FooterShown(Displayed(a, true))
  {
    var p, c := a.preview, a.content;
    assert |BodyRows(p)| == |BodyRows(c)|;
  }

  /** The remove button, as written: `!isPreview && onRemove`. */
  predicate RemoveShownAsWritten(isPreview: bool, hasOnRemove: bool) {
    !isPreview && hasOnRemove
  }

  /**
   * At both places the card is used the remove button never appears: the
   * composer passes `isPreview` with `onRemove`, a message passes neither.
   */
  lemma RemoveNeverShownAsWritten()
    ensures !RemoveShownAsWritten(true, true)
    ensures !RemoveShownAsWritten(false, false)
  {
  }

  /** The remove button whenever a remove handler is supplied. */
  predicate RemoveShown(hasOnRemove: bool) {
    hasOnRemove
  }

  /** The staged attachment in the composer can be removed; a sent one cannot. */
  lemma RemoveShownWhereHandled()
    ensures RemoveShown(true)
    ensures !RemoveShown(false)
  {
  }

  /** The card's `isExpanded` state. */
  class Card {
    var isExpanded: bool

    constructor ()
      ensures !isExpanded
    {
      isExpanded := false;
    }

    /** The chevron button: `setIsExpanded(!isExpanded)`. */
    method Toggle()
      modifies this
      ensures isExpanded == !old(isExpanded)
    {
      isExpanded := !isExpanded;
    }

    /** The table is drawn only when expanded and there is something to show. */
    function TableShown(rows: seq<seq<string>>): (b: bool)
      reads this
      ensures b <==> isExpanded && |rows| > 0
    {
      isExpanded && !RendersNothing(rows)
    }
  }
}
