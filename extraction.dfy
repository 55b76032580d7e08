/** `extract_text_from_pdf`: read every page of the uploaded PDF in document
    order and concatenate the page texts with no separator; any exception
    (an unreadable file, a page whose text cannot be extracted) is reported
    with `st.error` and turns the result into None. The PDF library itself is
    not modelled: a file is either unreadable or a sequence of pages, each of
    which yields its text or raises. */
module Extraction {
  import opened Wrappers
  import opened Strings
  import opened Streamlit

  /** One page as the PDF reader hands it over: `page.extract_text()`
      returns `text`, or raises an exception whose message is `error`. */
  datatype Page = Page(text: string) | BrokenPage(error: string)

  /** The uploaded file: the reader cannot open it, or it has these pages. */
  datatype PdfFile = Unreadable(error: string) | Pdf(pages: seq<Page>)

  const ErrorPrefix := "PDF reading error: "

  predicate AllReadable(pages: seq<Page>)
  {
    forall k :: 0 <= k < |pages| ==> pages[k].Page?
  }

  /** The texts of pages that all yield text, in page order. */
  function Texts(pages: seq<Page>): (r: seq<string>)
    requires AllReadable(pages)
    ensures |r| == |pages| && forall k :: 0 <= k < |pages| ==> r[k] == pages[k].text
  {
    seq(|pages|, k requires 0 <= k < |pages| => pages[k].text)
  }

  /** The message of the first page that raises, if any. */
  function FirstError(pages: seq<Page>): (r: Option<string>)
    ensures r.None? <==> AllReadable(pages)
    ensures r.Some? ==> exists k :: 0 <= k < |pages| && pages[k].BrokenPage? && pages[k].error == r.value
  {
    if pages == [] then None
    else if pages[0].BrokenPage? then Some(pages[0].error)
    else
      var rest := FirstError(pages[1..]);
      assert AllReadable(pages[1..]) ==> AllReadable(pages) by {
        if AllReadable(pages[1..]) {
          forall k | 0 <= k < |pages| ensures pages[k].Page? {
            if k > 0 { assert pages[k] == pages[1..][k - 1]; }
          }
        }
      }
      assert rest.Some? ==> exists k :: 0 <= k < |pages| && pages[k].BrokenPage? && pages[k].error == rest.value by {
        if rest.Some? {
          var k :| 0 <= k < |pages[1..]| && pages[1..][k].BrokenPage? && pages[1..][k].error == rest.value;
          assert pages[k + 1] == pages[1..][k];
        }
      }
      rest
  }

  /** What the `try` block produces: the text, or the exception's message. */
  function Extracted(file: PdfFile): (r: Result<string, string>)
    ensures r.Failure? ==> || (file.Unreadable? && r.error == file.error)
                           || (file.Pdf? && exists k :: 0 <= k < |file.pages| && file.pages[k].BrokenPage?
                                                        && file.pages[k].error == r.error)
    ensures r.Success? ==> file.Pdf? && AllReadable(file.pages) && |r.value| == TotalLength(Texts(file.pages))
  {
    match file
    case Unreadable(e) => Failure(e)
    case Pdf(pages) =>
      match FirstError(pages)
      case Some(e) => Failure(e)
      case None =>
        ConcatLength(Texts(pages));
        Success(Concat(Texts(pages)))
  }

  lemma {:induction false} FirstErrorAt(pages: seq<Page>, i: nat)
    requires i < |pages| && AllReadable(pages[..i]) && pages[i].BrokenPage?
    ensures FirstError(pages) == Some(pages[i].error)
  {
    if i > 0 {
      assert pages[0] == pages[..i][0];
      assert pages[1..][..i - 1] == pages[..i][1..];
      FirstErrorAt(pages[1..], i - 1);
    }
  }

  /** The body of the `try`: open the file, then `text += page.extract_text()`
      for each page in order. */
  method ReadPages(file: PdfFile) returns (r: Result<string, string>)
    ensures r == Extracted(file)
  {
    if file.Unreadable? {
      return Failure(file.error);
    }
    var pages := file.pages;
    var text := "";
    for i := 0 to |pages|
      invariant AllReadable(pages[..i])
      invariant text == Concat(Texts(pages[..i]))
    {
      if pages[i].BrokenPage? {
        FirstErrorAt(pages, i);
        return Failure(pages[i].error);
      }
      assert Texts(pages[..i + 1]) == Texts(pages[..i]) + [pages[i].text];
      text := text + pages[i].text;
    }
    assert pages[..|pages|] == pages;
    return Success(text);
  }

  /** `extract_text_from_pdf(uploaded_file)`. */
  method ExtractTextFromPdf(st: Display, file: PdfFile) returns (text: Option<string>)
    modifies st
    ensures Extracted(file).Success? ==> text == Some(Extracted(file).value) && st.events == old(st.events)
    ensures Extracted(file).Failure? ==>
              text == None && st.events == old(st.events) + [Error(ErrorPrefix + Extracted(file).error)]
  {
    var r := ReadPages(file);
    match r {
      case Success(t) =>
        return Some(t);
      case Failure(e) =>
        st.Error(ErrorPrefix + e);
        return None;
    }
  }

  /** Extraction succeeds exactly when the file opens and every page yields
      its text. */
  lemma SucceedsIff(file: PdfFile)
    ensures Extracted(file).Success? <==> file.Pdf? && AllReadable(file.pages)
  {
  }

  /** On success the text is as long as all page texts together. */
  lemma ExtractedLength(pages: seq<Page>)
    requires AllReadable(pages)
    ensures Extracted(Pdf(pages)).Success?
    ensures |Extracted(Pdf(pages)).value| == TotalLength(Texts(pages))
  {
    ConcatLength(Texts(pages));
  }

  /** On success page `k`'s text appears unchanged right after the texts of
      the pages before it: page order is kept and no separator is inserted. */
  lemma ExtractedPageAt(pages: seq<Page>, k: nat)
    requires AllReadable(pages) && k < |pages|
    ensures var text := Extracted(Pdf(pages)).value;
            var at := TotalLength(Texts(pages[..k]));
            at + |pages[k].text| <= |text| && text[at..at + |pages[k].text|] == pages[k].text
  {
    var ts := Texts(pages);
    assert ts[..k] == Texts(pages[..k]);
    PartAt(ts, k);
  }

  /** A one-page document extracts to that page's text. */
  lemma SinglePage(s: string)
    ensures Extracted(Pdf([Page(s)])) == Success(s)
  {
    var pages := [Page(s)];
    assert AllReadable(pages);
    assert Texts(pages) == [s];
    assert [s][..0] == [];
    assert Concat([s]) == s;
  }
}
