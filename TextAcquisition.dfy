/**
 * Obtaining the raw text of one PDF: the embedded text layer, the OCR fallback,
 * Python's `str.strip()` and the 150-character threshold that chooses between them.
 *
 * The PDF reader and the OCR engine are foreign libraries; their per-page output is
 * an input here. A page whose reading raised is `None`, and a document that could not
 * be opened is `Unreadable`.
 */
module TextAcquisition {
  import opened Wrappers

  /** The threshold under which the stripped embedded text counts as "no real text layer". */
  const OcrThreshold: nat := 150

  /** What one pass over a document yields, page by page. */
  datatype Scan = Unreadable | Pages(pages: seq<Option<string>>)

  // ---------------------------------------------------------------------------
  // str.strip()

  /** The characters for which Python's `str.isspace()` holds. */
  predicate IsSpace(c: char) {
    c == ' ' || ('\t' <= c <= '\r') || ('\U{1c}' <= c <= '\U{1f}') || c == '\U{85}' || c == '\U{a0}'
    || c == '\U{1680}' || ('\U{2000}' <= c <= '\U{200a}') || c == '\U{2028}' || c == '\U{2029}'
    || c == '\U{202f}' || c == '\U{205f}' || c == '\U{3000}'
  }

  /** Drop leading whitespace (see TrimStartSpec). */
  function TrimStart(s: string): (r: string)
    ensures |r| <= |s|
  {
    if |s| > 0 && IsSpace(s[0]) then TrimStart(s[1..]) else s
  }

  /** Drop trailing whitespace (see TrimEndSpec). */
  function TrimEnd(s: string): (r: string)
    ensures |r| <= |s|
  {
    if |s| > 0 && IsSpace(s[|s| - 1]) then TrimEnd(s[..|s| - 1]) else s
  }

  /** Python's `s.strip()` with no argument. */
  function Strip(s: string): string {
    TrimEnd(TrimStart(s))
  }

  /** TrimStart yields the longest suffix that does not start with a space. */
  lemma {:induction false} TrimStartSpec(s: string)
    ensures TrimStart(s) == s[|s| - |TrimStart(s)|..]
    ensures forall i :: 0 <= i < |s| - |TrimStart(s)| ==> IsSpace(s[i])
    ensures TrimStart(s) != [] ==> !IsSpace(TrimStart(s)[0])
  {
    if |s| > 0 && IsSpace(s[0]) {
      var t := s[1..];
      TrimStartSpec(t);
      assert t[|t| - |TrimStart(t)|..] == s[|s| - |TrimStart(t)|..];
      forall i | 0 <= i < |s| - |TrimStart(s)|
        ensures IsSpace(s[i])
      {
        if i > 0 {
          assert s[i] == t[i - 1];
        }
      }
    }
  }

  /** TrimEnd yields the longest prefix that does not end with a space. */
  lemma {:induction false} TrimEndSpec(s: string)
    ensures TrimEnd(s) == s[..|TrimEnd(s)|]
    ensures forall i :: |TrimEnd(s)| <= i < |s| ==> IsSpace(s[i])
    ensures TrimEnd(s) != [] ==> !IsSpace(TrimEnd(s)[|TrimEnd(s)| - 1])
  {
    if |s| > 0 && IsSpace(s[|s| - 1]) {
      var t := s[..|s| - 1];
      TrimEndSpec(t);
      assert t[..|TrimEnd(t)|] == s[..|TrimEnd(t)|];
      forall i | |TrimEnd(s)| <= i < |s|
        ensures IsSpace(s[i])
      {
        if i < |s| - 1 {
          assert s[i] == t[i];
        }
      }
    }
  }

  /** Strip yields a contiguous slice of its input with whitespace removed from both ends only. */
  lemma StripIsTrimmedSlice(s: string)
    ensures exists i, j ::
      (0 <= i <= j <= |s| && Strip(s) == s[i..j]
      && (forall k :: 0 <= k < i ==> IsSpace(s[k]))
      && (forall k :: j <= k < |s| ==> IsSpace(s[k])))
    ensures Strip(s) != [] ==> !IsSpace(Strip(s)[0]) && !IsSpace(Strip(s)[|Strip(s)| - 1])
  {
    var t := TrimStart(s);
    var r := TrimEnd(t);
    TrimStartSpec(s);
    TrimEndSpec(t);
    var i := |s| - |t|;
    var j := i + |r|;
    assert t == s[i..];
    assert r == s[i..j] by {
      assert r == t[..|r|];
      assert s[i..][..|r|] == s[i..j];
    }
    forall k | j <= k < |s|
      ensures IsSpace(s[k])
    {
      assert s[k] == t[k - i];
    }
    if r != [] {
      assert r[0] == t[0];
    }
    assert 0 <= i <= j <= |s| && Strip(s) == s[i..j];
  }

  lemma {:induction false} TrimStartOfSpaces(s: string)
    requires forall k :: 0 <= k < |s| ==> IsSpace(s[k])
    ensures TrimStart(s) == ""
  {
    if |s| > 0 {
      TrimStartOfSpaces(s[1..]);
    }
  }

  /** Strip empties exactly the strings made only of whitespace. */
  lemma StripEmptyIff(s: string)
    ensures Strip(s) == "" <==> forall k :: 0 <= k < |s| ==> IsSpace(s[k])
  {
    if forall k :: 0 <= k < |s| ==> IsSpace(s[k]) {
      TrimStartOfSpaces(s);
    }
    if Strip(s) == "" {
      StripIsTrimmedSlice(s);
      var i, j :| 0 <= i <= j <= |s| && Strip(s) == s[i..j]
        && (forall k :: 0 <= k < i ==> IsSpace(s[k]))
        && (forall k :: j <= k < |s| ==> IsSpace(s[k]));
      assert i == j;
    }
  }

  // ---------------------------------------------------------------------------
  // The two extractors

  /**
   * The text accumulated over the pages, each page's text followed by `suffix`, or
   * None once any page raised (the whole extraction then reports failure).
   */
  function PagesText(pages: seq<Option<string>>, suffix: string): Option<string> {
    if pages == [] then Some("")
    else
      match (PagesText(pages[..|pages| - 1], suffix), pages[|pages| - 1])
      case (Some(acc), Some(t)) => Some(acc + t + suffix)
      case _ => None
  }

  /** The text-layer extractor: page texts joined with no separator, "" on any failure. */
  function EmbeddedText(scan: Scan): string {
    match scan
    case Unreadable => ""
    case Pages(ps) => PagesText(ps, "").GetOr("")
  }

  /** The OCR extractor: every page's recognised text followed by a newline, "" on any failure. */
  function OcrText(scan: Scan): string {
    match scan
    case Unreadable => ""
    case Pages(ps) => PagesText(ps, "\n").GetOr("")
  }

  /** Reads the text layer page by page, returning "" as soon as a page fails. */
  method ExtractTextFromPdf(scan: Scan) returns (text: string)
    ensures text == EmbeddedText(scan)
  {
    if scan.Unreadable? {
      return "";
    }
    var pages := scan.pages;
    var fullText := "";
    var i := 0;
    while i < |pages|
      invariant 0 <= i <= |pages|
      invariant PagesText(pages[..i], "") == Some(fullText)
    {
      assert pages[..i + 1][..i] == pages[..i];
      match pages[i]
      case None =>
        PrefixFailureIsFinal(pages, i + 1, "");
        return "";
      case Some(t) =>
        assert PagesText(pages[..i + 1], "") == Some(fullText + t + "");
        assert fullText + t + "" == fullText + t;
        fullText := fullText + t;
        i := i + 1;
    }
    assert pages[..i] == pages;
    text := fullText;
  }

  /** Runs OCR page by page, appending a newline after each page, returning "" as soon as a page fails. */
  method ExtractTextWithOcr(scan: Scan) returns (text: string)
    ensures text == OcrText(scan)
  {
    if scan.Unreadable? {
      return "";
    }
    var pages := scan.pages;
    var fullText := "";
    var i := 0;
    while i < |pages|
      invariant 0 <= i <= |pages|
      invariant PagesText(pages[..i], "\n") == Some(fullText)
    {
      assert pages[..i + 1][..i] == pages[..i];
      match pages[i]
      case None =>
        PrefixFailureIsFinal(pages, i + 1, "\n");
        return "";
      case Some(t) =>
        assert PagesText(pages[..i + 1], "\n") == Some(fullText + t + "\n");
        fullText := fullText + t + "\n";
        i := i + 1;
    }
    assert pages[..i] == pages;
    text := fullText;
  }

  /** A failure on a prefix of the pages is a failure of the whole document. */
  lemma {:induction false} PrefixFailureIsFinal(pages: seq<Option<string>>, n: nat, suffix: string)
    requires n <= |pages| && PagesText(pages[..n], suffix) == None
    ensures PagesText(pages, suffix) == None
  {
    if n < |pages| {
      var m := |pages| - 1;
      assert pages[..m][..n] == pages[..n];
      PrefixFailureIsFinal(pages[..m], n, suffix);
    } else {
      assert pages[..n] == pages;
    }
  }

  // ---------------------------------------------------------------------------
  // Reference definitions and the properties of the extractors

  /** Every page read successfully, with the given texts. */
  function AllRead(texts: seq<string>): (pages: seq<Option<string>>)
    ensures |pages| == |texts| && forall i :: 0 <= i < |texts| ==> pages[i] == Some(texts[i])
  {
    seq(|texts|, i requires 0 <= i < |texts| => Some(texts[i]))
  }

  /** Plain concatenation, first page first. */
  function Concat(ts: seq<string>): string {
    if ts == [] then "" else ts[0] + Concat(ts[1..])
  }

  /** Each text followed by the suffix. */
  function WithSuffix(ts: seq<string>, suffix: string): (r: seq<string>)
    ensures |r| == |ts| && forall i :: 0 <= i < |ts| ==> r[i] == ts[i] + suffix
  {
    seq(|ts|, i requires 0 <= i < |ts| => ts[i] + suffix)
  }

  lemma {:induction false} ConcatSnoc(ts: seq<string>, t: string)
    ensures Concat(ts + [t]) == Concat(ts) + t
  {
    if ts != [] {
      assert (ts + [t])[1..] == ts[1..] + [t];
      ConcatSnoc(ts[1..], t);
    } else {
      assert [t][1..] == [];
    }
  }

  /**
   * When every page is read, the accumulated text is the concatenation, in page order,
   * of each page's text followed by the suffix.
   */
  lemma {:induction false} PagesTextOfReadable(texts: seq<string>, suffix: string)
    ensures PagesText(AllRead(texts), suffix) == Some(Concat(WithSuffix(texts, suffix)))
  {
    if texts != [] {
      var n := |texts| - 1;
      assert AllRead(texts)[..n] == AllRead(texts[..n]);
      PagesTextOfReadable(texts[..n], suffix);
      assert WithSuffix(texts, suffix) == WithSuffix(texts[..n], suffix) + [texts[n] + suffix];
      ConcatSnoc(WithSuffix(texts[..n], suffix), texts[n] + suffix);
      var acc := Concat(WithSuffix(texts[..n], suffix));
      assert acc + texts[n] + suffix == acc + (texts[n] + suffix);
    }
  }

  /** If any page raises, the extraction yields nothing from any page. */
  lemma PagesTextOfFailure(pages: seq<Option<string>>, k: nat, suffix: string)
    requires k < |pages| && pages[k] == None
    ensures PagesText(pages, suffix) == None
  {
    assert pages[..k + 1][..k] == pages[..k];
    PrefixFailureIsFinal(pages, k + 1, suffix);
  }

  /** The embedded text is the page texts joined with no separator, in page order. */
  lemma EmbeddedTextIsConcat(texts: seq<string>)
    ensures EmbeddedText(Pages(AllRead(texts))) == Concat(texts)
  {
    PagesTextOfReadable(texts, "");
    assert forall i :: 0 <= i < |texts| ==> WithSuffix(texts, "")[i] == texts[i];
    assert WithSuffix(texts, "") == texts;
  }

  /** The OCR text is every page's text followed by "\n", in page order. */
  lemma OcrTextIsConcat(texts: seq<string>)
    ensures OcrText(Pages(AllRead(texts))) == Concat(WithSuffix(texts, "\n"))
  {
    PagesTextOfReadable(texts, "\n");
  }

  /** The OCR text is non-empty exactly when the document opened, has a page, and no page failed. */
  lemma {:induction false} OcrTextEmptyIff(scan: Scan)
    ensures OcrText(scan) == "" <==>
      scan == Unreadable || scan.pages == [] || exists k :: 0 <= k < |scan.pages| && scan.pages[k] == None
  {
    if scan.Pages? && scan.pages != [] {
      var ps := scan.pages;
      if exists k :: 0 <= k < |ps| && ps[k] == None {
        var k :| 0 <= k < |ps| && ps[k] == None;
        PagesTextOfFailure(ps, k, "\n");
      } else {
        var n := |ps| - 1;
        assert forall k :: 0 <= k < |ps[..n]| ==> ps[..n][k] == ps[k];
        var acc := PagesTextSucceeds(ps[..n], "\n");
        assert ps[..n] == ps[..|ps| - 1];
        assert PagesText(ps, "\n") == Some(acc + ps[n].value + "\n");
      }
    }
  }

  /** With no failing page the extraction succeeds. */
  lemma {:induction false} PagesTextSucceeds(pages: seq<Option<string>>, suffix: string) returns (text: string)
    requires forall k :: 0 <= k < |pages| ==> pages[k] != None
    ensures PagesText(pages, suffix) == Some(text)
  {
    if pages == [] {
      text := "";
    } else {
      var n := |pages| - 1;
      assert forall k :: 0 <= k < |pages[..n]| ==> pages[..n][k] == pages[k];
      var acc := PagesTextSucceeds(pages[..n], suffix);
      text := acc + pages[n].value + suffix;
    }
  }

  // ---------------------------------------------------------------------------
  // Choosing the text

  /** The text handed on, and whether the OCR pass was run to get it. */
  datatype TextChoice = TextChoice(text: string, ocrRan: bool)

  /** A single blank OCR page reads as one newline, which strips to nothing. */
  lemma BlankPageText()
    ensures OcrText(Pages([Some("")])) == "\n"
    ensures Strip("\n") == ""
  {
    var pages: seq<Option<string>> := [Some("")];
    assert pages[..0] == [];
    assert IsSpace('\n');
    assert TrimStart("\n") == "" by {
      assert "\n"[1..] == "";
    }
  }

  /**
   * The embedded text is kept when, stripped, it has at least 150 characters; otherwise
   * the OCR text replaces it. The two are never merged.
   */
  function ChooseText(embedded: string, rendered: Scan): (c: TextChoice)
    ensures c.ocrRan <==> |Strip(embedded)| < OcrThreshold
    ensures c.ocrRan ==> c.text == OcrText(rendered)
    ensures !c.ocrRan ==> c.text == embedded && |c.text| >= OcrThreshold
  {
    if |Strip(embedded)| < OcrThreshold then TextChoice(OcrText(rendered), true)
    else TextChoice(embedded, false)
  }
}
