/** `generate_voucher_pdf_key` and `get_voucher_file_details`: the deterministic object key of a
    generated voucher PDF (no disambiguator; the date is the voucher's posting date). */
module Vouchers {
  import opened Base
  import opened Text
  import opened Sanitizer
  import opened Keys

  /** The fields of a voucher document the key depends on. */
  datatype Voucher = Voucher(doctype: string, name: string, postingDate: CalendarDate)

  /** The file-name part of a voucher key: spaces become `_`, every `tmp` met left to right is
      deleted, then the whitelist filter runs. */
  function VoucherStem(fileName: string): (r: string)
    ensures AllAllowed(r) && '/' !in r
  {
    StripSpecialChars(RemoveAll(ReplaceChar(fileName, ' ', '_'), "tmp"))
  }

  /** `generate_voucher_pdf_key`: `folder/Y/M/Doctype_with_underscores/stem`. A folder of None
      makes the source concatenate None, a TypeError. */
  function GenerateVoucherPdfKey(voucherDoctype: string, postingDate: CalendarDate, folderName: Option<string>,
                                 fileName: string): (r: Result<string>)
    ensures r.Err? <==> folderName.None?
    ensures r.Err? ==> r.error == TypeError
    ensures r.Ok? ==> LastSegment(r.value) == VoucherStem(fileName)
  {
    match folderName
    case None => Err(TypeError)
    case Some(folder) =>
      var dir := folder + "/" + YearText(postingDate) + "/" + MonthText(postingDate) + "/"
                 + ReplaceChar(voucherDoctype, ' ', '_');
      LastSegmentAfterSlash(dir, VoucherStem(fileName));
      Ok(dir + "/" + VoucherStem(fileName))
  }

  /** A voucher name as it appears in its PDF's file name, read character by character: a space
      is dropped, a `/` becomes `-`, anything else stays. */
  function PdfBaseName(name: string): (r: string)
    ensures ' ' !in r && '/' !in r
    ensures ' ' !in name && '/' !in name ==> r == name
  {
    if name == [] then []
    else if name[0] == ' ' then PdfBaseName(name[1..])
    else [if name[0] == '/' then '-' else name[0]] + PdfBaseName(name[1..])
  }

  /** Deleting the spaces and then turning `/` into `-` is the character-wise reading above. */
  lemma {:induction false} SpacesThenSlashes(name: string)
    ensures ReplaceChar(RemoveAll(name, " "), '/', '-') == PdfBaseName(name)
    decreases |name|
  {
    if name != [] {
      SpacesThenSlashes(name[1..]);
      if name[0] == ' ' {
        assert name[..1] == " ";
      } else {
        assert name[..1] != " ";
        ReplaceCharConcat([name[0]], RemoveAll(name[1..], " "), '/', '-');
      }
    }
  }

  /** `get_voucher_file_details`: the PDF's file name is the voucher name with its spaces removed
      and each `/` turned into `-`, followed by `.pdf`; the path is that name under /tmp. */
  function VoucherFileDetails(voucherName: string): (r: (string, string))
    ensures r.0 == PdfBaseName(voucherName) + ".pdf"
    ensures ' ' !in voucherName && '/' !in voucherName ==> r.0 == voucherName + ".pdf"
    ensures ' ' !in r.0 && '/' !in r.0
    ensures EndsWith(r.0, ".pdf")
    ensures r.1 == "/tmp/" + r.0
  {
    var spaceless := RemoveAll(voucherName + ".pdf", " ");
    RemoveCharConcat(voucherName, ".pdf", ' ');
    assert RemoveAll(".pdf", " ") == ".pdf" by { RemoveAllAbsent(".pdf", " ", ' '); }
    var fileName := ReplaceChar(spaceless, '/', '-');
    ReplaceCharConcat(RemoveAll(voucherName, " "), ".pdf", '/', '-');
    assert ReplaceChar(".pdf", '/', '-') == ".pdf";
    SpacesThenSlashes(voucherName);
    var n := |fileName|;
    assert fileName[n - 4..] == ".pdf";
    (fileName, "/tmp/" + fileName)
  }

  /** `replace(c, '')` deletes every `c`. */
  lemma {:induction false} RemoveCharGone(s: string, c: char)
    ensures c !in RemoveAll(s, [c])
    decreases |s|
  {
    if |s| >= 1 {
      RemoveCharGone(s[1..], c);
    }
  }

  /** Deleting one character works piecewise: no occurrence can straddle a boundary. */
  lemma {:induction false} RemoveCharConcat(a: string, b: string, c: char)
    ensures RemoveAll(a + b, [c]) == RemoveAll(a, [c]) + RemoveAll(b, [c])
    decreases |a|
  {
    if a == [] {
      assert a + b == b;
    } else {
      assert (a + b)[..1] == a[..1] && (a + b)[1..] == a[1..] + b;
      RemoveCharConcat(a[1..], b, c);
    }
  }

  /** The key the upload (line 219) and the delete (line 246) compute for a voucher. The /tmp
      directory of the path passed in vanishes from it: the `tmp` is deleted and the two slashes
      are dropped by the filter, so the stem is that of the PDF's file name alone. */
  function VoucherKey(v: Voucher, folderName: Option<string>): (r: Result<string>)
    ensures folderName.None? ==> r == Err(TypeError)
    ensures folderName.Some? ==>
      r == Ok(folderName.value + "/" + YearText(v.postingDate) + "/" + MonthText(v.postingDate) + "/"
              + ReplaceChar(v.doctype, ' ', '_') + "/" + VoucherStem(VoucherFileDetails(v.name).0))
  {
    TmpPathStem(VoucherFileDetails(v.name).0);
    GenerateVoucherPdfKey(v.doctype, v.postingDate, folderName, VoucherFileDetails(v.name).1)
  }

  lemma TmpPathStem(fileName: string)
    ensures VoucherStem("/tmp/" + fileName) == VoucherStem(fileName)
  {
    var spaced := ReplaceChar(fileName, ' ', '_');
    ReplaceCharConcat("/tmp/", fileName, ' ', '_');
    assert ReplaceChar("/tmp/", ' ', '_') == "/tmp/";
    TmpPathRemoved(spaced);
    var rest := RemoveAll(spaced, "tmp");
    StripConcat("//", rest);
    StripDropsDisallowed("//");
  }

  lemma TmpPathRemoved(fileName: string)
    ensures RemoveAll("/tmp/" + fileName, "tmp") == "//" + RemoveAll(fileName, "tmp")
  {
    assert "/tmp/" + fileName == ['/'] + ("tmp" + (['/'] + fileName));
    RemoveAllKeeps('/', "tmp" + (['/'] + fileName), "tmp");
    RemoveAllLeading("tmp", ['/'] + fileName);
    RemoveAllKeeps('/', fileName, "tmp");
  }

  /** The character-wise reading works piecewise. */
  lemma {:induction false} PdfBaseNameConcat(a: string, b: string)
    ensures PdfBaseName(a + b) == PdfBaseName(a) + PdfBaseName(b)
    decreases |a|
  {
    if a != [] {
      assert (a + b)[1..] == a[1..] + b;
      PdfBaseNameConcat(a[1..], b);
    } else {
      assert a + b == b;
    }
  }

  /** The key of a voucher depends on its name only through the PDF base name. */
  lemma BaseNameDecides(n1: string, n2: string, v: Voucher, folderName: Option<string>)
    requires PdfBaseName(n1) == PdfBaseName(n2)
    ensures VoucherKey(v.(name := n1), folderName) == VoucherKey(v.(name := n2), folderName)
  {
  }

  /** Spaces in a voucher name do not reach its key, so "A B" and "AB" share one key: the
      collision the missing disambiguator allows. */
  lemma VoucherKeyIgnoresSpaces(v: Voucher, folderName: Option<string>, a: string, b: string)
    ensures VoucherKey(v.(name := a + " " + b), folderName) == VoucherKey(v.(name := a + b), folderName)
  {
    PdfBaseNameConcat(a + " ", b);
    PdfBaseNameConcat(a, " ");
    PdfBaseNameConcat(a, b);
    assert PdfBaseName(" ") == "";
    BaseNameDecides(a + " " + b, a + b, v, folderName);
  }

  /** A `/` in a voucher name turns into `-`, so "A/B" and "A-B" share one key as well. */
  lemma VoucherKeySlashIsDash(v: Voucher, folderName: Option<string>, a: string, b: string)
    ensures VoucherKey(v.(name := a + "/" + b), folderName) == VoucherKey(v.(name := a + "-" + b), folderName)
  {
    PdfBaseNameConcat(a + "/", b);
    PdfBaseNameConcat(a, "/");
    PdfBaseNameConcat(a + "-", b);
    PdfBaseNameConcat(a, "-");
    assert PdfBaseName("/") == "-" == PdfBaseName("-");
    BaseNameDecides(a + "/" + b, a + "-" + b, v, folderName);
  }

  /** Deleting `tmp` is a single pass: in "ttmp..." the `tmp` is deleted and a `t` stays
      before what follows, so "ttmpmp.pdf" leaves a `tmp` behind. */
  lemma TmpRemovalIsSinglePass(fileName: string)
    requires fileName == "ttmpmp.pdf"
    ensures VoucherStem(fileName) == "tmp.pdf"
  {
    var rest := "mp.pdf";
    assert fileName == "t" + "tmp" + rest;
    assert AllAllowed(rest) && ' ' !in rest && 't' !in rest;
    StemAfterInnerTmp(rest);
    assert "t" + rest == "tmp.pdf";
  }

  lemma StemAfterInnerTmp(rest: string)
    requires AllAllowed(rest) && ' ' !in rest && 't' !in rest
    ensures VoucherStem("t" + "tmp" + rest) == "t" + rest
  {
    var s := "t" + "tmp" + rest;
    assert ReplaceChar(s, ' ', '_') == s;
    assert s == ['t'] + ("tmp" + rest);
    assert !StartsWith(s, "tmp") by { assert s[1] == 't'; }
    RemoveAllNoMatch(s, "tmp");
    assert s[1..] == "tmp" + rest;
    RemoveAllLeading("tmp", rest);
    RemoveAllAbsent(rest, "tmp", 't');
    StripKeepsAllowed("t" + rest);
  }

  /** The voucher scenario: type "Sales Invoice", posted 2021-10-01, folder "vouchers", file
      "tmpAB12.pdf". */
  lemma SalesInvoiceScenarioKey(doctype: string, postingDate: CalendarDate, folder: Option<string>, fileName: string)
    requires doctype == "Sales Invoice" && postingDate == Date(2021, 10, 1)
    requires folder == Some("vouchers") && fileName == "tmpAB12.pdf"
    ensures GenerateVoucherPdfKey(doctype, postingDate, folder, fileName) == Ok("vouchers/2021/10/Sales_Invoice/AB12.pdf")
  {
    SalesInvoiceStem(fileName);
    SalesInvoiceDoctype(doctype);
    SalesInvoiceDate(postingDate);
    SalesInvoiceGlue(YearText(postingDate), MonthText(postingDate), ReplaceChar(doctype, ' ', '_'), VoucherStem(fileName));
  }

  lemma SalesInvoiceDate(d: CalendarDate)
    requires d == Date(2021, 10, 1)
    ensures YearText(d) == "2021" && MonthText(d) == "10"
  {
    assert Pad2(20) == "20" && Pad2(21) == "21" && Pad2(10) == "10";
  }

  lemma SalesInvoiceGlue(y: string, m: string, t: string, stem: string)
    requires y == "2021" && m == "10" && t == "Sales_Invoice" && stem == "AB12.pdf"
    ensures "vouchers" + "/" + y + "/" + m + "/" + t + "/" + stem == "vouchers/2021/10/Sales_Invoice/AB12.pdf"
  {
  }

  lemma SalesInvoiceStem(fileName: string)
    requires fileName == "tmpAB12.pdf"
    ensures VoucherStem(fileName) == "AB12.pdf"
  {
    var rest := "AB12.pdf";
    assert fileName == "tmp" + rest;
    assert AllAllowed(rest) && ' ' !in rest && 't' !in rest;
    StemAfterLeadingTmp(rest);
  }

  lemma StemAfterLeadingTmp(rest: string)
    requires AllAllowed(rest) && ' ' !in rest && 't' !in rest
    ensures VoucherStem("tmp" + rest) == rest
  {
    assert ReplaceChar("tmp" + rest, ' ', '_') == "tmp" + rest;
    RemoveAllLeading("tmp", rest);
    RemoveAllAbsent(rest, "tmp", 't');
    StripKeepsAllowed(rest);
  }

  lemma SalesInvoiceDoctype(doctype: string)
    requires doctype == "Sales Invoice"
    ensures ReplaceChar(doctype, ' ', '_') == "Sales_Invoice"
  {
    var r := ReplaceChar(doctype, ' ', '_');
    assert |r| == 13;
    assert forall i :: 0 <= i < 13 ==> r[i] == "Sales_Invoice"[i];
  }

}
