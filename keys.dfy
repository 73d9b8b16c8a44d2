/** `S3Operations.key_generator`: the object key of an uploaded attachment. The random part and
    the clock are inputs: `rand` stands for the eight `random.choice` draws, `today` for
    `datetime.now()`, and `lookup` for the value `frappe.db.get_value` gave for the parent's
    `s3_folder_path` (None when the lookup failed or the value was None). */
module Keys {
  import opened Base
  import opened Text
  import opened Sanitizer

  /** One character of `string.ascii_uppercase + string.digits`. */
  predicate IsDisambiguatorChar(c: char) {
    ('A' <= c <= 'Z') || ('0' <= c <= '9')
  }

  predicate IsDisambiguator(s: string) {
    |s| == 8 && forall i :: 0 <= i < |s| ==> IsDisambiguatorChar(s[i])
  }

  /** The eight random characters that keep keys of same-day, same-name uploads apart. */
  type Disambiguator = s: string | IsDisambiguator(s) witness "00000000"

  datatype Date = Date(year: int, month: int, day: int)

  /** A calendar date whose `%Y` rendering has four digits. */
  predicate ValidDate(d: Date) {
    1000 <= d.year <= 9999 && 1 <= d.month <= 12 && 1 <= d.day <= 31
  }

  type CalendarDate = d: Date | ValidDate(d) witness Date(2000, 1, 1)

  predicate IsDigit(c: char) {
    '0' <= c <= '9'
  }

  /** The number a decimal digit stands for. */
  function DigitValue(c: char): int {
    c as int - '0' as int
  }

  function DigitChar(n: int): (c: char)
    requires 0 <= n < 10
    ensures IsDigit(c) && DigitValue(c) == n
  {
    ('0' as int + n) as char
  }

  /** `strftime("%m")` and `strftime("%d")`: two digits, zero-padded, that read back as `n`. */
  function Pad2(n: int): (r: string)
    requires 0 <= n < 100
    ensures |r| == 2 && IsDigit(r[0]) && IsDigit(r[1])
    ensures DigitValue(r[0]) * 10 + DigitValue(r[1]) == n
  {
    [DigitChar(n / 10), DigitChar(n % 10)]
  }

  /** `strftime("%Y")` of a four-digit year: four digits that read back as `n`. */
  function Pad4(n: int): (r: string)
    requires 1000 <= n <= 9999
    ensures |r| == 4 && forall i :: 0 <= i < 4 ==> IsDigit(r[i])
    ensures DigitValue(r[0]) * 1000 + DigitValue(r[1]) * 100 + DigitValue(r[2]) * 10 + DigitValue(r[3]) == n
  {
    Pad2(n / 100) + Pad2(n % 100)
  }

  function YearText(d: CalendarDate): string { Pad4(d.year) }
  function MonthText(d: CalendarDate): string { Pad2(d.month) }
  function DayText(d: CalendarDate): string { Pad2(d.day) }

  /** `year + "/" + month + "/" + day` */
  function DatePath(d: CalendarDate): (r: string)
    ensures |r| == 10 && r[4] == '/' && r[7] == '/'
  {
    YearText(d) + "/" + MonthText(d) + "/" + DayText(d)
  }

  /** The override path after `rstrip('/').lstrip('/')`; "" when the lookup gave nothing
      (the try/except leaves `doc_path` None then). */
  function DocPath(lookup: Option<string>): (r: string)
    ensures r == [] || (r[0] != '/' && r[|r| - 1] != '/')
    ensures lookup.None? ==> r == ""
    ensures lookup.Some? ==> exists a: nat, b: nat :: lookup.value == Repeat('/', a) + r + Repeat('/', b)
  {
    match lookup
    case None => ""
    case Some(p) =>
      var right := RStrip(p, '/');
      var both := LStrip(right, '/');
      assert both != [] ==> both[|both| - 1] == right[|right| - 1];
      var a, b := |right| - |both|, |p| - |right|;
      assert p == Repeat('/', a) + both + Repeat('/', b);
      both
  }

  /** The last path component of every general key: `key + "_" + file_name`. */
  function KeyLeaf(rand: Disambiguator, fileName: string): string {
    rand + "_" + SanitizedName(fileName)
  }

  /** The directory part of the key, by priority: the override path, else folder + date +
      optional doctype, else date + doctype. None where the source concatenates None. */
  function KeyDirectory(folder: Option<string>, parentDoctype: Option<string>, lookup: Option<string>,
                        today: CalendarDate): Option<string>
  {
    var docPath := DocPath(lookup);
    if docPath != "" then
      Some(docPath)
    else if Truthy(folder) then
      if Truthy(parentDoctype) then Some(folder.value + "/" + DatePath(today) + "/" + parentDoctype.value)
      else Some(folder.value + "/" + DatePath(today))
    else if parentDoctype.Some? then
      Some(DatePath(today) + "/" + parentDoctype.value)
    else
      None
  }

  /** The key `key_generator` returns: every branch of the source ends with
      `"/" + key + "_" + file_name`. It fails (the source concatenates None) exactly when there
      is no override path, no folder and no parent doctype. */
  function KeyGenerator(folder: Option<string>, fileName: string, parentDoctype: Option<string>,
                        lookup: Option<string>, rand: Disambiguator, today: CalendarDate): (r: Result<string>)
    ensures r.Err? <==> DocPath(lookup) == "" && !Truthy(folder) && parentDoctype.None?
    ensures r.Err? ==> r.error == TypeError
  {
    match KeyDirectory(folder, parentDoctype, lookup, today)
    case None => Err(TypeError)
    case Some(dir) => Ok(dir + "/" + KeyLeaf(rand, fileName))
  }

  /** The three-way priority: a non-empty trimmed override path wins and no date appears;
      else folder + date + doctype (the doctype only when given); else date + doctype. */
  lemma KeyGeneratorPriority(folder: Option<string>, fileName: string, parentDoctype: Option<string>,
                             lookup: Option<string>, rand: Disambiguator, today: CalendarDate)
    ensures var r := KeyGenerator(folder, fileName, parentDoctype, lookup, rand, today);
            var leaf := rand + "_" + SanitizedName(fileName);
            && (DocPath(lookup) != "" ==> r == Ok(DocPath(lookup) + "/" + leaf))
            && (DocPath(lookup) == "" && Truthy(folder) && Truthy(parentDoctype) ==>
                  r == Ok(folder.value + "/" + DatePath(today) + "/" + parentDoctype.value + "/" + leaf))
            && (DocPath(lookup) == "" && Truthy(folder) && !Truthy(parentDoctype) ==>
                  r == Ok(folder.value + "/" + DatePath(today) + "/" + leaf))
            && (DocPath(lookup) == "" && !Truthy(folder) && parentDoctype.Some? ==>
                  r == Ok(DatePath(today) + "/" + parentDoctype.value + "/" + leaf))
  {
  }

  /** Whatever branch is taken, the text after the last `/` is the disambiguator, `_`, and the
      sanitized name: the key ends with it and the key's other parts cannot reach into it. */
  lemma KeyEndsWithLeaf(folder: Option<string>, fileName: string, parentDoctype: Option<string>,
                        lookup: Option<string>, rand: Disambiguator, today: CalendarDate)
    requires KeyGenerator(folder, fileName, parentDoctype, lookup, rand, today).Ok?
    ensures var k := KeyGenerator(folder, fileName, parentDoctype, lookup, rand, today).value;
            && EndsWith(k, "/" + KeyLeaf(rand, fileName))
            && LastSegment(k) == KeyLeaf(rand, fileName)
            && LastSegment(k)[..8] == rand && LastSegment(k)[8] == '_'
  {
    var dir := KeyDirectory(folder, parentDoctype, lookup, today).value;
    LeafAfterDirectory(dir, rand, SanitizedName(fileName));
  }

  lemma LeafAfterDirectory(dir: string, rand: Disambiguator, name: string)
    requires '/' !in name
    ensures var leaf := rand + "_" + name;
            var k := dir + "/" + leaf;
            && EndsWith(k, "/" + leaf) && LastSegment(k) == leaf && leaf[..8] == rand && leaf[8] == '_'
  {
    var leaf := rand + "_" + name;
    assert '/' !in rand by { assert forall i :: 0 <= i < |rand| ==> IsDisambiguatorChar(rand[i]); }
    assert '/' !in leaf;
    LastSegmentAfterSlash(dir, leaf);
    var k := dir + "/" + leaf;
    assert k[|k| - |"/" + leaf|..] == "/" + leaf;
  }

  /** Two uploads that drew different disambiguators get different keys, whatever else they share. */
  lemma KeysDifferByDisambiguator(folder: Option<string>, fileName: string, parentDoctype: Option<string>,
                                  lookup: Option<string>, rand1: Disambiguator, rand2: Disambiguator,
                                  today: CalendarDate)
    requires rand1 != rand2
    requires KeyGenerator(folder, fileName, parentDoctype, lookup, rand1, today).Ok?
    ensures KeyGenerator(folder, fileName, parentDoctype, lookup, rand1, today)
         != KeyGenerator(folder, fileName, parentDoctype, lookup, rand2, today)
  {
    KeyEndsWithLeaf(folder, fileName, parentDoctype, lookup, rand1, today);
    if KeyGenerator(folder, fileName, parentDoctype, lookup, rand2, today).Ok? {
      KeyEndsWithLeaf(folder, fileName, parentDoctype, lookup, rand2, today);
    }
  }

  /** Characters a key may hold: the filename whitelist and the path separator. */
  predicate PathSafe(s: string) {
    forall i :: 0 <= i < |s| ==> IsAllowed(s[i]) || s[i] == '/'
  }

  lemma PathSafeConcat(a: string, b: string)
    requires PathSafe(a) && PathSafe(b)
    ensures PathSafe(a + b)
  {
    assert forall i :: |a| <= i < |a + b| ==> (a + b)[i] == b[i - |a|];
  }

  /** A key built from safe folder, doctype and override parts holds only safe characters: the
      date, the disambiguator and the sanitized name add none outside `[0-9a-zA-Z._-/]`. */
  lemma KeyIsPathSafe(folder: Option<string>, fileName: string, parentDoctype: Option<string>,
                      lookup: Option<string>, rand: Disambiguator, today: CalendarDate)
    requires folder.Some? ==> PathSafe(folder.value)
    requires parentDoctype.Some? ==> PathSafe(parentDoctype.value)
    requires lookup.Some? ==> PathSafe(lookup.value)
    requires KeyGenerator(folder, fileName, parentDoctype, lookup, rand, today).Ok?
    ensures PathSafe(KeyGenerator(folder, fileName, parentDoctype, lookup, rand, today).value)
  {
    LeafIsPathSafe(rand, SanitizedName(fileName));
    DirectoryIsPathSafe(folder, parentDoctype, lookup, today);
    var dir := KeyDirectory(folder, parentDoctype, lookup, today).value;
    PathSafeConcat(dir, "/");
    PathSafeConcat(dir + "/", KeyLeaf(rand, fileName));
  }

  lemma LeafIsPathSafe(rand: Disambiguator, name: string)
    requires AllAllowed(name)
    ensures PathSafe(rand + "_" + name)
  {
    assert PathSafe(rand) by { assert forall i :: 0 <= i < |rand| ==> IsDisambiguatorChar(rand[i]); }
    PathSafeConcat(rand, "_");
    PathSafeConcat(rand + "_", name);
  }

  lemma DocPathIsPathSafe(lookup: Option<string>)
    requires lookup.Some? ==> PathSafe(lookup.value)
    ensures PathSafe(DocPath(lookup))
  {
    if lookup.Some? {
      var p := lookup.value;
      var right := RStrip(p, '/');
      assert right == p[..|right|];
      assert PathSafe(right);
      var both := LStrip(right, '/');
      assert both == right[|right| - |both|..];
    }
  }

  lemma DirectoryIsPathSafe(folder: Option<string>, parentDoctype: Option<string>, lookup: Option<string>,
                            today: CalendarDate)
    requires folder.Some? ==> PathSafe(folder.value)
    requires parentDoctype.Some? ==> PathSafe(parentDoctype.value)
    requires lookup.Some? ==> PathSafe(lookup.value)
    requires KeyDirectory(folder, parentDoctype, lookup, today).Some?
    ensures PathSafe(KeyDirectory(folder, parentDoctype, lookup, today).value)
  {
    DocPathIsPathSafe(lookup);
    var date := DatePath(today);
    assert PathSafe(date);
    if DocPath(lookup) == "" {
      if Truthy(folder) {
        PathSafeConcat(folder.value, "/");
        PathSafeConcat(folder.value + "/", date);
        if Truthy(parentDoctype) {
          PathSafeConcat(folder.value + "/" + date, "/");
          PathSafeConcat(folder.value + "/" + date + "/", parentDoctype.value);
        }
      } else {
        PathSafeConcat(date, "/");
        PathSafeConcat(date + "/", parentDoctype.value);
      }
    }
  }

  /** A key built on the date scheme names the upload day unambiguously. */
  lemma DatePathInjective(d1: CalendarDate, d2: CalendarDate)
    requires DatePath(d1) == DatePath(d2)
    ensures d1 == d2
  {
    var p1, p2 := DatePath(d1), DatePath(d2);
    assert p1[..4] == YearText(d1) && p2[..4] == YearText(d2);
    assert p1[5..7] == MonthText(d1) && p2[5..7] == MonthText(d2);
    assert p1[8..] == DayText(d1) && p2[8..] == DayText(d2);
    Pad2Injective(d1.month, d2.month);
    Pad2Injective(d1.day, d2.day);
    assert Pad4(d1.year)[..2] == Pad2(d1.year / 100) && Pad4(d2.year)[..2] == Pad2(d2.year / 100);
    assert Pad4(d1.year)[2..] == Pad2(d1.year % 100) && Pad4(d2.year)[2..] == Pad2(d2.year % 100);
    Pad2Injective(d1.year / 100, d2.year / 100);
    Pad2Injective(d1.year % 100, d2.year % 100);
  }

  lemma Pad2Injective(a: int, b: int)
    requires 0 <= a < 100 && 0 <= b < 100 && Pad2(a) == Pad2(b)
    ensures a == b
  {
    assert Pad2(a)[0] == Pad2(b)[0] && Pad2(a)[1] == Pad2(b)[1];
  }

  /** The upload scenario: "Invoice #1.pdf", no parent, no override path, folder "attach",
      uploaded on 2024-03-05. */
  lemma InvoiceScenarioKey(folder: Option<string>, fileName: string, today: CalendarDate, rand: Disambiguator)
    requires folder == Some("attach") && fileName == "Invoice #1.pdf" && today == Date(2024, 3, 5)
    ensures KeyGenerator(folder, fileName, None, None, rand, today) == Ok("attach/2024/03/05/" + rand + "_Invoice_1.pdf")
  {
    KeyGeneratorPriority(folder, fileName, None, None, rand, today);
    ScenarioDatePath(today);
    InvoiceFileName();
    ScenarioGlue(DatePath(today), rand, SanitizedName(fileName));
  }

  lemma ScenarioDatePath(d: CalendarDate)
    requires d == Date(2024, 3, 5)
    ensures DatePath(d) == "2024/03/05"
  {
    assert Pad2(20) == "20" && Pad2(24) == "24" && Pad2(3) == "03" && Pad2(5) == "05";
  }

  lemma ScenarioGlue(date: string, rand: string, name: string)
    requires date == "2024/03/05" && name == "Invoice_1.pdf"
    ensures "attach" + "/" + date + "/" + (rand + "_" + name) == "attach/2024/03/05/" + rand + "_Invoice_1.pdf"
  {
  }
}
