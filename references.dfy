/** The `file_url` a migrated attachment gets, the recognisers that tell such a url from a local
    one, and the way `read_from_s3` recovers the key from it. */
module References {
  import opened Text

  /** The whitelisted method that redirects to a presigned url,
      "frappe_s3_attachment.controller.generate_file". */
  const GenerateFileMethod := "frappe_s3_attachment" + "." + "controller" + "." + "generate_file"

  const ApiMethod := "/api/method/"

  /** "/api/method/frappe_s3_attachment.controller.generate_file": the second alternative of
      the regular expression of `s3_file_regex_match`, whose dots are unescaped. */
  const RedirectPattern := ApiMethod + GenerateFileMethod

  /** The second prefix the upload hook tests (line 258). */
  const HookPrefix := RedirectPattern + "?"

  /** The literal `read_from_s3` deletes to get the key back (line 396). */
  const KeyPrefix := HookPrefix + "key="

  /** `"/api/method/{0}?key={1}".format(method, key)` */
  function PrivateFileUrl(key: string): string {
    ApiMethod + GenerateFileMethod + "?key=" + key
  }

  /** `'{}/{}/{}'.format(endpoint_url, bucket, key)` */
  function PublicFileUrl(endpoint: string, bucket: string, key: string): string {
    endpoint + "/" + bucket + "/" + key
  }

  /** The new `file_url` of a migrated file: the redirect form for a private file, the direct
      object url for a public one. */
  function FileUrl(isPrivate: bool, endpoint: string, bucket: string, key: string): (r: string)
    ensures isPrivate ==> r == KeyPrefix + key
    ensures !isPrivate ==> StartsWith(r, endpoint + "/" + bucket + "/") && r[|endpoint + "/" + bucket + "/"|..] == key
  {
    if isPrivate then
      PrivateUrlHasKeyPrefix(key);
      PrivateFileUrl(key)
    else
      var r := PublicFileUrl(endpoint, bucket, key);
      assert r == (endpoint + "/" + bucket + "/") + key;
      r
  }

  /** The url the upload hooks build and the literal `read_from_s3` strips agree. */
  lemma PrivateUrlHasKeyPrefix(key: string)
    ensures PrivateFileUrl(key) == KeyPrefix + key
  {
    assert "?key=" == "?" + "key=";
    assert ApiMethod + GenerateFileMethod + "?key=" == KeyPrefix;
  }

  /** The key `read_from_s3` reads for a private file: the prefix deleted from the given path
      (every occurrence, as `str.replace` does). A path in which the prefix does not occur, a
      bare key for instance, comes back unchanged; one in which it does gets shorter. */
  function ExtractKey(filePath: string): (r: string)
    ensures !Occurs(filePath, KeyPrefix) ==> r == filePath
    ensures Occurs(filePath, KeyPrefix) ==> |r| < |filePath|
  {
    RemoveAll(filePath, KeyPrefix)
  }

  /** Round trip: stripping the prefix from a private url gives the key back exactly when the
      prefix does not occur inside the key itself. */
  lemma ExtractKeyRoundTrip(key: string)
    ensures ExtractKey(FileUrl(true, "", "", key)) == key <==> !Occurs(key, KeyPrefix)
  {
    RemoveAllLeading(KeyPrefix, key);
  }

  /** `replace` deletes every occurrence: of a key that itself holds the prefix, only what lies
      outside the prefix is recovered. */
  lemma ExtractKeyLosesEmbeddedPrefix(key: string)
    requires key == "a" + KeyPrefix
    ensures ExtractKey(FileUrl(true, "", "", key)) == "a"
  {
    RemoveAllLeading(KeyPrefix, key);
    assert key == ['a'] + KeyPrefix;
    RemoveAllKeeps('a', KeyPrefix, KeyPrefix);
    RemoveAllLeading(KeyPrefix, "");
  }

  /** The prefixes the two recognisers test, nested in one another. */
  lemma PrefixesNest(fileUrl: string)
    ensures StartsWith(fileUrl, KeyPrefix) ==> StartsWith(fileUrl, HookPrefix)
    ensures StartsWith(fileUrl, HookPrefix) ==> StartsWith(fileUrl, RedirectPattern)
    ensures StartsWith(fileUrl, "https://s3.") ==> StartsWith(fileUrl, "https:")
  {
    if StartsWith(fileUrl, KeyPrefix) {
      assert fileUrl[..|HookPrefix|] == KeyPrefix[..|HookPrefix|];
    }
    if StartsWith(fileUrl, HookPrefix) {
      assert fileUrl[..|RedirectPattern|] == HookPrefix[..|RedirectPattern|];
    }
    if StartsWith(fileUrl, "https://s3.") {
      assert fileUrl[..6] == "https://s3."[..6];
    }
  }

  /** The early-return test of the upload hook (line 258). Whatever it skips the batch's test
      recognises too, every private url among it. */
  function UploadHookSkips(fileUrl: string): (r: bool)
    ensures r ==> S3FileRegexMatch(fileUrl)
    ensures StartsWith(fileUrl, KeyPrefix) ==> r
  {
    PrefixesNest(fileUrl);
    StartsWith(fileUrl, "https://s3.") ||
    StartsWith(fileUrl, HookPrefix)
  }

  /** `re.match` of a pattern of literal characters and unescaped `.`: a prefix of the text
      matches it character for character, a `.` matching any one character but a newline. */
  predicate MatchesAtStart(pattern: string, text: string) {
    |pattern| <= |text| &&
    forall i :: 0 <= i < |pattern| ==> (pattern[i] == '.' && text[i] != '\n') || text[i] == pattern[i]
  }

  /** What a match of the redirect alternative says about the text: it starts with the literal
      method path, whose first dot comes later. */
  lemma RedirectMatchShape(fileUrl: string)
    ensures StartsWith(fileUrl, RedirectPattern) ==> MatchesAtStart(RedirectPattern, fileUrl)
    ensures MatchesAtStart(RedirectPattern, fileUrl) ==> StartsWith(fileUrl, ApiMethod)
  {
    if StartsWith(fileUrl, RedirectPattern) {
      LiteralPrefixMatches(RedirectPattern, fileUrl);
    }
    if MatchesAtStart(RedirectPattern, fileUrl) {
      assert forall i :: 0 <= i < |ApiMethod| ==> RedirectPattern[i] == ApiMethod[i] != '.';
      assert fileUrl[..|ApiMethod|] == ApiMethod;
    }
  }

  /** `s3_file_regex_match`: `^(https:|/api/method/frappe_s3_attachment.controller.generate_file)`.
      A url starting with either literal alternative matches; one that matches starts with
      `https:` or `/api/method/`. */
  function S3FileRegexMatch(fileUrl: string): (r: bool)
    ensures StartsWith(fileUrl, "https:") || StartsWith(fileUrl, RedirectPattern) ==> r
    ensures r ==> StartsWith(fileUrl, "https:") || StartsWith(fileUrl, ApiMethod)
  {
    RedirectMatchShape(fileUrl);
    StartsWith(fileUrl, "https:") || MatchesAtStart(RedirectPattern, fileUrl)
  }

  /** A literal prefix matches the pattern: a `.` in the pattern matches itself too. */
  lemma LiteralPrefixMatches(pattern: string, text: string)
    requires StartsWith(text, pattern)
    ensures MatchesAtStart(pattern, text)
  {
    assert forall i :: 0 <= i < |pattern| ==> text[i] == text[..|pattern|][i];
  }

  /** A private url is recognised by both tests: the hook returns early and the batch skips it,
      so migrating it again does nothing. */
  lemma PrivateUrlRecognised(key: string)
    ensures UploadHookSkips(FileUrl(true, "", "", key))
    ensures S3FileRegexMatch(FileUrl(true, "", "", key))
  {
    var url := FileUrl(true, "", "", key);
    assert url[..|KeyPrefix|] == KeyPrefix;
  }

  /** A public url is recognised by both tests when the endpoint starts with `https://s3.`. */
  lemma PublicUrlRecognised(endpoint: string, bucket: string, key: string)
    requires StartsWith(endpoint, "https://s3.")
    ensures UploadHookSkips(FileUrl(false, endpoint, bucket, key))
    ensures S3FileRegexMatch(FileUrl(false, endpoint, bucket, key))
  {
    var url := FileUrl(false, endpoint, bucket, key);
    assert url[..|endpoint|] == endpoint;
    assert url[..11] == endpoint[..11];
  }

  /** The converse fails: any https url is skipped by the batch but uploaded by the hook. */
  lemma RegexMatchIsLooser(fileUrl: string)
    requires fileUrl == "https://cdn.example.com/a.pdf"
    ensures S3FileRegexMatch(fileUrl) && !UploadHookSkips(fileUrl)
  {
    assert fileUrl[..6] == "https:";
    assert fileUrl[8] != "https://s3."[8];
    assert fileUrl[0] != '/';
  }

  /** Matching works piece by piece. */
  lemma MatchesConcat(p1: string, p2: string, t1: string, t2: string)
    requires |p1| == |t1| && MatchesAtStart(p1, t1) && MatchesAtStart(p2, t2)
    ensures MatchesAtStart(p1 + p2, t1 + t2)
  {
    assert forall i :: |p1| <= i < |p1 + p2| ==> (p1 + p2)[i] == p2[i - |p1|] && (t1 + t2)[i] == t2[i - |t1|];
  }

  /** The unescaped dots match any character but a newline, so a url that is not the redirect
      method still passes for one. */
  lemma RegexDotsMatchLookalike(fileUrl: string)
    requires fileUrl == ApiMethod + "frappe_s3_attachment" + "X" + "controller" + "X" + "generate_file"
    ensures S3FileRegexMatch(fileUrl) && !StartsWith(fileUrl, RedirectPattern)
  {
    var a, b, c := "frappe_s3_attachment", "controller", "generate_file";
    LiteralPrefixMatches(ApiMethod, ApiMethod);
    LiteralPrefixMatches(a, a);
    LiteralPrefixMatches(b, b);
    LiteralPrefixMatches(c, c);
    assert MatchesAtStart(".", "X");
    MatchesConcat(ApiMethod, a, ApiMethod, a);
    MatchesConcat(ApiMethod + a, ".", ApiMethod + a, "X");
    MatchesConcat(ApiMethod + a + ".", b, ApiMethod + a + "X", b);
    MatchesConcat(ApiMethod + a + "." + b, ".", ApiMethod + a + "X" + b, "X");
    MatchesConcat(ApiMethod + a + "." + b + ".", c, ApiMethod + a + "X" + b + "X", c);
    var n := |ApiMethod + a|;
    assert fileUrl[n] == 'X' && RedirectPattern[n] == '.';
  }

  /** A newline where the pattern has a dot is not matched: such a url is not recognised. */
  lemma RegexDotRejectsNewline(fileUrl: string)
    requires StartsWith(fileUrl, ApiMethod + "frappe_s3_attachment" + "\n")
    ensures !S3FileRegexMatch(fileUrl)
  {
    var n := |ApiMethod + "frappe_s3_attachment"|;
    assert fileUrl[n] == (ApiMethod + "frappe_s3_attachment" + "\n")[n] == '\n';
    assert RedirectPattern[n] == '.';
    assert fileUrl[0] == '/';
  }

  /** The urls frappe gives local files, `/files/...` and `/private/files/...`, pass neither test. */
  lemma LocalUrlsNotRecognised(fileUrl: string)
    requires StartsWith(fileUrl, "/files/") || StartsWith(fileUrl, "/private/files/")
    ensures !UploadHookSkips(fileUrl) && !S3FileRegexMatch(fileUrl)
  {
    assert fileUrl[0] == '/';
    assert fileUrl[1] == 'f' || fileUrl[1] == 'p';
    assert RedirectPattern[1] == ApiMethod[1] == 'a';
  }

  /** Where the hooks look for the local copy: under `public` for a public file, directly under
      the site for a private one (whose url already starts with /private). */
  function LocalFilePath(sitePath: string, fileUrl: string, isPrivate: bool): (r: string)
    ensures isPrivate ==> StartsWith(r, sitePath) && r[|sitePath|..] == fileUrl
    ensures !isPrivate ==> StartsWith(r, sitePath + "/public") && r[|sitePath + "/public"|..] == fileUrl
  {
    if !isPrivate then
      var r := sitePath + "/public" + fileUrl;
      assert r[..|sitePath + "/public"|] == sitePath + "/public";
      r
    else
      sitePath + fileUrl
  }
}
