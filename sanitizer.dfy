/** `strip_special_chars`: the filename whitelist filter `[^0-9a-zA-Z._-]` -> ''. */
module Sanitizer {
  import opened Text

  /** The characters the regular expression does not delete. */
  predicate IsAllowed(c: char) {
    ('0' <= c <= '9') || ('a' <= c <= 'z') || ('A' <= c <= 'Z') || c == '.' || c == '_' || c == '-'
  }

  predicate AllAllowed(s: string) {
    forall i :: 0 <= i < |s| ==> IsAllowed(s[i])
  }

  /** Deletes every character outside the whitelist. */
  function StripSpecialChars(s: string): (r: string)
    ensures AllAllowed(r)
    ensures |r| <= |s|
  {
    if s == [] then []
    else (if IsAllowed(s[0]) then [s[0]] else []) + StripSpecialChars(s[1..])
  }

  /** The name as the key generators sanitize it: spaces become underscores first. */
  function SanitizedName(fileName: string): (r: string)
    ensures AllAllowed(r) && '/' !in r
  {
    StripSpecialChars(ReplaceChar(fileName, ' ', '_'))
  }

  /** The filter works character by character: it distributes over concatenation. */
  lemma {:induction false} StripConcat(a: string, b: string)
    ensures StripSpecialChars(a + b) == StripSpecialChars(a) + StripSpecialChars(b)
    decreases |a|
  {
    if a == [] {
      assert a + b == b;
    } else {
      assert (a + b)[0] == a[0];
      assert (a + b)[1..] == a[1..] + b;
      StripConcat(a[1..], b);
    }
  }

  /** A string of allowed characters only is left as it is. */
  lemma {:induction false} StripKeepsAllowed(s: string)
    requires AllAllowed(s)
    ensures StripSpecialChars(s) == s
    decreases |s|
  {
    if s != [] {
      assert AllAllowed(s[1..]) by { assert forall i :: 0 <= i < |s[1..]| ==> s[1..][i] == s[i + 1]; }
      StripKeepsAllowed(s[1..]);
      assert s == [s[0]] + s[1..];
    }
  }

  /** Sanitizing twice is sanitizing once. */
  lemma StripIdempotent(s: string)
    ensures StripSpecialChars(StripSpecialChars(s)) == StripSpecialChars(s)
  {
    StripKeepsAllowed(StripSpecialChars(s));
  }

  /** The empty string, and any string with no allowed character, sanitize to the empty string. */
  lemma {:induction false} StripDropsDisallowed(s: string)
    requires forall i :: 0 <= i < |s| ==> !IsAllowed(s[i])
    ensures StripSpecialChars(s) == []
    decreases |s|
  {
    if s != [] {
      assert forall i :: 0 <= i < |s[1..]| ==> s[1..][i] == s[i + 1];
      StripDropsDisallowed(s[1..]);
    }
  }

  /** Every allowed character keeps its number of occurrences; no other character survives. */
  lemma {:induction false} StripCounts(s: string, c: char)
    ensures multiset(StripSpecialChars(s))[c] == if IsAllowed(c) then multiset(s)[c] else 0
    decreases |s|
  {
    if s != [] {
      StripCounts(s[1..], c);
      assert s == [s[0]] + s[1..];
      assert multiset(s) == multiset([s[0]]) + multiset(s[1..]);
      var head := if IsAllowed(s[0]) then [s[0]] else [];
      assert multiset(StripSpecialChars(s)) == multiset(head) + multiset(StripSpecialChars(s[1..]));
    }
  }

  /** Order is kept: an allowed character at position i lands between the sanitized text before
      and after it. */
  lemma StripAtAllowed(s: string, i: nat)
    requires i < |s| && IsAllowed(s[i])
    ensures StripSpecialChars(s) == StripSpecialChars(s[..i]) + [s[i]] + StripSpecialChars(s[i + 1..])
  {
    assert s == s[..i] + ([s[i]] + s[i + 1..]);
    StripConcat(s[..i], [s[i]] + s[i + 1..]);
    StripConcat([s[i]], s[i + 1..]);
    assert StripSpecialChars([s[i]]) == [s[i]];
  }

  /** A space between two whitelisted parts becomes `_`; a disallowed character is dropped. */
  lemma SanitizedNameJoin(a: string, c: char, b: string)
    requires AllAllowed(a) && AllAllowed(b) && !IsAllowed(c) && c != ' '
    ensures SanitizedName(a + [' ', c] + b) == a + "_" + b
  {
    assert ' ' !in a && ' ' !in b;
    ReplaceCharConcat(a + [' ', c], b, ' ', '_');
    ReplaceCharConcat(a, [' ', c], ' ', '_');
    assert ReplaceChar([' ', c], ' ', '_') == ['_', c];
    assert ReplaceChar(a, ' ', '_') == a && ReplaceChar(b, ' ', '_') == b;
    assert ReplaceChar(a + [' ', c] + b, ' ', '_') == a + ['_', c] + b;
    StripConcat(a + ['_', c], b);
    StripConcat(a, ['_', c]);
    StripKeepsAllowed(a);
    StripKeepsAllowed(b);
    assert StripSpecialChars(['_', c]) == "_";
  }

  /** The file name of the upload scenario: the space becomes `_`, the `#` is dropped. */
  lemma InvoiceFileName()
    ensures SanitizedName("Invoice #1.pdf") == "Invoice_1.pdf"
  {
    var name := "Invoice" + [' ', '#'] + "1.pdf";
    assert name == "Invoice #1.pdf";
    SanitizedNameJoin("Invoice", '#', "1.pdf");
    assert SanitizedName(name) == "Invoice_1.pdf";
  }
}
