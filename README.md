# frappe_s3_attachment: keys and references, modelled in Dafny

This project models the core of the `frappe_s3_attachment` app. The app moves a Frappe site's
`File` attachments into an S3 bucket and rewrites each record's `file_url` so that it
points at the stored object. The modelled core is `frappe_s3_attachment/controller.py`:

- how an object key is built: the file-name sanitizer, `key_generator` with its three-way
  priority, and the deterministic voucher key;
- the two forms of the new `file_url`: the private redirect through `generate_file`, and the
  public `endpoint/bucket/key`;
- the inverse in `read_from_s3`, which strips the prefix to recover the key;
- the two recognisers of already-migrated references, which the upload hook and the batch use
  to skip work;
- the policy rules: presigned expiry, the delete switch, and the empty `content_hash` guard;
- the hooks that move files: `file_upload_to_s3`, `upload_existing_files_s3` and the
  `migrate_existing_files` loop, plus the two delete hooks and the voucher PDF upload and
  delete.

Modules:

- `Base`: `Option`, `Result`, the exceptions the source raises, and Python truthiness of an
  optional string.
- `Text`: the Python string operations the source uses. These are `replace` of one character
  and `replace(pat, '')`, which scans left to right without overlaps, plus
  `lstrip`/`rstrip`.
- `Sanitizer`: `strip_special_chars`, the `[^0-9a-zA-Z._-]` filter.
- `Keys`: `key_generator`. The random 8-character draw, today's date and the parent's
  `s3_folder_path` lookup are inputs.
- `Vouchers`: `generate_voucher_pdf_key` and `get_voucher_file_details`.
- `References`: the `file_url` forms, the recognisers, the local path of a `file_url`, and
  the key extraction of `read_from_s3`.
- `S3`: the `S3Operations` class. Its fields are set in the constructor. `get_url` updates
  the expiry field and `delete_from_s3` re-reads the settings. Each boto3 call is
  represented by the request it would send: `PutObject`, `DeleteObject`, `GetObject`,
  `PresignedGet`.
- `Hooks`: the hooks, and a class `Site` holding three things:
  - the `tabFile` records by name;
  - the set of local files that exist;
  - the stored objects by (bucket, key).

  Each hook is a method whose new state equals a specification function of the old state.
  Lemmas about those functions state what the hooks promise:
  - consistency after a migration: no record the batch rewrites refers to a missing object, no object is lost, and a site without dangling references keeps none;
  - abort at the first failure in the batch;
  - re-running the migration is a no-op for private records, and for public ones when the endpoint is an `https:` url; behind an `http:` endpoint the rerun selects the migrated public records again and aborts;
  - a delete removes exactly the object that the upload stored.

Inputs the source takes from its surroundings are parameters of the model. They are:
`random.choice`, `datetime.now`, the `s3_folder_path` lookup, libmagic's MIME verdict, whether
the store accepts an upload or a delete, the client's endpoint url, and the site path.

## Model

| member | source | states |
|---|---|---|
| `Text.ReplaceChar` | frappe_s3_attachment/controller.py:52 | every occurrence of the character is replaced, every other character is kept, and the length is unchanged |
| `Text.RemoveAll` | frappe_s3_attachment/controller.py:395-396 | `replace(pat, '')` leaves a text in which the pattern does not occur unchanged, and makes a text in which it occurs strictly shorter |
| `Text.LStrip` | frappe_s3_attachment/controller.py:72 | the input is some run of the stripped character followed by the result, which does not start with that character |
| `Text.RStrip` | frappe_s3_attachment/controller.py:72 | the input is the result followed by some run of the stripped character, and the result does not end with that character |
| `Text.RemoveAllLeading` | frappe_s3_attachment/controller.py:395-396 | `replace(pat, '')` deletes an occurrence at the front and carries on with the rest |
| `Text.RemoveAllAbsent` | frappe_s3_attachment/controller.py:395-396 | `replace(pat, '')` leaves a text unchanged when one of the pattern's characters does not occur in it |
| `Sanitizer.StripSpecialChars` | frappe_s3_attachment/controller.py:182-188 | the output contains only characters of `[0-9a-zA-Z._-]` and is no longer than the input |
| `Sanitizer.StripConcat` | frappe_s3_attachment/controller.py:186-187 | the filter distributes over concatenation |
| `Sanitizer.StripKeepsAllowed` | frappe_s3_attachment/controller.py:186-187 | a string of allowed characters passes through unchanged |
| `Sanitizer.StripIdempotent` | frappe_s3_attachment/controller.py:182-188 | filtering twice is filtering once |
| `Sanitizer.StripDropsDisallowed` | frappe_s3_attachment/controller.py:186-187 | the empty string, and any string of only disallowed characters, map to the empty string |
| `Sanitizer.StripCounts` | frappe_s3_attachment/controller.py:186-187 | each allowed character occurs in the output exactly as often as in the input; each disallowed one never occurs |
| `Sanitizer.StripAtAllowed` | frappe_s3_attachment/controller.py:186-187 | an allowed character stays in place between the filtered parts before and after it, so order is kept |
| `Sanitizer.SanitizedName` | frappe_s3_attachment/controller.py:52-53 | the key's file-name part has only whitelisted characters and no `/` |
| `Sanitizer.SanitizedNameJoin` | frappe_s3_attachment/controller.py:52-53 | a space followed by a dropped character becomes a single `_` between the allowed parts |
| `Sanitizer.InvoiceFileName` | frappe_s3_attachment/controller.py:52-53 | "Invoice #1.pdf" becomes "Invoice_1.pdf" |
| `Keys.DigitChar` | frappe_s3_attachment/controller.py:60-62 | the character is a decimal digit and reads back as the number |
| `Keys.Pad2` | frappe_s3_attachment/controller.py:61-62 | `%m` and `%d` are two digits that read back as the month or day |
| `Keys.Pad4` | frappe_s3_attachment/controller.py:60 | `%Y` is four digits that read back as the year |
| `Keys.DatePath` | frappe_s3_attachment/controller.py:59-62 | `Y/M/D` is 10 characters with `/` at positions 4 and 7 |
| `Keys.DatePathInjective` | frappe_s3_attachment/controller.py:59-62 | different dates give different `Y/M/D` paths |
| `Keys.Pad2Injective` | frappe_s3_attachment/controller.py:61-62 | different months or days give different two-digit texts |
| `Keys.DocPath` | frappe_s3_attachment/controller.py:64-74 | a failed lookup gives the empty path; a value found is the result with runs of `/` around it, and the result neither starts nor ends with `/` |
| `Keys.KeyGenerator` | frappe_s3_attachment/controller.py:48-92 | the key fails, with the source's TypeError, exactly when there is no override path, no folder and no parent doctype |
| `Keys.KeyGeneratorPriority` | frappe_s3_attachment/controller.py:76-92 | override path wins, with no date; else `folder/Y/M/D/[doctype/]rand_name` (the doctype only when truthy); else `Y/M/D/doctype/rand_name` |
| `Keys.KeyEndsWithLeaf` | frappe_s3_attachment/controller.py:52-91 | every key ends with `/rand_name`; its last segment is exactly the 8-character draw, `_`, and the sanitized name |
| `Keys.KeysDifferByDisambiguator` | frappe_s3_attachment/controller.py:54-57 | two uploads with different draws get different keys |
| `Keys.KeyIsPathSafe` | frappe_s3_attachment/controller.py:52-91 | when folder, doctype and override path are path-safe, so is the key |
| `Keys.InvoiceScenarioKey` | frappe_s3_attachment/controller.py:83-85 | folder "attach", no doctype and 2024-03-05 give `attach/2024/03/05/<rand>_Invoice_1.pdf` |
| `Vouchers.VoucherStem` | frappe_s3_attachment/controller.py:191 | the voucher file-name part has only whitelisted characters and no `/` |
| `Vouchers.GenerateVoucherPdfKey` | frappe_s3_attachment/controller.py:190-197 | fails with TypeError exactly when the folder is None; otherwise the last segment is the stem of the file name |
| `Vouchers.PdfBaseName` | frappe_s3_attachment/controller.py:200-201 | read character by character, a voucher name loses its spaces and has `/` turned into `-`; a name with neither is kept |
| `Vouchers.SpacesThenSlashes` | frappe_s3_attachment/controller.py:201 | removing the spaces and then turning `/` into `-` is the character-wise reading `PdfBaseName` |
| `Vouchers.VoucherFileDetails` | frappe_s3_attachment/controller.py:199-203 | the file name is `PdfBaseName(voucher name) + ".pdf"` (the name itself followed by `.pdf` when it has no space and no `/`), and the path is `/tmp/` + file name |
| `Vouchers.RemoveCharGone` | frappe_s3_attachment/controller.py:201 | after removing every space, none is left |
| `Vouchers.PdfBaseNameConcat` | frappe_s3_attachment/controller.py:200-201 | the file-name reading works piecewise over concatenation |
| `Vouchers.VoucherKey` | frappe_s3_attachment/controller.py:219-246 | with no folder the key fails with TypeError; otherwise it is `folder/Y/M/Doctype_/stem(file name)`: the `/tmp/` of the path passed in vanishes |
| `Vouchers.TmpPathStem` | frappe_s3_attachment/controller.py:191 | the stem of `/tmp/` + name equals the stem of the name |
| `Vouchers.VoucherKeyIgnoresSpaces` | frappe_s3_attachment/controller.py:200-201 | "A B" and "AB" collide on one key |
| `Vouchers.VoucherKeySlashIsDash` | frappe_s3_attachment/controller.py:200-201 | "A/B" and "A-B" collide on one key |
| `Vouchers.TmpRemovalIsSinglePass` | frappe_s3_attachment/controller.py:191 | `replace('tmp', '')` is one pass: "ttmpmp.pdf" keeps a `tmp` |
| `Vouchers.SalesInvoiceScenarioKey` | frappe_s3_attachment/controller.py:190-197 | ("Sales Invoice", 2021-10-01, "vouchers", "tmpAB12.pdf") gives `vouchers/2021/10/Sales_Invoice/AB12.pdf` |
| `References.FileUrl` | frappe_s3_attachment/controller.py:276-284 | private: the redirect prefix then the key; public: `endpoint/bucket/` then exactly the key |
| `References.PrivateUrlHasKeyPrefix` | frappe_s3_attachment/controller.py:276-278 | the private reference is the `generate_file?key=` prefix followed by the key |
| `References.ExtractKey` | frappe_s3_attachment/controller.py:394-396 | a path in which the stripped prefix does not occur comes back unchanged; one in which it occurs gets shorter |
| `References.ExtractKeyRoundTrip` | frappe_s3_attachment/controller.py:394-396 | removing the prefix from a private reference gives back the key exactly when the prefix does not occur inside the key |
| `References.ExtractKeyLosesEmbeddedPrefix` | frappe_s3_attachment/controller.py:394-396 | for the key "a" + prefix only "a" is recovered, because `replace` removes every occurrence |
| `References.UploadHookSkips` | frappe_s3_attachment/controller.py:258-259 | every url the hook skips is matched by the batch regex, and every private reference is skipped |
| `References.S3FileRegexMatch` | frappe_s3_attachment/controller.py:347-354 | a url starting with `https:` or with the literal redirect path matches; a matching url starts with `https:` or `/api/method/` |
| `References.PrivateUrlRecognised` | frappe_s3_attachment/controller.py:258-259 | a private reference makes the upload hook return early and is matched by the batch regex |
| `References.PublicUrlRecognised` | frappe_s3_attachment/controller.py:280-284 | a public reference through an `https://s3.` endpoint is recognised by both tests |
| `References.RegexMatchIsLooser` | frappe_s3_attachment/controller.py:347-354 | a non-S3 `https:` url is matched by the regex but not skipped by the hook |
| `References.RegexDotsMatchLookalike` | frappe_s3_attachment/controller.py:352 | the unescaped dots match any character but a newline, so a look-alike path with `X` for each dot is matched |
| `References.RegexDotRejectsNewline` | frappe_s3_attachment/controller.py:352 | a newline where the pattern has a dot is not matched |
| `References.LocalUrlsNotRecognised` | frappe_s3_attachment/controller.py:347-354 | `/files/` and `/private/files/` urls are neither skipped by the hook nor matched by the regex |
| `References.LocalFilePath` | frappe_s3_attachment/controller.py:266-269 | a public file is under `site/public`, a private one under the site path, followed by the url |
| `S3.SignedUrlExpiry` | frappe_s3_attachment/controller.py:169-172 | the configured expiry when it is truthy, else 120 seconds; never zero |
| `S3.PutRequest` | frappe_s3_attachment/controller.py:104-127 | bucket, key, path and content type are the given ones; `public-read` ACL exactly for public files; the metadata holds exactly `ContentType` and, for a private file, `file_name` with the file name |
| `S3.UploadKey` | frappe_s3_attachment/controller.py:102 | a truthy key passed in wins, otherwise the generator's key or its exception |
| `S3.UploadOutcome` | frappe_s3_attachment/controller.py:94-131 | succeeds exactly when the MIME check succeeds, a key exists and the store accepts; a missing file is FileNotFound, a generator exception propagates, a rejected upload is FileUploadFailed |
| `S3.S3Operations.constructor` | frappe_s3_attachment/controller.py:22-46 | credentials, bucket and folder come from the settings; a client with explicit credentials only when both key and secret are set |
| `S3.S3Operations.UploadFilesToS3WithKey` | frappe_s3_attachment/controller.py:94-131 | the upload sent, or the exception raised, is `UploadOutcome` on the object's bucket and folder |
| `S3.S3Operations.DeleteFromS3` | frappe_s3_attachment/controller.py:133-154 | the settings are re-read; a delete is sent exactly when `delete_file_from_cloud` is set, through a client with the region and bucket of the fresh settings |
| `S3.S3Operations.ReadFileFromS3` | frappe_s3_attachment/controller.py:156-160 | the read names the object's bucket and the given key |
| `S3.S3Operations.GetUrl` | frappe_s3_attachment/controller.py:162-180 | sets the expiry field to the configured value or 120, and presigns the key for that long |
| `Hooks.SqlUpdate` | frappe_s3_attachment/controller.py:286-288 | the `UPDATE` changes only the named row, when there is one, setting its url, folder, old parent and content hash |
| `Hooks.Rewrite` | frappe_s3_attachment/controller.py:266-289 | never skips; succeeds exactly when the local file exists, the generator gives a key and the store accepts; a failure changes nothing and names its cause; a success stores `PutRequest` of the local file (its ACL and metadata) under the generated key, removes the local file and points the record at `FileUrl(key)` |
| `Hooks.UploadHook` | frappe_s3_attachment/controller.py:252-289 | skips, changing nothing, exactly for a recognised url, missing credentials or an excluded parent doctype; otherwise it is the upload and rewrite of `Rewrite` |
| `Hooks.UploadExisting` | frappe_s3_attachment/controller.py:307-344 | skips, changing nothing, exactly when no record has the name; a stored record is migrated by `Rewrite` with none of the hook's tests |
| `Hooks.Selected` | frappe_s3_attachment/controller.py:366-368 | a selected row is never one the upload hook would skip, and every local `/files/` or `/private/files/` url is selected |
| `Hooks.Batch` | frappe_s3_attachment/controller.py:358-370 | no record appears or vanishes, no local file appears, no object is lost, and a listing with no selected row changes nothing |
| `Hooks.ReadFromS3Key` | frappe_s3_attachment/controller.py:387-403 | "File not found" when no record is found; the key comes from the reference for a private record, from the content hash for a public one |
| `Hooks.DeleteKey` | frappe_s3_attachment/controller.py:133-154 | a delete is sent exactly when deletion is enabled and not refused; a refusal is AccessDenied; only that object goes, and records and disk are untouched |
| `Hooks.DeleteHook` | frappe_s3_attachment/controller.py:373-377 | nothing happens with an empty `content_hash` or with deletion disabled; otherwise it is `delete_from_s3` of the content hash |
| `Hooks.VoucherDelete` | frappe_s3_attachment/controller.py:242-248 | with no folder the key computation raises TypeError; otherwise the delete is `delete_from_s3` of the voucher key, which is never empty |
| `Hooks.VoucherUploadBody` | frappe_s3_attachment/controller.py:211-240 | the `/tmp` file is gone afterwards and no record changes; the upload succeeds exactly when a folder is set and the store accepts, returning the reference to the voucher key; the store then changes only in the object under that key, which is `PutRequest` of the `/tmp` file; a failure is TypeError or FileUploadFailed and stores nothing |
| `Hooks.PutVoucher` | frappe_s3_attachment/controller.py:217-235 | with the key known, the upload goes through exactly when the store accepts; it then stores `PutRequest` of the `/tmp` file under that key, changes no other object and returns the reference to the key; a refusal is FileUploadFailed and changes nothing |
| `Hooks.VoucherUploadAsWritten` | frappe_s3_attachment/controller.py:205-240 | without credentials the code as written raises UnboundLocalError; with them it equals the intended upload |
| `Hooks.VoucherUpload` | frappe_s3_attachment/controller.py:205-240 | without credentials it returns None and changes nothing; with them the `/tmp` file is gone afterwards and the result and new state are those of `VoucherUploadBody`, so a reference is returned exactly when a folder is set and the store accepts |
| `Hooks.RewriteKeyLeaf` | frappe_s3_attachment/controller.py:270-274 | the uploaded key ends with the record's draw, `_`, and its sanitized name |
| `Hooks.MigrationTransitive` | frappe_s3_attachment/controller.py:366-370 | consecutive migrations compose |
| `Hooks.RewriteMigrates` | frappe_s3_attachment/controller.py:276-288 | after a migration every changed record is the same file and refers to an object in the store; no record or object is lost |
| `Hooks.UploadExistingMigrates` | frappe_s3_attachment/controller.py:307-342 | the same for `upload_existing_files_s3` |
| `Hooks.BatchMigrates` | frappe_s3_attachment/controller.py:358-370 | whatever the batch achieves before it stops, no record it rewrites refers to a missing object and no object is lost |
| `Hooks.BatchKeepsReferences` | frappe_s3_attachment/controller.py:358-370 | if every record with a content hash refers to an object in the store before the batch, the same holds after it, completed or aborted |
| `Hooks.ReferenceMatches` | frappe_s3_attachment/controller.py:347-354 | a reference the migration writes matches the batch regex when it is private or the endpoint starts with `https:` |
| `Hooks.BatchMatchesSelected` | frappe_s3_attachment/controller.py:358-370 | for selected records that are private, or public when the endpoint starts with `https:`: after a completed run each has a url the batch regex matches |
| `Hooks.ReferenceRecognised` | frappe_s3_attachment/controller.py:276-284 | each reference the migration writes is recognised by both tests (a public one when the endpoint is `https://s3.`) |
| `Hooks.UploadHookIdempotent` | frappe_s3_attachment/controller.py:256-259 | for a private record, or a public one when the endpoint starts with `https://s3.`: on the state after a migration, the upload hook skips the migrated record, whether given the updated document or the stored record |
| `Hooks.MigratedPrivateKeyRecovered` | frappe_s3_attachment/controller.py:394-396 | `read_from_s3` recovers the key from a migrated private record's reference exactly when the stripped prefix does not occur inside the key |
| `Hooks.ReadMigratedRecord` | frappe_s3_attachment/controller.py:387-401 | reading a migrated record by its own reference names the object it refers to: always for a public record, for a private one when the stripped prefix does not occur inside its key |
| `Hooks.BatchConcat` | frappe_s3_attachment/controller.py:366-370 | the loop over `a + b` is the loop over `a` followed, if it completed, by the loop over `b` |
| `Hooks.BatchStopsAtFirstFailure` | frappe_s3_attachment/controller.py:366-370 | no per-record isolation: the first failing row ends the run with its error, and no later row is looked at |
| `Hooks.BatchFrame` | frappe_s3_attachment/controller.py:366-369 | only records named by a selected row change |
| `Hooks.BatchRecognisesSelected` | frappe_s3_attachment/controller.py:358-370 | when the endpoint starts with `https://s3.`: after a completed run every selected record has a url both recognisers accept |
| `Hooks.BatchRerunIsNoOp` | frappe_s3_attachment/controller.py:358-370 | for selected records that are private, or public when the endpoint starts with `https:`: re-running the migration over the new listing of the same records does nothing |
| `Hooks.HttpReferenceUnmatched` | frappe_s3_attachment/controller.py:347-354 | a public reference behind an `http:` endpoint is not matched by the batch's regex |
| `Hooks.RerunAbortsOnHttpEndpoint` | frappe_s3_attachment/controller.py:319-370 | behind an `http:` endpoint, a completed migration of a public record is followed by a rerun that selects it again and aborts with "File not found" |
| `Hooks.FirstRowRecognised` | frappe_s3_attachment/controller.py:358-370 | a first row migrated behind an `https://s3.` endpoint keeps a url both recognisers accept through the rest of the run |
| `Hooks.UploadThenDelete` | frappe_s3_attachment/controller.py:373-377 | deleting a migrated record removes exactly the object its migration stored |
| `Hooks.VoucherUploadAsWrittenRaises` | frappe_s3_attachment/controller.py:205-240 | without credentials the code as written raises UnboundLocalError, where the intended behaviour returns None and changes nothing |
| `Hooks.VoucherUploadThenDelete` | frappe_s3_attachment/controller.py:219-248 | upload (line 219) and delete (line 246) compute one key. After an upload the `/tmp` copy is gone and the object exists; the delete removes exactly that object |
| `Hooks.Site.UploadAndRewrite` | frappe_s3_attachment/controller.py:266-289 | the new site state and outcome are `Rewrite` of the old state |
| `Hooks.Site.FileUploadToS3` | frappe_s3_attachment/controller.py:252-289 | the new site state and outcome are `UploadHook` of the old state |
| `Hooks.Site.UploadExistingFilesS3` | frappe_s3_attachment/controller.py:307-344 | the new site state and outcome are `UploadExisting` of the old state |
| `Hooks.Site.MigrateExistingFiles` | frappe_s3_attachment/controller.py:358-370 | the loop's result and new state are `Batch` of the old state |
| `Hooks.Site.DeleteFromS3` | frappe_s3_attachment/controller.py:133-154 | the store changes as `DeleteKey` says |
| `Hooks.Site.DeleteFromCloud` | frappe_s3_attachment/controller.py:373-377 | the store changes as `DeleteHook` says |
| `Hooks.Site.DeleteVoucherPdfFromS3` | frappe_s3_attachment/controller.py:242-248 | the store changes as `VoucherDelete` says: the key is recomputed as the upload computed it |
| `Hooks.Site.UploadVoucherPdfToS3` | frappe_s3_attachment/controller.py:205-240 | the state and result are the corrected `VoucherUpload`. The PDF is written to `/tmp`, uploaded under the voucher key and removed whatever happens |

## Left out

- boto3 itself is not modelled: client construction, the network, `meta.endpoint_url`. The
  endpoint is a parameter. Whether the store accepts an upload or refuses a delete is an
  input. A refused delete surfaces as the "Access denied" exception.
- `magic.from_file` is an input function on the local path. It is consulted only when the
  file exists; a missing file is the exception libmagic raises.
- `frappe.get_print`, PyPDF2 and the rendered PDF's bytes are not modelled. The voucher
  upload only records that its `/tmp` file exists until `cleanup` removes it. An IOError
  while writing it, which the source logs and swallows, is not modelled.
- The frappe database is reduced to a map from record name to record:
  - `get_doc`, `get_value` and the raw `UPDATE` become map lookups and updates;
  - `commit` is not modelled;
  - `read_from_s3`'s query over `name` or `file_name` is an input: the record it found,
    if any.
- The `get_all` listing of `migrate_existing_files` is an input, with a predicate
  (`Listing`) for what it must be: distinct names of records admitted by the doctype
  filter, with their current url and file name. The `not in` filter is taken to admit
  records with no parent doctype, as frappe's filter translation does.
- `random.choice`, `datetime.now` and `strptime` are inputs. The year is limited to
  1000..9999, so `%Y` is four digits. A posting date passed as text, which line 194 parses,
  is taken as already parsed.
- `generate_file`'s response-dict mutation, `ping`, the whitelisting decorators, `print`
  and `frappe.log_error` are not modelled. The patch
  `frappe_s3_attachment/patches/v1/seed_sales_voucher_pdf_url.py` is not part of this
  model.
- A `file_url` of None, on records that are folders, raises in the hook. Here every
  `file_url` is a string.
- `aws_secret` is `get_password`'s result, an input like the other settings. An unset text
  setting is the empty string and an unset expiry time is 0. An unset `folder_name` is None,
  modelled because the key functions concatenate it.
- Hooks.BatchRerunIsNoOp: the no-op rerun is promised only for private records, or public ones behind an `https:` endpoint. Behind an `http:` endpoint a migrated public record's url fails the regex of lines 347-354, and a rerun aborts with "File not found" (`Hooks.RerunAbortsOnHttpEndpoint`).
- Concurrency between hooks, an `os.remove` that fails after the upload, and transaction
  rollback are not modelled.

## Findings

| source | as written | input that shows it | evidently intended | confidence | as-written member | corrected member |
|---|---|---|---|---|---|---|
| frappe_s3_attachment/controller.py:208-240 | with missing AWS key or secret, the `return` at line 209 runs the `finally` at line 240. That reads `file_path`, which line 212 has not yet assigned, so the call raises UnboundLocalError | any voucher, with settings whose `aws_key` is empty | return None and leave the site untouched, as `file_upload_to_s3` does in the same situation (line 260) | not executed | `Hooks.VoucherUploadAsWrittenRaises` | `Hooks.VoucherUpload` |

The batch `migrate_existing_files` has no per-record error handling. The first exception
ends the run and the records already migrated stay migrated (`Hooks.BatchStopsAtFirstFailure`).
The model follows the code here.
