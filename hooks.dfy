/** The hooks that move a site's attachments to the object store: `file_upload_to_s3`,
    `upload_existing_files_s3`, `migrate_existing_files`, `delete_from_cloud` and the voucher PDF
    upload and delete. The site is the `tabFile` table, the local files on disk, and the objects
    in the store; each hook is a method on it, specified by a function of the old state. */
module Hooks {
  import opened Base
  import opened Text
  import opened Keys
  import opened Vouchers
  import opened References
  import opened S3

  /** A row of `tabFile`, less its name: the site stores each record under its name. */
  datatype FileRecord = FileRecord(
    fileName: string,
    fileUrl: string,
    isPrivate: bool,
    attachedToDoctype: Option<string>,
    attachedToName: string,
    contentHash: string,
    folder: string,
    oldParent: string)

  /** A row of the `get_all` listing the batch iterates: name, file_url, file_name. */
  datatype Row = Row(name: string, fileUrl: string, fileName: string)

  /** What the hooks get from outside, per record name where the source asks once per upload:
      the site path, the client's endpoint url, libmagic's verdict on a local file, whether the
      store accepts the upload, the parent's `s3_folder_path` lookup, the random draw and the
      clock. */
  datatype Env = Env(
    sitePath: string,
    endpoint: string,
    mime: string -> string,
    accepts: string -> bool,
    lookup: (string, string) -> Option<string>,
    rand: string -> Disambiguator,
    now: string -> CalendarDate)

  /** Records by name, local file paths that exist, stored objects by (bucket, key). */
  datatype SiteState = SiteState(
    files: map<string, FileRecord>,
    disk: set<string>,
    objects: map<(string, string), PutObject>)

  datatype Outcome = Skipped | Migrated(key: string, fileUrl: string) | Failed(error: Error)

  datatype BatchResult = Completed | Aborted(error: Error)

  /** The doctypes whose attachments the upload hook leaves on disk (line 265). */
  const HookExcludedDoctypes := ["Data Import", "Prepared Report", "Digital Signature Settings"]

  /** The doctypes the batch listing filters out (line 364). */
  const BatchExcludedDoctypes := ["Data Import", "Prepared Report"]

  /** The fields the `UPDATE tabFile` statement sets. */
  function Rewritten(rec: FileRecord, fileUrl: string, key: string): FileRecord {
    rec.(fileUrl := fileUrl, folder := "Home/Attachments", oldParent := "Home/Attachments", contentHash := key)
  }

  /** `UPDATE tabFile ... WHERE name=%s`: only the named row changes, and none when the name is
      absent. */
  function SqlUpdate(files: map<string, FileRecord>, name: string, fileUrl: string, key: string): (r: map<string, FileRecord>)
    ensures r.Keys == files.Keys
    ensures name in files ==> r[name] == Rewritten(files[name], fileUrl, key)
    ensures forall n :: n in files && n != name ==> r[n] == files[n]
  {
    if name in files then files[name := Rewritten(files[name], fileUrl, key)] else files
  }

  /** The parent's `s3_folder_path`; with no parent doctype the lookup fails and gives None. */
  function OwnerPath(doc: FileRecord, env: Env): Option<string> {
    match doc.attachedToDoctype
    case None => None
    case Some(doctype) => env.lookup(doctype, doc.attachedToName)
  }

  /** Lines 266-289 and 319-342: find the local copy, upload it under a generated key, then
      (only once the upload went through) remove the local copy and point the record at the
      store. Any exception leaves the site as it was. A migration never skips; it goes through
      exactly when the local copy exists, the key generator does not raise and the store accepts
      the upload, and then the object is stored under the generated key. */
  function Rewrite(st: SiteState, name: string, doc: FileRecord, s: Settings, env: Env): (r: (Outcome, SiteState))
    ensures var (o, st1) := r;
            var path := LocalFilePath(env.sitePath, doc.fileUrl, doc.isPrivate);
            var gen := KeyGenerator(s.folderName, doc.fileName, doc.attachedToDoctype, OwnerPath(doc, env),
                                    env.rand(name), env.now(name));
            && !o.Skipped?
            && (o.Migrated? <==> path in st.disk && gen.Ok? && env.accepts(name))
            && (o.Failed? ==> st1 == st)
            && (path !in st.disk ==> o == Failed(FileNotFound))
            && (path in st.disk && gen.Err? ==> o == Failed(gen.error))
            && (path in st.disk && gen.Ok? && !env.accepts(name) ==> o == Failed(FileUploadFailed))
            && (o.Migrated? ==>
                  && o.key == gen.value
                  && st1.disk == st.disk - {path}
                  && st1.objects.Keys == st.objects.Keys + {(s.bucketName, o.key)}
                  && st1.objects[(s.bucketName, o.key)]
                       == PutRequest(path, s.bucketName, o.key, doc.fileName, doc.isPrivate, env.mime(path))
                  && (forall k :: k in st.objects && k != (s.bucketName, o.key) ==> st1.objects[k] == st.objects[k])
                  && o.fileUrl == FileUrl(doc.isPrivate, env.endpoint, s.bucketName, o.key)
                  && st1.files == SqlUpdate(st.files, name, o.fileUrl, o.key))
  {
    var path := LocalFilePath(env.sitePath, doc.fileUrl, doc.isPrivate);
    var mime := if path in st.disk then Some(env.mime(path)) else None;
    var up := UploadOutcome(s.bucketName, s.folderName, path, doc.fileName, doc.isPrivate, doc.attachedToDoctype,
                            OwnerPath(doc, env), None, mime, env.rand(name), env.now(name),
                            env.accepts(name));
    match up
    case Err(e) => (Failed(e), st)
    case Ok(put) =>
      var url := FileUrl(doc.isPrivate, env.endpoint, s.bucketName, put.key);
      (Migrated(put.key, url),
       SiteState(SqlUpdate(st.files, name, url, put.key), st.disk - {path}, st.objects[(put.bucket, put.key) := put]))
  }

  /** `file_upload_to_s3`: nothing happens for a url already in the store, without credentials,
      or for an excluded parent doctype. */
  function UploadHook(st: SiteState, name: string, doc: FileRecord, s: Settings, env: Env): (r: (Outcome, SiteState))
    ensures r.0.Skipped? <==> UploadHookSkips(doc.fileUrl) || !HasKeyAndSecret(s.awsKey, s.awsSecret)
                              || (doc.attachedToDoctype.Some? && doc.attachedToDoctype.value in HookExcludedDoctypes)
    ensures r.0.Skipped? ==> r.1 == st
    ensures !r.0.Skipped? ==> r == Rewrite(st, name, doc, s, env)
  {
    if UploadHookSkips(doc.fileUrl) then (Skipped, st)
    else if !HasKeyAndSecret(s.awsKey, s.awsSecret) then (Skipped, st)
    else if doc.attachedToDoctype.Some? && doc.attachedToDoctype.value in HookExcludedDoctypes then (Skipped, st)
    else Rewrite(st, name, doc, s, env)
  }

  /** `upload_existing_files_s3`: the stored record, when there is one, is migrated without any
      of the hook's tests. */
  function UploadExisting(st: SiteState, name: string, s: Settings, env: Env): (r: (Outcome, SiteState))
    ensures r.0.Skipped? <==> name !in st.files
    ensures r.0.Skipped? ==> r.1 == st
    ensures name in st.files ==> r == Rewrite(st, name, st.files[name], s, env)
  {
    if name in st.files then Rewrite(st, name, st.files[name], s, env) else (Skipped, st)
  }

  /** The batch uploads a listed row only when its url is set and not recognised: never a url
      the hook would skip, always a local `/files/` or `/private/files/` url. */
  function Selected(row: Row): (r: bool)
    ensures r ==> !UploadHookSkips(row.fileUrl)
    ensures StartsWith(row.fileUrl, "/files/") || StartsWith(row.fileUrl, "/private/files/") ==> r
  {
    var r := row.fileUrl != "" && !S3FileRegexMatch(row.fileUrl);
    if StartsWith(row.fileUrl, "/files/") || StartsWith(row.fileUrl, "/private/files/") then
      LocalUrlsNotRecognised(row.fileUrl);
      r
    else
      r
  }

  /** `migrate_existing_files`: rows in listing order; the first exception ends the run, with
      the records before it already migrated. No record appears or vanishes, no local file
      appears, no object is lost, and a listing with no selected row changes nothing. */
  function Batch(st: SiteState, rows: seq<Row>, s: Settings, env: Env): (r: (BatchResult, SiteState))
    ensures r.1.files.Keys == st.files.Keys
    ensures r.1.disk <= st.disk
    ensures st.objects.Keys <= r.1.objects.Keys
    ensures (forall i :: 0 <= i < |rows| ==> !Selected(rows[i])) ==> r == (Completed, st)
    decreases |rows|
  {
    if rows == [] then (Completed, st)
    else if Selected(rows[0]) then
      var step := UploadExisting(st, rows[0].name, s, env);
      if step.0.Failed? then (Aborted(step.0.error), step.1) else Batch(step.1, rows[1..], s, env)
    else Batch(st, rows[1..], s, env)
  }

  /** `delete_from_s3` on a key as the delete hooks reach it: a delete is sent only when the
      policy flag is set; a refused delete is "Access denied" and changes nothing. */
  function DeleteKey(st: SiteState, key: string, s: Settings, denied: bool): (r: (Result<Option<DeleteObject>>, SiteState))
    ensures r.0.Ok? && r.0.value.Some? <==> s.deleteFileFromCloud && !denied
    ensures r.0.Err? <==> s.deleteFileFromCloud && denied
    ensures r.0.Err? ==> r.0.error == AccessDenied
    ensures r.0.Ok? && r.0.value.Some? ==> r.0.value.value.key == key && r.0.value.value.bucket == s.bucketName
    ensures r.1.files == st.files && r.1.disk == st.disk
    ensures r.1.objects == if r.0.Ok? && r.0.value.Some? then st.objects - {(s.bucketName, key)} else st.objects
  {
    if !s.deleteFileFromCloud then (Ok(None), st)
    else if denied then (Err(AccessDenied), st)
    else (Ok(Some(DeleteObject(Client(s.awsKey, s.awsSecret, Some(s.regionName)), s.bucketName, key))),
          st.(objects := st.objects - {(s.bucketName, key)}))
  }

  /** `delete_from_cloud`: nothing for a record with an empty `content_hash`. */
  function DeleteHook(st: SiteState, doc: FileRecord, s: Settings, denied: bool): (r: (Result<Option<DeleteObject>>, SiteState))
    ensures doc.contentHash == "" || !s.deleteFileFromCloud ==> r == (Ok(None), st)
    ensures doc.contentHash != "" ==> r == DeleteKey(st, doc.contentHash, s, denied)
    ensures r.0.Ok? && r.0.value.Some? ==> r.1.objects == st.objects - {(s.bucketName, doc.contentHash)}
  {
    if doc.contentHash == "" then (Ok(None), st) else DeleteKey(st, doc.contentHash, s, denied)
  }

  /** `delete_voucher_pdf_from_s3`: the key is recomputed exactly as the upload computed it; it is
      never empty, so the delete always reaches `delete_from_s3` once a folder is set. */
  function VoucherDelete(st: SiteState, v: Voucher, s: Settings, denied: bool): (r: (Result<Option<DeleteObject>>, SiteState))
    ensures s.folderName.None? ==> r == (Err(TypeError), st)
    ensures s.folderName.Some? ==> r == DeleteKey(st, VoucherKey(v, s.folderName).value, s, denied)
  {
    match VoucherKey(v, s.folderName)
    case Err(e) => (Err(e), st)
    case Ok(key) => if key == "" then (Ok(None), st) else DeleteKey(st, key, s, denied)
  }

  /** Lines 217-235 once the key is known: the PDF at its /tmp path is uploaded under the
      voucher's own key, which wins over a generated one, and the reference returned points at
      that key. */
  function PutVoucher(st: SiteState, v: Voucher, key: string, s: Settings, env: Env, isPrivate: bool): (r: (Result<Option<string>>, SiteState))
    requires key != ""
    ensures r.1.disk == st.disk && r.1.files == st.files
    ensures r.0.Ok? <==> env.accepts(v.name)
    ensures r.0.Err? ==> r == (Err(FileUploadFailed), st)
    ensures r.0.Ok? ==>
              var (fileName, path) := VoucherFileDetails(v.name);
              && r.0 == Ok(Some(FileUrl(isPrivate, env.endpoint, s.bucketName, key)))
              && r.1.objects == st.objects[(s.bucketName, key) := PutRequest(path, s.bucketName, key, fileName, isPrivate, env.mime(path))]
  {
    var (fileName, path) := VoucherFileDetails(v.name);
    var up := UploadOutcome(s.bucketName, s.folderName, path, fileName, isPrivate, Some(v.doctype), None, Some(key),
                            Some(env.mime(path)), env.rand(v.name), env.now(v.name), env.accepts(v.name));
    match up
    case Err(e) => (Err(e), st)
    case Ok(put) => (Ok(Some(FileUrl(isPrivate, env.endpoint, s.bucketName, put.key))),
                     st.(objects := st.objects[(put.bucket, put.key) := put]))
  }

  /** Lines 211-235 with the `finally` of line 240: the rendered PDF is written to its /tmp path,
      uploaded under the voucher key, and the /tmp file removed whatever happens. The upload
      goes through exactly when a folder is set and the store accepts it; the reference returned
      then points at the voucher key, and only the object under that key changes. */
  function VoucherUploadBody(st: SiteState, v: Voucher, s: Settings, env: Env, isPrivate: bool): (r: (Result<Option<string>>, SiteState))
    ensures r.1.disk == st.disk - {VoucherFileDetails(v.name).1} && r.1.files == st.files
    ensures r.0.Ok? <==> s.folderName.Some? && env.accepts(v.name)
    ensures r.0.Err? ==> r.1.objects == st.objects
    ensures r.0.Err? ==> r.0.error == if s.folderName.None? then TypeError else FileUploadFailed
    ensures r.0.Ok? ==>
              var (fileName, path) := VoucherFileDetails(v.name);
              var key := VoucherKey(v, s.folderName).value;
              && r.0 == Ok(Some(FileUrl(isPrivate, env.endpoint, s.bucketName, key)))
              && r.1.objects == st.objects[(s.bucketName, key) := PutRequest(path, s.bucketName, key, fileName, isPrivate, env.mime(path))]
  {
    var cleaned := st.(disk := st.disk - {VoucherFileDetails(v.name).1});
    match VoucherKey(v, s.folderName)
    case Err(e) => (Err(e), cleaned)
    case Ok(key) => PutVoucher(cleaned, v, key, s, env, isPrivate)
  }

  /** `upload_voucher_pdf_to_s3` as written: without credentials the `return` at line 209 runs
      the `finally` at line 240, which reads `file_path` before line 212 assigned it. Only that
      case differs from the intended upload. */
  function VoucherUploadAsWritten(st: SiteState, v: Voucher, s: Settings, env: Env, isPrivate: bool): (r: (Result<Option<string>>, SiteState))
    ensures !HasKeyAndSecret(s.awsKey, s.awsSecret) ==> r == (Err(UnboundLocalError), st)
    ensures HasKeyAndSecret(s.awsKey, s.awsSecret) ==> r == VoucherUpload(st, v, s, env, isPrivate)
  {
    if !HasKeyAndSecret(s.awsKey, s.awsSecret) then (Err(UnboundLocalError), st) else VoucherUploadBody(st, v, s, env, isPrivate)
  }

  /** `upload_voucher_pdf_to_s3` as intended: without credentials it returns None and does
      nothing; with them it returns a reference exactly when a folder is set and the store
      accepts the upload, and the /tmp copy is gone afterwards. */
  function VoucherUpload(st: SiteState, v: Voucher, s: Settings, env: Env, isPrivate: bool): (r: (Result<Option<string>>, SiteState))
    ensures !HasKeyAndSecret(s.awsKey, s.awsSecret) ==> r == (Ok(None), st)
    ensures HasKeyAndSecret(s.awsKey, s.awsSecret) ==> r.1.disk == st.disk - {VoucherFileDetails(v.name).1}
    ensures r.1.files == st.files
    ensures r.0.Ok? && r.0.value.Some? <==> HasKeyAndSecret(s.awsKey, s.awsSecret) && s.folderName.Some? && env.accepts(v.name)
    ensures r.0.Err? ==> r.1.objects == st.objects
    ensures HasKeyAndSecret(s.awsKey, s.awsSecret) ==> r == VoucherUploadBody(st, v, s, env, isPrivate)
  {
    if !HasKeyAndSecret(s.awsKey, s.awsSecret) then (Ok(None), st) else VoucherUploadBody(st, v, s, env, isPrivate)
  }

  /** `read_from_s3`: the key of the object to read for the record the query found, or
      "File not found". A private record's key comes from the reference passed in, a public
      one's from its content hash. */
  function ReadFromS3Key(found: Option<FileRecord>, filePath: string): (r: Result<string>)
    ensures found.None? <==> r == Err(FileNotFound)
    ensures found.Some? && !found.value.isPrivate ==> r == Ok(found.value.contentHash)
    ensures found.Some? && found.value.isPrivate ==> r == Ok(ExtractKey(filePath))
  {
    match found
    case None => Err(FileNotFound)
    case Some(rec) => if rec.isPrivate then Ok(ExtractKey(filePath)) else Ok(rec.contentHash)
  }

  // One migration step.

  /** The uploaded object's key ends with the disambiguator drawn for the record and the
      sanitized file name. */
  lemma RewriteKeyLeaf(st: SiteState, name: string, doc: FileRecord, s: Settings, env: Env)
    requires Rewrite(st, name, doc, s, env).0.Migrated?
    ensures LastSegment(Rewrite(st, name, doc, s, env).0.key) == KeyLeaf(env.rand(name), doc.fileName)
  {
    KeyEndsWithLeaf(s.folderName, doc.fileName, doc.attachedToDoctype, OwnerPath(doc, env),
                    env.rand(name), env.now(name));
  }

  /** The record's reference names an object in the store. */
  predicate RefersToStore(st: SiteState, n: string, s: Settings, env: Env)
    requires n in st.files
  {
    var rec := st.files[n];
    (s.bucketName, rec.contentHash) in st.objects
    && rec.fileUrl == FileUrl(rec.isPrivate, env.endpoint, s.bucketName, rec.contentHash)
  }

  /** The same file: only the columns the `UPDATE` sets may differ. */
  predicate SameFile(a: FileRecord, b: FileRecord) {
    a.fileName == b.fileName && a.isPrivate == b.isPrivate
    && a.attachedToDoctype == b.attachedToDoctype && a.attachedToName == b.attachedToName
  }

  /** `st1` follows `st0` by migrations only: no record appears or vanishes, no object is
      lost, and every record that changed is the same file, now referring to the store. */
  predicate Migration(st0: SiteState, st1: SiteState, s: Settings, env: Env) {
    && st1.files.Keys == st0.files.Keys
    && (forall k :: k in st0.objects ==> k in st1.objects)
    && (forall n :: n in st1.files && st1.files[n] != st0.files[n] ==>
          SameFile(st0.files[n], st1.files[n]) && RefersToStore(st1, n, s, env))
  }

  lemma MigrationTransitive(st0: SiteState, st1: SiteState, st2: SiteState, s: Settings, env: Env)
    requires Migration(st0, st1, s, env) && Migration(st1, st2, s, env)
    ensures Migration(st0, st2, s, env)
  {
    forall n | n in st2.files && st2.files[n] != st0.files[n]
      ensures SameFile(st0.files[n], st2.files[n]) && RefersToStore(st2, n, s, env)
    {
      if st2.files[n] == st1.files[n] {
        assert RefersToStore(st1, n, s, env);
        assert (s.bucketName, st1.files[n].contentHash) in st1.objects;
      }
    }
  }

  /** A migration of a record whose stored privacy is the one the hook sees preserves the
      site's consistency: the record it rewrites refers to the object just uploaded. */
  lemma RewriteMigrates(st: SiteState, name: string, doc: FileRecord, s: Settings, env: Env)
    requires name in st.files ==> SameFile(st.files[name], doc)
    ensures Migration(st, Rewrite(st, name, doc, s, env).1, s, env)
  {
  }

  lemma UploadExistingMigrates(st: SiteState, name: string, s: Settings, env: Env)
    ensures Migration(st, UploadExisting(st, name, s, env).1, s, env)
  {
    if name in st.files {
      RewriteMigrates(st, name, st.files[name], s, env);
    }
  }

  /** Whatever the batch achieves before it stops, the site stays consistent. */
  lemma {:induction false} BatchMigrates(st: SiteState, rows: seq<Row>, s: Settings, env: Env)
    ensures Migration(st, Batch(st, rows, s, env).1, s, env)
    decreases |rows|
  {
    if rows == [] {
    } else if Selected(rows[0]) {
      var step := UploadExisting(st, rows[0].name, s, env);
      UploadExistingMigrates(st, rows[0].name, s, env);
      if !step.0.Failed? {
        BatchMigrates(step.1, rows[1..], s, env);
        MigrationTransitive(st, step.1, Batch(step.1, rows[1..], s, env).1, s, env);
      }
    } else {
      BatchMigrates(st, rows[1..], s, env);
    }
  }

  /** Every record that carries a content hash refers to an object in the store. */
  predicate NoDangling(st: SiteState, s: Settings, env: Env) {
    forall n :: n in st.files && st.files[n].contentHash != "" ==> RefersToStore(st, n, s, env)
  }

  /** A site without dangling references keeps none after the batch, whether or not it ran to
      the end. */
  lemma BatchKeepsReferences(st: SiteState, rows: seq<Row>, s: Settings, env: Env)
    requires NoDangling(st, s, env)
    ensures NoDangling(Batch(st, rows, s, env).1, s, env)
  {
    var fin := Batch(st, rows, s, env).1;
    BatchMigrates(st, rows, s, env);
    forall n | n in fin.files && fin.files[n].contentHash != ""
      ensures RefersToStore(fin, n, s, env)
    {
      if fin.files[n] == st.files[n] {
        assert RefersToStore(st, n, s, env);
      }
    }
  }

  // Recognising migrated references.

  /** A url the recognisers treat as already in the store. */
  predicate Recognised(fileUrl: string) {
    UploadHookSkips(fileUrl) && S3FileRegexMatch(fileUrl)
  }

  /** Every reference the migration writes is recognised when the endpoint is an
      `https://s3.` url; a private one always is. */
  lemma ReferenceRecognised(isPrivate: bool, endpoint: string, bucket: string, key: string)
    requires isPrivate || StartsWith(endpoint, "https://s3.")
    ensures Recognised(FileUrl(isPrivate, endpoint, bucket, key))
  {
    if isPrivate {
      PrivateUrlRecognised(key);
    } else {
      PublicUrlRecognised(endpoint, bucket, key);
    }
  }

  /** The upload hook does nothing to a record it has already migrated: run again on the new
      state, with the stored record or with the hook's own document updated, it skips. */
  lemma UploadHookIdempotent(st: SiteState, name: string, doc: FileRecord, s: Settings, env: Env)
    requires doc.isPrivate || StartsWith(env.endpoint, "https://s3.")
    requires Rewrite(st, name, doc, s, env).0.Migrated?
    ensures var (o, st1) := Rewrite(st, name, doc, s, env);
            UploadHook(st1, name, doc.(fileUrl := o.fileUrl, contentHash := o.key), s, env) == (Skipped, st1)
    ensures var (o, st1) := Rewrite(st, name, doc, s, env);
            name in st.files && st.files[name].isPrivate == doc.isPrivate ==>
              UploadHook(st1, name, st1.files[name], s, env) == (Skipped, st1)
  {
    var o := Rewrite(st, name, doc, s, env).0;
    ReferenceRecognised(doc.isPrivate, env.endpoint, s.bucketName, o.key);
  }

  /** A private reference hands `generate_file` back the key it was built from exactly when the
      prefix it strips does not occur inside the key. */
  lemma MigratedPrivateKeyRecovered(st: SiteState, name: string, doc: FileRecord, s: Settings, env: Env)
    requires doc.isPrivate && Rewrite(st, name, doc, s, env).0.Migrated?
    ensures var o := Rewrite(st, name, doc, s, env).0;
            ExtractKey(o.fileUrl) == o.key <==> !Occurs(o.key, KeyPrefix)
  {
    ExtractKeyRoundTrip(Rewrite(st, name, doc, s, env).0.key);
  }

  /** Reading a migrated record by its own reference reads the object it refers to: always for
      a public record, for a private one whenever the stripped prefix does not occur inside its
      key. */
  lemma ReadMigratedRecord(st: SiteState, n: string, s: Settings, env: Env)
    requires n in st.files && RefersToStore(st, n, s, env)
    requires st.files[n].isPrivate ==> !Occurs(st.files[n].contentHash, KeyPrefix)
    ensures ReadFromS3Key(Some(st.files[n]), st.files[n].fileUrl) == Ok(st.files[n].contentHash)
    ensures (s.bucketName, ReadFromS3Key(Some(st.files[n]), st.files[n].fileUrl).value) in st.objects
  {
    if st.files[n].isPrivate {
      ExtractKeyRoundTrip(st.files[n].contentHash);
    }
  }

  // The batch.

  /** The run over `a + b` is the run over `a` followed, if that completed, by the run over
      `b`. */
  lemma {:induction false} BatchConcat(st: SiteState, a: seq<Row>, b: seq<Row>, s: Settings, env: Env)
    ensures Batch(st, a + b, s, env)
         == if Batch(st, a, s, env).0.Completed? then Batch(Batch(st, a, s, env).1, b, s, env) else Batch(st, a, s, env)
    decreases |a|
  {
    if a == [] {
      assert a + b == b;
    } else {
      assert (a + b)[0] == a[0] && (a + b)[1..] == a[1..] + b;
      if Selected(a[0]) {
        var step := UploadExisting(st, a[0].name, s, env);
        if !step.0.Failed? {
          BatchConcat(step.1, a[1..], b, s, env);
        }
      } else {
        BatchConcat(st, a[1..], b, s, env);
      }
    }
  }

  /** No per-record isolation: the first failing row ends the run with its error, and no row
      after it is looked at. */
  lemma BatchStopsAtFirstFailure(st: SiteState, a: seq<Row>, r: Row, b: seq<Row>, s: Settings, env: Env)
    requires Batch(st, a, s, env).0.Completed?
    requires Selected(r) && UploadExisting(Batch(st, a, s, env).1, r.name, s, env).0.Failed?
    ensures Batch(st, a + [r] + b, s, env)
         == (Aborted(UploadExisting(Batch(st, a, s, env).1, r.name, s, env).0.error), Batch(st, a, s, env).1)
  {
    var mid := Batch(st, a, s, env).1;
    assert a + [r] + b == a + ([r] + b);
    BatchConcat(st, a, [r] + b, s, env);
  }

  /** The batch touches only records named by a selected row. */
  lemma {:induction false} BatchFrame(st: SiteState, rows: seq<Row>, s: Settings, env: Env, n: string)
    requires n in st.files
    requires forall i :: 0 <= i < |rows| && Selected(rows[i]) ==> rows[i].name != n
    ensures n in Batch(st, rows, s, env).1.files && Batch(st, rows, s, env).1.files[n] == st.files[n]
    decreases |rows|
  {
    if rows != [] {
      var st1 := if Selected(rows[0]) then UploadExisting(st, rows[0].name, s, env).1 else st;
      assert n in st1.files && st1.files[n] == st.files[n];
      BatchFrame(st1, rows[1..], s, env, n);
    }
  }

  /** The `get_all` filter: a record without a parent doctype is listed too. */
  predicate BatchListed(rec: FileRecord) {
    rec.attachedToDoctype.None? || rec.attachedToDoctype.value !in BatchExcludedDoctypes
  }

  /** `rows` is what `get_all` lists for the state: distinct names of records the filter
      admits, with the record's current url and file name. */
  predicate Listing(st: SiteState, rows: seq<Row>) {
    && (forall i :: 0 <= i < |rows| ==>
          && rows[i].name in st.files
          && BatchListed(st.files[rows[i].name])
          && rows[i].fileUrl == st.files[rows[i].name].fileUrl
          && rows[i].fileName == st.files[rows[i].name].fileName)
    && (forall i, j :: 0 <= i < j < |rows| ==> rows[i].name != rows[j].name)
  }

  /** The first row, once migrated behind an `https://s3.` endpoint, keeps a recognised url
      through the rest of the run. */
  lemma FirstRowRecognised(st: SiteState, rows: seq<Row>, s: Settings, env: Env)
    requires StartsWith(env.endpoint, "https://s3.")
    requires Listing(st, rows) && rows != [] && Selected(rows[0])
    requires !UploadExisting(st, rows[0].name, s, env).0.Failed?
    ensures var st1 := UploadExisting(st, rows[0].name, s, env).1;
            var fin := Batch(st1, rows[1..], s, env).1;
            rows[0].name in fin.files && Recognised(fin.files[rows[0].name].fileUrl)
  {
    var n := rows[0].name;
    var (o, st1) := UploadExisting(st, n, s, env);
    ReferenceRecognised(st.files[n].isPrivate, env.endpoint, s.bucketName, o.key);
    BatchMigrates(st1, rows[1..], s, env);
    var fin := Batch(st1, rows[1..], s, env).1;
    if fin.files[n] != st1.files[n] {
      assert RefersToStore(fin, n, s, env);
      ReferenceRecognised(fin.files[n].isPrivate, env.endpoint, s.bucketName, fin.files[n].contentHash);
    }
  }

  /** In a completed run every selected record ends up with a recognised url. */
  lemma {:induction false} BatchRecognisesSelected(st: SiteState, rows: seq<Row>, s: Settings, env: Env, i: int)
    requires StartsWith(env.endpoint, "https://s3.")
    requires Listing(st, rows) && Batch(st, rows, s, env).0.Completed?
    requires 0 <= i < |rows| && Selected(rows[i])
    ensures rows[i].name in Batch(st, rows, s, env).1.files
    ensures Recognised(Batch(st, rows, s, env).1.files[rows[i].name].fileUrl)
    decreases |rows|
  {
    var st1 := if Selected(rows[0]) then UploadExisting(st, rows[0].name, s, env).1 else st;
    assert Batch(st, rows, s, env) == Batch(st1, rows[1..], s, env);
    if i == 0 {
      FirstRowRecognised(st, rows, s, env);
    } else {
      ListingAfterFirst(st, rows, s, env);
      assert rows[1..][i - 1] == rows[i];
      BatchRecognisesSelected(st1, rows[1..], s, env, i - 1);
    }
  }

  /** The batch's regex recognises the reference the migration writes for every selected
      record: a private one always, a public one when the endpoint is an `https:` url. */
  predicate RegexReachable(st: SiteState, rows: seq<Row>, endpoint: string) {
    forall i :: 0 <= i < |rows| && Selected(rows[i]) && rows[i].name in st.files ==>
      st.files[rows[i].name].isPrivate || StartsWith(endpoint, "https:")
  }

  /** A reference the migration writes matches the batch's regex when it is private or the
      endpoint is an `https:` url. */
  lemma ReferenceMatches(isPrivate: bool, endpoint: string, bucket: string, key: string)
    requires isPrivate || StartsWith(endpoint, "https:")
    ensures S3FileRegexMatch(FileUrl(isPrivate, endpoint, bucket, key))
  {
    if isPrivate {
      PrivateUrlRecognised(key);
    } else {
      var url := FileUrl(false, endpoint, bucket, key);
      assert url[..|endpoint|] == endpoint;
      assert url[..6] == endpoint[..6];
    }
  }

  /** After the first row's step the rest of the listing is a listing of the new state, and
      the regex condition carries over to it. */
  lemma ListingAfterFirst(st: SiteState, rows: seq<Row>, s: Settings, env: Env)
    requires Listing(st, rows) && rows != []
    ensures var st1 := if Selected(rows[0]) then UploadExisting(st, rows[0].name, s, env).1 else st;
            && Listing(st1, rows[1..])
            && (RegexReachable(st, rows, env.endpoint) ==> RegexReachable(st1, rows[1..], env.endpoint))
  {
    var st1 := if Selected(rows[0]) then UploadExisting(st, rows[0].name, s, env).1 else st;
    forall j | 0 <= j < |rows[1..]|
      ensures rows[1..][j] == rows[j + 1]
      ensures rows[j + 1].name in st1.files && st1.files[rows[j + 1].name] == st.files[rows[j + 1].name]
    {
      assert rows[j + 1].name != rows[0].name;
    }
  }

  /** The first row, once migrated, keeps a matching url through the rest of the run. */
  lemma FirstRowMatches(st: SiteState, rows: seq<Row>, s: Settings, env: Env)
    requires Listing(st, rows) && rows != [] && Selected(rows[0])
    requires st.files[rows[0].name].isPrivate || StartsWith(env.endpoint, "https:")
    requires !UploadExisting(st, rows[0].name, s, env).0.Failed?
    ensures var st1 := UploadExisting(st, rows[0].name, s, env).1;
            var fin := Batch(st1, rows[1..], s, env).1;
            rows[0].name in fin.files && S3FileRegexMatch(fin.files[rows[0].name].fileUrl)
  {
    var n := rows[0].name;
    var (o, st1) := UploadExisting(st, n, s, env);
    ReferenceMatches(st.files[n].isPrivate, env.endpoint, s.bucketName, o.key);
    BatchMigrates(st1, rows[1..], s, env);
    var fin := Batch(st1, rows[1..], s, env).1;
    if fin.files[n] != st1.files[n] {
      assert RefersToStore(fin, n, s, env) && SameFile(st1.files[n], fin.files[n]);
      ReferenceMatches(fin.files[n].isPrivate, env.endpoint, s.bucketName, fin.files[n].contentHash);
    }
  }

  /** In a completed run every selected record ends up with a url the batch's regex matches. */
  lemma {:induction false} BatchMatchesSelected(st: SiteState, rows: seq<Row>, s: Settings, env: Env, i: int)
    requires Listing(st, rows) && Batch(st, rows, s, env).0.Completed?
    requires RegexReachable(st, rows, env.endpoint)
    requires 0 <= i < |rows| && Selected(rows[i])
    ensures rows[i].name in Batch(st, rows, s, env).1.files
    ensures S3FileRegexMatch(Batch(st, rows, s, env).1.files[rows[i].name].fileUrl)
    decreases |rows|
  {
    var st1 := if Selected(rows[0]) then UploadExisting(st, rows[0].name, s, env).1 else st;
    assert Batch(st, rows, s, env) == Batch(st1, rows[1..], s, env);
    if i == 0 {
      FirstRowMatches(st, rows, s, env);
    } else {
      ListingAfterFirst(st, rows, s, env);
      assert rows[1..][i - 1] == rows[i];
      BatchMatchesSelected(st1, rows[1..], s, env, i - 1);
    }
  }

  /** Running the migration again over the new listing of the same records does nothing, for
      private records always and for public ones when the endpoint is an `https:` url. */
  lemma BatchRerunIsNoOp(st: SiteState, rows: seq<Row>, again: seq<Row>, s: Settings, env: Env)
    requires RegexReachable(st, rows, env.endpoint)
    requires Listing(st, rows) && Batch(st, rows, s, env).0.Completed?
    requires Listing(Batch(st, rows, s, env).1, again)
    requires |again| == |rows| && forall i :: 0 <= i < |rows| ==> again[i].name == rows[i].name
    ensures Batch(Batch(st, rows, s, env).1, again, s, env) == (Completed, Batch(st, rows, s, env).1)
  {
    var fin := Batch(st, rows, s, env).1;
    forall i | 0 <= i < |again|
      ensures !Selected(again[i])
    {
      if Selected(rows[i]) {
        BatchMatchesSelected(st, rows, s, env, i);
      } else {
        BatchFrame(st, rows, s, env, rows[i].name);
      }
    }
  }

  /** A public reference behind an `http:` endpoint is not matched by the batch's regex. */
  lemma HttpReferenceUnmatched(endpoint: string, bucket: string, key: string)
    requires StartsWith(endpoint, "http:")
    ensures var url := FileUrl(false, endpoint, bucket, key);
            url != "" && !S3FileRegexMatch(url)
  {
    var url := FileUrl(false, endpoint, bucket, key);
    assert url[..|endpoint|] == endpoint;
    assert url[4] == endpoint[4] == ':';
    assert url[0] == 'h';
    assert !StartsWith(url, "https:") by { assert "https:"[4] == 's'; }
    assert !StartsWith(url, ApiMethod) by { assert ApiMethod[0] == '/'; }
  }

  /** Behind an `http:` endpoint (an object store without TLS) a public record's new url fails
      the batch's regex, so a second run selects it again, looks for a local copy under that
      url and aborts with "File not found". */
  lemma RerunAbortsOnHttpEndpoint(st: SiteState, rows: seq<Row>, again: seq<Row>, s: Settings, env: Env)
    requires StartsWith(env.endpoint, "http:")
    requires |rows| == 1 && Listing(st, rows) && Selected(rows[0]) && !st.files[rows[0].name].isPrivate
    requires st.disk == {LocalFilePath(env.sitePath, rows[0].fileUrl, false)}
    requires Batch(st, rows, s, env).0.Completed?
    requires Listing(Batch(st, rows, s, env).1, again) && |again| == 1 && again[0].name == rows[0].name
    ensures Batch(Batch(st, rows, s, env).1, again, s, env).0 == Aborted(FileNotFound)
  {
    var n := rows[0].name;
    var step := UploadExisting(st, n, s, env);
    assert Batch(st, rows, s, env) == Batch(step.1, [], s, env) == (Completed, step.1);
    var st1 := step.1;
    assert step.0.Migrated? && st1.disk == {};
    HttpReferenceUnmatched(env.endpoint, s.bucketName, step.0.key);
    assert Selected(again[0]);
    var next := UploadExisting(st1, n, s, env);
    assert next.0 == Failed(FileNotFound);
  }

  // Deletion.

  /** Deleting a migrated record's object removes exactly the object the migration stored. */
  lemma UploadThenDelete(st: SiteState, name: string, doc: FileRecord, s: Settings, env: Env)
    requires s.deleteFileFromCloud && Rewrite(st, name, doc, s, env).0.Migrated? && name in st.files
    ensures var st1 := Rewrite(st, name, doc, s, env).1;
            var o := Rewrite(st, name, doc, s, env).0;
            && (s.bucketName, o.key) in st1.objects
            && DeleteHook(st1, st1.files[name], s, false).1.objects == st1.objects - {(s.bucketName, o.key)}
  {
    var st1 := Rewrite(st, name, doc, s, env).1;
    var o := Rewrite(st, name, doc, s, env).0;
    if o.key == "" {
      assert S3.UploadKey(None, s.folderName, doc.fileName, doc.attachedToDoctype, OwnerPath(doc, env),
                          env.rand(name), env.now(name)).Ok?;
      RewriteKeyLeaf(st, name, doc, s, env);
      assert false;
    }
  }

  // The voucher upload (see Findings in the README).

  /** Without credentials the upload as written raises where the intended one returns None,
      for every voucher and every site. */
  lemma VoucherUploadAsWrittenRaises(st: SiteState, v: Voucher, s: Settings, env: Env, isPrivate: bool)
    requires !HasKeyAndSecret(s.awsKey, s.awsSecret)
    ensures VoucherUploadAsWritten(st, v, s, env, isPrivate) == (Err(UnboundLocalError), st)
    ensures VoucherUpload(st, v, s, env, isPrivate) == (Ok(None), st)
  {
  }

  /** Upload (line 219) and delete (line 246) compute the same key, so deleting a voucher
      removes exactly the object its upload stored, and the /tmp copy is gone either way. */
  lemma VoucherUploadThenDelete(st: SiteState, v: Voucher, s: Settings, env: Env, isPrivate: bool)
    requires s.deleteFileFromCloud
    requires VoucherUpload(st, v, s, env, isPrivate).0.Ok? && VoucherUpload(st, v, s, env, isPrivate).0.value.Some?
    ensures var st1 := VoucherUpload(st, v, s, env, isPrivate).1;
            var key := VoucherKey(v, s.folderName).value;
            && VoucherFileDetails(v.name).1 !in st1.disk
            && (s.bucketName, key) in st1.objects
            && VoucherDelete(st1, v, s, false).1.objects == st1.objects - {(s.bucketName, key)}
  {
  }

  class Site {
    var files: map<string, FileRecord>
    var disk: set<string>
    var objects: map<(string, string), PutObject>

    function State(): SiteState
      reads this
    {
      SiteState(files, disk, objects)
    }

    constructor(st: SiteState)
      ensures State() == st
    {
      files, disk, objects := st.files, st.disk, st.objects;
    }

    /** The shared body of both upload hooks, on the client the hook constructed. */
    method UploadAndRewrite(name: string, doc: FileRecord, s3: S3Operations, ghost s: Settings, env: Env) returns (o: Outcome)
      requires s3.bucket == s.bucketName && s3.folderName == s.folderName
      modifies this
      ensures (o, State()) == Rewrite(old(State()), name, doc, s, env)
    {
      var path := LocalFilePath(env.sitePath, doc.fileUrl, doc.isPrivate);
      var mime := if path in disk then Some(env.mime(path)) else None;
      var up := s3.UploadFilesToS3WithKey(path, doc.fileName, doc.isPrivate, doc.attachedToDoctype, OwnerPath(doc, env),
                                          None, mime, env.rand(name), env.now(name), env.accepts(name));
      if up.Err? {
        return Failed(up.error);
      }
      var put := up.value;
      var url := FileUrl(doc.isPrivate, env.endpoint, s3.bucket, put.key);
      objects := objects[(put.bucket, put.key) := put];
      disk := disk - {path};
      if name in files {
        files := files[name := Rewritten(files[name], url, put.key)];
      }
      o := Migrated(put.key, url);
    }

    method FileUploadToS3(name: string, doc: FileRecord, s: Settings, env: Env) returns (o: Outcome)
      modifies this
      ensures (o, State()) == UploadHook(old(State()), name, doc, s, env)
    {
      var s3 := new S3Operations(s);
      if UploadHookSkips(doc.fileUrl) {
        return Skipped;
      }
      if !s3.HasCredentials() {
        return Skipped;
      }
      if doc.attachedToDoctype.Some? && doc.attachedToDoctype.value in HookExcludedDoctypes {
        return Skipped;
      }
      o := UploadAndRewrite(name, doc, s3, s, env);
    }

    method UploadExistingFilesS3(name: string, fileName: string, s: Settings, env: Env) returns (o: Outcome)
      modifies this
      ensures (o, State()) == UploadExisting(old(State()), name, s, env)
    {
      if name !in files {
        return Skipped;
      }
      var doc := files[name];
      var s3 := new S3Operations(s);
      o := UploadAndRewrite(name, doc, s3, s, env);
    }

    method MigrateExistingFiles(rows: seq<Row>, s: Settings, env: Env) returns (r: BatchResult)
      modifies this
      ensures (r, State()) == Batch(old(State()), rows, s, env)
    {
      var i := 0;
      while i < |rows|
        invariant 0 <= i <= |rows|
        invariant Batch(old(State()), rows, s, env) == Batch(State(), rows[i..], s, env)
      {
        assert rows[i..][0] == rows[i] && rows[i..][1..] == rows[i + 1..];
        if rows[i].fileUrl != "" && !S3FileRegexMatch(rows[i].fileUrl) {
          var o := UploadExistingFilesS3(rows[i].name, rows[i].fileName, s, env);
          if o.Failed? {
            return Aborted(o.error);
          }
        }
        i := i + 1;
      }
      r := Completed;
    }

    /** Applies `delete_from_s3` to the store. */
    method DeleteFromS3(key: string, s: Settings, denied: bool) returns (r: Result<Option<DeleteObject>>)
      modifies this
      ensures (r, State()) == DeleteKey(old(State()), key, s, denied)
    {
      var s3 := new S3Operations(s);
      var req := s3.DeleteFromS3(key, s);
      if req.None? {
        return Ok(None);
      }
      if denied {
        return Err(AccessDenied);
      }
      objects := objects - {(req.value.bucket, req.value.key)};
      r := Ok(req);
    }

    method DeleteFromCloud(doc: FileRecord, s: Settings, denied: bool) returns (r: Result<Option<DeleteObject>>)
      modifies this
      ensures (r, State()) == DeleteHook(old(State()), doc, s, denied)
    {
      if doc.contentHash == "" {
        return Ok(None);
      }
      r := DeleteFromS3(doc.contentHash, s, denied);
    }

    method DeleteVoucherPdfFromS3(v: Voucher, s: Settings, denied: bool) returns (r: Result<Option<DeleteObject>>)
      modifies this
      ensures (r, State()) == VoucherDelete(old(State()), v, s, denied)
    {
      var (fileName, path) := VoucherFileDetails(v.name);
      var key := GenerateVoucherPdfKey(v.doctype, v.postingDate, s.folderName, path);
      if key.Err? {
        return Err(key.error);
      }
      if key.value == "" {
        return Ok(None);
      }
      r := DeleteFromS3(key.value, s, denied);
    }

    /** The voucher upload with the early return made safe. */
    method UploadVoucherPdfToS3(v: Voucher, s: Settings, env: Env, isPrivate: bool) returns (r: Result<Option<string>>)
      modifies this
      ensures (r, State()) == VoucherUpload(old(State()), v, s, env, isPrivate)
    {
      var s3 := new S3Operations(s);
      if !s3.HasCredentials() {
        return Ok(None);
      }
      var (fileName, path) := VoucherFileDetails(v.name);
      disk := disk + {path};
      var key := GenerateVoucherPdfKey(v.doctype, v.postingDate, s3.folderName, path);
      if key.Err? {
        r := Err(key.error);
      } else {
        var up := s3.UploadFilesToS3WithKey(path, fileName, isPrivate, Some(v.doctype), None, Some(key.value),
                                            Some(env.mime(path)), env.rand(v.name), env.now(v.name), env.accepts(v.name));
        if up.Err? {
          r := Err(up.error);
        } else {
          objects := objects[(up.value.bucket, up.value.key) := up.value];
          r := Ok(Some(FileUrl(isPrivate, env.endpoint, s3.bucket, up.value.key)));
        }
      }
      disk := disk - {path};
      assert disk == old(disk) - {path};
    }
  }
}
