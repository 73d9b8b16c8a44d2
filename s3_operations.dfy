/** `S3Operations`: the settings snapshot taken at construction and the object-store calls it
    makes. The boto3 client is not modelled; each call is represented by the request it sends. */
module S3 {
  import opened Base
  import opened Keys

  /** The "S3 File Attachment" singleton (`aws_secret` as `get_password` returns it). An unset
      text field is the empty string, an unset expiry time 0, an unset folder None. */
  datatype Settings = Settings(
    awsKey: string,
    awsSecret: string,
    regionName: string,
    bucketName: string,
    folderName: Option<string>,
    deleteFileFromCloud: bool,
    signedUrlExpiryTime: int)

  /** The keyword arguments a boto3 client is built with; "" and None stand for arguments not
      given, which leaves boto3 to ambient credentials. */
  datatype Client = Client(accessKey: string, secretKey: string, region: Option<string>)

  /** `upload_file(path, bucket, key, ExtraArgs=...)` */
  datatype PutObject = PutObject(
    localPath: string,
    bucket: string,
    key: string,
    contentType: string,
    acl: Option<string>,
    metadata: map<string, string>)

  /** `delete_object(Bucket=..., Key=...)` on the client it was sent through. */
  datatype DeleteObject = DeleteObject(client: Client, bucket: string, key: string)

  /** `get_object(Bucket=..., Key=...)` */
  datatype GetObject = GetObject(bucket: string, key: string)

  /** `generate_presigned_url('get_object', Params=..., ExpiresIn=...)` */
  datatype PresignedGet = PresignedGet(bucket: string, key: string, expiresIn: int)

  /** The expiry `get_url` uses: the configured one when it is truthy, else 120 seconds. */
  function SignedUrlExpiry(configured: int): (r: int)
    ensures r != 0
    ensures configured != 0 ==> r == configured
    ensures configured == 0 ==> r == 120
  {
    if configured != 0 then configured else 120
  }

  /** The upload request of `upload_files_to_s3_with_key`: a private file gets no ACL and carries
      its file name in the metadata; a public file is `public-read` and carries only the type. */
  function PutRequest(localPath: string, bucket: string, key: string, fileName: string, isPrivate: bool,
                      contentType: string): (r: PutObject)
    ensures r.key == key && r.bucket == bucket && r.localPath == localPath && r.contentType == contentType
    ensures r.acl.Some? <==> !isPrivate
    ensures r.acl.Some? ==> r.acl.value == "public-read"
    ensures ("file_name" in r.metadata) <==> isPrivate
    ensures r.metadata.Keys == if isPrivate then {"ContentType", "file_name"} else {"ContentType"}
    ensures r.metadata["ContentType"] == contentType
    ensures isPrivate ==> r.metadata["file_name"] == fileName
  {
    if isPrivate then
      PutObject(localPath, bucket, key, contentType, None, map["ContentType" := contentType, "file_name" := fileName])
    else
      PutObject(localPath, bucket, key, contentType, Some("public-read"), map["ContentType" := contentType])
  }

  /** `file_key if file_key else key_generator(...)`: a supplied key wins over a generated one. */
  function UploadKey(fileKey: Option<string>, folder: Option<string>, fileName: string, parentDoctype: Option<string>,
                     lookup: Option<string>, rand: Disambiguator, today: CalendarDate): (r: Result<string>)
    ensures Truthy(fileKey) ==> r == Ok(fileKey.value)
    ensures !Truthy(fileKey) ==> r == KeyGenerator(folder, fileName, parentDoctype, lookup, rand, today)
  {
    if Truthy(fileKey) then Ok(fileKey.value) else KeyGenerator(folder, fileName, parentDoctype, lookup, rand, today)
  }

  /** What the upload sends, or the exception it raises: libmagic fails on a missing file
      (`mimeType` None), the key generator may raise, and a rejected upload is
      "File Upload Failed". */
  function UploadOutcome(bucket: string, folder: Option<string>, filePath: string, fileName: string, isPrivate: bool,
                         parentDoctype: Option<string>, lookup: Option<string>, fileKey: Option<string>,
                         mimeType: Option<string>, rand: Disambiguator, today: CalendarDate,
                         accepted: bool): (r: Result<PutObject>)
    ensures r.Ok? <==> mimeType.Some? && UploadKey(fileKey, folder, fileName, parentDoctype, lookup, rand, today).Ok? && accepted
    ensures r.Ok? ==> r.value == PutRequest(filePath, bucket, UploadKey(fileKey, folder, fileName, parentDoctype, lookup, rand, today).value,
                                            fileName, isPrivate, mimeType.value)
    ensures mimeType.None? ==> r == Err(FileNotFound)
    ensures mimeType.Some? && UploadKey(fileKey, folder, fileName, parentDoctype, lookup, rand, today).Err?
            ==> r == Err(UploadKey(fileKey, folder, fileName, parentDoctype, lookup, rand, today).error)
    ensures mimeType.Some? && UploadKey(fileKey, folder, fileName, parentDoctype, lookup, rand, today).Ok? && !accepted
            ==> r == Err(FileUploadFailed)
  {
    if mimeType.None? then Err(FileNotFound)
    else
      match UploadKey(fileKey, folder, fileName, parentDoctype, lookup, rand, today)
      case Err(e) => Err(e)
      case Ok(key) =>
        if accepted then Ok(PutRequest(filePath, bucket, key, fileName, isPrivate, mimeType.value))
        else Err(FileUploadFailed)
  }

  /** `aws_key and aws_secret`: the callers' test for "feature configured". */
  predicate HasKeyAndSecret(key: string, secret: string) {
    key != "" && secret != ""
  }

  class S3Operations {
    var settingsDoc: Settings
    var awsKey: string
    var awsSecret: string
    var client: Client
    var bucket: string
    var folderName: Option<string>
    /** Set by `get_url`; absent before its first call. */
    var signedUrlExpiryTime: Option<int>

    /** `__init__`: a credentialed client scoped to the region when both key and secret are set,
        a plain client on ambient credentials otherwise. */
    constructor(doc: Settings)
      ensures settingsDoc == doc && awsKey == doc.awsKey && awsSecret == doc.awsSecret
      ensures client == if HasKeyAndSecret(doc.awsKey, doc.awsSecret)
                        then Client(doc.awsKey, doc.awsSecret, Some(doc.regionName))
                        else Client("", "", None)
      ensures bucket == doc.bucketName && folderName == doc.folderName
      ensures signedUrlExpiryTime == None
    {
      settingsDoc := doc;
      awsKey := doc.awsKey;
      awsSecret := doc.awsSecret;
      if doc.awsKey != "" && doc.awsSecret != "" {
        client := Client(doc.awsKey, doc.awsSecret, Some(doc.regionName));
      } else {
        client := Client("", "", None);
      }
      bucket := doc.bucketName;
      folderName := doc.folderName;
      signedUrlExpiryTime := None;
    }

    /** The credentials read at construction. */
    predicate HasCredentials()
      reads this
    {
      HasKeyAndSecret(awsKey, awsSecret)
    }

    /** `upload_files_to_s3_with_key`: the request sent, whose key the source returns. */
    method UploadFilesToS3WithKey(filePath: string, fileName: string, isPrivate: bool, parentDoctype: Option<string>,
                                  lookup: Option<string>, fileKey: Option<string>, mimeType: Option<string>,
                                  rand: Disambiguator, today: CalendarDate, accepted: bool)
      returns (r: Result<PutObject>)
      ensures r == UploadOutcome(bucket, folderName, filePath, fileName, isPrivate, parentDoctype, lookup, fileKey,
                                 mimeType, rand, today, accepted)
    {
      if mimeType.None? {
        return Err(FileNotFound);
      }
      var contentType := mimeType.value;
      var key: string;
      if Truthy(fileKey) {
        key := fileKey.value;
      } else {
        var generated := KeyGenerator(folderName, fileName, parentDoctype, lookup, rand, today);
        if generated.Err? {
          return Err(generated.error);
        }
        key := generated.value;
      }
      if !accepted {
        return Err(FileUploadFailed);
      }
      r := Ok(PutRequest(filePath, bucket, key, fileName, isPrivate, contentType));
    }

    /** `delete_from_s3`: re-reads the settings; issues the delete only when
        `delete_file_from_cloud` is set, through a client built from the key and secret read at
        construction and the region read now. */
    method DeleteFromS3(key: string, doc: Settings) returns (req: Option<DeleteObject>)
      modifies this`settingsDoc
      ensures settingsDoc == doc
      ensures req.Some? <==> doc.deleteFileFromCloud
      ensures req.Some? ==> req.value == DeleteObject(Client(awsKey, awsSecret, Some(doc.regionName)), doc.bucketName, key)
    {
      settingsDoc := doc;
      if settingsDoc.deleteFileFromCloud {
        req := Some(DeleteObject(Client(awsKey, awsSecret, Some(settingsDoc.regionName)), settingsDoc.bucketName, key));
      } else {
        req := None;
      }
    }

    /** `read_file_from_s3`: a get of the key from this bucket. */
    method ReadFileFromS3(key: string) returns (req: GetObject)
      ensures req.bucket == bucket && req.key == key
    {
      req := GetObject(bucket, key);
    }

    /** `get_url`: records the expiry on the object and presigns a get with it. */
    method GetUrl(key: string) returns (req: PresignedGet)
      modifies this`signedUrlExpiryTime
      ensures signedUrlExpiryTime == Some(SignedUrlExpiry(settingsDoc.signedUrlExpiryTime))
      ensures req == PresignedGet(bucket, key, SignedUrlExpiry(settingsDoc.signedUrlExpiryTime))
    {
      if settingsDoc.signedUrlExpiryTime != 0 {
        signedUrlExpiryTime := Some(settingsDoc.signedUrlExpiryTime);
      } else {
        signedUrlExpiryTime := Some(120);
      }
      req := PresignedGet(bucket, key, signedUrlExpiryTime.value);
    }
  }
}
