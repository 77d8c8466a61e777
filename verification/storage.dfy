/** The string logic of the file storage service: the choice between cloud and local storage,
    the names a stored file gets, and the `local_` public-id convention that `deleteFile`
    undoes. The byte transfer itself is a parameter. */
module Storage {
  import opened Wrappers
  import opened Text

  const NamePlaceholder := "your_cloud_name"
  const KeyPlaceholder := "your_api_key"
  const SecretPlaceholder := "your_api_secret"

  /** A credential that is set and is not the sample value. */
  predicate RealCredential(v: Option<string>, placeholder: string) {
    Truthy(v) && v.value != placeholder
  }

  /** `isCloudinaryConfigured`: all three credentials are set to something other than their
      sample values. */
  function IsCloudinaryConfigured(cloudName: Option<string>, apiKey: Option<string>, apiSecret: Option<string>): (b: bool)
    ensures b <==> RealCredential(cloudName, NamePlaceholder) && RealCredential(apiKey, KeyPlaceholder)
                   && RealCredential(apiSecret, SecretPlaceholder)
  {
    cloudName.Some? && cloudName.value != "" && cloudName.value != NamePlaceholder
    && apiKey.Some? && apiKey.value != "" && apiKey.value != KeyPlaceholder
    && apiSecret.Some? && apiSecret.value != "" && apiSecret.value != SecretPlaceholder
  }

  /** A copied `.env` sample, or any one missing credential, falls back to local storage. */
  lemma SampleCredentialsFallBack(cloudName: Option<string>, apiKey: Option<string>, apiSecret: Option<string>)
    ensures !IsCloudinaryConfigured(Some(NamePlaceholder), apiKey, apiSecret)
    ensures !IsCloudinaryConfigured(cloudName, Some(KeyPlaceholder), apiSecret)
    ensures !IsCloudinaryConfigured(cloudName, apiKey, Some(SecretPlaceholder))
    ensures !IsCloudinaryConfigured(None, apiKey, apiSecret) && !IsCloudinaryConfigured(cloudName, None, apiSecret)
    ensures !IsCloudinaryConfigured(cloudName, apiKey, None)
  {
  }

  /** The characters the sanitiser keeps: `[a-zA-Z0-9.]`. */
  predicate Kept(c: char) {
    IsAsciiLetter(c) || IsDigit(c) || c == '.'
  }

  /** The characters `[a-zA-Z0-9.]` as code units. */
  predicate KeptUnit(u: CodeUnit) {
    u < 128 && Kept(u as char)
  }

  const Underscore: CodeUnit := '_' as int

  /** The replacement `/[^a-zA-Z0-9.]/g` performs, stated on code units: the pattern has no `u`
      flag, so every unit outside the class, each half of a surrogate pair included, becomes
      one `_`. */
  function ReplaceUnits(u: seq<CodeUnit>): (r: seq<CodeUnit>)
    ensures |r| == |u|
    ensures forall i :: 0 <= i < |u| ==> r[i] == if KeptUnit(u[i]) then u[i] else Underscore
  {
    seq(|u|, i requires 0 <= i < |u| => if KeptUnit(u[i]) then u[i] else Underscore)
  }

  /** What the replacement writes for one character: the character when kept, and one `_` per
      code unit otherwise. */
  function SanitizedChar(c: char): string {
    if Kept(c) then [c] else if IsAstral(c) then "__" else "_"
  }

  /** `originalFilename.replace(/[^a-zA-Z0-9.]/g, '_')`, one character at a time. */
  function SanitizeFileName(s: string): (r: string)
    ensures |r| == |Utf16(s)|
    ensures forall i :: 0 <= i < |r| ==> Kept(r[i]) || r[i] == '_'
    ensures (forall i :: 0 <= i < |s| ==> Kept(s[i]) || s[i] == '_') ==> r == s
  {
    if |s| == 0 then [] else SanitizedChar(s[0]) + SanitizeFileName(s[1..])
  }

  lemma SanitizedCharUnits(c: char)
    ensures Utf16(SanitizedChar(c)) == ReplaceUnits(UnitsOf(c))
  {
    var p := SanitizedChar(c);
    if IsAstral(c) {
      assert p == "__" && p[1..] == "_" && p[1..][1..] == [];
      assert Utf16(p[1..]) == [Underscore];
      assert Utf16(p) == [Underscore, Underscore];
      assert !KeptUnit(UnitsOf(c)[0]) && !KeptUnit(UnitsOf(c)[1]);
    } else {
      assert p[1..] == [];
      assert Kept(c) <==> KeptUnit(c as int);
    }
  }

  lemma ReplaceUnitsAppend(a: seq<CodeUnit>, b: seq<CodeUnit>)
    ensures ReplaceUnits(a + b) == ReplaceUnits(a) + ReplaceUnits(b)
  {
    assert forall i :: 0 <= i < |a| + |b| ==> (a + b)[i] == if i < |a| then a[i] else b[i - |a|];
  }

  /** The character-wise definition agrees with the regular expression applied to the code
      units of the name. */
  lemma {:induction false} SanitizeMatchesRegex(s: string)
    ensures Utf16(SanitizeFileName(s)) == ReplaceUnits(Utf16(s))
  {
    if |s| > 0 {
      SanitizeMatchesRegex(s[1..]);
      SanitizedCharUnits(s[0]);
      Utf16Append(SanitizedChar(s[0]), SanitizeFileName(s[1..]));
      ReplaceUnitsAppend(UnitsOf(s[0]), Utf16(s[1..]));
    }
  }

  /** An emoji is two code units and so two underscores. */
  lemma SanitizeEmoji()
    ensures SanitizeFileName("\U{1F600}.pdf") == "__.pdf"
  {
    var s := "\U{1F600}.pdf";
    assert s[1..] == ".pdf" && s[1..][1..] == "pdf" && s[1..][1..][1..] == "df";
    assert s[1..][1..][1..][1..] == "f" && s[1..][1..][1..][1..][1..] == [];
  }

  /** The sanitised name uses only `[a-zA-Z0-9._]`, a second pass changes nothing, and a name
      made of kept characters is left alone. */
  lemma SanitizeFacts(s: string)
    ensures forall i :: 0 <= i < |SanitizeFileName(s)| ==> Kept(SanitizeFileName(s)[i]) || SanitizeFileName(s)[i] == '_'
    ensures SanitizeFileName(SanitizeFileName(s)) == SanitizeFileName(s)
    ensures (forall i :: 0 <= i < |s| ==> Kept(s[i])) ==> SanitizeFileName(s) == s
  {
  }

  /** The `public_id` requested from the cloud: the original name up to its first `.`, or
      none when there is no (or an empty) original name. */
  function CloudPublicId(original: Option<string>): (r: Option<string>)
    ensures r.Some? <==> Truthy(original)
    ensures r.Some? ==> '.' !in r.value && r.value <= original.value
    ensures r.Some? && |r.value| < |original.value| ==> original.value[|r.value|] == '.'
  {
    if Truthy(original) then Some(BeforeFirst(original.value, '.')) else None
  }

  /** A name `base.ext` is stored in the cloud as `base`. */
  lemma CloudPublicIdOfDotted(base: string, ext: string)
    requires base != "" && '.' !in base
    ensures CloudPublicId(Some(base + "." + ext)) == Some(base)
  {
    SplitAtFirst(base, '.', ext);
  }

  /** The local file name: `{timestamp}_{sanitised}` when an original name is given, otherwise
      `{uuid}.pdf`. */
  function LocalFileName(original: Option<string>, now: nat, uuid: string): (name: string)
    ensures Truthy(original) ==> |name| == |Decimal(now)| + 1 + |Utf16(original.value)|
    ensures !Truthy(original) ==> |name| == |uuid| + 4 && name[..|uuid|] == uuid && name[|uuid|..] == ".pdf"
  {
    if Truthy(original) then Decimal(now) + "_" + SanitizeFileName(original.value)
    else uuid + ".pdf"
  }

  /** The timestamp and the sanitised name can be read back from a local file name: the
      timestamp is everything before the first `_`. */
  lemma LocalFileNameSplits(original: string, now: nat, uuid: string)
    requires original != ""
    ensures var name := LocalFileName(Some(original), now, uuid);
      && AllDigits(BeforeFirst(name, '_')) && DecimalValue(BeforeFirst(name, '_')) == now
      && AfterFirst(name, '_') == Some(SanitizeFileName(original))
  {
    var digits := Decimal(now);
    assert forall i :: 0 <= i < |digits| ==> digits[i] != '_';
    SplitAtFirst(digits, '_', SanitizeFileName(original));
    assert LocalFileName(Some(original), now, uuid) == digits + ['_'] + SanitizeFileName(original);
    DecimalRoundTrip(now);
  }

  /** What an upload resolves with. */
  datatype StoredFile = StoredFile(url: string, publicId: string)

  const LocalPrefix := "local_"

  /** `process.env.BASE_URL`, else `http://localhost:{PORT}` with port 5000 by default. */
  function BaseUrl(baseUrl: Option<string>, port: Option<string>): (r: string)
    ensures Truthy(baseUrl) ==> r == baseUrl.value
    ensures !Truthy(baseUrl) && Truthy(port) ==> r == "http://localhost:" + port.value
    ensures !Truthy(baseUrl) && !Truthy(port) ==> r == "http://localhost:5000"
  {
    if Truthy(baseUrl) then baseUrl.value
    else "http://localhost:" + (if Truthy(port) then port.value else "5000")
  }

  /** The local fallback's result: the file is served under `/uploads/` and its public id is
      the file name with the `local_` prefix. */
  function LocalStored(fileName: string, base: string): (f: StoredFile)
    ensures StartsWith(f.publicId, LocalPrefix) && f.publicId[|LocalPrefix|..] == fileName
    ensures f.url == base + "/uploads/" + f.publicId[|LocalPrefix|..]
  {
    StoredFile(base + "/uploads/" + fileName, LocalPrefix + fileName)
  }

  /** The environment and the outside world as one upload sees them. `cloud` is the cloud
      upload given the folder and the requested public id, `writeOk` whether the local write
      succeeded. */
  datatype UploadEnv = UploadEnv(
    cloudName: Option<string>, apiKey: Option<string>, apiSecret: Option<string>,
    baseUrl: Option<string>, port: Option<string>,
    cloud: (string, Option<string>) -> Result<StoredFile, string>,
    now: nat, uuid: string, writeOk: bool)

  /** `uploadPDF`: to the cloud when configured, otherwise to the local uploads directory. */
  function UploadPdf(folder: string, original: Option<string>, e: UploadEnv): (r: Result<StoredFile, string>)
    ensures IsCloudinaryConfigured(e.cloudName, e.apiKey, e.apiSecret) ==> r == e.cloud(folder, CloudPublicId(original))
    ensures !IsCloudinaryConfigured(e.cloudName, e.apiKey, e.apiSecret) ==>
      (r.Success? <==> e.writeOk)
      && (r.Success? ==> r.value.publicId == LocalPrefix + LocalFileName(original, e.now, e.uuid)
                         && r.value.url == BaseUrl(e.baseUrl, e.port) + "/uploads/" + LocalFileName(original, e.now, e.uuid))
  {
    if IsCloudinaryConfigured(e.cloudName, e.apiKey, e.apiSecret) then e.cloud(folder, CloudPublicId(original))
    else if !e.writeOk then Failure("write failed")
    else Success(LocalStored(LocalFileName(original, e.now, e.uuid), BaseUrl(e.baseUrl, e.port)))
  }

  /** What `deleteFile` resolves with: nothing, a result object, or a rethrown error. The
      `unlinked` field names the local file removed, if any. */
  datatype Deletion = NoResult | Resolved(result: string, unlinked: Option<string>) | Rethrown(error: string)

  /** `deleteFile`. `onDisk` is what `existsSync` answers, `unlinkFails` whether `unlinkSync`
      throws, and `destroy` the cloud's answer. */
  function DeleteFile(publicId: Option<string>, onDisk: bool, unlinkFails: bool,
                      destroy: Result<string, string>): (d: Deletion)
    ensures !Truthy(publicId) ==> d == NoResult
    ensures Truthy(publicId) && StartsWith(publicId.value, LocalPrefix) ==>
      d.Resolved? && (d.result == "ok" || d.result == "ignored")
      && (d.result == "ignored" <==> onDisk && unlinkFails)
      && (d.unlinked.Some? <==> onDisk && !unlinkFails)
      && (d.unlinked.Some? ==> onDisk && d.unlinked.value == publicId.value[|LocalPrefix|..])
    ensures Truthy(publicId) && !StartsWith(publicId.value, LocalPrefix) ==>
      (destroy.Success? ==> d == Resolved(destroy.value, None))
      && (destroy.Failure? ==> d == Rethrown(destroy.error))
  {
    if !Truthy(publicId) then NoResult
    else if StartsWith(publicId.value, LocalPrefix) then
      var fileName := ReplaceFirst(publicId.value, LocalPrefix, "");
      ReplacePrefixByEmpty(publicId.value, LocalPrefix);
      if !onDisk then Resolved("ok", None)
      else if unlinkFails then Resolved("ignored", None)
      else Resolved("ok", Some(fileName))
    else
      match destroy
      case Success(r) => Resolved(r, None)
      case Failure(e) => Rethrown(e)
  }

  /** Round trip: deleting a locally stored file removes exactly the file that was written,
      and a missing file still resolves `ok`. */
  lemma LocalRoundTrip(fileName: string, base: string, destroy: Result<string, string>)
    ensures DeleteFile(Some(LocalStored(fileName, base).publicId), true, false, destroy) == Resolved("ok", Some(fileName))
    ensures DeleteFile(Some(LocalStored(fileName, base).publicId), false, false, destroy) == Resolved("ok", None)
  {
    var pid := LocalStored(fileName, base).publicId;
    ReplacePrefixByEmpty(pid, LocalPrefix);
    assert pid[|LocalPrefix|..] == fileName;
  }

  /** A local upload is served under the base url and the uploads path, and deleting its
      public id removes exactly the file written; with neither `BASE_URL` nor `PORT` set the url
      points at port 5000 on localhost. */
  lemma UploadThenDelete(folder: string, original: Option<string>, e: UploadEnv, destroy: Result<string, string>)
    requires !IsCloudinaryConfigured(e.cloudName, e.apiKey, e.apiSecret) && e.writeOk
    ensures UploadPdf(folder, original, e).Success?
    ensures var f := UploadPdf(folder, original, e).value;
      var name := LocalFileName(original, e.now, e.uuid);
      && f.url == BaseUrl(e.baseUrl, e.port) + "/uploads/" + name
      && DeleteFile(Some(f.publicId), true, false, destroy) == Resolved("ok", Some(name))
      && (!Truthy(e.baseUrl) && !Truthy(e.port) ==> StartsWith(f.url, "http://localhost:5000/uploads/"))
  {
    var name := LocalFileName(original, e.now, e.uuid);
    var base := BaseUrl(e.baseUrl, e.port);
    LocalRoundTrip(name, base, destroy);
    if !Truthy(e.baseUrl) && !Truthy(e.port) {
      var url := UploadPdf(folder, original, e).value.url;
      assert url == "http://localhost:5000/uploads/" + name;
      assert url[..|"http://localhost:5000/uploads/"|] == "http://localhost:5000/uploads/";
    }
  }

  /** Errors on local ids never escape: a failing unlink is answered `ignored`, and a missing
      file, never unlinked, `ok`. Errors on cloud ids always escape. */
  lemma DeleteErrorPolicy(publicId: string, onDisk: bool, e: string)
    requires publicId != ""
    ensures StartsWith(publicId, LocalPrefix) ==>
      DeleteFile(Some(publicId), onDisk, true, Failure(e)) == Resolved(if onDisk then "ignored" else "ok", None)
    ensures !StartsWith(publicId, LocalPrefix) ==> DeleteFile(Some(publicId), onDisk, true, Failure(e)) == Rethrown(e)
  {
  }
}
