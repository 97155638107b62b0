/**
 * The signature controller: the URL stored for an uploaded signature is
 * derived from the file's local path, and reading a signature back needs
 * both the presence flag and a URL.
 */
module SignatureUrl {
  import opened Wrappers
  import opened JsText
  import opened Http
  import opened UserModel

  /** `s.replace(/\\/g, "/")`. */
  function ForwardSlashes(s: string): (r: string)
    ensures |r| == |s|
    ensures forall i :: 0 <= i < |s| ==> r[i] == (if s[i] == '\\' then '/' else s[i])
  {
    if s == [] then [] else [if s[0] == '\\' then '/' else s[0]] + ForwardSlashes(s[1..])
  }

  /** The URL of a stored signature: what follows the first `public` with
      every backslash turned into `/`, or the whole path when `public` does
      not occur; a leading `/` is added when missing. */
  function SignatureUrl(localPath: string): (r: string)
    ensures |r| >= 1 && r[0] == '/'
  {
    var publicIndex := IndexOf(localPath, "public");
    var url := if publicIndex != -1 then ForwardSlashes(localPath[publicIndex + 6..]) else localPath;
    if "/" <= url then url else "/" + url
  }

  /** After the first `public`: the rest of the path with every backslash
      turned into `/`; a `/` is added in front only when the rest does not
      already start with a slash of either kind. */
  lemma SignatureUrlAfterPublic(localPath: string)
    requires IndexOf(localPath, "public") != -1
    ensures var rest := localPath[IndexOf(localPath, "public") + 6..];
      var r := SignatureUrl(localPath);
      && (forall i :: 0 <= i < |r| ==> r[i] != '\\')
      && (|rest| > 0 && (rest[0] == '/' || rest[0] == '\\') ==> r == ForwardSlashes(rest))
      && (!(|rest| > 0 && (rest[0] == '/' || rest[0] == '\\')) ==> r == "/" + ForwardSlashes(rest))
  {
    var rest := localPath[IndexOf(localPath, "public") + 6..];
    var url := ForwardSlashes(rest);
    assert SignatureUrl(localPath) == if "/" <= url then url else "/" + url;
    RootedForwardSlashes(rest);
  }

  /** The URL built from a text after `public`, apart from where that text
      came from. */
  lemma RootedForwardSlashes(rest: string)
    ensures var url := ForwardSlashes(rest);
      var r := if "/" <= url then url else "/" + url;
      && (forall i :: 0 <= i < |r| ==> r[i] != '\\')
      && (|rest| > 0 && (rest[0] == '/' || rest[0] == '\\') ==> r == url)
      && (!(|rest| > 0 && (rest[0] == '/' || rest[0] == '\\')) ==> r == "/" + url)
  {
    var url := ForwardSlashes(rest);
    if |rest| > 0 {
      assert url[0] == if rest[0] == '\\' then '/' else rest[0];
    }
    assert forall i :: 0 <= i < |url| ==> url[i] != '\\';
  }

  /** Without `public` the path is kept as it is, backslashes included,
      behind a `/` when it has none. */
  lemma SignatureUrlWithoutPublic(localPath: string)
    requires IndexOf(localPath, "public") == -1
    ensures "/" <= localPath ==> SignatureUrl(localPath) == localPath
    ensures !("/" <= localPath) ==> SignatureUrl(localPath) == "/" + localPath
  {
  }

  /** The example of the upload handler's comment in general form:
      `public/temp/signature-xxxx.png` gives `/temp/signature-xxxx.png`,
      and so does every path `public` + `/...` without backslashes. */
  lemma SignatureUrlUnderPublic(rest: string)
    requires "/" <= rest
    requires forall i :: 0 <= i < |rest| ==> rest[i] != '\\'
    ensures SignatureUrl("public" + rest) == rest
  {
    var p := "public" + rest;
    assert "public" <= p;
    assert IndexOf(p, "public") == 0;
    assert p[6..] == rest;
    ForwardSlashesNoop(rest);
  }

  /** A path without backslashes is left as it is. */
  lemma ForwardSlashesNoop(s: string)
    requires forall i :: 0 <= i < |s| ==> s[i] != '\\'
    ensures ForwardSlashes(s) == s
  {
  }

  /** `uploadSignature` up to the database write: no file path is a 400,
      otherwise the URL derived from it. */
  function UploadedSignatureUrl(path: JsString): (r: Result<string, ApiError>)
    ensures !Truthy(path) <==> r == Failure(ApiError(BadRequest, "Signature image is required"))
    ensures Truthy(path) ==> r == Success(SignatureUrl(path.s))
  {
    if !Truthy(path) then Failure(ApiError(BadRequest, "Signature image is required"))
    else Success(SignatureUrl(path.s))
  }

  /** The guard of `getSignature`: a signature is returned only when the
      card says one is present and its URL is not empty. */
  function StoredSignature(panCard: Option<PanCard>): (r: Result<string, ApiError>)
    ensures r.Success? <==> panCard.Some? && panCard.value.signaturePresent && panCard.value.signatureUrl != []
    ensures r.Success? ==> r.value == panCard.value.signatureUrl
    ensures r.Failure? ==> r.error == ApiError(NotFound, "No signature found for this user")
  {
    if panCard.None? || !panCard.value.signaturePresent || panCard.value.signatureUrl == [] then
      Failure(ApiError(NotFound, "No signature found for this user"))
    else Success(panCard.value.signatureUrl)
  }
}
