/** The two helpers of s3_api/files/utils.py: building a collision-free object
    key from a random UUID, and the content-type guard for image-only endpoints.
    The random `uuid.uuid4()` is not drawn here: its text is a parameter, and
    `IsUuid4Text` says what `str(uuid.uuid4())` always looks like. */
module Utils {
  import opened Base
  import opened Errors

  predicate IsLowerHexDigit(c: char) {
    '0' <= c <= '9' || 'a' <= c <= 'f'
  }

  predicate AllLowerHex(s: string) {
    forall c | c in s :: IsLowerHexDigit(c)
  }

  /** The canonical text `str(UUID)` writes: five groups of 8, 4, 4, 4 and 12
      lower-case hex digits joined by hyphens. */
  predicate IsCanonicalUuid(u: string) {
    && |u| == 36
    && u[8] == '-' && u[13] == '-' && u[18] == '-' && u[23] == '-'
    && AllLowerHex(u[..8]) && AllLowerHex(u[9..13]) && AllLowerHex(u[14..18])
    && AllLowerHex(u[19..23]) && AllLowerHex(u[24..])
  }

  /** What `str(uuid.uuid4())` returns: canonical text whose version digit is 4
      and whose variant digit is 8, 9, a or b. */
  predicate IsUuid4Text(u: string) {
    IsCanonicalUuid(u) && u[14] == '4' && u[19] in "89ab"
  }

  /** The canonical text, cut into its five hex groups around the four hyphens. */
  lemma CanonicalGroups(u: string)
    requires IsCanonicalUuid(u)
    ensures u == u[..8] + "-" + u[9..13] + "-" + u[14..18] + "-" + u[19..23] + "-" + u[24..]
  {
  }

  /** A canonical UUID text holds only hex digits and hyphens: no `_`, no `:`, no brace. */
  lemma CanonicalAlphabet(u: string)
    requires IsCanonicalUuid(u)
    ensures forall c | c in u :: IsLowerHexDigit(c) || c == '-'
  {
    CanonicalGroups(u);
    var g1, g2, g3, g4, g5 := u[..8], u[9..13], u[14..18], u[19..23], u[24..];
    forall c | c in u ensures IsLowerHexDigit(c) || c == '-' {
      assert c in g1 || c in g2 || c in g3 || c in g4 || c in g5 || c == '-';
    }
  }

  /** utils.py `get_unique_filename`: the UUID text, an underscore, the name. */
  function GetUniqueFilename(uuid: string, filename: string): string {
    uuid + "_" + filename
  }

  /** The generated key is 37 characters longer than the name: a canonical
      36-character UUID, the `_`, then the name itself. */
  lemma UniqueFilenameShape(uuid: string, filename: string)
    requires IsUuid4Text(uuid)
    ensures var key := GetUniqueFilename(uuid, filename);
      && |key| == 37 + |filename|
      && IsCanonicalUuid(key[..36]) && key[36] == '_' && key[37..] == filename
  {
    var key := GetUniqueFilename(uuid, filename);
    assert key[..36] == uuid;
  }

  /** Splitting a generated key on its first `_` gives back the UUID text and
      exactly the original name, even when the name holds underscores itself. */
  lemma UniqueFilenameSplit(uuid: string, filename: string)
    requires IsCanonicalUuid(uuid)
    ensures SplitFirst(GetUniqueFilename(uuid, filename), '_') == Some((uuid, filename))
  {
    CanonicalAlphabet(uuid);
    assert !IsLowerHexDigit('_');
    SplitFirstJoin(uuid, '_', filename);
  }

  const IMAGE_ONLY_DETAIL := "Only images are allowed for compression"

  /** utils.py `validate_img`: passes without effect on an `image/...` content
      type and answers 415 on every other one. */
  function ValidateImg(contentType: string): (r: Result<(), HttpError>)
    ensures r.Success? <==> IsPrefix("image/", contentType)
    ensures r.Failure? ==> r.error == HttpError(415, IMAGE_ONLY_DETAIL)
  {
    if IsPrefix("image/", contentType) then Success(())
    else Failure(HttpError(415, IMAGE_ONLY_DETAIL))
  }

  /** The guard looks at the prefix only: a type that mentions images elsewhere
      is still refused, and so is the bare word. */
  lemma ValidateImgExamples()
    ensures ValidateImg("image/jpeg").Success?
    ensures ValidateImg("application/x-image").Failure?
    ensures ValidateImg("image").Failure?
    ensures ValidateImg("Image/png").Failure?
  {
    assert "application/x-image"[..6] != "image/" by { assert "application/x-image"[0] == 'a'; }
    assert "Image/png"[..6] != "image/" by { assert "Image/png"[0] == 'I'; }
  }
}
