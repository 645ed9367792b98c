/** The request and response shapes of s3_api/files/schemas.py: the listing
    request and response with their defaults, and the validator that guards the
    unique-filename upload response. */
module Schemas {
  import opened Base
  import opened Utils

  /** `ListRequest`: the substring to filter keys by; empty by default. */
  datatype ListRequest = ListRequest(pattern: string)

  /** `File`: one listing entry. */
  datatype FileEntry = FileEntry(fileName: string, contentType: string)

  /** `ListResponse`: the matching entries. */
  datatype ListResponse = ListResponse(files: seq<FileEntry>)

  function DefaultListRequest(): ListRequest {
    ListRequest("")
  }

  predicate IsHexDigit(c: char) {
    IsLowerHexDigit(c) || 'A' <= c <= 'F'
  }

  /** The digits Python's `UUID(text)` goes on to read: it drops every `urn:`
      and `uuid:`, strips braces from both ends and drops every hyphen. */
  function UuidHexDigits(text: string): (hex: string)
    ensures |hex| <= |text|
  {
    RemoveChar(Strip(RemoveAll(RemoveAll(text, "urn:"), "uuid:"), {'{', '}'}), '-')
  }

  /** Whether `UUID(text)` accepts `text`: exactly 32 hex digits remain. */
  predicate ParsesAsUuid(text: string) {
    var hex := UuidHexDigits(text);
    |hex| == 32 && forall c | c in hex :: IsHexDigit(c)
  }

  function UniqueFilenameError(value: string): string {
    "Incorrect filename format. Filename: " + value + "\nShould be 'UUID4_filename'"
  }

  /** `UploadUniqueFileNameResponse.validate_unique_filename`: the text before
      the first `_` must parse as a UUID; the value is returned unchanged.
      `UUID(text, version=4)` overwrites the version bits instead of checking
      them, so any UUID text passes, not only a version-4 one. */
  function ValidateUniqueFilename(value: string): (r: Result<string, string>)
    ensures r.Success? ==> r.value == value
    ensures r.Failure? ==> r.error == UniqueFilenameError(value)
    ensures '_' !in value ==> r.Failure?
  {
    match SplitFirst(value, '_')
    case None => Failure(UniqueFilenameError(value))
    case Some((uuid, _)) =>
      if ParsesAsUuid(uuid) then Success(value) else Failure(UniqueFilenameError(value))
  }

  /** The validator decides on the text before the first `_` alone: whatever
      follows, underscores included, plays no part. */
  lemma ValidatorJudgesFirstSegment(uuid: string, rest: string)
    requires '_' !in uuid
    ensures ValidateUniqueFilename(uuid + "_" + rest).Success? <==> ParsesAsUuid(uuid)
  {
    SplitFirstJoin(uuid, '_', rest);
  }

  /** Dropping the hyphens of `prefix + "-" + group` when the group is all hex digits. */
  lemma DropHyphenBefore(prefix: string, group: string)
    requires AllLowerHex(group)
    ensures RemoveChar(prefix + "-" + group, '-') == RemoveChar(prefix, '-') + group
  {
    var hyphen: string := "-";
    assert '-' !in group by { assert !IsLowerHexDigit('-'); }
    RemoveCharAbsent(group, '-');
    RemoveCharAppend(prefix + hyphen, group, '-');
    RemoveCharAppend(prefix, hyphen, '-');
    assert RemoveChar(hyphen, '-') == [] by {
      assert hyphen[0] == '-' && hyphen[1..] == [];
    }
    assert RemoveChar(prefix + hyphen, '-') == RemoveChar(prefix, '-');
  }

  /** A canonical text passes the clean-up steps before the hyphens untouched. */
  lemma CanonicalNeedsNoCleanup(u: string)
    requires IsCanonicalUuid(u)
    ensures Strip(RemoveAll(RemoveAll(u, "urn:"), "uuid:"), {'{', '}'}) == u
  {
    CanonicalAlphabet(u);
    assert !IsLowerHexDigit('u') && !IsLowerHexDigit('{') && !IsLowerHexDigit('}');
    RemoveAllAbsent(u, "urn:");
    RemoveAllAbsent(u, "uuid:");
    assert u[0] in u && u[|u| - 1] in u;
  }

  /** Dropping the four hyphens of a canonical text leaves its 32 hex digits. */
  lemma CanonicalHexDigits(u: string)
    requires IsCanonicalUuid(u)
    ensures RemoveChar(u, '-') == u[..8] + u[9..13] + u[14..18] + u[19..23] + u[24..]
  {
    var g1, g2, g3, g4, g5 := u[..8], u[9..13], u[14..18], u[19..23], u[24..];
    var p2 := g1 + "-" + g2;
    var p3 := p2 + "-" + g3;
    var p4 := p3 + "-" + g4;
    CanonicalGroups(u);
    assert u == p4 + "-" + g5;
    DropHyphenBefore(p4, g5);
    DropHyphenBefore(p3, g4);
    DropHyphenBefore(p2, g3);
    DropHyphenBefore(g1, g2);
    assert '-' !in g1 by { assert !IsLowerHexDigit('-'); }
    RemoveCharAbsent(g1, '-');
  }

  /** Every canonical UUID text parses, whatever its version digit. */
  lemma CanonicalUuidParses(u: string)
    requires IsCanonicalUuid(u)
    ensures ParsesAsUuid(u)
  {
    CanonicalNeedsNoCleanup(u);
    CanonicalHexDigits(u);
    var g1, g2, g3, g4, g5 := u[..8], u[9..13], u[14..18], u[19..23], u[24..];
    var hex := UuidHexDigits(u);
    assert hex == g1 + g2 + g3 + g4 + g5;
    forall c | c in hex ensures IsHexDigit(c) {
      assert c in g1 || c in g2 || c in g3 || c in g4 || c in g5;
    }
  }

  /** Any canonical UUID text before the first `_` is accepted, whatever its
      version digit: `version=4` is not checked. The value comes back unchanged. */
  lemma CanonicalPrefixAccepted(uuid: string, rest: string)
    requires IsCanonicalUuid(uuid)
    ensures ValidateUniqueFilename(uuid + "_" + rest) == Success(uuid + "_" + rest)
  {
    CanonicalAlphabet(uuid);
    assert !IsLowerHexDigit('_');
    ValidatorJudgesFirstSegment(uuid, rest);
    CanonicalUuidParses(uuid);
  }

  /** Every key `get_unique_filename` can produce passes the validator
      unchanged, so the unique-name upload response never fails validation. */
  lemma UniqueFilenameAccepted(uuid: string, filename: string)
    requires IsUuid4Text(uuid)
    ensures ValidateUniqueFilename(GetUniqueFilename(uuid, filename)) == Success(GetUniqueFilename(uuid, filename))
  {
    CanonicalPrefixAccepted(uuid, filename);
  }

  /** A value whose first segment is not a UUID is refused, even when a UUID
      follows a later underscore (`photo_<uuid>`, for one). */
  lemma NonUuidPrefixRejected(prefix: string, u: string)
    requires '_' !in prefix && !ParsesAsUuid(prefix) && IsCanonicalUuid(u)
    ensures ValidateUniqueFilename(prefix + "_" + u) == Failure(UniqueFilenameError(prefix + "_" + u))
  {
    ValidatorJudgesFirstSegment(prefix, u);
  }
}
