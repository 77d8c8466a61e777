/** The display helpers of the client and the user projection of the server. Day counts live
    in `Days`. */
module Helpers {
  import opened Records
  import opened Text

  const GrayClasses := "bg-gray-100 text-gray-800 border-gray-300"

  /** `getStatusColor`: the badge classes for a status name, gray for anything else. */
  function GetStatusColor(status: string): (c: string)
    ensures c == GrayClasses <==> forall s: Status :: status != StatusName(s)
  {
    if status == "pending" then assert status == StatusName(Pending); "bg-yellow-100 text-yellow-800 border-yellow-300"
    else if status == "approved_by_teamlead" then
      assert status == StatusName(ApprovedByTeamLead); "bg-blue-100 text-blue-800 border-blue-300"
    else if status == "approved" then assert status == StatusName(Approved); "bg-green-100 text-green-800 border-green-300"
    else if status == "rejected" then assert status == StatusName(Rejected); "bg-red-100 text-red-800 border-red-300"
    else GrayClasses
  }

  /** Each of the four statuses has its own colour, and none of them is the fallback. */
  lemma StatusColorsDistinct(a: Status, b: Status)
    ensures GetStatusColor(StatusName(a)) != GrayClasses
    ensures a != b ==> GetStatusColor(StatusName(a)) != GetStatusColor(StatusName(b))
  {
  }

  const DefaultIcon := "\U{1F4C4}"

  /** `getRequestTypeIcon`: cart, money bag or calendar, and a page for anything else. */
  function GetRequestTypeIcon(t: string): (icon: string)
    ensures icon == DefaultIcon <==> forall rt: RequestType :: t != TypeName(rt)
  {
    if t == "purchase" then assert t == TypeName(Purchase); "\U{1F6D2}"
    else if t == "expense" then assert t == TypeName(Expense); "\U{1F4B0}"
    else if t == "leave" then assert t == TypeName(Leave); "\U{1F4C5}"
    else DefaultIcon
  }

  /** The three request types have three different icons, none the fallback. */
  lemma TypeIconsDistinct(a: RequestType, b: RequestType)
    ensures GetRequestTypeIcon(TypeName(a)) != DefaultIcon
    ensures a != b ==> GetRequestTypeIcon(TypeName(a)) != GetRequestTypeIcon(TypeName(b))
  {
  }

  /** `"..."` as code units. */
  const Ellipsis: seq<CodeUnit> := ['.' as int, '.' as int, '.' as int]

  /** `truncateText(text, n)` on the text's UTF-16 code units, which is what `length` and
      `substring` count: the text itself when it fits, otherwise its first `n` units (none for
      a negative `n`, as `substring` clamps) followed by an ellipsis. The cut may fall between
      the two halves of a surrogate pair. */
  function TruncateText(text: seq<CodeUnit>, n: int): (r: seq<CodeUnit>)
    ensures |text| <= n ==> r == text
    ensures |text| > n ==>
      |r| == (if n < 0 then 0 else n) + 3 && r[..|r| - 3] <= text && r[|r| - 3..] == Ellipsis
  {
    if |text| <= n then text
    else text[..if n < 0 then 0 else n] + Ellipsis
  }

  /** The one-argument call, with the default width of 50. */
  function Truncate(text: seq<CodeUnit>): (r: seq<CodeUnit>)
    ensures |r| <= 53
    ensures |text| <= 50 ==> r == text
  {
    TruncateText(text, 50)
  }

  /** Truncating a short-enough result again changes nothing, and the visible part of a
      truncated text is exactly its first `n` code units. */
  lemma TruncateFacts(text: seq<CodeUnit>, n: nat)
    ensures |text| > n ==> TruncateText(text, n) == text[..n] + Ellipsis
    ensures TruncateText(TruncateText(text, n), n + 3) == TruncateText(text, n)
  {
  }

  /** On text inside the Basic Multilingual Plane, code units are characters: the text is cut
      after its first `n` characters. */
  lemma TruncateBmp(s: string, n: nat)
    requires forall i :: 0 <= i < |s| ==> !IsAstral(s[i])
    ensures |s| <= n ==> TruncateText(Utf16(s), n) == Utf16(s)
    ensures |s| > n ==> TruncateText(Utf16(s), n) == Utf16(s[..n]) + Ellipsis
  {
    Utf16OfBmp(s);
    if |s| > n {
      Utf16OfBmp(s[..n]);
      assert Utf16(s)[..n] == Utf16(s[..n]);
    }
  }

  /** Outside that plane the cut counts units, not characters: two emoji are four units, and
      cutting after one unit keeps a lone high surrogate. */
  lemma TruncateSplitsSurrogatePair()
    ensures Utf16("\U{1F600}\U{1F600}") == [0xD83D, 0xDE00, 0xD83D, 0xDE00]
    ensures TruncateText(Utf16("\U{1F600}\U{1F600}"), 1) == [0xD83D] + Ellipsis
    ensures TruncateText(Utf16("\U{1F600}\U{1F600}"), 2) == [0xD83D, 0xDE00] + Ellipsis
  {
    var s := "\U{1F600}\U{1F600}";
    assert UnitsOf(s[0]) == [0xD83D, 0xDE00];
    assert s[1..][1..] == [];
    assert Utf16(s[1..]) == UnitsOf(s[1]) + Utf16([]);
  }

  /** A user document as stored: the public fields, the password hash and anything else the
      schema keeps. */
  datatype UserDoc = UserDoc(id: Id, name: string, email: string, password: string, role: Role,
                             department: string, other: map<string, string>)

  /** The five fields the API returns for a user. */
  datatype PublicUser = PublicUser(id: Id, name: string, email: string, role: Role, department: string)

  /** `sanitizeUser`. */
  function SanitizeUser(u: UserDoc): (p: PublicUser)
    ensures p.id == u.id && p.name == u.name && p.email == u.email && p.role == u.role
    ensures p.department == u.department
  {
    PublicUser(u.id, u.name, u.email, u.role, u.department)
  }

  /** The projection does not depend on the password or any other field: two users that agree
      on the five public fields give the same output, and different ones differ. */
  lemma SanitizeDropsPrivateFields(u: UserDoc, v: UserDoc)
    ensures SanitizeUser(u) == SanitizeUser(v) <==>
      u.id == v.id && u.name == v.name && u.email == v.email && u.role == v.role && u.department == v.department
  {
  }
}
