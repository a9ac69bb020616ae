/** The backend's request guards: bearer-token verification and the admin check. */
module Auth {
  import opened Base
  import opened Js

  /** `s.split(c)`: the fields between the occurrences of `c`. */
  function Split(s: string, c: char): (r: seq<string>)
    ensures |r| >= 1
    decreases |s|
  {
    match IndexOf(s, c)
    case None => [s]
    case Some(k) => [s[..k]] + Split(s[k + 1..], c)
  }

  /** The text of `s` before its first `c` (all of `s` when there is none). */
  function UpTo(s: string, c: char): (r: string)
    ensures c !in r && |r| <= |s| && r == s[..|r|]
    ensures |r| < |s| ==> s[|r|] == c
  {
    match IndexOf(s, c)
    case None => s
    case Some(k) => s[..k]
  }

  const BearerPrefix := "Bearer "

  /** The token `verifyToken` extracts from an `Authorization` header: `None` when the
      header is missing, empty or lacks the `Bearer ` prefix. */
  function ExtractToken(header: Option<string>): (r: Option<string>)
    ensures r.Some? <==> header.Some? && StartsWith(header.value, BearerPrefix)
  {
    if header.None? || header.value == "" || !StartsWith(header.value, BearerPrefix) then None
    else
      var fields := Split(header.value, ' ');
      if |fields| > 1 then Some(fields[1]) else Some("")
  }

  /** The token is the second space-separated field, that is the text after
      `Bearer ` up to the next space. */
  lemma {:induction false} TokenIsSecondField(header: string)
    requires StartsWith(header, BearerPrefix)
    ensures |Split(header, ' ')| >= 2
    ensures ExtractToken(Some(header)) == Some(Split(header, ' ')[1])
    ensures ExtractToken(Some(header)) == Some(UpTo(header[7..], ' '))
  {
    assert header[..7] == BearerPrefix;
    assert header[6] == ' ';
    assert forall i :: 0 <= i < 6 ==> header[i] == BearerPrefix[i];
    assert ' ' !in header[..6];
    var k := IndexOf(header, ' ');
    assert k == Some(6);
    var rest := header[7..];
    assert Split(header, ' ') == [header[..6]] + Split(rest, ' ');
    assert Split(header, ' ')[1] == Split(rest, ' ')[0];
    match IndexOf(rest, ' ') {
      case None =>
      case Some(j) =>
    }
  }

  /** A decoded identity token. */
  datatype DecodedToken = DecodedToken(uid: string, claims: Doc)

  /** The identity provider's token check, kept abstract: the decoded token, or `None`
      when the token is invalid or expired. */
  type Verifier = string -> Option<DecodedToken>

  /** How a guard ends: pass control on, or answer with an error. */
  datatype Guard = Next | Reject(status: int, message: string)

  /** The request as the guards see it: only `req.user` is written. */
  class Request {
    var user: Option<DecodedToken>

    constructor()
      ensures user.None?
    {
      user := None;
    }
  }

  /** `verifyToken`. `verified` is the token handed to the identity provider, if
      it was called. */
  method VerifyToken(req: Request, header: Option<string>, verify: Verifier)
    returns (g: Guard, verified: Option<string>)
    modifies req
    ensures verified == ExtractToken(header)
    ensures verified.None? ==> g == Reject(401, "No token provided") && req.user == old(req.user)
    ensures verified.Some? && verify(verified.value).None? ==>
              g == Reject(401, "Invalid or expired token") && req.user == old(req.user)
    ensures g == Next <==> verified.Some? && verify(verified.value).Some?
    ensures g == Next ==> req.user == verify(verified.value)
  {
    verified := ExtractToken(header);
    if verified.None? {
      return Reject(401, "No token provided"), verified;
    }
    var decoded := verify(verified.value);
    if decoded.None? {
      return Reject(401, "Invalid or expired token"), verified;
    }
    req.user := decoded;
    g := Next;
  }

  /** Reading `users/{uid}`: the document, no document, or a failed read. */
  datatype Lookup = Found(doc: Doc) | NotFound | LookupFailed

  /** `requireAdmin`. A missing `req.user` makes reading its uid throw, which the
      handler's catch turns into 500 like a failed lookup. */
  function RequireAdmin(user: Option<DecodedToken>, lookup: string -> Lookup): (g: Guard)
    ensures g == Next <==>
      user.Some? && lookup(user.value.uid).Found? && Get(lookup(user.value.uid).doc, "role") == Some(JStr("admin"))
    ensures g.Reject? ==> g.status == 403 || g.status == 500
    ensures (user.None? || lookup(user.value.uid).LookupFailed?) <==> g == Reject(500, "Authorization failed")
  {
    if user.None? then Reject(500, "Authorization failed")
    else match lookup(user.value.uid)
      case LookupFailed => Reject(500, "Authorization failed")
      case NotFound => Reject(403, "Admin access required")
      case Found(doc) =>
        if Get(doc, "role") != Some(JStr("admin")) then Reject(403, "Admin access required")
        else Next
  }

  /** The role test is exact: `"Admin"` is refused. */
  lemma RoleIsCaseSensitive(t: DecodedToken, doc: Doc, lookup: string -> Lookup)
    requires lookup(t.uid) == Found(doc) && Get(doc, "role") == Some(JStr("Admin"))
    ensures RequireAdmin(Some(t), lookup) == Reject(403, "Admin access required")
  {
    assert "Admin" != "admin";
  }
}
