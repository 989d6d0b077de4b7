/** The request-context builder of `src/context/context.js`: it takes the `Authorization`
    header, removes the first `"Bearer "` from it and, when a token remains, verifies it. The
    token verifier (`jwt.verify` with the server's secret) is a parameter. */
module Context {
  import opened Wrappers

  /** The decoded token payload; `authorId` is absent when the payload has no such key. */
  datatype Payload = Payload(authorId: Option<string>)

  /** What the verifier does with a token: returns the decoded payload, or throws (bad
      signature, expired, malformed, missing secret, ...). */
  datatype Verification = Decoded(payload: Payload) | Thrown(reason: string)

  /** The context object: `{}` or `{ authorId }`. */
  datatype Ctx = Anonymous | Authenticated(authorId: Option<string>)

  /** The outcome of building the context: a context, or the error it throws. */
  datatype Outcome = Built(ctx: Ctx) | Failed(message: string)

  const Bearer := "Bearer "
  const InvalidToken := "Invalid token"

  /** `pat` occurs in `s` at position `i`. */
  predicate OccursAt(s: string, pat: string, i: nat) {
    i + |pat| <= |s| && s[i..i + |pat|] == pat
  }

  /** The first position at or after `from` where `pat` occurs in `s`. */
  function IndexOfFrom(s: string, pat: string, from: nat): (r: Option<nat>)
    requires from <= |s|
    ensures r.Some? ==> from <= r.value && OccursAt(s, pat, r.value)
    ensures r.Some? ==> forall j: nat :: from <= j < r.value ==> !OccursAt(s, pat, j)
    ensures r.None? ==> forall j: nat :: from <= j ==> !OccursAt(s, pat, j)
    decreases |s| - from
  {
    if from + |pat| > |s| then None
    else if s[from..from + |pat|] == pat then Some(from)
    else IndexOfFrom(s, pat, from + 1)
  }

  /** `String.prototype.indexOf`, with `None` for -1. */
  function IndexOf(s: string, pat: string): (r: Option<nat>)
    ensures r.Some? ==> OccursAt(s, pat, r.value)
    ensures r.Some? ==> forall j: nat :: j < r.value ==> !OccursAt(s, pat, j)
    ensures r.None? <==> forall j: nat :: !OccursAt(s, pat, j)
  {
    IndexOfFrom(s, pat, 0)
  }

  /** `String.prototype.replace` with a string pattern and a replacement without `$`
      patterns: the first occurrence of `pat` becomes `rep`; without one, `s` is unchanged. */
  function ReplaceFirst(s: string, pat: string, rep: string): (r: string)
    ensures (forall j: nat :: !OccursAt(s, pat, j)) ==> r == s
    ensures forall i: nat :: OccursAt(s, pat, i) && (forall j: nat :: j < i ==> !OccursAt(s, pat, j)) ==>
      r == s[..i] + rep + s[i + |pat|..]
  {
    match IndexOf(s, pat)
    case None => s
    case Some(i) =>
      assert forall i': nat :: OccursAt(s, pat, i') && (forall j: nat :: j < i' ==> !OccursAt(s, pat, j)) ==> i' == i;
      s[..i] + rep + s[i + |pat|..]
  }

  /** The token: the header (`""` when absent) with its first `"Bearer "` removed. */
  function TokenOf(header: Option<string>): (token: string)
    ensures header.None? ==> token == ""
    ensures header.Some? && (forall j: nat :: !OccursAt(header.value, Bearer, j)) ==> token == header.value
    ensures forall i: nat :: header.Some? && OccursAt(header.value, Bearer, i) &&
                             (forall j: nat :: j < i ==> !OccursAt(header.value, Bearer, j)) ==>
      token == header.value[..i] + header.value[i + |Bearer|..]
  {
    ReplaceFirst(if header.Some? then header.value else "", Bearer, "")
  }

  /** `context({ req })`: `{}` for an empty token; otherwise `{ authorId }` from the decoded
      payload, or the single error "Invalid token" whatever made the verifier throw. */
  function BuildContext(header: Option<string>, verify: string -> Verification): (r: Outcome)
    ensures r == Built(Anonymous) <==> TokenOf(header) == ""
    ensures r.Built? && r.ctx.Authenticated? <==>
      TokenOf(header) != "" && verify(TokenOf(header)).Decoded?
    ensures r.Built? && r.ctx.Authenticated? ==>
      r.ctx.authorId == verify(TokenOf(header)).payload.authorId
    ensures r.Failed? <==> TokenOf(header) != "" && verify(TokenOf(header)).Thrown?
    ensures r.Failed? ==> r.message == InvalidToken
  {
    var token := TokenOf(header);
    if token != "" then
      match verify(token)
      case Decoded(payload) => Built(Authenticated(payload.authorId))
      case Thrown(_) => Failed(InvalidToken)
    else
      Built(Anonymous)
  }

  /** A missing header builds `{}`, whatever the verifier would say. */
  lemma MissingHeader(verify: string -> Verification)
    ensures BuildContext(None, verify) == Built(Anonymous)
  {
  }

  /** A header of exactly `"Bearer "` leaves an empty token and builds `{}`. */
  lemma BearerAlone(verify: string -> Verification)
    ensures TokenOf(Some(Bearer)) == ""
    ensures BuildContext(Some(Bearer), verify) == Built(Anonymous)
  {
  }

  /** The well-formed header `"Bearer " + t` hands exactly `t` to the verifier. */
  lemma BearerPrefix(t: string)
    ensures TokenOf(Some(Bearer + t)) == t
  {
  }

  /** A header without `"Bearer "` in it is the token, unchanged. */
  lemma NoBearer(h: string)
    requires forall j: nat :: !OccursAt(h, Bearer, j)
    ensures TokenOf(Some(h)) == h
  {
  }

  /** Only the first `"Bearer "` is removed: a second one stays in the token. */
  lemma OnlyFirstBearerRemoved(t: string)
    ensures TokenOf(Some(Bearer + Bearer + t)) == Bearer + t
  {
    assert Bearer + Bearer + t == Bearer + (Bearer + t);
    BearerPrefix(Bearer + t);
  }

  /** `"Bearer "` is removed wherever it first occurs, not only at the start. */
  lemma BearerInside(h: string, i: nat)
    requires OccursAt(h, Bearer, i) && forall j: nat :: j < i ==> !OccursAt(h, Bearer, j)
    ensures TokenOf(Some(h)) == h[..i] + h[i + |Bearer|..]
  {
  }
}
