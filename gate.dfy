/**
 * The bearer-token gate in front of the protected auth routes. It reads the
 * Authorization header, deletes the first occurrence of "Bearer " (wherever it
 * stands: the rule is not anchored at the start), refuses an absent or empty
 * result with 403, and otherwise hands the token to the JWT verifier, refusing
 * with 401 when verification fails. The verifier (signature, expiry, secret) is
 * a parameter.
 */
module Gate {
  import opened Wrappers
  import opened UserSchema

  const Scheme: string := "Bearer "

  predicate OccursAt(s: string, pat: string, i: nat)
  {
    i + |pat| <= |s| && s[i..i + |pat|] == pat
  }

  /** The first position at or after `from` where `pat` occurs in `s`. */
  function FirstOccurrence(s: string, pat: string, from: nat): (r: Option<nat>)
    requires from <= |s|
    ensures r.Some? ==> from <= r.value && OccursAt(s, pat, r.value)
    ensures r.Some? ==> forall j :: from <= j < r.value ==> !OccursAt(s, pat, j)
    ensures r.None? ==> forall j :: from <= j <= |s| ==> !OccursAt(s, pat, j)
    decreases |s| - from
  {
    if OccursAt(s, pat, from) then Some(from)
    else if from == |s| then None
    else FirstOccurrence(s, pat, from + 1)
  }

  /** An occurrence with none before it is the one `FirstOccurrence` finds. */
  lemma LeastOccurrenceIsFirst(s: string, pat: string, i: nat)
    requires OccursAt(s, pat, i)
    requires forall j :: 0 <= j < i ==> !OccursAt(s, pat, j)
    ensures FirstOccurrence(s, pat, 0) == Some(i)
  {
  }

  /**
   * `String.prototype.replace` with a string pattern: a string in which the
   * pattern does not occur is returned as it is; otherwise the leftmost
   * occurrence, and only that one, is replaced.
   */
  function ReplaceFirst(s: string, pat: string, with: string): (r: string)
    ensures (forall j :: 0 <= j <= |s| ==> !OccursAt(s, pat, j)) ==> r == s
    ensures forall i: nat :: OccursAt(s, pat, i) && (forall j :: 0 <= j < i ==> !OccursAt(s, pat, j)) ==>
      r == s[..i] + with + s[i + |pat|..]
  {
    // The leftmost occurrence is unique, so the one found is the one the contract names.
    assert forall i: nat :: OccursAt(s, pat, i) && (forall j :: 0 <= j < i ==> !OccursAt(s, pat, j)) ==>
      FirstOccurrence(s, pat, 0) == Some(i) by {
      forall i: nat | OccursAt(s, pat, i) && (forall j :: 0 <= j < i ==> !OccursAt(s, pat, j)) {
        LeastOccurrenceIsFirst(s, pat, i);
      }
    }
    match FirstOccurrence(s, pat, 0)
    case None => s
    case Some(i) => s[..i] + with + s[i + |pat|..]
  }

  /** `req.header("Authorization")?.replace("Bearer ", "")`. */
  function Token(authorization: Option<string>): Option<string>
  {
    match authorization
    case None => None
    case Some(h) => Some(ReplaceFirst(h, Scheme, ""))
  }

  /** The gate's decision: 403 before verifying, 401 after a failed verify, or the decoded identity. */
  datatype Verdict = Denied | Rejected | Admitted(id: UserId)

  /**
   * What stripping the scheme leaves: nothing exactly for the empty header and
   * for "Bearer " alone; the rest of a header that starts with the scheme; and
   * a header without the scheme as it is.
   */
  lemma TokenShape(h: string)
    ensures ReplaceFirst(h, Scheme, "") == "" <==> h == "" || h == Scheme
    ensures |h| >= |Scheme| && h[..|Scheme|] == Scheme ==> Token(Some(h)) == Some(h[|Scheme|..])
  {
    var first := FirstOccurrence(h, Scheme, 0);
    if |h| >= |Scheme| && h[..|Scheme|] == Scheme {
      assert h == Scheme + h[|Scheme|..];
      StripsLeadingScheme(h[|Scheme|..]);
    } else if first.Some? {
      var i := first.value;
      var r := h[..i] + "" + h[i + |Scheme|..];
      assert |r| == |h| - |Scheme|;
    }
  }

  /**
   * The gate refuses with 403 exactly the absent header, the empty one and
   * "Bearer " alone. Any other header is decided by the verifier: a header
   * "Bearer <t>" on `t`, a header without the scheme on the header itself.
   */
  function Authenticate(authorization: Option<string>, verify: string -> Option<UserId>): (v: Verdict)
    ensures v.Denied? <==> authorization == None || authorization == Some("") || authorization == Some(Scheme)
    ensures authorization.Some? && |authorization.value| > |Scheme| &&
            authorization.value[..|Scheme|] == Scheme ==>
      var t := authorization.value[|Scheme|..];
      && (v.Rejected? <==> verify(t).None?)
      && (v.Admitted? ==> verify(t) == Some(v.id))
    ensures authorization.Some? && authorization.value != "" &&
            (forall j :: 0 <= j <= |authorization.value| ==> !OccursAt(authorization.value, Scheme, j)) ==>
      && (v.Rejected? <==> verify(authorization.value).None?)
      && (v.Admitted? ==> verify(authorization.value) == Some(v.id))
  {
    match authorization
    case None => Denied
    case Some(h) =>
      TokenShape(h);
      var token := Token(authorization).value;
      if token == "" then Denied
      else match verify(token)
        case None => Rejected
        case Some(id) => Admitted(id)
  }

  /** A header of the form "Bearer <t>" yields exactly `t`, whatever `t` holds. */
  lemma StripsLeadingScheme(t: string)
    ensures Token(Some(Scheme + t)) == Some(t)
  {
    var h := Scheme + t;
    assert OccursAt(h, Scheme, 0) by { assert h[0..|Scheme|] == Scheme; }
    var first := FirstOccurrence(h, Scheme, 0);
    assert first == Some(0);
    assert h[..0] + "" + h[0 + |Scheme|..] == t;
  }

  /** A header without "Bearer " anywhere is passed to the verifier as it is. */
  lemma KeepsHeaderWithoutScheme(h: string)
    requires forall j :: 0 <= j <= |h| ==> !OccursAt(h, Scheme, j)
    ensures Token(Some(h)) == Some(h)
  {
  }

  /** Without a header, with an empty one, or with "Bearer " alone, the gate answers 403. */
  lemma MissingTokenDenied(verify: string -> Option<UserId>)
    ensures Authenticate(None, verify) == Denied
    ensures Authenticate(Some(""), verify) == Denied
    ensures Authenticate(Some(Scheme), verify) == Denied
  {
  }

  /**
   * A token issued by a signer the verifier agrees with, sent as
   * "Bearer <token>", admits exactly the identity it was issued for.
   */
  lemma IssuedTokenAdmitted(id: UserId, sign: UserId -> string, verify: string -> Option<UserId>)
    requires sign(id) != "" && verify(sign(id)) == Some(id)
    ensures Authenticate(Some(Scheme + sign(id)), verify) == Admitted(id)
  {
    StripsLeadingScheme(sign(id));
  }

  /** Only the first "Bearer " is removed: "Bearer Bearer t" yields "Bearer t". */
  lemma OnlyFirstSchemeRemoved(t: string)
    ensures Token(Some(Scheme + Scheme + t)) == Some(Scheme + t)
  {
    StripsLeadingScheme(Scheme + t);
    assert Scheme + Scheme + t == Scheme + (Scheme + t);
  }
}
