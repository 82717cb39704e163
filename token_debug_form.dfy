/** TokenDebugForm: the text report on the tester's JWT, built when the form loads. */
module TokenDebug {
  import opened Common
  import opened Strings
  import opened Jwt
  import Auth

  /** The required-claims check for the user id: "nameid" or ClaimTypes.NameIdentifier. */
  predicate IsNameIdClaim(c: Claim)
  {
    c.claimType == "nameid" || c.claimType == NameIdentifierUri
  }

  /** The required-claims check for the user name: "unique_name" or ClaimTypes.Name. */
  predicate IsNameClaim(c: Claim)
  {
    c.claimType == "unique_name" || c.claimType == NameUri
  }

  function PresentOrMissing(present: bool): string
  {
    if present then "Present" else "MISSING"
  }

  /** The first audience, or "None" when the token has none. */
  function AudienceText(t: JwtToken): (r: string)
    ensures |t.audiences| > 0 ==> r == t.audiences[0]
    ensures |t.audiences| == 0 ==> r == "None"
  {
    if |t.audiences| > 0 then t.audiences[0] else "None"
  }

  /** Whether the token has expired at `now`: its (local) expiry lies before now. */
  function ExpiryText(t: JwtToken, now: int): (r: string)
    ensures r == "EXPIRED" <==> t.validTo < now
    ensures r == "Valid" <==> t.validTo >= now
  {
    if t.validTo < now then "EXPIRED" else "Valid"
  }

  /** The report line for one claim. */
  function ClaimLine(c: Claim): string
  {
    "- " + c.claimType + ": " + c.value
  }

  /** The lines above the claims; `show` is how a DateTime is written. */
  function HeaderLines(t: JwtToken, now: int, show: int -> string): (r: seq<string>)
    ensures |r| == 7
  {
    [ "Token Analysis:",
      "Issuer: " + t.issuer,
      "Audience: " + AudienceText(t),
      "Expiration: " + show(t.validTo) + " (" + ExpiryText(t, now) + ")",
      "Issued At: " + show(t.issuedAt),
      "",
      "Claims:" ]
  }

  /** The lines below the claims. */
  function CheckLines(t: JwtToken): (r: seq<string>)
    ensures |r| == 4
  {
    [ "",
      "Required Claims Check:",
      "- NameIdentifier (UserId): " + PresentOrMissing(AnySatisfies(t.claims, IsNameIdClaim)),
      "- Name (Username): " + PresentOrMissing(AnySatisfies(t.claims, IsNameClaim)) ]
  }

  /** One line per claim, in token order. */
  function ClaimLines(claims: seq<Claim>): (r: seq<string>)
    ensures |r| == |claims|
    ensures forall i :: 0 <= i < |claims| ==> r[i] == ClaimLine(claims[i])
  {
    seq(|claims|, i requires 0 <= i < |claims| => ClaimLine(claims[i]))
  }

  /** The report on a token that was read, line by line. */
  function ReportLines(t: JwtToken, now: int, show: int -> string): seq<string>
  {
    HeaderLines(t, now, show) + ClaimLines(t.claims) + CheckLines(t)
  }

  /** The report opens with the issuer, the first audience or "None", the
      expiry marked EXPIRED exactly when it lies before now, and the issue time. */
  lemma ReportHeader(t: JwtToken, now: int, show: int -> string)
    ensures var r := ReportLines(t, now, show);
            && |r| == |t.claims| + 11
            && r[0] == "Token Analysis:"
            && r[1] == "Issuer: " + t.issuer
            && r[2] == "Audience: " + (if |t.audiences| > 0 then t.audiences[0] else "None")
            && r[3] == "Expiration: " + show(t.validTo) + " (" + (if t.validTo < now then "EXPIRED" else "Valid") + ")"
            && r[4] == "Issued At: " + show(t.issuedAt)
  {
    var h := HeaderLines(t, now, show);
    var r := ReportLines(t, now, show);
    assert r == h + (ClaimLines(t.claims) + CheckLines(t));
    assert r[..7] == h;
  }

  /** After the header comes one "- type: value" line per claim, in token order. */
  lemma ReportClaims(t: JwtToken, now: int, show: int -> string, i: nat)
    requires i < |t.claims|
    ensures ReportLines(t, now, show)[7 + i] == "- " + t.claims[i].claimType + ": " + t.claims[i].value
  {
    var h, c := HeaderLines(t, now, show), ClaimLines(t.claims);
    var r := ReportLines(t, now, show);
    assert r == (h + c) + CheckLines(t);
    assert r[7 + i] == (h + c)[7 + i] == c[i];
  }

  /** The report ends with the two required-claims checks. */
  lemma ReportChecks(t: JwtToken, now: int, show: int -> string)
    ensures var r, n := ReportLines(t, now, show), |t.claims|;
            && r[n + 9] == "- NameIdentifier (UserId): " + PresentOrMissing(AnySatisfies(t.claims, IsNameIdClaim))
            && r[n + 10] == "- Name (Username): " + PresentOrMissing(AnySatisfies(t.claims, IsNameClaim))
  {
    var h, c, k := HeaderLines(t, now, show), ClaimLines(t.claims), CheckLines(t);
    var r := ReportLines(t, now, show);
    assert r == (h + c) + k;
    assert r[|t.claims| + 9] == k[2];
    assert r[|t.claims| + 10] == k[3];
  }

  /** The user id check reports Present exactly when some claim is a
      "nameid" or ClaimTypes.NameIdentifier claim, the name check exactly
      when some claim is a "unique_name" or ClaimTypes.Name claim. */
  lemma RequiredClaimsChecks(t: JwtToken)
    ensures PresentOrMissing(AnySatisfies(t.claims, IsNameIdClaim)) == "Present" <==>
              exists i :: 0 <= i < |t.claims| && (t.claims[i].claimType == "nameid" || t.claims[i].claimType == NameIdentifierUri)
    ensures PresentOrMissing(AnySatisfies(t.claims, IsNameClaim)) == "Present" <==>
              exists i :: 0 <= i < |t.claims| && (t.claims[i].claimType == "unique_name" || t.claims[i].claimType == NameUri)
  {
    assert "MISSING" != "Present" by { assert "MISSING"[0] != "Present"[0]; }
  }

  /** The report's user id check is narrower than the claims the
      authentication helper takes as the user id: a token whose only user
      id claims are all "sub" or "nameidentifier" claims, whatever other
      claims it carries, is reported MISSING, yet the helper reads a user id
      from it. */
  lemma NameIdCheckNarrowerThanUserId(t: JwtToken, j: nat, now: int, show: int -> string)
    requires j < |t.claims| && (t.claims[j].claimType == "sub" || t.claims[j].claimType == "nameidentifier")
    requires forall i :: 0 <= i < |t.claims| && Auth.IsUserIdClaim(t.claims[i]) ==>
               t.claims[i].claimType == "sub" || t.claims[i].claimType == "nameidentifier"
    ensures ReportLines(t, now, show)[|t.claims| + 9] == "- NameIdentifier (UserId): MISSING"
    ensures Auth.UserIdOf(Read(t)).Some?
  {
    ReportChecks(t, now, show);
    assert !AnySatisfies(t.claims, IsNameIdClaim);
    assert Auth.IsUserIdClaim(t.claims[j]);
  }

  class TokenDebugForm {
    const token: string
    /** txtTokenInfo.Text. */
    var tokenInfoText: string

    constructor(token: string)
      ensures this.token == token && tokenInfoText == ""
    {
      this.token := token;
      tokenInfoText := "";
    }

    /** TokenDebugForm_Load: a one-line message when there is no token, when
        it is not a JWT or when reading it throws; otherwise the report,
        each line ended by "\r\n". */
    method Load(reader: TokenReader, now: int, show: int -> string)
      modifies this
      ensures token == "" ==> tokenInfoText == "No token provided"
      ensures token != "" && ReadToken(reader, token).NotJwt? ==> tokenInfoText == "Invalid token format"
      ensures token != "" && ReadToken(reader, token).Threw? ==>
                tokenInfoText == "Error analyzing token: " + ReadToken(reader, token).error.message
      ensures token != "" && ReadToken(reader, token).Read? ==>
                tokenInfoText == Terminated(ReportLines(ReadToken(reader, token).token, now, show))
    {
      if token == "" {
        tokenInfoText := "No token provided";
        return;
      }
      var read := ReadToken(reader, token);
      if read.Threw? {
        tokenInfoText := "Error analyzing token: " + read.error.message;
        return;
      }
      if read.NotJwt? {
        tokenInfoText := "Invalid token format";
        return;
      }
      var t := read.token;
      var header := HeaderLines(t, now, show);
      tokenInfoText := Terminated(header);
      var i := 0;
      assert header + ClaimLines(t.claims[..0]) == header;
      while i < |t.claims|
        invariant 0 <= i <= |t.claims|
        invariant tokenInfoText == Terminated(header + ClaimLines(t.claims[..i]))
      {
        TerminatedAppend(header + ClaimLines(t.claims[..i]), [ClaimLine(t.claims[i])]);
        assert ClaimLines(t.claims[..i + 1]) == ClaimLines(t.claims[..i]) + [ClaimLine(t.claims[i])];
        AppendAssoc(header, ClaimLines(t.claims[..i]), [ClaimLine(t.claims[i])]);
        tokenInfoText := tokenInfoText + ClaimLine(t.claims[i]) + "\r\n";
        i := i + 1;
      }
      assert t.claims[..i] == t.claims;
      TerminatedAppend(header + ClaimLines(t.claims), CheckLines(t));
      tokenInfoText := tokenInfoText + Terminated(CheckLines(t));
    }
  }
}
