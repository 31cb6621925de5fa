/** Token parsing and the authorization decision. A header's `Bearer` or
    `bearer` words and its spaces are removed, and what is left is a token
    only if it has three dot-separated parts. Access is granted when the
    access service grants the token the workflow service and, if a team
    project is named, that team project too. The two grant checks are
    calls to the access service, given here as oracles. */
module Auth {
  import opened Wrappers

  // ------------------------------------------------------------ the token

  /** `[Bb]earer` matches at the start of `s`. */
  predicate BearerAt(s: string) {
    |s| >= 6 && (s[0] == 'B' || s[0] == 'b')
    && s[1] == 'e' && s[2] == 'a' && s[3] == 'r' && s[4] == 'e' && s[5] == 'r'
  }

  /** `re.sub(r"[Bb]earer", "", s)`: one left-to-right pass that drops each
      match and keeps every other character (see `StripBearerAbsent` and
      `StripBearerConcat`). */
  function StripBearer(s: string): (stripped: string)
    ensures |stripped| <= |s| && (|s| - |stripped|) % 6 == 0
    decreases |s|
  {
    if s == [] then []
    else if BearerAt(s) then
      var rest := StripBearer(s[6..]);
      assert |s| - |rest| == (|s[6..]| - |rest|) + 6;
      rest
    else [s[0]] + StripBearer(s[1..])
  }

  /** `s.replace(" ", "")`: every character but the space is kept, as
      often as it occurs. */
  function RemoveSpaces(s: string): (r: string)
    ensures |r| <= |s|
    ensures forall i :: 0 <= i < |r| ==> r[i] != ' '
    ensures forall c :: c != ' ' ==> multiset(r)[c] == multiset(s)[c]
    ensures (forall i :: 0 <= i < |s| ==> s[i] != ' ') ==> r == s
  {
    if s == [] then []
    else
      assert s == [s[0]] + s[1..];
      (if s[0] == ' ' then [] else [s[0]]) + RemoveSpaces(s[1..])
  }

  /** Space removal works piece by piece, so the kept characters stay in
      their order. */
  lemma {:induction false} RemoveSpacesConcat(a: string, b: string)
    ensures RemoveSpaces(a + b) == RemoveSpaces(a) + RemoveSpaces(b)
  {
    if a == [] {
      assert a + b == b;
    } else {
      assert (a + b)[0] == a[0] && (a + b)[1..] == a[1..] + b;
      RemoveSpacesConcat(a[1..], b);
    }
  }

  /** A string with no `[Bb]earer` in it passes the substitution
      unchanged. */
  lemma {:induction false} StripBearerAbsent(s: string)
    requires forall i :: 0 <= i < |s| ==> !BearerAt(s[i..])
    ensures StripBearer(s) == s
    decreases |s|
  {
    if s != [] {
      assert !BearerAt(s[0..]) && s[0..] == s;
      forall i | 0 <= i < |s[1..]| ensures !BearerAt(s[1..][i..]) {
        assert s[1..][i..] == s[i + 1..];
      }
      StripBearerAbsent(s[1..]);
      assert s == [s[0]] + s[1..];
    }
  }

  /** No match starts in the last five characters of `a` and runs on
      into what follows it. */
  predicate NoMatchAcross(a: string, b: string) {
    forall i :: 0 <= i < |a| && |a| < i + 6 ==> !BearerAt((a + b)[i..])
  }

  /** Dropping the first `k` characters of `a` keeps the boundary free of
      matches. */
  lemma NoMatchAcrossTail(a: string, b: string, k: nat)
    requires k <= |a| && NoMatchAcross(a, b)
    ensures NoMatchAcross(a[k..], b)
  {
    forall i | 0 <= i < |a[k..]| && |a[k..]| < i + 6 ensures !BearerAt((a[k..] + b)[i..]) {
      assert (a[k..] + b)[i..] == (a + b)[i + k..];
    }
  }

  /** One step of the scan at a match. */
  lemma StripBearerMatch(s: string)
    requires BearerAt(s)
    ensures StripBearer(s) == StripBearer(s[6..])
  {
  }

  /** One step of the scan at a character that starts no match. */
  lemma StripBearerNoMatch(s: string)
    requires s != [] && !BearerAt(s)
    ensures StripBearer(s) == [s[0]] + StripBearer(s[1..])
  {
  }

  /** Whether a match starts at the front depends only on the first six
      characters. */
  lemma BearerAtPrefix(a: string, b: string)
    requires |a| >= 6
    ensures BearerAt(a + b) <==> BearerAt(a)
  {
    assert (a + b)[..6] == a[..6];
  }

  /** The substitution works piece by piece when no match crosses the
      boundary: a match that starts in `a` ends in `a`. So every character
      outside a `[Bb]earer` word is kept, in its order. */
  lemma {:induction false} StripBearerConcat(a: string, b: string)
    requires NoMatchAcross(a, b)
    ensures StripBearer(a + b) == StripBearer(a) + StripBearer(b)
    decreases |a|
  {
    if a == [] {
      assert a + b == b;
    } else {
      assert (a + b)[0..] == a + b;
      if BearerAt(a + b) {
        assert |a| >= 6;
        BearerAtPrefix(a, b);
        assert (a + b)[6..] == a[6..] + b;
        NoMatchAcrossTail(a, b, 6);
        StripBearerConcat(a[6..], b);
        StripBearerMatch(a + b);
        StripBearerMatch(a);
      } else {
        if |a| >= 6 {
          BearerAtPrefix(a, b);
        }
        assert (a + b)[0] == a[0] && (a + b)[1..] == a[1..] + b;
        NoMatchAcrossTail(a, b, 1);
        StripBearerConcat(a[1..], b);
        StripBearerNoMatch(a + b);
        StripBearerNoMatch(a);
      }
    }
  }

  /** The number of dots in `s`; `s.split(".")` has one part more. */
  function DotCount(s: string): nat {
    if s == [] then 0 else (if s[0] == '.' then 1 else 0) + DotCount(s[1..])
  }

  /** `_parse_jwt`: the header without `Bearer` and spaces when that has
      three dot-separated parts, else `""`. */
  function ParseJwt(token: string): (jwt: string)
    ensures jwt == "" || DotCount(jwt) == 2
    ensures jwt != "" ==> jwt == RemoveSpaces(StripBearer(token))
    ensures forall i :: 0 <= i < |jwt| ==> jwt[i] != ' '
  {
    var parsedToken := RemoveSpaces(StripBearer(token));
    if DotCount(parsedToken) != 2 then "" else parsedToken
  }

  lemma {:induction false} DotCountConcat(a: string, b: string)
    ensures DotCount(a + b) == DotCount(a) + DotCount(b)
  {
    if a == [] {
      assert a + b == b;
    } else {
      assert (a + b)[0] == a[0] && (a + b)[1..] == a[1..] + b;
      DotCountConcat(a[1..], b);
    }
  }

  /** Removing `Bearer` words keeps every dot. */
  lemma {:induction false} StripBearerDots(s: string)
    ensures DotCount(StripBearer(s)) == DotCount(s)
    decreases |s|
  {
    if s != [] {
      if BearerAt(s) {
        StripBearerDots(s[6..]);
        assert s == s[..6] + s[6..];
        DotCountConcat(s[..6], s[6..]);
        assert s[..6] == "Bearer" || s[..6] == "bearer";
        assert DotCount("Bearer") == 0 && DotCount("bearer") == 0;
      } else {
        StripBearerDots(s[1..]);
        DotCountConcat([s[0]], StripBearer(s[1..]));
      }
    }
  }

  /** Removing spaces keeps every dot. */
  lemma {:induction false} RemoveSpacesDots(s: string)
    ensures DotCount(RemoveSpaces(s)) == DotCount(s)
  {
    if s != [] {
      RemoveSpacesDots(s[1..]);
      DotCountConcat(if s[0] == ' ' then [] else [s[0]], RemoveSpaces(s[1..]));
    }
  }

  /** Whether a header parses depends only on its dots: it yields a token
      exactly when it has two of them, and the token is never empty. */
  lemma ParseJwtAccepts(token: string)
    ensures ParseJwt(token) != "" <==> DotCount(token) == 2
  {
    StripBearerDots(token);
    RemoveSpacesDots(StripBearer(token));
  }

  /** A string that neither `[Bb]earer` nor the space removal touches: no
      space, and no `[Bb]earer` starting anywhere in it. */
  predicate PlainToken(t: string) {
    t == [] || (t[0] != ' ' && !BearerAt(t) && PlainToken(t[1..]))
  }

  lemma {:induction false} StripBearerPlain(t: string)
    requires PlainToken(t)
    ensures StripBearer(t) == t
  {
    if t != [] {
      StripBearerPlain(t[1..]);
      assert [t[0]] + t[1..] == t;
    }
  }

  lemma {:induction false} RemoveSpacesPlain(t: string)
    requires PlainToken(t)
    ensures RemoveSpaces(t) == t
  {
    if t != [] {
      RemoveSpacesPlain(t[1..]);
      assert [t[0]] + t[1..] == t;
    }
  }

  /** The word and the space in front of a plain token go, the token
      stays. */
  lemma StripHeader(word: string, t: string)
    requires word == "Bearer" || word == "bearer"
    requires PlainToken(t)
    ensures RemoveSpaces(StripBearer(word + " " + t)) == t
  {
    var header := word + " " + t;
    assert BearerAt(header) by {
      assert header[..6] == word;
    }
    assert header[6..] == " " + t;
    var rest := " " + t;
    assert !BearerAt(rest) by {
      assert rest[0] == ' ';
    }
    assert rest[1..] == t;
    StripBearerPlain(t);
    assert StripBearer(rest) == " " + t;
    RemoveSpacesPlain(t);
    assert RemoveSpaces(" " + t) == RemoveSpaces(t);
  }

  /** A token is plain exactly when it has no space and no `[Bb]earer`
      word starting anywhere in it; any other letter, `b` included, may
      occur, as it does in encoded JWT headers. */
  lemma {:induction false} PlainTokenIff(t: string)
    ensures PlainToken(t) <==> forall i :: 0 <= i < |t| ==> t[i] != ' ' && !BearerAt(t[i..])
  {
    if t != [] {
      PlainTokenIff(t[1..]);
      assert t[0..] == t;
      forall i | 0 <= i < |t[1..]| ensures t[1..][i] == t[i + 1] && t[1..][i..] == t[i + 1..] {
      }
      if forall i :: 0 <= i < |t| ==> t[i] != ' ' && !BearerAt(t[i..]) {
        assert forall i :: 0 <= i < |t[1..]| ==> t[1..][i] != ' ' && !BearerAt(t[1..][i..]) by {
          forall i | 0 <= i < |t[1..]| ensures t[1..][i] != ' ' && !BearerAt(t[1..][i..]) {
            assert t[i + 1] != ' ' && !BearerAt(t[i + 1..]);
          }
        }
      }
      if PlainToken(t) {
        forall i | 0 <= i < |t| ensures t[i] != ' ' && !BearerAt(t[i..]) {
          if i > 0 {
            assert t[1..][i - 1] == t[i] && t[1..][i - 1..] == t[i..];
          }
        }
      }
    }
  }

  /** A string without spaces and without the letter `b` in either case is
      plain. */
  lemma {:induction false} PlainWithoutB(t: string)
    requires forall i :: 0 <= i < |t| ==> t[i] != ' ' && t[i] != 'B' && t[i] != 'b'
    ensures PlainToken(t)
  {
    if t != [] {
      PlainWithoutB(t[1..]);
    }
  }

  /** What `_parse_jwt` returns once the header is stripped to `t`. */
  lemma ParseJwtOf(header: string, t: string)
    requires RemoveSpaces(StripBearer(header)) == t
    ensures ParseJwt(header) == (if DotCount(t) == 2 then t else "")
  {
  }

  /** A header `Bearer <t>` or `bearer <t>` parses to the token `t` when
      `t` has three parts, and to `""` otherwise. */
  lemma ParseWordHeader(word: string, t: string)
    requires word == "Bearer" || word == "bearer"
    requires PlainToken(t)
    ensures ParseJwt(word + " " + t) == (if DotCount(t) == 2 then t else "")
  {
    StripHeader(word, t);
    ParseJwtOf(word + " " + t, t);
  }

  /** A bare token parses to itself when it has three parts, and to `""`
      otherwise. */
  lemma ParseBareToken(t: string)
    requires PlainToken(t)
    ensures ParseJwt(t) == (if DotCount(t) == 2 then t else "")
  {
    StripBearerPlain(t);
    RemoveSpacesPlain(t);
    ParseJwtOf(t, t);
  }

  /** A sample well-formed header. */
  lemma ParseJwtAcceptsVector(t: string)
    requires t == "x_y.s.s"
    ensures ParseJwt("Bearer " + t) == t
  {
    assert t[7..] == [];
    assert t[6..][1..] == t[7..] && DotCount(t[6..]) == DotCount(t[7..]) + (if t[6] == '.' then 1 else 0);
    assert t[5..][1..] == t[6..] && DotCount(t[5..]) == DotCount(t[6..]) + (if t[5] == '.' then 1 else 0);
    assert t[4..][1..] == t[5..] && DotCount(t[4..]) == DotCount(t[5..]) + (if t[4] == '.' then 1 else 0);
    assert t[3..][1..] == t[4..] && DotCount(t[3..]) == DotCount(t[4..]) + (if t[3] == '.' then 1 else 0);
    assert t[2..][1..] == t[3..] && DotCount(t[2..]) == DotCount(t[3..]) + (if t[2] == '.' then 1 else 0);
    assert t[1..][1..] == t[2..] && DotCount(t[1..]) == DotCount(t[2..]) + (if t[1] == '.' then 1 else 0);
    assert t[0..][1..] == t[1..] && DotCount(t[0..]) == DotCount(t[1..]) + (if t[0] == '.' then 1 else 0);
    assert t[0..] == t;
    PlainWithoutB(t);
    var word := "Bearer";
    ParseWordHeader(word, t);
    assert word + " " + t == "Bearer " + t;
  }

  /** A sample malformed header: two parts only. */
  lemma ParseJwtRejectsVector(t: string)
    requires t == "sdf.sdf"
    ensures ParseJwt("bearer " + t) == ""
  {
    assert t[7..] == [];
    assert t[6..][1..] == t[7..] && DotCount(t[6..]) == DotCount(t[7..]) + (if t[6] == '.' then 1 else 0);
    assert t[5..][1..] == t[6..] && DotCount(t[5..]) == DotCount(t[6..]) + (if t[5] == '.' then 1 else 0);
    assert t[4..][1..] == t[5..] && DotCount(t[4..]) == DotCount(t[5..]) + (if t[4] == '.' then 1 else 0);
    assert t[3..][1..] == t[4..] && DotCount(t[3..]) == DotCount(t[4..]) + (if t[3] == '.' then 1 else 0);
    assert t[2..][1..] == t[3..] && DotCount(t[2..]) == DotCount(t[3..]) + (if t[2] == '.' then 1 else 0);
    assert t[1..][1..] == t[2..] && DotCount(t[1..]) == DotCount(t[2..]) + (if t[1] == '.' then 1 else 0);
    assert t[0..][1..] == t[1..] && DotCount(t[0..]) == DotCount(t[1..]) + (if t[0] == '.' then 1 else 0);
    assert t[0..] == t;
    PlainWithoutB(t);
    var word := "bearer";
    ParseWordHeader(word, t);
    assert word + " " + t == "bearer " + t;
  }

  // ------------------------------------------------------- authorization

  /** The answer of the access service: a grant decision, or an error. */
  datatype Grant = Granted(granted: bool) | ArboristError

  /** Python truthiness of the optional team project. */
  predicate Named(teamProject: Option<string>) {
    teamProject.Some? && teamProject.value != []
  }

  /** `authenticate`: no token, no access; with the access method `NONE`
      any token passes; otherwise the parsed token must be granted the
      workflow service and, when a team project is named, that project;
      an error from the access service denies access. */
  function Authenticate(token: Option<string>, teamProject: Option<string>, accessMethod: string,
                        argoGrant: string -> Grant, teamGrant: (string, string) -> Grant): (authorized: bool)
    ensures token == None || token == Some([]) ==> !authorized
    ensures token.Some? && token.value != [] && accessMethod == "NONE" ==> authorized
    ensures token.Some? && token.value != [] && accessMethod != "NONE" ==>
      (authorized <==>
         argoGrant(ParseJwt(token.value)) == Granted(true)
         && (!Named(teamProject) || teamGrant(ParseJwt(token.value), teamProject.value) == Granted(true)))
  {
    if token.None? || token.value == [] then false
    else
      var jwt := ParseJwt(token.value);
      if accessMethod == "NONE" then true
      else match argoGrant(jwt)
        case ArboristError => false
        case Granted(authorizedForArgo) =>
          if !Named(teamProject) then authorizedForArgo
          else match teamGrant(jwt, teamProject.value)
            case ArboristError => false
            case Granted(authorizedForTeamProject) => authorizedForArgo && authorizedForTeamProject
  }

  /** An error from the access service, in either check it makes, denies
      access unless access control is off. */
  lemma ErrorDenies(token: string, teamProject: Option<string>, accessMethod: string,
                    argoGrant: string -> Grant, teamGrant: (string, string) -> Grant)
    requires accessMethod != "NONE"
    requires argoGrant(ParseJwt(token)) == ArboristError
          || (Named(teamProject) && teamGrant(ParseJwt(token), teamProject.value) == ArboristError)
    ensures !Authenticate(Some(token), teamProject, accessMethod, argoGrant, teamGrant)
  {
  }

  /** The access service only ever sees the parsed token: two headers that
      parse to the same token get the same answer. */
  lemma AuthenticateSeesParsedToken(t1: string, t2: string, teamProject: Option<string>, accessMethod: string,
                                    argoGrant: string -> Grant, teamGrant: (string, string) -> Grant)
    requires t1 != [] && t2 != [] && ParseJwt(t1) == ParseJwt(t2)
    ensures Authenticate(Some(t1), teamProject, accessMethod, argoGrant, teamGrant)
         == Authenticate(Some(t2), teamProject, accessMethod, argoGrant, teamGrant)
  {
  }

  /** Naming a team project can only take access away: whatever the team
      check answers, access with a team project implies access without. */
  lemma TeamProjectOnlyNarrows(token: Option<string>, teamProject: Option<string>, accessMethod: string,
                               argoGrant: string -> Grant, teamGrant: (string, string) -> Grant)
    ensures Authenticate(token, teamProject, accessMethod, argoGrant, teamGrant)
        ==> Authenticate(token, None, accessMethod, argoGrant, teamGrant)
  {
  }
}
