/** Resolution of the reset-link state from the page location: each logical
    field is looked up under a list of aliases, first in the query string and
    then in the fragment, and the link type is defaulted and lower-cased. */
module ResetLink {
  import opened SearchParams

  /** Aliases of each logical field, in the order they are tried. */
  const CODE_ALIASES: seq<string> := ["code", "token", "recovery_token"]
  const TOKEN_HASH_ALIASES: seq<string> := ["token_hash"]
  const ACCESS_TOKEN_ALIASES: seq<string> := ["access_token"]
  const REFRESH_TOKEN_ALIASES: seq<string> := ["refresh_token"]
  const TOKEN_TYPE_ALIASES: seq<string> := ["token_type"]
  const EXPIRES_IN_ALIASES: seq<string> := ["expires_in"]
  const EMAIL_ALIASES: seq<string> := ["email", "user_email", "email_address"]
  const TYPE_ALIASES: seq<string> := ["type", "event_type"]

  /** The only link type the page accepts, and the default when none is given. */
  const RECOVERY: string := "recovery"
  /** RECOVERY in upper case, letter for letter. */
  const RECOVERY_UPPER: string := "RECOVERY"

  /** The two raw parts of the page location the page reads. */
  datatype Location = Location(search: string, hash: string)

  /** The value object built once per page load. A field is None when
      getFirst found no non-empty value for it (null in the page). */
  datatype ResetState = ResetState(
    code: Option<string>,
    tokenHash: Option<string>,
    email: Option<string>,
    linkType: string,
    accessToken: Option<string>,
    refreshToken: Option<string>,
    tokenType: Option<string>,
    expiresIn: Option<string>,
    isRecoveryLink: bool)

  /** The text the fragment's parameters are parsed from: the hash with one
      leading '#' removed, or the hash unchanged when it does not start with '#'. */
  function FragmentSource(hash: string): (r: string)
    ensures |hash| > 0 && hash[0] == '#' ==> "#" + r == hash
    ensures !(|hash| > 0 && hash[0] == '#') ==> r == hash
  {
    if |hash| > 0 && hash[0] == '#' then hash[1..] else hash
  }

  // ---------------------------------------------------------------------------
  // getFirst

  /** Alias `keys[k]` is the first alias, in declaration order, with a
      non-empty value in `ps`. */
  ghost predicate IsFirstTruthy(ps: Pairs, keys: seq<string>, k: int)
  {
    0 <= k < |keys| && Truthy(Get(ps, keys[k])) &&
    forall j :: 0 <= j < k ==> !Truthy(Get(ps, keys[j]))
  }

  /** The search within one source: the value of the first alias whose value
      is non-empty, or None. */
  function FirstIn(ps: Pairs, keys: seq<string>): (r: Option<string>)
    ensures r.Some? ==> r.value != ""
  {
    if keys == [] then None
    else if Truthy(Get(ps, keys[0])) then Get(ps, keys[0])
    else FirstIn(ps, keys[1..])
  }

  /** A source yields nothing exactly when no alias has a non-empty value in it. */
  lemma {:induction false} FirstInNone(ps: Pairs, keys: seq<string>)
    ensures FirstIn(ps, keys).None? <==> forall k :: 0 <= k < |keys| ==> !Truthy(Get(ps, keys[k]))
  {
    if keys != [] {
      FirstInNone(ps, keys[1..]);
      assert forall k :: 1 <= k < |keys| ==> keys[1..][k - 1] == keys[k];
    }
  }

  /** A source yields the value of its first alias with a non-empty value. */
  lemma {:induction false} FirstInAt(ps: Pairs, keys: seq<string>, k: int)
    requires IsFirstTruthy(ps, keys, k)
    ensures FirstIn(ps, keys) == Get(ps, keys[k])
  {
    if k > 0 {
      assert IsFirstTruthy(ps, keys[1..], k - 1) by {
        assert forall j :: 0 <= j < k - 1 ==> keys[1..][j] == keys[j + 1];
      }
      FirstInAt(ps, keys[1..], k - 1);
    }
  }

  /** What a source yields comes from the first alias with a non-empty value. */
  lemma {:induction false} FirstInFrom(ps: Pairs, keys: seq<string>)
    requires FirstIn(ps, keys).Some?
    ensures exists k :: IsFirstTruthy(ps, keys, k) && Get(ps, keys[k]) == FirstIn(ps, keys)
  {
    if Truthy(Get(ps, keys[0])) {
      assert IsFirstTruthy(ps, keys, 0);
    } else {
      FirstInFrom(ps, keys[1..]);
      var k :| IsFirstTruthy(ps, keys[1..], k) && Get(ps, keys[1..][k]) == FirstIn(ps, keys[1..]);
      assert forall j :: 1 <= j < k + 1 ==> keys[1..][j - 1] == keys[j];
      assert IsFirstTruthy(ps, keys, k + 1);
    }
  }

  /** getFirst as a specification: the query source is searched through all
      aliases before the fragment source is consulted. */
  function Resolve(query: Pairs, fragment: Pairs, keys: seq<string>): (r: Option<string>)
    ensures r.Some? ==> r.value != ""
  {
    match FirstIn(query, keys)
    case Some(v) => Some(v)
    case None => FirstIn(fragment, keys)
  }

  /** A non-empty query value wins, whatever the fragment holds, even under an
      alias ranked earlier than the query's. */
  lemma QueryWins(query: Pairs, fragment: Pairs, keys: seq<string>, k: int)
    requires IsFirstTruthy(query, keys, k)
    ensures Resolve(query, fragment, keys) == Get(query, keys[k])
  {
    FirstInAt(query, keys, k);
  }

  /** When no alias has a non-empty value in the query, the fragment's first
      non-empty alias decides. */
  lemma FragmentFallback(query: Pairs, fragment: Pairs, keys: seq<string>, k: int)
    requires forall j :: 0 <= j < |keys| ==> !Truthy(Get(query, keys[j]))
    requires IsFirstTruthy(fragment, keys, k)
    ensures Resolve(query, fragment, keys) == Get(fragment, keys[k])
  {
    FirstInNone(query, keys);
    FirstInAt(fragment, keys, k);
  }

  /** getFirst returns null exactly when no alias has a non-empty value in
      either source; empty values count as absent. */
  lemma ResolveNone(query: Pairs, fragment: Pairs, keys: seq<string>)
    ensures Resolve(query, fragment, keys).None? <==> NoneCarried(query, fragment, keys)
  {
    FirstInNone(query, keys);
    FirstInNone(fragment, keys);
  }

  /** No alias has a non-empty value in either source. */
  ghost predicate NoneCarried(query: Pairs, fragment: Pairs, keys: seq<string>)
  {
    forall k :: 0 <= k < |keys| ==> !Truthy(Get(query, keys[k])) && !Truthy(Get(fragment, keys[k]))
  }

  /** Some alias has the value `v` in one of the two sources. */
  ghost predicate Carried(query: Pairs, fragment: Pairs, keys: seq<string>, v: string)
  {
    exists k :: 0 <= k < |keys| && (Get(query, keys[k]) == Some(v) || Get(fragment, keys[k]) == Some(v))
  }

  /** A non-null result is a non-empty value that one of the aliases has in
      one of the two sources. */
  lemma ResolveFrom(query: Pairs, fragment: Pairs, keys: seq<string>)
    requires Resolve(query, fragment, keys).Some?
    ensures Resolve(query, fragment, keys).value != ""
    ensures Carried(query, fragment, keys, Resolve(query, fragment, keys).value)
  {
    if FirstIn(query, keys).Some? {
      FirstInFrom(query, keys);
    } else {
      FirstInFrom(fragment, keys);
    }
  }

  /** getFirst as the page runs it: nested loops over the two sources and the
      aliases, returning at the first non-empty value. */
  method GetFirst(searchParams: Pairs, hashParams: Pairs, keys: seq<string>) returns (r: Option<string>)
    ensures r == Resolve(searchParams, hashParams, keys)
  {
    var sources := [searchParams, hashParams];
    assert sources[0] == searchParams && sources[1] == hashParams;
    for s := 0 to |sources|
      invariant forall t :: 0 <= t < s ==> FirstIn(sources[t], keys).None?
    {
      var params := sources[s];
      for k := 0 to |keys|
        invariant forall j :: 0 <= j < k ==> !Truthy(Get(params, keys[j]))
      {
        var value := Get(params, keys[k]);
        if Truthy(value) {
          FirstInAt(params, keys, k);
          return value;
        }
      }
      FirstInNone(params, keys);
    }
    return None;
  }

  // ---------------------------------------------------------------------------
  // toLowerCase, on ASCII letters

  function LowerChar(c: char): char
  {
    if 'A' <= c <= 'Z' then (c as int + 32) as char else c
  }

  /** `toLowerCase`, restricted to the ASCII letters A-Z. */
  function ToLowerCase(s: string): (r: string)
    ensures |r| == |s|
    ensures forall i :: 0 <= i < |s| ==> r[i] == LowerChar(s[i])
  {
    if s == [] then [] else [LowerChar(s[0])] + ToLowerCase(s[1..])
  }

  /** An upper-case ASCII letter and its lower-case form are the only
      characters that lower-case to that lower-case letter. */
  lemma LowerCharTo(c: char, lower: char)
    requires 'a' <= lower <= 'z'
    ensures LowerChar(c) == lower <==> c == lower || c as int == lower as int - 32
  {
  }

  /** A string lower-cases to a word of lower-case letters exactly when it
      spells that word, letter by letter, in either case. */
  lemma LowerCaseMatches(s: string, lower: string, upper: string)
    requires |lower| == |upper|
    requires forall i :: 0 <= i < |lower| ==> 'a' <= lower[i] <= 'z' && upper[i] as int == lower[i] as int - 32
    ensures ToLowerCase(s) == lower <==>
      |s| == |lower| && forall i :: 0 <= i < |s| ==> s[i] == lower[i] || s[i] == upper[i]
  {
    if |s| == |lower| {
      forall i | 0 <= i < |s|
        ensures ToLowerCase(s)[i] == lower[i] <==> s[i] == lower[i] || s[i] == upper[i]
      {
        LowerCharTo(s[i], lower[i]);
      }
    }
  }

  /** A type value lower-cases to "recovery" exactly when it spells "recovery"
      in any mix of upper and lower case ("RECOVERY", "Recovery", ...). */
  lemma LowerCaseIsRecovery(s: string)
    ensures ToLowerCase(s) == RECOVERY <==>
      |s| == |RECOVERY| && forall i :: 0 <= i < |s| ==> s[i] == RECOVERY[i] || s[i] == RECOVERY_UPPER[i]
  {
    RecoveryLetters();
    LowerCaseMatches(s, RECOVERY, RECOVERY_UPPER);
  }

  /** Each letter of RECOVERY is a lower-case letter whose upper-case form is
      the letter at the same place in RECOVERY_UPPER. */
  lemma RecoveryLetters()
    ensures |RECOVERY| == |RECOVERY_UPPER|
    ensures forall i :: 0 <= i < |RECOVERY| ==>
      'a' <= RECOVERY[i] <= 'z' && RECOVERY_UPPER[i] as int == RECOVERY[i] as int - 32
  {
  }

  /** "recovery" is its own lower-case form, so a link without a type is a
      recovery link. */
  lemma RecoveryIsLowerCase()
    ensures ToLowerCase(RECOVERY) == RECOVERY
  {
    LowerCaseIsRecovery(RECOVERY);
  }

  // ---------------------------------------------------------------------------
  // parseResetState

  /** The state parseResetState builds from the decoded query and fragment
      parameters. */
  function StateOf(query: Pairs, fragment: Pairs): (st: ResetState)
    ensures st.isRecoveryLink <==> st.linkType == RECOVERY
    ensures Resolve(query, fragment, TYPE_ALIASES).None? ==> st.isRecoveryLink
    ensures Resolve(query, fragment, TYPE_ALIASES).Some? ==>
      st.linkType == ToLowerCase(Resolve(query, fragment, TYPE_ALIASES).value)
    ensures st.code.Some? ==> st.code.value != ""
    ensures st.tokenHash.Some? ==> st.tokenHash.value != ""
    ensures st.accessToken.Some? ==> st.accessToken.value != ""
    ensures st.email.Some? ==> st.email.value != ""
  {
    RecoveryIsLowerCase();
    var rawType := Resolve(query, fragment, TYPE_ALIASES);
    var linkType := ToLowerCase(if Truthy(rawType) then rawType.value else RECOVERY);
    ResetState(
      code := Resolve(query, fragment, CODE_ALIASES),
      tokenHash := Resolve(query, fragment, TOKEN_HASH_ALIASES),
      email := Resolve(query, fragment, EMAIL_ALIASES),
      linkType := linkType,
      accessToken := Resolve(query, fragment, ACCESS_TOKEN_ALIASES),
      refreshToken := Resolve(query, fragment, REFRESH_TOKEN_ALIASES),
      tokenType := Resolve(query, fragment, TOKEN_TYPE_ALIASES),
      expiresIn := Resolve(query, fragment, EXPIRES_IN_ALIASES),
      isRecoveryLink := linkType == RECOVERY)
  }

  /** The page's state for a location; `decode` stands for the URLSearchParams
      constructor, which parses and percent-decodes a query text. */
  function StateAt(location: Location, decode: string -> Pairs): ResetState
  {
    StateOf(decode(location.search), decode(FragmentSource(location.hash)))
  }

  /** A link counts as a recovery link exactly when no type is given or the
      given type spells "recovery" in some mix of cases. */
  lemma IsRecoveryLinkIff(query: Pairs, fragment: Pairs)
    ensures var t := Resolve(query, fragment, TYPE_ALIASES);
      StateOf(query, fragment).isRecoveryLink <==>
        t.None? ||
        (|t.value| == |RECOVERY| &&
         forall i :: 0 <= i < |t.value| ==> t.value[i] == RECOVERY[i] || t.value[i] == RECOVERY_UPPER[i])
  {
    var t := Resolve(query, fragment, TYPE_ALIASES);
    if t.Some? {
      LowerCaseIsRecovery(t.value);
    }
  }

  /** parseResetState as the page runs it: one getFirst call per field. */
  method ParseResetState(location: Location, decode: string -> Pairs) returns (st: ResetState)
    ensures st == StateAt(location, decode)
  {
    var searchParams := decode(location.search);
    var hashParams := decode(FragmentSource(location.hash));
    var code := GetFirst(searchParams, hashParams, CODE_ALIASES);
    var tokenHash := GetFirst(searchParams, hashParams, TOKEN_HASH_ALIASES);
    var accessToken := GetFirst(searchParams, hashParams, ACCESS_TOKEN_ALIASES);
    var refreshToken := GetFirst(searchParams, hashParams, REFRESH_TOKEN_ALIASES);
    var tokenType := GetFirst(searchParams, hashParams, TOKEN_TYPE_ALIASES);
    var expiresIn := GetFirst(searchParams, hashParams, EXPIRES_IN_ALIASES);
    var email := GetFirst(searchParams, hashParams, EMAIL_ALIASES);
    var rawType := GetFirst(searchParams, hashParams, TYPE_ALIASES);
    var linkType := ToLowerCase(if Truthy(rawType) then rawType.value else RECOVERY);
    st := ResetState(code, tokenHash, email, linkType, accessToken, refreshToken, tokenType, expiresIn,
                     linkType == RECOVERY);
  }
}
