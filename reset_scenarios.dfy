/** Concrete links run through the model: which alias wins, how the type is
    judged, what the app receives and what the code card shows. */
module ResetScenarios {
  import opened SearchParams
  import opened ResetLink
  import opened ResetPage

  /** `?token=abc#code=xyz`: the query is searched first, so its `token`
      alias beats the fragment's `code`. */
  lemma QueryAliasBeatsFragment()
    ensures StateOf([("token", "abc")], [("code", "xyz")]).code == Some("abc")
  {
    var q: Pairs, f: Pairs := [("token", "abc")], [("code", "xyz")];
    assert Get(q, "code") == None && Get(q, "token") == Some("abc");
    assert Resolve(q, f, CODE_ALIASES) == Some("abc");
  }

  /** `?code=&token=t1`: an empty value is skipped and the next alias is tried. */
  lemma EmptyValueSkipped()
    ensures StateOf([("code", ""), ("token", "t1")], []).code == Some("t1")
  {
    var q: Pairs, f: Pairs := [("code", ""), ("token", "t1")], [];
    assert Get(q, "code") == Some("") && Get(q, "token") == Some("t1");
    assert Resolve(q, f, CODE_ALIASES) == Some("t1");
  }

  /** `?type=SignUp&code=c`: the type is lower-cased and the link rejected on
      its type although it carries a code. */
  lemma OtherTypeRejected()
    ensures Decide(StateOf([("type", "SignUp"), ("code", "c")], [])) == WrongLinkType("signup")
  {
    var q: Pairs, f: Pairs := [("type", "SignUp"), ("code", "c")], [];
    assert Resolve(q, f, TYPE_ALIASES) == Some("SignUp");
    assert ToLowerCase("SignUp") == "signup";
  }

  /** `#access_token=at&type=recovery`: the access token alone passes, and the
      card shows the placeholder. */
  lemma AccessTokenOnly()
    ensures var st := StateOf([], [("access_token", "at"), ("type", "recovery")]);
      Decide(st) == Verified && DisplayCode(st) == UNKNOWN_CODE
  {
    var q: Pairs, f: Pairs := [], [("access_token", "at"), ("type", "recovery")];
    assert Resolve(q, f, TYPE_ALIASES) == Some("recovery");
    assert Resolve(q, f, ACCESS_TOKEN_ALIASES) == Some("at");
    assert Resolve(q, f, CODE_ALIASES) == None;
    assert Resolve(q, f, TOKEN_HASH_ALIASES) == None;
    RecoveryIsLowerCase();
  }

  /** A state whose only truthy forwarded fields are the code and the email
      hands the app exactly those two, in that order. */
  lemma LaunchCodeAndEmailOnly(st: ResetState)
    requires Truthy(st.code) && Truthy(st.email)
    requires !Truthy(st.tokenHash) && !Truthy(st.accessToken) && !Truthy(st.refreshToken)
    requires !Truthy(st.tokenType) && !Truthy(st.expiresIn)
    ensures LaunchParams(st) == [("code", st.code.value), ("email", st.email.value)]
  {
    assert LaunchPrefix(st, 1) == [("code", st.code.value)];
    assert LaunchPrefix(st, 2) == [("code", st.code.value)] + [("email", st.email.value)];
    assert LaunchPrefix(st, 3) == LaunchPrefix(st, 2);
    assert LaunchPrefix(st, 4) == LaunchPrefix(st, 3);
    assert LaunchPrefix(st, 5) == LaunchPrefix(st, 4);
    assert LaunchPrefix(st, 6) == LaunchPrefix(st, 5);
  }

  /** `?code=R1&email=a@b.com&type=recovery`: the app receives the code and
      the email, and not the type. */
  lemma LaunchCarriesCodeAndEmail()
    ensures LaunchParams(StateOf([("code", "R1"), ("email", "a@b.com"), ("type", "recovery")], []))
      == [("code", "R1"), ("email", "a@b.com")]
  {
    var q: Pairs, f: Pairs := [("code", "R1"), ("email", "a@b.com"), ("type", "recovery")], [];
    assert Resolve(q, f, CODE_ALIASES) == Some("R1");
    assert Resolve(q, f, EMAIL_ALIASES) == Some("a@b.com");
    assert Resolve(q, f, TOKEN_HASH_ALIASES) == None;
    assert Resolve(q, f, ACCESS_TOKEN_ALIASES) == None;
    assert Resolve(q, f, REFRESH_TOKEN_ALIASES) == None;
    assert Resolve(q, f, TOKEN_TYPE_ALIASES) == None;
    assert Resolve(q, f, EXPIRES_IN_ALIASES) == None;
    LaunchCodeAndEmailOnly(StateOf(q, f));
  }
}
