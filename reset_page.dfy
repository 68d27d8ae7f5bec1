/** The page logic that runs once the state is parsed: the three-way outcome,
    the rendered status and code card, the hand-off URL for the companion app,
    and the page elements those steps update. */
module ResetPage {
  import opened SearchParams
  import opened ResetLink

  const APP_SCHEME_URL: string := "aurabean://auth-reset"
  const AUTO_OPEN_DELAY: nat := 800
  const REMINDER_DELAY: nat := 2200

  const WRONG_TYPE_MESSAGE: string := "This link is not a password reset link."
  const WRONG_TYPE_PREFIX: string := "We received type \U{201C}"
  const WRONG_TYPE_SUFFIX: string := "\U{201D}. Please request a new reset email from AuraBean."
  const MISSING_MESSAGE: string := "We could not read your reset credentials."
  const MISSING_SUBTEXT: string :=
    "Copy the entire URL from this tab and send it to AuraBean support so we can investigate."
  const VERIFIED_MESSAGE: string := "Reset link verified."
  const VERIFIED_SUBTEXT: string := "If AuraBean stays closed, tap \U{201C}Open AuraBean\U{201D} below."
  const OPENING_MESSAGE: string := "Trying to open AuraBean\U{2026}"
  const OPENING_SUBTEXT: string := "Return to this tab if the app does not pick up the code."
  const REMINDER_SUBTEXT: string := "Tap \U{201C}Open AuraBean\U{201D} if nothing happened automatically."
  const EMAIL_HINT_PREFIX: string := "We detected this link belongs to "
  const UNKNOWN_CODE: string := "Unknown"

  // ---------------------------------------------------------------------------
  // Validation

  /** How the page ends: the two terminal errors, or the success path. */
  datatype Outcome = WrongLinkType(linkType: string) | MissingCredentials | Verified

  /** The credential check: a code, a token hash or an access token is present. */
  predicate HasCredential(st: ResetState)
  {
    Truthy(st.code) || Truthy(st.tokenHash) || Truthy(st.accessToken)
  }

  /** The top-level branch: the link type is checked before the credentials,
      so a link of another type fails on its type whatever credentials it has. */
  function Decide(st: ResetState): (o: Outcome)
    ensures o.WrongLinkType? <==> !st.isRecoveryLink
    ensures o.WrongLinkType? ==> o.linkType == st.linkType
    ensures o == MissingCredentials <==> st.isRecoveryLink && !HasCredential(st)
    ensures o == Verified <==> st.isRecoveryLink && HasCredential(st)
  {
    if !st.isRecoveryLink then WrongLinkType(st.linkType)
    else if !HasCredential(st) then MissingCredentials
    else Verified
  }

  /** A recovery link fails for missing credentials exactly when none of the
      code, token-hash and access-token aliases has a non-empty value in the
      query or the fragment; the email aliases play no part. */
  lemma MissingCredentialsAt(query: Pairs, fragment: Pairs)
    requires StateOf(query, fragment).isRecoveryLink
    ensures Decide(StateOf(query, fragment)) == MissingCredentials <==>
      NoneCarried(query, fragment, CODE_ALIASES) &&
      NoneCarried(query, fragment, TOKEN_HASH_ALIASES) &&
      NoneCarried(query, fragment, ACCESS_TOKEN_ALIASES)
  {
    ResolveNone(query, fragment, CODE_ALIASES);
    ResolveNone(query, fragment, TOKEN_HASH_ALIASES);
    ResolveNone(query, fragment, ACCESS_TOKEN_ALIASES);
  }

  /** The subtext of the wrong-type error: the (lower-cased) link type between
      typographic quotes, so the type can be read back from it. */
  function WrongTypeSubtext(linkType: string): (r: string)
    ensures |r| == |WRONG_TYPE_PREFIX| + |linkType| + |WRONG_TYPE_SUFFIX|
    ensures r[..|WRONG_TYPE_PREFIX|] == WRONG_TYPE_PREFIX
    ensures r[|WRONG_TYPE_PREFIX|..|WRONG_TYPE_PREFIX| + |linkType|] == linkType
    ensures r[|WRONG_TYPE_PREFIX| + |linkType|..] == WRONG_TYPE_SUFFIX
  {
    WRONG_TYPE_PREFIX + linkType + WRONG_TYPE_SUFFIX
  }

  // ---------------------------------------------------------------------------
  // showCode

  /** The code shown on the card: the token hash, else the code, else a placeholder. */
  function DisplayCode(st: ResetState): (d: string)
    ensures d != ""
    ensures Truthy(st.tokenHash) ==> d == st.tokenHash.value
    ensures !Truthy(st.tokenHash) && Truthy(st.code) ==> d == st.code.value
    ensures !Truthy(st.tokenHash) && !Truthy(st.code) ==> d == UNKNOWN_CODE
  {
    if Truthy(st.tokenHash) then st.tokenHash.value
    else if Truthy(st.code) then st.code.value
    else UNKNOWN_CODE
  }

  /** On the success path the displayed code is either the placeholder, which
      happens only when the access token alone passed the credential check, or
      a non-empty value that a token-hash alias, else a code alias, carries in
      the link. */
  lemma DisplayedCodeFromLink(query: Pairs, fragment: Pairs)
    requires Decide(StateOf(query, fragment)) == Verified
    ensures var st := StateOf(query, fragment);
      !Truthy(st.tokenHash) && !Truthy(st.code) ==> Truthy(st.accessToken) && DisplayCode(st) == UNKNOWN_CODE
    ensures var st := StateOf(query, fragment);
      Truthy(st.tokenHash) ==> Carried(query, fragment, TOKEN_HASH_ALIASES, DisplayCode(st))
    ensures var st := StateOf(query, fragment);
      !Truthy(st.tokenHash) && Truthy(st.code) ==> Carried(query, fragment, CODE_ALIASES, DisplayCode(st))
  {
    var st := StateOf(query, fragment);
    if Truthy(st.tokenHash) {
      ResolveFrom(query, fragment, TOKEN_HASH_ALIASES);
    } else if Truthy(st.code) {
      ResolveFrom(query, fragment, CODE_ALIASES);
    }
  }

  /** The email hint: a sentence naming the address, or empty without one. */
  function EmailHint(email: Option<string>): (h: string)
    ensures h == "" <==> !Truthy(email)
    ensures Truthy(email) ==> h == EMAIL_HINT_PREFIX + email.value + "."
  {
    if Truthy(email) then EMAIL_HINT_PREFIX + email.value + "." else ""
  }

  // ---------------------------------------------------------------------------
  // launchApp

  /** The names launchApp forwards, in the order it sets them. */
  const FORWARDED_NAMES: seq<string> :=
    ["code", "email", "token_hash", "access_token", "refresh_token", "token_type", "expires_in"]

  /** The state's values for FORWARDED_NAMES, position by position. */
  function ForwardedValues(st: ResetState): (vs: seq<Option<string>>)
    ensures |vs| == |FORWARDED_NAMES|
  {
    [st.code, st.email, st.tokenHash, st.accessToken, st.refreshToken, st.tokenType, st.expiresIn]
  }

  /** The pair one conditional `set` adds to a list that lacks the name:
      nothing when the value is falsy. */
  function PairIfTruthy(name: string, v: Option<string>): (ps: Pairs)
    ensures |ps| <= 1
    ensures ps != [] <==> Truthy(v)
    ensures ps != [] ==> ps[0] == (name, v.value)
  {
    if Truthy(v) then [(name, v.value)] else []
  }

  /** The query parameters once the first `k` forwarded fields are handled. */
  function LaunchPrefix(st: ResetState, k: nat): Pairs
    requires k <= |FORWARDED_NAMES|
  {
    if k == 0 then []
    else LaunchPrefix(st, k - 1) + PairIfTruthy(FORWARDED_NAMES[k - 1], ForwardedValues(st)[k - 1])
  }

  /** The query parameters of the hand-off URL for a state. */
  function LaunchParams(st: ResetState): Pairs
  {
    LaunchPrefix(st, |FORWARDED_NAMES|)
  }

  /** `xs` is `ys` with some elements left out, the rest in the same order. */
  predicate IsSubsequence<T(==)>(xs: seq<T>, ys: seq<T>)
    decreases |ys|
  {
    xs == [] ||
    (ys != [] && ((xs[0] == ys[0] && IsSubsequence(xs[1..], ys[1..])) || IsSubsequence(xs, ys[1..])))
  }

  lemma {:induction false} SubsequenceExtend<T>(xs: seq<T>, ys: seq<T>, y: T)
    requires IsSubsequence(xs, ys)
    ensures IsSubsequence(xs, ys + [y])
    decreases |ys|
  {
    if xs != [] {
      assert (ys + [y])[1..] == ys[1..] + [y];
      if xs[0] == ys[0] && IsSubsequence(xs[1..], ys[1..]) {
        SubsequenceExtend(xs[1..], ys[1..], y);
      } else {
        SubsequenceExtend(xs, ys[1..], y);
      }
    }
  }

  lemma {:induction false} SubsequenceSnoc<T>(xs: seq<T>, ys: seq<T>, y: T)
    requires IsSubsequence(xs, ys)
    ensures IsSubsequence(xs + [y], ys + [y])
    decreases |ys|
  {
    if xs == [] {
      if ys != [] {
        assert (ys + [y])[1..] == ys[1..] + [y];
        SubsequenceSnoc(xs, ys[1..], y);
      } else {
        assert [y][1..] == [];
      }
    } else {
      assert (ys + [y])[1..] == ys[1..] + [y];
      assert (xs + [y])[1..] == xs[1..] + [y];
      if xs[0] == ys[0] && IsSubsequence(xs[1..], ys[1..]) {
        SubsequenceSnoc(xs[1..], ys[1..], y);
      } else {
        SubsequenceSnoc(xs, ys[1..], y);
      }
    }
  }

  /** `get` on a concatenation: the first list wins for any name it holds. */
  lemma {:induction false} GetConcat(a: Pairs, b: Pairs, name: string)
    ensures Get(a + b, name) == if Get(a, name).Some? then Get(a, name) else Get(b, name)
  {
    if a == [] {
      assert a + b == b;
    } else {
      assert (a + b)[1..] == a[1..] + b;
      GetConcat(a[1..], b, name);
    }
  }

  /** No name is forwarded twice. */
  lemma ForwardedNamesDistinct(a: nat, b: nat)
    requires a < |FORWARDED_NAMES| && b < |FORWARDED_NAMES| && a != b
    ensures FORWARDED_NAMES[a] != FORWARDED_NAMES[b]
  {
  }

  /** After `k` fields, field `j` is found with its own value exactly when
      it was among the first `k` and truthy. */
  lemma {:induction false} LaunchPrefixGet(st: ResetState, k: nat, j: nat)
    requires k <= |FORWARDED_NAMES| && j < |FORWARDED_NAMES|
    ensures Get(LaunchPrefix(st, k), FORWARDED_NAMES[j]) ==
      if j < k && Truthy(ForwardedValues(st)[j]) then ForwardedValues(st)[j] else None
  {
    if k > 0 {
      LaunchPrefixGet(st, k - 1, j);
      var name, v := FORWARDED_NAMES[k - 1], ForwardedValues(st)[k - 1];
      GetConcat(LaunchPrefix(st, k - 1), PairIfTruthy(name, v), FORWARDED_NAMES[j]);
      if j != k - 1 {
        ForwardedNamesDistinct(j, k - 1);
      }
    }
  }

  /** A name launchApp does not forward never appears. */
  lemma {:induction false} LaunchPrefixAbsent(st: ResetState, k: nat, name: string)
    requires k <= |FORWARDED_NAMES| && name !in FORWARDED_NAMES
    ensures Get(LaunchPrefix(st, k), name) == None
  {
    if k > 0 {
      LaunchPrefixAbsent(st, k - 1, name);
      GetConcat(LaunchPrefix(st, k - 1), PairIfTruthy(FORWARDED_NAMES[k - 1], ForwardedValues(st)[k - 1]), name);
    }
  }

  /** After `k` fields, the names present follow the order of the first `k`
      forwarded names, and every value is non-empty. */
  lemma {:induction false} LaunchPrefixOrdered(st: ResetState, k: nat)
    requires k <= |FORWARDED_NAMES|
    ensures IsSubsequence(Names(LaunchPrefix(st, k)), FORWARDED_NAMES[..k])
    ensures forall i :: 0 <= i < |LaunchPrefix(st, k)| ==> LaunchPrefix(st, k)[i].1 != ""
  {
    if k > 0 {
      LaunchPrefixOrdered(st, k - 1);
      var prev := LaunchPrefix(st, k - 1);
      var name, v := FORWARDED_NAMES[k - 1], ForwardedValues(st)[k - 1];
      assert FORWARDED_NAMES[..k] == FORWARDED_NAMES[..k - 1] + [name];
      if Truthy(v) {
        assert Names(prev + [(name, v.value)]) == Names(prev) + [name];
        SubsequenceSnoc(Names(prev), FORWARDED_NAMES[..k - 1], name);
      } else {
        assert prev + [] == prev;
        SubsequenceExtend(Names(prev), FORWARDED_NAMES[..k - 1], name);
      }
    }
  }

  /** What launchApp forwards: each of the seven fields under its own name
      with its own value exactly when it is non-empty, and nothing else; in
      particular the link type is never forwarded. */
  lemma LaunchParamsGet(st: ResetState)
    ensures Get(LaunchParams(st), "code") == if Truthy(st.code) then st.code else None
    ensures Get(LaunchParams(st), "email") == if Truthy(st.email) then st.email else None
    ensures Get(LaunchParams(st), "token_hash") == if Truthy(st.tokenHash) then st.tokenHash else None
    ensures Get(LaunchParams(st), "access_token") == if Truthy(st.accessToken) then st.accessToken else None
    ensures Get(LaunchParams(st), "refresh_token") == if Truthy(st.refreshToken) then st.refreshToken else None
    ensures Get(LaunchParams(st), "token_type") == if Truthy(st.tokenType) then st.tokenType else None
    ensures Get(LaunchParams(st), "expires_in") == if Truthy(st.expiresIn) then st.expiresIn else None
    ensures forall name :: name !in FORWARDED_NAMES ==> Get(LaunchParams(st), name) == None
  {
    LaunchPrefixGet(st, 7, 0);
    LaunchPrefixGet(st, 7, 1);
    LaunchPrefixGet(st, 7, 2);
    LaunchPrefixGet(st, 7, 3);
    LaunchPrefixGet(st, 7, 4);
    LaunchPrefixGet(st, 7, 5);
    LaunchPrefixGet(st, 7, 6);
    forall name | name !in FORWARDED_NAMES
      ensures Get(LaunchParams(st), name) == None
    {
      LaunchPrefixAbsent(st, 7, name);
    }
  }

  /** The parameters come in the order code, email, token_hash, access_token,
      refresh_token, token_type, expires_in (absent ones left out), and none
      carries an empty value. */
  lemma LaunchParamsOrdered(st: ResetState)
    ensures IsSubsequence(Names(LaunchParams(st)), FORWARDED_NAMES)
    ensures forall i :: 0 <= i < |LaunchParams(st)| ==> LaunchParams(st)[i].1 != ""
  {
    LaunchPrefixOrdered(st, 7);
    assert FORWARDED_NAMES[..7] == FORWARDED_NAMES;
  }

  /** One conditional `set` of launchApp, taken when the value is truthy. On a list that
      does not hold the name yet it appends the pair, or nothing. */
  method SetIfTruthy(params: Pairs, name: string, value: Option<string>) returns (r: Pairs)
    ensures (forall i :: 0 <= i < |params| ==> params[i].0 != name) ==> r == params + PairIfTruthy(name, value)
  {
    r := params;
    if Truthy(value) {
      r := SetParam(r, name, value.value);
    }
  }

  /** Before field `k` is set the list lacks its name, and setting it
      yields the list after `k + 1` fields. */
  lemma LaunchStep(st: ResetState, k: nat)
    requires k < |FORWARDED_NAMES|
    ensures forall i :: 0 <= i < |LaunchPrefix(st, k)| ==> LaunchPrefix(st, k)[i].0 != FORWARDED_NAMES[k]
    ensures LaunchPrefix(st, k + 1) == LaunchPrefix(st, k) + PairIfTruthy(FORWARDED_NAMES[k], ForwardedValues(st)[k])
  {
    LaunchPrefixGet(st, k, k);
  }

  /** launchApp's URL construction: successive conditional `set` calls on the
      search parameters of a fresh URL for the app scheme. */
  method LaunchApp(st: ResetState) returns (target: Url)
    ensures target == Url(APP_SCHEME_URL, LaunchParams(st))
  {
    var params: Pairs := [];
    LaunchStep(st, 0);
    params := SetIfTruthy(params, "code", st.code);
    LaunchStep(st, 1);
    params := SetIfTruthy(params, "email", st.email);
    LaunchStep(st, 2);
    params := SetIfTruthy(params, "token_hash", st.tokenHash);
    LaunchStep(st, 3);
    params := SetIfTruthy(params, "access_token", st.accessToken);
    LaunchStep(st, 4);
    params := SetIfTruthy(params, "refresh_token", st.refreshToken);
    LaunchStep(st, 5);
    params := SetIfTruthy(params, "token_type", st.tokenType);
    LaunchStep(st, 6);
    params := SetIfTruthy(params, "expires_in", st.expiresIn);
    target := Url(APP_SCHEME_URL, params);
  }

  // ---------------------------------------------------------------------------
  // The page

  /** A callback scheduled with `setTimeout`. */
  datatype TimerAction = AutoLaunch(state: ResetState) | Reminder
  datatype Timer = Timer(delay: nat, action: TimerAction)

  /** The page elements the script writes to, with the listeners and timers it
      registers and the navigations it attempts. */
  class Page {
    var statusText: string
    var statusSubtext: string
    var codeCardHidden: bool
    var codeValue: string
    var emailHint: string
    var openAppHidden: bool
    /** Whether the page has a spinner element at all. */
    const hasSpinner: bool
    var spinnerHidden: bool
    /** Copy-button click listeners, each given by the text it writes to the clipboard. */
    var copyListeners: seq<string>
    /** Open-app click listeners, each given by the state it launches with. */
    var openAppListeners: seq<ResetState>
    var timers: seq<Timer>
    var navigations: seq<Url>

    /** The page as its markup renders it before the script runs. */
    constructor (statusText: string, statusSubtext: string, hasSpinner: bool)
      ensures this.statusText == statusText && this.statusSubtext == statusSubtext
      ensures this.hasSpinner == hasSpinner && !spinnerHidden
      ensures codeCardHidden && openAppHidden && codeValue == "" && emailHint == ""
      ensures copyListeners == [] && openAppListeners == [] && timers == [] && navigations == []
    {
      this.statusText, this.statusSubtext := statusText, statusSubtext;
      this.hasSpinner := hasSpinner;
      spinnerHidden := false;
      codeCardHidden, openAppHidden := true, true;
      codeValue, emailHint := "", "";
      copyListeners, openAppListeners, timers, navigations := [], [], [], [];
    }

    /** Hides the spinner when the page has one. */
    method StopSpinner()
      modifies this`spinnerHidden
      ensures spinnerHidden == (hasSpinner || old(spinnerHidden))
    {
      if hasSpinner {
        spinnerHidden := true;
      }
    }

    /** Error termination: spinner stopped, the message pair shown, the code
        card and the open-app button hidden. */
    method FinishWithError(message: string, subtext: string)
      modifies this`spinnerHidden, this`statusText, this`statusSubtext, this`codeCardHidden, this`openAppHidden
      ensures spinnerHidden == (hasSpinner || old(spinnerHidden))
      ensures statusText == message && statusSubtext == subtext
      ensures codeCardHidden && openAppHidden
    {
      StopSpinner();
      statusText := message;
      statusSubtext := subtext;
      codeCardHidden := true;
      openAppHidden := true;
    }

    /** Shows the code card with the display code, binds the copy listener and
        sets the email hint. */
    method ShowCode(st: ResetState)
      modifies this`codeCardHidden, this`codeValue, this`copyListeners, this`emailHint
      ensures !codeCardHidden && codeValue == DisplayCode(st)
      ensures copyListeners == old(copyListeners) + [DisplayCode(st)]
      ensures emailHint == EmailHint(st.email)
    {
      codeCardHidden := false;
      var displayCode := if Truthy(st.tokenHash) then st.tokenHash.value
                         else if Truthy(st.code) then st.code.value
                         else UNKNOWN_CODE;
      codeValue := displayCode;
      copyListeners := copyListeners + [displayCode];
      if Truthy(st.email) {
        emailHint := EMAIL_HINT_PREFIX + st.email.value + ".";
      } else {
        emailHint := "";
      }
    }

    /** The whole script run on page load: the state is parsed from the
        location, then rendered. */
    method Run(location: Location, decode: string -> Pairs)
      modifies this
      ensures var st := StateAt(location, decode);
        spinnerHidden == (hasSpinner || old(spinnerHidden)) &&
        (Decide(st).WrongLinkType? ==>
          statusText == WRONG_TYPE_MESSAGE && statusSubtext == WrongTypeSubtext(st.linkType)) &&
        (Decide(st) == MissingCredentials ==>
          statusText == MISSING_MESSAGE && statusSubtext == MISSING_SUBTEXT) &&
        (Decide(st) != Verified ==>
          codeCardHidden && openAppHidden &&
          codeValue == old(codeValue) && emailHint == old(emailHint) &&
          copyListeners == old(copyListeners) && openAppListeners == old(openAppListeners) &&
          timers == old(timers) && navigations == old(navigations)) &&
        (Decide(st) == Verified ==>
          !codeCardHidden && codeValue == DisplayCode(st) && emailHint == EmailHint(st.email) &&
          copyListeners == old(copyListeners) + [DisplayCode(st)] &&
          !openAppHidden && openAppListeners == old(openAppListeners) + [st] &&
          statusText == VERIFIED_MESSAGE && statusSubtext == VERIFIED_SUBTEXT &&
          timers == old(timers) + [Timer(AUTO_OPEN_DELAY, AutoLaunch(st)), Timer(REMINDER_DELAY, Reminder)] &&
          navigations == old(navigations))
    {
      var state := ParseResetState(location, decode);
      Render(state);
    }

    /** Everything the script does once the state is parsed: the two error
        exits in order, else the code card, the open-app button and its
        listener, the verified status and the two timers. */
    method Render(st: ResetState)
      modifies this
      ensures spinnerHidden == (hasSpinner || old(spinnerHidden))
      ensures Decide(st).WrongLinkType? ==>
        statusText == WRONG_TYPE_MESSAGE && statusSubtext == WrongTypeSubtext(st.linkType)
      ensures Decide(st) == MissingCredentials ==>
        statusText == MISSING_MESSAGE && statusSubtext == MISSING_SUBTEXT
      ensures Decide(st) != Verified ==>
        codeCardHidden && openAppHidden &&
        codeValue == old(codeValue) && emailHint == old(emailHint) &&
        copyListeners == old(copyListeners) && openAppListeners == old(openAppListeners) &&
        timers == old(timers) && navigations == old(navigations)
      ensures Decide(st) == Verified ==>
        !codeCardHidden && codeValue == DisplayCode(st) && emailHint == EmailHint(st.email) &&
        copyListeners == old(copyListeners) + [DisplayCode(st)] &&
        !openAppHidden && openAppListeners == old(openAppListeners) + [st] &&
        statusText == VERIFIED_MESSAGE && statusSubtext == VERIFIED_SUBTEXT &&
        timers == old(timers) + [Timer(AUTO_OPEN_DELAY, AutoLaunch(st)), Timer(REMINDER_DELAY, Reminder)] &&
        navigations == old(navigations)
    {
      if !st.isRecoveryLink {
        FinishWithError(WRONG_TYPE_MESSAGE, WrongTypeSubtext(st.linkType));
        assert Decide(st) == WrongLinkType(st.linkType);
        return;
      }

      if !(Truthy(st.code) || Truthy(st.tokenHash) || Truthy(st.accessToken)) {
        FinishWithError(MISSING_MESSAGE, MISSING_SUBTEXT);
        assert Decide(st) == MissingCredentials;
        return;
      }

      ShowVerified(st);
      assert Decide(st) == Verified;
    }

    /** The success path: the code card, the open-app button and its
        listener, the verified status, the spinner stopped and the two timers
        scheduled, in that order. */
    method ShowVerified(st: ResetState)
      modifies this
      ensures spinnerHidden == (hasSpinner || old(spinnerHidden))
      ensures !codeCardHidden && codeValue == DisplayCode(st) && emailHint == EmailHint(st.email)
      ensures copyListeners == old(copyListeners) + [DisplayCode(st)]
      ensures !openAppHidden && openAppListeners == old(openAppListeners) + [st]
      ensures statusText == VERIFIED_MESSAGE && statusSubtext == VERIFIED_SUBTEXT
      ensures timers == old(timers) + [Timer(AUTO_OPEN_DELAY, AutoLaunch(st)), Timer(REMINDER_DELAY, Reminder)]
      ensures navigations == old(navigations)
    {
      ShowCode(st);
      openAppHidden := false;
      openAppListeners := openAppListeners + [st];

      statusText := VERIFIED_MESSAGE;
      statusSubtext := VERIFIED_SUBTEXT;
      StopSpinner();

      timers := timers + [Timer(AUTO_OPEN_DELAY, AutoLaunch(st)), Timer(REMINDER_DELAY, Reminder)];
    }

    /** The open-app button's click listener bound with `st`. */
    method OpenAppClicked(st: ResetState)
      modifies this`statusText, this`statusSubtext, this`navigations
      ensures statusText == OPENING_MESSAGE && statusSubtext == OPENING_SUBTEXT
      ensures navigations == old(navigations) + [Url(APP_SCHEME_URL, LaunchParams(st))]
    {
      statusText := OPENING_MESSAGE;
      statusSubtext := OPENING_SUBTEXT;
      var target := LaunchApp(st);
      navigations := navigations + [target];
    }

    /** A scheduled callback firing: the automatic launch or the reminder. */
    method TimerFired(t: Timer)
      modifies this`statusSubtext, this`navigations
      ensures t.action.AutoLaunch? ==>
        navigations == old(navigations) + [Url(APP_SCHEME_URL, LaunchParams(t.action.state))] &&
        statusSubtext == old(statusSubtext)
      ensures t.action.Reminder? ==>
        statusSubtext == REMINDER_SUBTEXT && navigations == old(navigations)
    {
      match t.action
      case AutoLaunch(st) =>
        var target := LaunchApp(st);
        navigations := navigations + [target];
      case Reminder =>
        statusSubtext := REMINDER_SUBTEXT;
    }
  }

  /** On the success path the automatic launch and a click on the open-app
      button navigate to the same URL. */
  method AutoAndManualLaunchAgree(st: ResetState) returns (auto: Url, manual: Url)
    requires Decide(st) == Verified
    ensures auto == manual == Url(APP_SCHEME_URL, LaunchParams(st))
  {
    var page := new Page("", "", true);
    page.Render(st);
    page.TimerFired(page.timers[0]);
    page.OpenAppClicked(page.openAppListeners[0]);
    auto, manual := page.navigations[0], page.navigations[1];
  }
}
