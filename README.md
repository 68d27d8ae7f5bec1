# AuraBean password-reset landing page, modelled in Dafny

`reset.js` is the script of the page a password-reset email links to. It reads
the reset credentials from the page URL, decides whether the link is usable,
shows the code the user may copy, and hands the credentials to the AuraBean
app through an `aurabean://auth-reset` URL. This project models the script's
decision core and proves what it promises:

- `search_params.dfy` (module `SearchParams`): the `get` and `set` operations
  of `URLSearchParams` (section 6.2 of the WHATWG URL Standard) on a decoded,
  ordered list of name/value pairs. It also defines JavaScript truthiness of a
  string-or-null value (`Truthy`).
- `reset_link.dfy` (module `ResetLink`): `getFirst` and `parseResetState`.
  `Resolve` specifies the alias search: the query is searched through all
  aliases, then the fragment. `GetFirst` is the nested-loop method, proved
  equal to `Resolve`. `StateOf` builds the reset state. `ParseResetState` is
  the method the page runs, proved equal to `StateAt`. The fragment has its
  leading `#` removed, and the link type is defaulted and lower-cased.
- `reset_page.dfy` (module `ResetPage`): the three-way outcome (`Decide`), the
  texts shown, the display code and the email hint, and the hand-off URL.
  `LaunchApp` applies successive conditional `set` calls; it is proved equal
  to `LaunchParams`, whose contents and order are proved separately. The
  class `Page` holds the page elements the script writes. Its methods update
  those fields in place, as the script does:
  - `Run` is the whole script: parse, then `Render`.
  - `FinishWithError` and `StopSpinner` are the error exit and the spinner.
  - `ShowCode` and `ShowVerified` are the success path.
  - `OpenAppClicked` and `TimerFired` are the button listener and the two
    timers.

  Listeners, timers and navigations are recorded as data on the page.
- `reset_scenarios.dfy` (module `ResetScenarios`): concrete links run through
  the model.

### Behaviour of the code worth noting

- The wrong-type error subtext embeds `state.linkType`, which is already
  lower-cased (reset.js:75 and 20). A link with `type=SignUp` shows
  "signup", as the link's type was lower-cased before the message is built. `Page.Render` states this with
  `WrongTypeSubtext(st.linkType)`, and `StateOf` states that `linkType` is
  the lower-cased value.
- The placeholder code "Unknown" is reachable. The credential check accepts
  an access token alone (reset.js:25), while the display code prefers only
  the token hash and the code (reset.js:92). `DisplayedCodeFromLink` and the
  scenario `AccessTokenOnly` show this. A link whose token hash or code is
  literally `Unknown` also displays "Unknown".

## Model

| member | source | states |
|---|---|---|
| SearchParams.Get | reset.js:59 | `get` finds nothing exactly when no pair has the name |
| SearchParams.GetFirstOccurrence | reset.js:59 | `get` returns the value of the earliest pair with the name, whatever later duplicates hold |
| SearchParams.RemoveAll | reset.js:118-124 | after removing a name no pair carries it (the removal step of `set`) |
| SearchParams.RemoveAllKeepsOthers | reset.js:118-124 | removing one name leaves `get` of every other name unchanged |
| SearchParams.SetParam | reset.js:118-124 | after `set(name, value)`, `get(name)` is the value; on a list without the name the pair is appended at the end |
| SearchParams.SetParamKeepsOthers | reset.js:118-124 | `set` leaves `get` of every other name unchanged |
| ResetLink.FragmentSource | reset.js:52-54 | the fragment text is the hash minus exactly one leading `#`, or the hash unchanged when it has none |
| ResetLink.FirstIn | reset.js:58-63 | a value found in one source is never empty |
| ResetLink.FirstInNone | reset.js:58-63 | one source yields nothing exactly when no alias has a non-empty value in it |
| ResetLink.FirstInAt | reset.js:58-63 | one source yields the value of its first alias, in declaration order, with a non-empty value |
| ResetLink.FirstInFrom | reset.js:58-63 | anything one source yields is the value of its first alias with a non-empty value |
| ResetLink.Resolve | reset.js:56-66 | a resolved value is never empty (empty strings are skipped as falsy) |
| ResetLink.QueryWins | reset.js:57-64 | a non-empty query value wins whatever the fragment holds, even under an alias ranked earlier |
| ResetLink.FragmentFallback | reset.js:57-64 | with no non-empty alias in the query, the fragment's first non-empty alias decides |
| ResetLink.ResolveNone | reset.js:56-66 | getFirst returns null exactly when no alias has a non-empty value in either source |
| ResetLink.ResolveFrom | reset.js:59-65 | a non-null result is non-empty and is the value of one of the given aliases in one of the sources |
| ResetLink.GetFirst | reset.js:56-66 | the nested loops with early return compute exactly the query-then-fragment, alias-order search |
| ResetLink.ToLowerCase | reset.js:75 | lower-casing keeps the length and maps each character to its lower-case form (ASCII letters) |
| ResetLink.LowerCharTo | reset.js:75 | the only characters that lower-case to a lower-case letter are that letter and its upper-case form |
| ResetLink.LowerCaseMatches | reset.js:75 | a string lower-cases to a lower-case word exactly when it spells the word in any mix of cases |
| ResetLink.LowerCaseIsRecovery | reset.js:75 | a type lower-cases to "recovery" exactly when it spells recovery in some mix of cases |
| ResetLink.RecoveryIsLowerCase | reset.js:75 | the default "recovery" is unchanged by lower-casing |
| ResetLink.StateOf | reset.js:67-87 | `isRecoveryLink` iff `linkType == "recovery"`; no type gives a recovery link; a resolved type gives its lower-cased value; code, token hash, access token and email are never empty strings |
| ResetLink.IsRecoveryLinkIff | reset.js:75-86 | a link is a recovery link exactly when no type resolves or the type spells recovery in some mix of cases |
| ResetLink.ParseResetState | reset.js:50-88 | parseResetState, field by field through getFirst, yields exactly the state `StateAt` specifies for the location |
| ResetPage.Decide | reset.js:17-31 | wrong type iff not a recovery link (checked first, so credentials do not matter); missing credentials iff a recovery link lacks code, token hash and access token; success otherwise |
| ResetPage.MissingCredentialsAt | reset.js:25-31 | a recovery link fails for missing credentials exactly when no code, token-hash or access-token alias has a non-empty value in the query or fragment; email plays no part |
| ResetPage.WrongTypeSubtext | reset.js:18-21 | the wrong-type subtext is the fixed prefix, the link type, then the fixed suffix, so the type can be read back from it |
| ResetPage.DisplayCode | reset.js:92 | the display code is never empty: the token hash if non-empty, else the code if non-empty, else "Unknown" |
| ResetPage.DisplayedCodeFromLink | reset.js:25-92 | on the success path "Unknown" appears when only the access token passed the check; otherwise the shown code is a value a token-hash alias, else a code alias, carries in the link |
| ResetPage.EmailHint | reset.js:109-113 | the hint is empty iff the email is falsy, and otherwise the fixed sentence around the email |
| ResetPage.PairIfTruthy | reset.js:118 | one conditional `set` adds at most one pair, present exactly when the value is truthy, carrying that name and value |
| ResetPage.LaunchPrefixGet | reset.js:117-124 | after the first k conditional `set` calls, field j is present with its own value exactly when j < k and its value is truthy |
| ResetPage.LaunchPrefixAbsent | reset.js:117-124 | a name that is not forwarded never appears in the parameters |
| ResetPage.LaunchPrefixOrdered | reset.js:117-124 | after k calls the names present follow the order of the first k forwarded names, and no value is empty |
| ResetPage.LaunchStep | reset.js:117-124 | before field k is set its name is absent, so the `set` appends the field's pair |
| ResetPage.LaunchParamsGet | reset.js:116-124 | each of code, email, token_hash, access_token, refresh_token, token_type, expires_in is present with its own value iff it is non-empty; no other name (the link type in particular) is present |
| ResetPage.LaunchParamsOrdered | reset.js:117-124 | the parameters come in the order code, email, token_hash, access_token, refresh_token, token_type, expires_in, and none is empty |
| ResetPage.SetIfTruthy | reset.js:118 | a conditional `set` on a list without the name appends exactly the pair, or nothing |
| ResetPage.LaunchApp | reset.js:116-126 | the successive conditional `set` calls on the app-scheme URL build exactly `LaunchParams` of the state |
| ResetPage.Page.constructor | reset.js:6-13 | the page before the script runs: texts as rendered, code card and open-app button hidden, nothing bound or scheduled |
| ResetPage.Page.StopSpinner | reset.js:136-140 | the spinner is hidden when the page has one; nothing else changes |
| ResetPage.Page.FinishWithError | reset.js:128-134 | spinner stopped, status text and subtext are the given pair, code card and open-app button hidden |
| ResetPage.Page.ShowCode | reset.js:90-114 | the code card is shown with the display code, one copy listener for that code is bound, and the email hint is set |
| ResetPage.Page.Run | reset.js:15-48 | for the location's parsed state: each error exit shows its texts, hides the card and button, binds and schedules nothing; success shows the code and hint, binds the open-app listener, shows the verified texts and schedules the launch (800 ms) and reminder (2200 ms) |
| ResetPage.Page.Render | reset.js:17-48 | the same outcome-by-outcome page state for a parsed state, checking the type before the credentials |
| ResetPage.Page.ShowVerified | reset.js:33-48 | the success path in order: code card, open-app button and listener, verified texts, spinner stopped, two timers |
| ResetPage.Page.OpenAppClicked | reset.js:35-39 | a click shows the opening texts and navigates once to the app URL with `LaunchParams` of the bound state |
| ResetPage.Page.TimerFired | reset.js:45-48 | the launch timer navigates to the app URL with `LaunchParams` of its state; the reminder timer only changes the subtext |
| ResetPage.AutoAndManualLaunchAgree | reset.js:35-46 | on the success path the automatic launch and a click on the open-app button navigate to the same URL |
| ResetScenarios.QueryAliasBeatsFragment | reset.js:56-69 | `?token=abc#code=xyz` resolves the code to `abc` |
| ResetScenarios.EmptyValueSkipped | reset.js:59-62 | `?code=&token=t1` skips the empty `code` and resolves `t1` |
| ResetScenarios.OtherTypeRejected | reset.js:17-22 | `?type=SignUp&code=c` ends in the wrong-type error with type `signup` |
| ResetScenarios.AccessTokenOnly | reset.js:25 | a fragment with only `access_token` and `type=recovery` succeeds and shows "Unknown" |
| ResetScenarios.LaunchCodeAndEmailOnly | reset.js:116-124 | a state whose only truthy forwarded fields are code and email hands the app exactly those two pairs, in that order |
| ResetScenarios.LaunchCarriesCodeAndEmail | reset.js:116-124 | `?code=R1&email=a@b.com&type=recovery` hands the app `code=R1&email=a@b.com` |

## Left out

- Parsing and percent-decoding inside the `URLSearchParams` constructor are not modelled. The constructor is the parameter `decode` of `StateAt`, `ParseResetState` and `Page.Run`, and the pairs it yields are taken as given.
- Serialising the target URL (`target.toString()`, percent-encoding) is not modelled. A navigation is recorded as the base URL and its decoded query pairs.
- ResetLink.ToLowerCase: lower-cases the ASCII letters A-Z only. No character outside ASCII lower-cases to a letter of "recovery", so `isRecoveryLink` (and `LowerCaseIsRecovery`) is the same as with JavaScript's full `toLowerCase`. What the model loses is the lower-casing of non-ASCII letters in the type shown by the wrong-type subtext ("ÉTAT" stays "ÉTAT" where JavaScript shows "état"), and mappings that change the length ("İ" becomes two characters in JavaScript).
- DOM lookups (reset.js:6-13) become fields of `Page`. The `hidden` class becomes a boolean per element, and `textContent` a string.
- `window.setTimeout` and `addEventListener` are recorded on `Page` (`timers`, `openAppListeners`, `copyListeners`). When a recorded callback fires is up to the caller, via `TimerFired` and `OpenAppClicked`. No clock is modelled.
- The copy listener's body (reset.js:94-107) is not modelled: the async clipboard write, the "Copied" / "Copy manually" button labels, the disabled flag and the 1500 ms restore timer. It is foreign asynchronous I/O, so only the text it would copy is recorded.
- `window.location.assign` (reset.js:125) is recorded as an appended entry of `navigations`. Leaving the page is not modelled.
- The page markup is not part of this model. Only the initial status text and subtext, and whether a spinner exists, are parameters of the `Page` constructor. The rest of the initial state is assumed: the code card and the open-app button start hidden (the script removes `hidden` from them only on the success path), the spinner starts visible, the code value and email hint start empty, and nothing is bound or scheduled.
