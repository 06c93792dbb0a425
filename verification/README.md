# ClawPress assistant admin, modelled in Dafny

ClawPress lets a WordPress site owner create an AI "assistant": an ordinary
user with the role `ai_assistant`, an emoji avatar and a stored context (vibe,
goals, site facts). The admin controller `ClawPress_Assistant_Admin` decides:

- which avatar a user gets (the `get_avatar` filter `emoji_avatar`): an
  assistant's avatar becomes a round badge with its emoji, everyone else's
  passes through;
- how the AJAX endpoint `clawpress_create_assistant` answers: nonce, then
  capability, then a non-empty name, then a call to the assistant creator whose
  outcome becomes a JSON success or error; the chat page's mock-action endpoint
  runs the same guards and only acknowledges;
- which rows an assistant's profile page shows, and when the Users screen shows
  the "Create Your Assistant" notice;
- how the setup wizard page behaves: a four-step page script (name, avatar,
  context, done) that sends one create request and, on success, builds the
  configuration an external agent uses to connect.

The model is split by module:

- `Php`: the PHP semantics these decisions depend on (`empty`/`?:` truthiness,
  `is_numeric`, the `(int)` cast, `ucfirst`, `mb_substr`).
- `Host`: users, the user store and the foreign calls (nonces, capabilities,
  sanitisers, `esc_html`, `admin_url`), which become fields of a `Services`
  value.
- `Avatar`, `Ajax`, `Profile`: the server-side decisions, as functions with
  lemmas.
- `Wizard`: the page script, as the class `SetupWizard`. It has one method per
  event and a `Valid()` invariant that every method keeps.
- `Scenario`: properties that span the page and the server.

An event on a control that is hidden or disabled never reaches its handler in
the browser. The wizard's methods treat such an event as changing nothing.

### Where the page and the server disagree

An error reply re-enables the wizard's create button, but a failed nonce check
does not:

- A failed nonce check ends the request with `wp_die(-1, 403)`.
- jQuery's `$.post` runs its callback only for a 2xx reply.
- So after a 403 the request is over, no alert is shown, and the page stays on
  step 3 with the button disabled
  (includes/class-clawpress-assistant-admin.php:260-300, 409).

The model follows the code. On `Forbidden`, `Wizard.SetupWizard.Receive` only
ends the request, leaving the page "stalled": step 3, button disabled, nothing
in flight. Every method keeps a stalled page stalled, and
`Scenario.ForbiddenIsFinal` runs the sequence click, 403, late success, second
click to show that the page never leaves step 3. Only an error reply delivered
with status 200 raises the alert and re-enables the button.

The page and the server also judge the name `"0"` differently:

- The page enables Next for it, because JavaScript's `!name` is false for any
  non-empty string.
- The server's `empty($name)` refuses it.

`Scenario.ZeroNamePassesPageFailsServer` and `Scenario.ZeroNameEnablesNext`
state the two halves.

## Model

| member | source | states |
|---|---|---|
| Php.Falsy | includes/class-clawpress-assistant-admin.php:348-365 | `empty($v)` and `!$v`: exactly null, false, 0, "" and "0" are falsy |
| Php.FalsyStrings | includes/class-clawpress-assistant-admin.php:418 | "" and "0" are falsy, while "00", " ", "0.0" and "false" are not |
| Php.OrElse | includes/class-clawpress-assistant-admin.php:398 | `$s ?: $fallback` keeps a truthy string and gives the fallback for "" and "0" |
| Php.ReadNumericPrefix | includes/class-clawpress-assistant-admin.php:384-385 | the leading number PHP reads has positive length within the string; its layout is stated by `Php.NumericPrefixShape` |
| Php.NumericPrefixShape | includes/class-clawpress-assistant-admin.php:384-385 | the number is leading whitespace, an optional sign, a mantissa and an optional exponent: there is one iff the mantissa has a digit; it is negative iff a minus precedes the mantissa; its mantissa is the mantissa's digits, its scale the exponent less the fraction digits, its length the characters read |
| Php.ReadMantissa | includes/class-clawpress-assistant-admin.php:384-385 | the mantissa's digits are all decimal, it reads only digits and the point, and it reads nothing exactly when it finds no digit |
| Php.MantissaShape | includes/class-clawpress-assistant-admin.php:384-385 | a mantissa is digits alone, or digits, one point and digits; it is followed by no further digit; it is empty exactly when the text starts with neither a digit nor a point followed by a digit |
| Php.FractionShape | includes/class-clawpress-assistant-admin.php:384-385 | after `a` digits and a point, the mantissa is those digits, the point and the digits after it, with `a` digits before the point |
| Php.ReadExponent | includes/class-clawpress-assistant-admin.php:384-385 | an exponent reads only number characters, and a missing exponent scales by 0; DigitsExponent and SignedExponent give its value |
| Php.IsNumericString | includes/class-clawpress-assistant-admin.php:384 | `is_numeric` on a string: a leading number followed by nothing but whitespace |
| Php.IsNumeric | includes/class-clawpress-assistant-admin.php:384 | `is_numeric($v)`: every int, a numeric string, nothing else |
| Php.StringToInt | includes/class-clawpress-assistant-admin.php:385 | `(int)` on a string is 0 when no number leads it; a negative result comes only from a negative number and a positive one only from a non-negative number |
| Php.IntCast | includes/class-clawpress-assistant-admin.php:387 | `(int)` on a scalar: null 0, false 0, true 1, an int itself, a string its leading number |
| Php.PaddedDigitsCast | includes/class-clawpress-assistant-admin.php:384-385 | digits with whitespace on either side are numeric and cast to their decimal value |
| Php.PaddedSignedCast | includes/class-clawpress-assistant-admin.php:384-385 | a sign and digits with whitespace on either side are numeric and cast to their value, negated after a minus |
| Php.FractionCast | includes/class-clawpress-assistant-admin.php:384-385 | digits, a point and digits are numeric and cast to the value of the digits before the point |
| Php.DropDigits | includes/class-clawpress-assistant-admin.php:384-385 | removing k trailing digits divides a digit string's value by 10^k, rounding down |
| Php.TrailingJunkCast | includes/class-clawpress-assistant-admin.php:384-385 | digits followed by a character no number contains are not numeric, yet cast to the digits' value |
| Php.SignedCastExample | includes/class-clawpress-assistant-admin.php:384-385 | " -12 " is numeric and casts to -12 |
| Php.FractionCastExample | includes/class-clawpress-assistant-admin.php:384-385 | "1.9" is numeric and casts to 1 |
| Php.TrailingJunkExample | includes/class-clawpress-assistant-admin.php:384-389 | "12abc" is not numeric (so it would be looked up as an email) and casts to 12 |
| Php.DigitStringCast | includes/class-clawpress-assistant-admin.php:384-385 | a non-empty digit string is numeric and `(int)` gives its decimal value |
| Php.SignedExponent | includes/class-clawpress-assistant-admin.php:384-385 | `e+` or `e-` then digits is read whole, and the exponent is the digits' value, negated after `-` |
| Php.ExponentCast | includes/class-clawpress-assistant-admin.php:384-385 | digits, `e`, digits are numeric and `(int)` gives mantissa × 10^exponent (e.g. "1e3" gives 1000) |
| Php.NumericStringChars | includes/class-clawpress-assistant-admin.php:384-389 | a numeric string holds only whitespace, digits, signs, a point and `e`/`E`, so it never contains `@` |
| Php.NumericPrefixChars | includes/class-clawpress-assistant-admin.php:384-385 | every character of the numeric prefix is a number character |
| Php.DigitLedPrefix | includes/class-clawpress-assistant-admin.php:384-385 | a string starting with a digit is read unsigned from its first character |
| Php.Ucfirst | includes/class-clawpress-assistant-admin.php:351 | `ucfirst` upper-cases an ASCII lower-case first letter, keeps the length and leaves everything else unchanged |
| Php.MbPrefix | includes/class-clawpress-assistant-admin.php:146 | `mb_substr($s, 0, $n)` is a prefix of at most `n` code points, the whole string when it is short enough, and exactly `n` otherwise |
| Host.IsAssistant | includes/class-clawpress-assistant-admin.php:339 | a user is an assistant exactly when its roles include `ai_assistant` |
| Host.Param | includes/class-clawpress-assistant-admin.php:415-428 | `$_POST[$k] ?? $d` gives the stored value for a present key and the default only for an absent key |
| Host.Glyph | includes/class-clawpress-assistant-admin.php:344 | the shown glyph is never falsy; it is the stored emoji exactly when that is truthy, and the robot face otherwise |
| Avatar.ResolveUserId | includes/class-clawpress-assistant-admin.php:383-393 | resolution order: numeric values are `(int)`-cast; then an object's non-empty `user_id` is cast; then a string is looked up by email (found iff indexed, and the user carries that email); anything else gives 0 |
| Avatar.Badge | includes/class-clawpress-assistant-admin.php:399 | the badge is the fixed opening span, the escaped glyph and `</span>`, in that order |
| Avatar.EmojiAvatar | includes/class-clawpress-assistant-admin.php:382-403 | a non-assistant gets `$avatar` unchanged; an assistant gets exactly `Badge` of the escaped glyph of the resolved user: opening span, glyph, `</span>` |
| Avatar.NonAssistantPassesThrough | includes/class-clawpress-assistant-admin.php:395-402 | id 0, an unknown id or a user without the role gives back `$avatar` |
| Avatar.BadgeIgnoresAvatar | includes/class-clawpress-assistant-admin.php:396-399 | for an assistant the result does not depend on `$avatar` |
| Avatar.MissingGlyphDefaultsToRobot | includes/class-clawpress-assistant-admin.php:398 | an assistant whose stored emoji is "" or "0" gets the robot-face badge |
| Avatar.EmojiAvatarIdempotent | includes/class-clawpress-assistant-admin.php:395-402 | applying the filter to its own output changes nothing, for every user |
| Avatar.NumericStringNotLookedUp | includes/class-clawpress-assistant-admin.php:384-389 | a numeric string resolves to its `(int)` value whatever the email index holds |
| Avatar.EmailAddressLookedUp | includes/class-clawpress-assistant-admin.php:388-392 | a string containing `@` is never numeric, so it resolves through the email index (0 when absent) |
| Avatar.NumericIdsResolveByValue | includes/class-clawpress-assistant-admin.php:384-385 | a digit string resolves to its decimal value; digits, `e`, digits resolve to mantissa × 10^exponent |
| Avatar.BadgeInjective | includes/class-clawpress-assistant-admin.php:399 | different escaped glyphs give different badges |
| Avatar.NonStringExamples | includes/class-clawpress-assistant-admin.php:383-393 | an int resolves to itself; an object whose `user_id` is 9 or `true` resolves to 9 or 1; an object whose `user_id` is "0" or missing resolves to 0; a bare `true` or null resolves to 0 |
| Ajax.NonceToken | includes/class-clawpress-assistant-admin.php:409 | `check_ajax_referer` reads `_nonce`, falling back to `_ajax_nonce` and then `_wpnonce`, and reads "" when none is sent |
| Ajax.NonceValid | includes/class-clawpress-assistant-admin.php:409 | the nonce check passes exactly when the nonce read is not `empty()` (neither "" nor "0") and verifies for the action |
| Ajax.Authorised | includes/class-clawpress-assistant-admin.php:409-413 | the nonce check and then the `manage_options` capability |
| Ajax.ContextMeta | includes/class-clawpress-assistant-admin.php:422-429 | the context array has exactly the six keys, each holding its field |
| Ajax.BuildArgs | includes/class-clawpress-assistant-admin.php:415-429 | each field is its parameter (or "" when absent, the robot face for the avatar) after the sanitiser the code uses: `sanitize_text_field` for name, avatar, vibe, site title and tagline, `sanitize_textarea_field` for goals, extra and about text |
| Ajax.CheckCreateRequest | includes/class-clawpress-assistant-admin.php:409-420 | the guard chain passes iff nonce and capability hold and the sanitised name is truthy; a bad nonce gives 403 first, then `Not allowed.`, then `Name is required.` |
| Ajax.HandleCreate | includes/class-clawpress-assistant-admin.php:408-441 | a failed guard returns its reply with the store untouched; only a passed guard chain can change the store, and then the store is exactly the one the creator returns; a success carries the creator's id and the chat page URL |
| Ajax.HandleMockAction | includes/class-clawpress-assistant-admin.php:446-455 | the same guards under the chat nonce; success iff authorised; the store never changes |
| Ajax.UnauthorisedNeverReachesCreator | includes/class-clawpress-assistant-admin.php:409-413 | without nonce and capability, any two creators give the same result, the store is unchanged and the reply is 403 or `Not allowed.` |
| Ajax.NonceCheckedFirst | includes/class-clawpress-assistant-admin.php:409-413 | a bad nonce is refused with HTTP 403 even for a capable user |
| Ajax.EmptyNameNeverReachesCreator | includes/class-clawpress-assistant-admin.php:415-420 | a sanitised name of "" or "0" is independent of the creator, leaves the store unchanged, never succeeds, and is `Name is required.` once authorised |
| Ajax.CreatorErrorVerbatim | includes/class-clawpress-assistant-admin.php:431-435 | the creator's error message is the reply, verbatim |
| Ajax.SuccessPayload | includes/class-clawpress-assistant-admin.php:437-440 | success holds exactly the new id and `admin_url('users.php?page=clawpress-assistant-chat')`, and the store is the one the creator returns, so the new user is kept |
| Ajax.DefaultsForMissingFields | includes/class-clawpress-assistant-admin.php:415-429 | a request with only a name gets the sanitised robot face and sanitised "" for all six context fields |
| Profile.SummaryRows | includes/class-clawpress-assistant-admin.php:347-371 | each of Vibe (`ucfirst`), Knows about (title, plus " — tagline" when the tagline is filled) and Helping with is present exactly when its field is non-empty; every row has one of these captions and there are exactly as many rows as filled fields |
| Profile.SummaryRowsOrdered | includes/class-clawpress-assistant-admin.php:348-370 | the rows keep the order Vibe, Knows about, Helping with |
| Profile.RowValueAppend | includes/class-clawpress-assistant-admin.php:347-371 | a row lookup in two tables put together finds the first table's row first |
| Profile.ProfileSection | includes/class-clawpress-assistant-admin.php:338-373 | nothing for a non-assistant; otherwise the glyph (stored emoji or robot face) and the summary rows |
| Profile.AllFieldsFilled | includes/class-clawpress-assistant-admin.php:348-370 | with all four fields filled, the table is exactly the three rows with their values |
| Profile.EmptyContextNoRows | includes/class-clawpress-assistant-admin.php:339-371 | an assistant without stored context gets a heading and no rows |
| Profile.UsersPageNotice | includes/class-clawpress-assistant-admin.php:45-65 | the notice shows iff the screen is `users` and no assistant exists, with a link to the setup page |
| Wizard.JsTrim | includes/class-clawpress-assistant-admin.php:239 | `trim()` gives a string that neither starts nor ends with JavaScript white space |
| Wizard.JsTrimSlice | includes/class-clawpress-assistant-admin.php:239 | the trimmed text is the slice of the input after its leading white space, with only white space before and after it |
| Wizard.JsTrimEmpty | includes/class-clawpress-assistant-admin.php:239-240 | the trimmed name is empty exactly when the input is all white space |
| Wizard.JsTrimTrimmed | includes/class-clawpress-assistant-admin.php:239 | a trimmed string trims to itself |
| Wizard.JsTrimIdempotent | includes/class-clawpress-assistant-admin.php:239 | trimming twice is trimming once |
| Wizard.Marked | includes/class-clawpress-assistant-admin.php:249-253 | exactly one avatar button, the picked one, is marked |
| Wizard.BuildAgentConfig | includes/class-clawpress-assistant-admin.php:285-292 | the configuration carries the site URL, the assistant's name and the role `ai_assistant` |
| Wizard.AgentConfigEndpoints | includes/class-clawpress-assistant-admin.php:290-291 | handshake and manifest are the site URL followed by their fixed REST paths |
| Wizard.CreateRequest | includes/class-clawpress-assistant-admin.php:264-274 | the request body has exactly the ten keys the script sends, `action` is the create action and `_nonce` the page's nonce, which is the token the server's nonce check reads |
| Wizard.DoneConsistent | includes/class-clawpress-assistant-admin.php:276-295 | moving to step 4 from a request in flight keeps the page invariant |
| Wizard.SetupWizard.constructor | includes/class-clawpress-assistant-admin.php:141-236 | the page starts on step 1 with an empty name, Next disabled, the robot face picked and marked, and vibe `casual`; the about text is cut to 500 code points |
| Wizard.SetupWizard.InputName | includes/class-clawpress-assistant-admin.php:238-241 | on step 1 the name becomes the trimmed input and Next is disabled exactly when it is empty; nothing else changes |
| Wizard.SetupWizard.ClickNextFromName | includes/class-clawpress-assistant-admin.php:243-247 | an enabled Next shows the name in the headings and moves to step 2 |
| Wizard.SetupWizard.PickAvatar | includes/class-clawpress-assistant-admin.php:249-253 | on step 2 every mark is cleared and only the picked button is marked; the avatar becomes its glyph |
| Wizard.SetupWizard.ClickNextFromAvatar | includes/class-clawpress-assistant-admin.php:255-258 | moves from step 2 to step 3 and changes nothing else |
| Wizard.SetupWizard.SelectVibe | includes/class-clawpress-assistant-admin.php:197-203 | on step 3 the vibe becomes the chosen option |
| Wizard.SetupWizard.EditText | includes/class-clawpress-assistant-admin.php:205-209 | on step 3 the goals and extra fields take the typed text |
| Wizard.SetupWizard.ClickCreate | includes/class-clawpress-assistant-admin.php:260-274 | an enabled create button is disabled and the request carries the current name, avatar, fields and site values; the name is non-empty |
| Wizard.SetupWizard.Receive | includes/class-clawpress-assistant-admin.php:275-300 | with no request in flight nothing changes; a 403 only ends the request and leaves the page stalled on step 3 with the button disabled; an error alerts its message (or `Something went wrong.`) and re-enables; a success moves to step 4 with the avatar, chat link and configuration; a stalled page stays stalled |
| Wizard.SetupWizard.EndForbidden | includes/class-clawpress-assistant-admin.php:260-300 | a 403 reply runs no callback: the request is no longer in flight and nothing else changes |
| Wizard.SetupWizard.ShowError | includes/class-clawpress-assistant-admin.php:296-299 | the alert shows the message or the fallback, and the button is enabled again on step 3 |
| Wizard.SetupWizard.ShowDone | includes/class-clawpress-assistant-admin.php:276-295 | step 4 shows the picked avatar, the chat link and the configuration for the current name |
| Wizard.SetupWizard.ToggleAgentSetup | includes/class-clawpress-assistant-admin.php:303-305 | on step 4 the agent setup box flips between shown and hidden |
| Scenario.WizardRequestNeedsNoDefaults | includes/class-clawpress-assistant-admin.php:264-274 | a request built by the page uses no server default; each argument is the sanitised value sent |
| Scenario.ZeroNamePassesPageFailsServer | includes/class-clawpress-assistant-admin.php:418-420 | an authorised page request named "0" is refused with `Name is required.` and never reaches the creator |
| Scenario.ZeroNameEnablesNext | includes/class-clawpress-assistant-admin.php:239-240 | the page enables Next for the name "0" |
| Scenario.SageCreated | includes/class-clawpress-assistant-admin.php:408-441 | creating "Sage" with the owl hands the creator exactly the page's values and answers with the id and chat link |
| Scenario.ForbiddenIsFinal | includes/class-clawpress-assistant-admin.php:260-300 | after a click and a 403, a late success reply and a second click leave the page on step 3 with the button disabled |
| Scenario.SageProfile | includes/class-clawpress-assistant-admin.php:338-373 | the created assistant's profile shows the owl, "Vibe: Playful", "Knows about: My Blog — Thoughts on things" and "Helping with: writing posts" |

## Left out

- HTML markup, inline styles, escaping and translated strings. The model
  returns values (rows, a notice, a badge around an `esc_html` result), not
  markup.
- `init`, `register_pages`, `enqueue_chat_assets`, `render_chat_page`,
  `wp_localize_script`: hook and menu wiring with no decision logic.
- `ClawPress_Assistant::create_assistant` and `get_assistant` are not part of
  this model. The creator is a function parameter that may change the store;
  `get_assistant()` is an optional user.
- Nonce creation and checking, `current_user_can`, the sanitisers, `wp_unslash`,
  `esc_html`, `admin_url`: these are uninterpreted fields of `Services`.
  `wp_unslash` is folded into the sanitisers.
- Ajax.NonceValid: the nonce is read from `$_REQUEST` by `check_ajax_referer`.
  The model reads it from the same parameters as `$_POST`, so a nonce sent in
  the query string alone is not told apart.
- Avatar.ResolveUserId: the email index is an exact map from address to user.
  `get_user_by('email', …)` also trims the address and matches under the
  database's collation (case-insensitively); `Store.Valid` takes the index to
  hold exactly the stored addresses, which is an assumption about the store.
- Php.ReadNumericPrefix: its own contract only bounds the length it reads.
  The layout (sign, mantissa, scale) is stated by `Php.NumericPrefixShape`,
  `Php.MantissaShape` and `Php.FractionShape`, which are lemmas so that each
  use of the function stays cheap to verify.
- Php.StringToInt: does not model floats (`is_numeric("1.5")` is modelled, the
  value is truncated without float rounding) or the 64-bit saturation of
  `(int)`; integers are unbounded.
- Php.IsNumericString: hexadecimal, binary and other non-decimal forms are not
  numeric in PHP 8 and are not modelled as numeric; `INF`/`NAN` strings are not
  modelled.
- Php.Ucfirst: only ASCII letters are upper-cased, as PHP 8 does; no
  locale-dependent case mapping.
- Php.MbPrefix: strings are sequences of code points; UTF-8 encoding is not
  modelled.
- The 120-character about preview and the "From your site" box on step 3: they
  are display only.
- The done message, the button label changes, `fadeIn`/`slideToggle`
  animations and the `alert` dialog itself. `alertShown` records the last
  alert text; `JSON.stringify` of the configuration is not modelled, only the
  configuration object.
- The chat page's client application and the content of the mock action.
