/**
 * The `get_avatar` filter (`emoji_avatar`): resolve whatever the host passes
 * as `$id_or_email` to a user id, and replace the avatar of an
 * `ai_assistant` user by a round badge showing that user's glyph.
 */
module Avatar {
  import opened Php
  import opened Host

  /**
   * The `$id_or_email` argument: a scalar (an id, a numeric string, an email
   * address, ...) or an object, represented by its `user_id` property (Null
   * when the object has none).
   */
  datatype IdOrEmail = Scalar(v: Scalar) | Object(userId: Scalar)

  /**
   * The user id the filter settles on (0 for none). A numeric value is cast
   * with `(int)`; otherwise an object's non-empty `user_id` is cast; otherwise
   * a string is looked up by email; anything else gives 0.
   */
  function ResolveUserId(x: IdOrEmail, store: Store): (id: int)
    ensures x.Scalar? && IsNumeric(x.v) ==> id == IntCast(x.v)
    ensures x.Object? && Falsy(x.userId) ==> id == 0
    ensures x.Object? && !Falsy(x.userId) ==> id == IntCast(x.userId)
    ensures x.Scalar? && !IsNumeric(x.v) && !x.v.Str? ==> id == 0
    ensures store.Valid() && x.Scalar? && x.v.Str? && !IsNumeric(x.v) ==>
      (id != 0 <==> x.v.s in store.emailIndex) &&
      (id != 0 ==> id in store.users && store.users[id].email == x.v.s)
  {
    match x
    case Scalar(v) =>
      if IsNumeric(v) then IntCast(v)
      else if v.Str? then (if v.s in store.emailIndex then store.emailIndex[v.s] else 0)
      else 0
    case Object(u) =>
      if !Falsy(u) then IntCast(u) else 0
  }

  /** The id resolves to an existing user carrying the `ai_assistant` role. */
  predicate ResolvesToAssistant(x: IdOrEmail, store: Store) {
    var id := ResolveUserId(x, store);
    id != 0 && id in store.users && IsAssistant(store.users[id])
  }

  const BadgeOpen := "<span class=\"clawpress-emoji-avatar\" style=\"display:inline-flex;align-items:center;justify-content:center;width:32px;height:32px;font-size:24px;border-radius:50%;background:#f0f0f1;\">"
  const BadgeClose := "</span>"

  /** The fixed 32px round badge around an already escaped glyph. */
  function Badge(escaped: string): (html: string)
    ensures |html| == |BadgeOpen| + |escaped| + |BadgeClose|
    ensures html[..|BadgeOpen|] == BadgeOpen
    ensures html[|BadgeOpen|..|html| - |BadgeClose|] == escaped
    ensures html[|html| - |BadgeClose|..] == BadgeClose
  {
    BadgeOpen + escaped + BadgeClose
  }

  /** The glyph of the user `x` resolves to; meaningful when it resolves to an assistant. */
  function ResolvedGlyph(x: IdOrEmail, store: Store): string
    requires ResolvesToAssistant(x, store)
  {
    Glyph(store.users[ResolveUserId(x, store)])
  }

  /** `emoji_avatar($avatar, $id_or_email)`. */
  function EmojiAvatar(avatar: string, x: IdOrEmail, store: Store, svc: Services): (r: string)
    ensures !ResolvesToAssistant(x, store) ==> r == avatar
    ensures ResolvesToAssistant(x, store) ==>
      |r| >= |BadgeOpen| + |BadgeClose| &&
      r[..|BadgeOpen|] == BadgeOpen && r[|BadgeOpen|..|r| - |BadgeClose|] == svc.escHtml(ResolvedGlyph(x, store))
    ensures ResolvesToAssistant(x, store) ==> r == Badge(svc.escHtml(ResolvedGlyph(x, store)))
  {
    var id := ResolveUserId(x, store);
    if id != 0 && id in store.users && IsAssistant(store.users[id]) then
      Badge(svc.escHtml(Glyph(store.users[id])))
    else
      avatar
  }

  /** Every id that is 0, names no user, or names a user without the role passes the avatar through. */
  lemma NonAssistantPassesThrough(avatar: string, x: IdOrEmail, store: Store, svc: Services)
    requires var id := ResolveUserId(x, store); id == 0 || id !in store.users || !IsAssistant(store.users[id])
    ensures EmojiAvatar(avatar, x, store, svc) == avatar
  {
  }

  /** For an assistant the badge does not depend on the incoming avatar. */
  lemma BadgeIgnoresAvatar(a1: string, a2: string, x: IdOrEmail, store: Store, svc: Services)
    requires ResolvesToAssistant(x, store)
    ensures EmojiAvatar(a1, x, store, svc) == EmojiAvatar(a2, x, store, svc)
  {
  }

  /** An assistant with no stored glyph (or a falsy one such as "0") gets the robot face. */
  lemma MissingGlyphDefaultsToRobot(avatar: string, x: IdOrEmail, store: Store, svc: Services)
    requires ResolvesToAssistant(x, store)
    requires Falsy(Str(store.users[ResolveUserId(x, store)].avatarMeta))
    ensures EmojiAvatar(avatar, x, store, svc) == Badge(svc.escHtml(DefaultGlyph))
  {
  }

  /** Running the filter on its own output changes nothing, for every kind of user. */
  lemma EmojiAvatarIdempotent(avatar: string, x: IdOrEmail, store: Store, svc: Services)
    ensures EmojiAvatar(EmojiAvatar(avatar, x, store, svc), x, store, svc) == EmojiAvatar(avatar, x, store, svc)
  {
  }

  /** A numeric string is cast, never looked up by email: the email index plays no part. */
  lemma NumericStringNotLookedUp(s: string, store1: Store, store2: Store)
    requires IsNumericString(s)
    ensures ResolveUserId(Scalar(Str(s)), store1) == ResolveUserId(Scalar(Str(s)), store2) == StringToInt(s)
  {
  }

  /** Two distinct escaped glyphs give distinct badges. */
  lemma BadgeInjective(e1: string, e2: string)
    requires Badge(e1) == Badge(e2)
    ensures e1 == e2
  {
    var h := Badge(e1);
    assert e1 == h[|BadgeOpen|..|h| - |BadgeClose|] == e2;
  }

  /** A string containing `@` is never numeric, so an email address is always looked up by email. */
  lemma EmailAddressLookedUp(s: string, store: Store)
    requires '@' in s
    ensures ResolveUserId(Scalar(Str(s)), store) == if s in store.emailIndex then store.emailIndex[s] else 0
  {
    if IsNumericString(s) {
      NumericStringChars(s);
    }
  }

  /** Digit strings resolve to their decimal value, exponent forms are scaled as `(int)` does. */
  lemma NumericIdsResolveByValue(d: string, x: string, store: Store)
    requires d != [] && AllDigits(d) && x != [] && AllDigits(x)
    ensures ResolveUserId(Scalar(Str(d)), store) == DecimalValue(d)
    ensures ResolveUserId(Scalar(Str(d + "e" + x)), store) == DecimalValue(d) * Pow10(DecimalValue(x))
  {
    DigitStringCast(d);
    ExponentCast(d, x);
  }

  /** How the non-string inputs resolve: objects by a non-empty `user_id`, booleans and null never. */
  lemma NonStringExamples(store: Store)
    ensures ResolveUserId(Scalar(Int(7)), store) == 7
    ensures ResolveUserId(Object(Str("0")), store) == 0
    ensures ResolveUserId(Object(Null), store) == 0
    ensures ResolveUserId(Object(Int(9)), store) == 9
    ensures ResolveUserId(Object(Bool(true)), store) == 1
    ensures ResolveUserId(Scalar(Bool(true)), store) == 0
    ensures ResolveUserId(Scalar(Null), store) == 0
  {
  }
}
