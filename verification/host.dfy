/**
 * The host platform as the controller sees it: a user store whose records
 * carry roles, an email and the two user-meta values the plugin writes, and
 * the foreign services (nonces, capabilities, sanitisers, escaping, admin
 * URLs) as uninterpreted functions.
 */
module Host {
  import opened Php

  const AssistantRole := "ai_assistant"

  /** The default avatar glyph, U+1F916 (robot face). */
  const DefaultGlyph := "\U{1F916}"

  /**
   * A user record. `avatarMeta` is what `get_user_meta($id,
   * 'clawpress_avatar_emoji', true)` returns ("" when unset); `contextMeta`
   * is the stored context array (empty when unset).
   */
  datatype User = User(
    id: int,
    roles: seq<string>,
    email: string,
    displayName: string,
    avatarMeta: string,
    contextMeta: map<string, string>)

  /** `in_array('ai_assistant', $user->roles, true)`. */
  predicate IsAssistant(u: User) {
    AssistantRole in u.roles
  }

  /** The glyph shown for a user: the stored emoji `?: '🤖'`. */
  function Glyph(u: User): (g: string)
    ensures !Falsy(Str(g))
    ensures !Falsy(Str(u.avatarMeta)) <==> g == u.avatarMeta
    ensures Falsy(Str(u.avatarMeta)) ==> g == DefaultGlyph
  {
    OrElse(u.avatarMeta, DefaultGlyph)
  }

  /** `$array[$key] ?? $default`: the default applies only when the key is absent. */
  function Param(params: map<string, string>, key: string, default: string): (v: string)
    ensures key in params ==> v == params[key]
    ensures key !in params ==> v == default
  {
    if key in params then params[key] else default
  }

  /** A context field as the templates read it: a missing key reads as "". */
  function Field(ctx: map<string, string>, key: string): string {
    Param(ctx, key, "")
  }

  /**
   * The user store: `get_userdata` looks up `users`, `get_user_by('email', …)`
   * looks up `emailIndex`.
   */
  datatype Store = Store(users: map<int, User>, emailIndex: map<string, int>) {
    /** Ids are positive and match their records; the email index points at users with that email. */
    predicate Valid() {
      && (forall id :: id in users ==> id > 0 && users[id].id == id)
      && (forall e :: e in emailIndex ==> emailIndex[e] in users && users[emailIndex[e]].email == e)
    }
  }

  /**
   * Foreign calls. `verifyNonce(token, action)` is `wp_verify_nonce`;
   * `userCan(cap)` is `current_user_can` for the requesting user;
   * `sanitizeText` and `sanitizeTextarea` are `sanitize_text_field` and
   * `sanitize_textarea_field` applied after `wp_unslash`; `escHtml` is
   * `esc_html`; `adminBase` is `admin_url('')`.
   */
  datatype Services = Services(
    verifyNonce: (string, string) -> bool,
    userCan: string -> bool,
    sanitizeText: string -> string,
    sanitizeTextarea: string -> string,
    escHtml: string -> string,
    adminBase: string)

  /** `admin_url($path)`. */
  function AdminUrl(svc: Services, path: string): string {
    svc.adminBase + path
  }
}
