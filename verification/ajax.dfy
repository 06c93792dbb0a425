/**
 * The two AJAX endpoints: `clawpress_create_assistant` (a guard chain, then a
 * call to the assistant creator) and `clawpress_assistant_mock_action` (the
 * same guards, then an empty acknowledgement). `wp_send_json_*` and
 * `check_ajax_referer`'s failure end the request, so every exit is a `Reply`.
 */
module Ajax {
  import opened Wrappers
  import opened Php
  import opened Host

  const CreateAction := "clawpress_create_assistant"
  const ChatAction := "clawpress_assistant_chat"
  const ManageOptions := "manage_options"
  const ChatPagePath := "users.php?page=clawpress-assistant-chat"
  const NotAllowed := "Not allowed."
  const NameRequired := "Name is required."

  /** The request parameters (`$_POST`; the nonce is read from `$_REQUEST`, taken to be the same). */
  type Params = map<string, string>

  /**
   * The nonce `check_ajax_referer($action, '_nonce')` reads: `_nonce`, else
   * `_ajax_nonce`, else `_wpnonce`, else none ("").
   */
  function NonceToken(params: Params): (token: string)
    ensures "_nonce" in params ==> token == params["_nonce"]
    ensures "_nonce" !in params && "_ajax_nonce" in params ==> token == params["_ajax_nonce"]
    ensures "_nonce" !in params && "_ajax_nonce" !in params && "_wpnonce" in params ==> token == params["_wpnonce"]
    ensures "_nonce" !in params && "_ajax_nonce" !in params && "_wpnonce" !in params ==> token == ""
  {
    if "_nonce" in params then params["_nonce"]
    else if "_ajax_nonce" in params then params["_ajax_nonce"]
    else if "_wpnonce" in params then params["_wpnonce"]
    else ""
  }

  /**
   * `check_ajax_referer($action, '_nonce')` lets the request through: the
   * nonce read is not `empty()` ("" and "0" are refused before any hashing)
   * and verifies for `action`.
   */
  predicate NonceValid(svc: Services, params: Params, action: string) {
    var token := NonceToken(params);
    !Falsy(Str(token)) && svc.verifyNonce(token, action)
  }

  /** Nonce first, then the `manage_options` capability. */
  predicate Authorised(svc: Services, params: Params, action: string) {
    NonceValid(svc, params, action) && svc.userCan(ManageOptions)
  }

  /**
   * How a handler ends: `Forbidden` is `wp_die(-1, 403)` from a failed
   * `check_ajax_referer`; the other two are `wp_send_json_error($message)`
   * and `wp_send_json_success($data)`, both sent with HTTP status 200.
   */
  datatype Reply<T> = Forbidden | JsonError(message: string) | JsonSuccess(data: T)

  function HttpStatus<T>(r: Reply<T>): int {
    if r.Forbidden? then 403 else 200
  }

  /** The context array handed to the creator. */
  datatype Context = Context(
    vibe: string, goals: string, extra: string,
    siteTitle: string, siteTagline: string, aboutContent: string)

  /** The context as the PHP array (and user meta) with its six keys. */
  function ContextMeta(c: Context): (m: map<string, string>)
    ensures m.Keys == {"vibe", "goals", "extra", "site_title", "site_tagline", "about_content"}
    ensures Field(m, "vibe") == c.vibe && Field(m, "goals") == c.goals && Field(m, "extra") == c.extra
    ensures Field(m, "site_title") == c.siteTitle && Field(m, "site_tagline") == c.siteTagline
    ensures Field(m, "about_content") == c.aboutContent
  {
    map["vibe" := c.vibe, "goals" := c.goals, "extra" := c.extra,
        "site_title" := c.siteTitle, "site_tagline" := c.siteTagline, "about_content" := c.aboutContent]
  }

  datatype CreateArgs = CreateArgs(name: string, avatar: string, context: Context)

  /** What `ClawPress_Assistant::create_assistant` returns: a user id or a `WP_Error`. */
  datatype CreatorOutcome = NewUser(id: int) | WpError(message: string)

  /** The creator, whose code is not part of this model: it may change the store. */
  type Creator = (Store, CreateArgs) -> (CreatorOutcome, Store)

  /** The success payload `{user_id, chat_url}`. */
  datatype Created = Created(userId: int, chatUrl: string)

  /** A handler's reply and the store after it. */
  datatype Handled<T> = Handled(reply: Reply<T>, store: Store)

  /**
   * The arguments built from the request: the name, avatar, vibe, site title
   * and tagline go through the single-line sanitiser, the goals, extra notes
   * and about text through the multi-line one; an absent key reads as ""
   * (the avatar as the robot face).
   */
  function BuildArgs(svc: Services, params: Params): (a: CreateArgs)
    ensures a.name == svc.sanitizeText(Param(params, "name", ""))
    ensures "avatar" !in params ==> a.avatar == svc.sanitizeText(DefaultGlyph)
    ensures "avatar" in params ==> a.avatar == svc.sanitizeText(params["avatar"])
    ensures a.context.vibe == svc.sanitizeText(Param(params, "vibe", ""))
    ensures a.context.goals == svc.sanitizeTextarea(Param(params, "goals", ""))
    ensures a.context.extra == svc.sanitizeTextarea(Param(params, "extra", ""))
    ensures a.context.siteTitle == svc.sanitizeText(Param(params, "site_title", ""))
    ensures a.context.siteTagline == svc.sanitizeText(Param(params, "site_tagline", ""))
    ensures a.context.aboutContent == svc.sanitizeTextarea(Param(params, "about_content", ""))
  {
    CreateArgs(
      svc.sanitizeText(Param(params, "name", "")),
      svc.sanitizeText(Param(params, "avatar", DefaultGlyph)),
      Context(
        svc.sanitizeText(Param(params, "vibe", "")),
        svc.sanitizeTextarea(Param(params, "goals", "")),
        svc.sanitizeTextarea(Param(params, "extra", "")),
        svc.sanitizeText(Param(params, "site_title", "")),
        svc.sanitizeText(Param(params, "site_tagline", "")),
        svc.sanitizeTextarea(Param(params, "about_content", ""))))
  }

  /**
   * The guard chain of `ajax_create_assistant`: the nonce, then the
   * capability, then a non-empty sanitised name. `Err` carries the reply the
   * handler exits with; `Ok` the arguments for the creator.
   */
  function CheckCreateRequest(svc: Services, params: Params): (r: Result<CreateArgs, Reply<Created>>)
    ensures r.Ok? <==> Authorised(svc, params, CreateAction) && !Falsy(Str(BuildArgs(svc, params).name))
    ensures r.Ok? ==> r.value == BuildArgs(svc, params)
    ensures !NonceValid(svc, params, CreateAction) ==> r == Err(Forbidden)
    ensures NonceValid(svc, params, CreateAction) && !svc.userCan(ManageOptions) ==> r == Err(JsonError(NotAllowed))
    ensures Authorised(svc, params, CreateAction) && r.Err? ==> r == Err(JsonError(NameRequired))
  {
    if !NonceValid(svc, params, CreateAction) then Err(Forbidden)
    else if !svc.userCan(ManageOptions) then Err(JsonError(NotAllowed))
    else
      var args := BuildArgs(svc, params);
      if Falsy(Str(args.name)) then Err(JsonError(NameRequired)) else Ok(args)
  }

  /** `ajax_create_assistant`. */
  function HandleCreate(svc: Services, params: Params, store: Store, create: Creator): (h: Handled<Created>)
    ensures CheckCreateRequest(svc, params).Err? ==> h == Handled(CheckCreateRequest(svc, params).error, store)
    ensures h.store != store ==> CheckCreateRequest(svc, params).Ok?
    ensures CheckCreateRequest(svc, params).Ok? ==> h.store == create(store, CheckCreateRequest(svc, params).value).1
    ensures h.reply.JsonSuccess? ==>
      && CheckCreateRequest(svc, params).Ok?
      && create(store, CheckCreateRequest(svc, params).value).0 == NewUser(h.reply.data.userId)
      && h.reply.data.chatUrl == AdminUrl(svc, ChatPagePath)
  {
    match CheckCreateRequest(svc, params)
    case Err(reply) => Handled(reply, store)
    case Ok(args) =>
      var (outcome, store') := create(store, args);
      match outcome
      case WpError(message) => Handled(JsonError(message), store')
      case NewUser(id) => Handled(JsonSuccess(Created(id, AdminUrl(svc, ChatPagePath))), store')
  }

  /** `ajax_mock_action`: the same guards under the chat nonce, then an empty acknowledgement; the store never changes. */
  function HandleMockAction(svc: Services, params: Params, store: Store): (h: Handled<()>)
    ensures h.store == store
    ensures h.reply.JsonSuccess? <==> Authorised(svc, params, ChatAction)
    ensures !NonceValid(svc, params, ChatAction) ==> h.reply.Forbidden?
    ensures NonceValid(svc, params, ChatAction) && !svc.userCan(ManageOptions) ==> h.reply == JsonError(NotAllowed)
  {
    if !NonceValid(svc, params, ChatAction) then Handled(Forbidden, store)
    else if !svc.userCan(ManageOptions) then Handled(JsonError(NotAllowed), store)
    else Handled(JsonSuccess(()), store)
  }

  /**
   * A caller without a valid nonce or without the capability gets an
   * authorisation failure whatever the creator would do: two creators give
   * the same result, and the store is untouched.
   */
  lemma UnauthorisedNeverReachesCreator(svc: Services, params: Params, store: Store, c1: Creator, c2: Creator)
    requires !Authorised(svc, params, CreateAction)
    ensures HandleCreate(svc, params, store, c1) == HandleCreate(svc, params, store, c2)
    ensures HandleCreate(svc, params, store, c1).store == store
    ensures HandleCreate(svc, params, store, c1).reply in {Forbidden, JsonError(NotAllowed)}
  {
  }

  /** The nonce is checked before the capability: a bad nonce is refused with 403 even for an administrator. */
  lemma NonceCheckedFirst(svc: Services, params: Params, store: Store, create: Creator)
    requires !NonceValid(svc, params, CreateAction)
    ensures HandleCreate(svc, params, store, create) == Handled(Forbidden, store)
    ensures HttpStatus(HandleCreate(svc, params, store, create).reply) == 403
  {
  }

  /**
   * An empty sanitised name ("" or "0") never reaches the creator: the reply
   * is an error whatever the caller's privilege, and `Name is required.` once
   * the caller is authorised.
   */
  lemma EmptyNameNeverReachesCreator(svc: Services, params: Params, store: Store, c1: Creator, c2: Creator)
    requires Falsy(Str(svc.sanitizeText(Param(params, "name", ""))))
    ensures HandleCreate(svc, params, store, c1) == HandleCreate(svc, params, store, c2)
    ensures HandleCreate(svc, params, store, c1).store == store
    ensures !HandleCreate(svc, params, store, c1).reply.JsonSuccess?
    ensures Authorised(svc, params, CreateAction) ==> HandleCreate(svc, params, store, c1).reply == JsonError(NameRequired)
  {
  }

  /** The creator's error message is passed on verbatim, with whatever the creator did to the store. */
  lemma CreatorErrorVerbatim(svc: Services, params: Params, store: Store, create: Creator, message: string)
    requires CheckCreateRequest(svc, params).Ok?
    requires create(store, BuildArgs(svc, params)).0 == WpError(message)
    ensures HandleCreate(svc, params, store, create) == Handled(JsonError(message), create(store, BuildArgs(svc, params)).1)
  {
  }

  /** On success the payload holds exactly the new id and the chat page link, which ends in the chat page path. */
  lemma SuccessPayload(svc: Services, params: Params, store: Store, create: Creator, id: int)
    requires CheckCreateRequest(svc, params).Ok?
    requires create(store, BuildArgs(svc, params)).0 == NewUser(id)
    ensures HandleCreate(svc, params, store, create).reply == JsonSuccess(Created(id, svc.adminBase + ChatPagePath))
    ensures HandleCreate(svc, params, store, create).store == create(store, BuildArgs(svc, params)).1
    ensures var url := HandleCreate(svc, params, store, create).reply.data.chatUrl;
      |url| >= |ChatPagePath| && url[|url| - |ChatPagePath|..] == ChatPagePath
  {
    var url := svc.adminBase + ChatPagePath;
    assert url[|url| - |ChatPagePath|..] == ChatPagePath;
  }

  /** A request carrying only a name gets the robot-face avatar and "" for every context field, all sanitised. */
  lemma DefaultsForMissingFields(svc: Services, params: Params)
    requires params.Keys <= {"action", "_nonce", "name"}
    ensures BuildArgs(svc, params).avatar == svc.sanitizeText(DefaultGlyph)
    ensures BuildArgs(svc, params).context ==
      Context(svc.sanitizeText(""), svc.sanitizeTextarea(""), svc.sanitizeTextarea(""),
              svc.sanitizeText(""), svc.sanitizeText(""), svc.sanitizeTextarea(""))
  {
  }
}
