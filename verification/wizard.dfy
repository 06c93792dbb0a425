/**
 * The setup wizard's page script: four steps shown one at a time (name,
 * avatar, context, done), the script's `name` and `avatar` variables, the
 * state of the page's controls, the one request to the create endpoint and
 * the agent configuration built when it succeeds.
 *
 * An event whose control is hidden (its step is not shown) or disabled never
 * reaches its handler; the methods below treat it as changing nothing.
 */
module Wizard {
  import opened Wrappers
  import opened Php
  import opened Host
  import Ajax

  /** The sixteen avatar buttons in page order; the first (the robot face) is marked when the page loads. */
  const Palette: seq<string> := [
    "\U{1F916}", "\U{1F9E0}", "\U{2728}", "\U{1F98A}", "\U{1F419}", "\U{1F3AF}", "\U{1F31F}", "\U{1F52E}",
    "\U{1F989}", "\U{1F41D}", "\U{1F3A8}", "\U{1F680}", "\U{1F4A1}", "\U{1F33F}", "\U{1F431}", "\U{1F984}"]

  /** The options of the vibe select, in order; the first is selected initially. */
  const VibeOptions: seq<string> := ["casual", "professional", "playful", "minimal"]

  const AboutLimit := 500
  const ErrorFallback := "Something went wrong."
  const HandshakePath := "/wp-json/clawpress/v1/handshake"
  const ManifestPath := "/wp-json/clawpress/v1/manifest"

  datatype Step = NameStep | AvatarStep | ContextStep | DoneStep

  /** The white space and line terminators JavaScript's `String.prototype.trim` removes. */
  predicate IsJsSpace(c: char) {
    || c == '\t' || c == '\n' || c == '\U{B}' || c == '\U{C}' || c == '\r' || c == ' '
    || c == '\U{A0}' || c == '\U{1680}' || ('\U{2000}' <= c <= '\U{200A}')
    || c == '\U{2028}' || c == '\U{2029}' || c == '\U{202F}' || c == '\U{205F}'
    || c == '\U{3000}' || c == '\U{FEFF}'
  }

  /** `s` without its leading white space. */
  function TrimStart(s: string): (r: string)
    ensures |r| <= |s| && r == s[|s| - |r|..]
    ensures r != [] ==> !IsJsSpace(r[0])
    ensures forall i :: 0 <= i < |s| - |r| ==> IsJsSpace(s[i])
  {
    if s != [] && IsJsSpace(s[0]) then
      var r := TrimStart(s[1..]);
      assert forall i :: 1 <= i < |s| - |r| ==> s[i] == s[1..][i - 1];
      r
    else s
  }

  /** `s` without its trailing white space. */
  function TrimEnd(s: string): (r: string)
    ensures |r| <= |s| && r == s[..|r|]
    ensures r != [] ==> !IsJsSpace(r[|r| - 1])
    ensures forall i :: |r| <= i < |s| ==> IsJsSpace(s[i])
  {
    if s != [] && IsJsSpace(s[|s| - 1]) then
      var r := TrimEnd(s[..|s| - 1]);
      assert forall i :: |r| <= i < |s| - 1 ==> s[i] == s[..|s| - 1][i];
      r
    else s
  }

  /** `s.trim()`: neither starts nor ends with white space. */
  function JsTrim(s: string): (r: string)
    ensures Trimmed(r)
  {
    var t := TrimStart(s);
    var r := TrimEnd(t);
    assert r != [] ==> r[0] == t[..|r|][0] == t[0];
    r
  }

  /**
   * The trimmed text is the slice of `s` after its leading white space, with
   * nothing but white space after it in `s`.
   */
  lemma JsTrimSlice(s: string)
    ensures TrimSlice(s, JsTrim(s), |s| - |TrimStart(s)|)
  {
    var t := TrimStart(s);
    SliceOfSuffix(s, t, TrimEnd(t), |s| - |t|);
  }

  /** A prefix `r` of the suffix `t` of `s` starting at `i`, white space outside it, is a trimmed slice. */
  lemma SliceOfSuffix(s: string, t: string, r: string, i: nat)
    requires i <= |s| && t == s[i..] && |r| <= |t| && r == t[..|r|]
    requires forall k :: 0 <= k < i ==> IsJsSpace(s[k])
    requires forall k :: |r| <= k < |t| ==> IsJsSpace(t[k])
    ensures TrimSlice(s, r, i)
  {
    assert s[i..][..|r|] == s[i..i + |r|];
    forall k | i + |r| <= k < |s|
      ensures IsJsSpace(s[k])
    {
      assert s[k] == t[k - i];
    }
  }

  /** `r` is the slice of `s` starting at `i`, and everything in `s` outside it is white space. */
  predicate TrimSlice(s: string, r: string, i: int) {
    && 0 <= i <= |s| - |r| && r == s[i..i + |r|]
    && (forall k :: 0 <= k < i ==> IsJsSpace(s[k]))
    && (forall k :: i + |r| <= k < |s| ==> IsJsSpace(s[k]))
  }

  /** The trimmed text is empty exactly when the text is all white space. */
  lemma JsTrimEmpty(s: string)
    ensures JsTrim(s) == [] <==> forall i :: 0 <= i < |s| ==> IsJsSpace(s[i])
  {
    var t := TrimStart(s);
    assert forall i :: |s| - |t| <= i < |s| ==> s[i] == t[i - (|s| - |t|)];
  }

  /** Neither starts nor ends with white space. */
  predicate Trimmed(s: string) {
    s == [] || (!IsJsSpace(s[0]) && !IsJsSpace(s[|s| - 1]))
  }

  /** A trimmed string is its own trim. */
  lemma JsTrimTrimmed(s: string)
    requires Trimmed(s)
    ensures JsTrim(s) == s
  {
  }

  /** The marks on the avatar buttons when button `k` alone is marked. */
  function Marked(k: nat): (m: seq<bool>)
    requires k < |Palette|
    ensures |m| == |Palette| && forall j :: 0 <= j < |m| ==> m[j] == (j == k)
  {
    seq(|Palette|, j => j == k)
  }

  /** The agent configuration shown on the last step. */
  datatype AgentConfig = AgentConfig(site: string, assistant: string, role: string, handshake: string, manifest: string)

  /** The configuration for the site at `site` and the assistant called `name`: its two endpoints lie under the site. */
  function BuildAgentConfig(site: string, name: string): (c: AgentConfig)
    ensures c.site == site && c.assistant == name && c.role == AssistantRole
  {
    AgentConfig(site, name, AssistantRole, site + HandshakePath, site + ManifestPath)
  }

  /** Both endpoints of the configuration are the site URL followed by their fixed REST paths. */
  lemma AgentConfigEndpoints(site: string, name: string)
    ensures var c := BuildAgentConfig(site, name);
      && site <= c.handshake && c.handshake[|site|..] == HandshakePath
      && site <= c.manifest && c.manifest[|site|..] == ManifestPath
  {
  }

  /** The body of the create request. */
  function CreateRequest(
    nonce: string, name: string, avatar: string, vibe: string, goals: string, extra: string,
    siteTitle: string, siteTagline: string, aboutContent: string): (p: Ajax.Params)
    ensures p.Keys == {"action", "_nonce", "name", "avatar", "vibe", "goals", "extra",
                       "site_title", "site_tagline", "about_content"}
    ensures p["action"] == Ajax.CreateAction && p["_nonce"] == nonce
    ensures Ajax.NonceToken(p) == nonce
  {
    map["action" := Ajax.CreateAction, "_nonce" := nonce, "name" := name, "avatar" := avatar,
        "vibe" := vibe, "goals" := goals, "extra" := extra, "site_title" := siteTitle,
        "site_tagline" := siteTagline, "about_content" := aboutContent]
  }

  /** A snapshot of the wizard's state, so that each event can say what it changes and that nothing else moves. */
  datatype PageState = PageState(
    step: Step, name: string, avatar: string, nextDisabled: bool, nameShown: string, marks: seq<bool>,
    vibe: string, goals: string, extra: string, createDisabled: bool, awaiting: bool,
    alertShown: Option<string>, doneAvatar: string, chatHref: string, config: Option<AgentConfig>,
    agentSetupOpen: bool)

  /** The invariant of the page, on a snapshot: `selected` is the marked button, `site` the home URL. */
  ghost predicate Consistent(st: PageState, selected: nat, site: string)
    requires selected < |Palette|
  {
    && st.avatar == Palette[selected]
    && st.marks == Marked(selected)
    && Trimmed(st.name)
    && st.nextDisabled == (st.name == "")
    && (st.step != NameStep ==> st.name != "" && st.nameShown == st.name)
    && st.vibe in VibeOptions
    && (st.awaiting ==> st.step == ContextStep)
    && (st.awaiting || st.step == DoneStep ==> st.createDisabled)
    && (st.createDisabled ==> st.step == ContextStep || st.step == DoneStep)
    && (st.step == DoneStep <==> st.config.Some?)
    && (st.config.Some? ==> st.config.value == BuildAgentConfig(site, st.name) && st.doneAvatar == st.avatar)
  }

  /**
   * Step 3 with its button disabled and no request in flight: what a 403
   * reply leaves behind. No event leads out of it.
   */
  ghost predicate Stalled(st: PageState) {
    st.step == ContextStep && st.createDisabled && !st.awaiting
  }

  /** Moving from a request in flight to step 4 keeps the invariant. */
  lemma DoneConsistent(st: PageState, selected: nat, site: string, chatUrl: string)
    requires selected < |Palette| && Consistent(st, selected, site) && st.awaiting
    ensures Consistent(st.(step := DoneStep, doneAvatar := st.avatar, chatHref := chatUrl,
                           config := Some(BuildAgentConfig(site, st.name)), awaiting := false), selected, site)
  {
  }

  class SetupWizard {
    // Values the server writes into the page.
    const siteTitle: string
    const siteTagline: string
    const aboutContent: string
    const homeUrl: string
    const createNonce: string

    // The script's variables.
    var name: string
    var avatar: string

    // The page: which step is shown, the step 1 button, the name headings,
    // the marks on the avatar buttons, the step 3 fields and button, the
    // request in flight, the last alert, and what step 4 shows.
    var step: Step
    var nextDisabled: bool
    var nameShown: string
    const marks: array<bool>
    ghost var selected: nat
    var vibe: string
    var goals: string
    var extra: string
    var createDisabled: bool
    var awaiting: bool
    var alertShown: Option<string>
    var doneAvatar: string
    var chatHref: string
    var config: Option<AgentConfig>
    var agentSetupOpen: bool

    ghost function State(): PageState
      reads this, marks
    {
      PageState(step, name, avatar, nextDisabled, nameShown, marks[..], vibe, goals, extra, createDisabled,
           awaiting, alertShown, doneAvatar, chatHref, config, agentSetupOpen)
    }

    /**
     * Exactly one avatar button is marked and it is the current avatar; the
     * name is trimmed and the step 1 button is disabled exactly when it is
     * empty; past step 1 the name is non-empty; a request is in flight only
     * on step 3 with its button disabled; step 4 is shown exactly when a
     * configuration was built, for the current name and the site.
     */
    ghost predicate Valid()
      reads this, marks
    {
      && marks.Length == |Palette|
      && selected < |Palette|
      && Consistent(State(), selected, homeUrl)
      && |aboutContent| <= AboutLimit
    }

    /**
     * The page as the server renders it. `aboutPage` is the plain text of the
     * page with slug `about`, if there is one; it is cut to 500 characters.
     */
    constructor (siteTitle: string, siteTagline: string, aboutPage: Option<string>, homeUrl: string, createNonce: string)
      ensures Valid() && fresh(marks)
      ensures this.siteTitle == siteTitle && this.siteTagline == siteTagline && this.homeUrl == homeUrl
      ensures this.createNonce == createNonce
      ensures aboutContent == MbPrefix(if aboutPage.Some? then aboutPage.value else "", AboutLimit)
      ensures State() == PageState(NameStep, "", DefaultGlyph, true, "", Marked(0),
                             "casual", "", "", false, false, None, "", "", None, false)
    {
      this.siteTitle := siteTitle;
      this.siteTagline := siteTagline;
      this.aboutContent := MbPrefix(if aboutPage.Some? then aboutPage.value else "", AboutLimit);
      this.homeUrl := homeUrl;
      this.createNonce := createNonce;
      name, avatar := "", DefaultGlyph;
      step, nextDisabled, nameShown := NameStep, true, "";
      marks := new bool[|Palette|](j => j == 0);
      selected := 0;
      vibe, goals, extra := "casual", "", "";
      createDisabled, awaiting, alertShown := false, false, None;
      doneAvatar, chatHref, config, agentSetupOpen := "", "", None, false;
      new;
      assert marks[..] == Marked(0);
    }

    /** Typing in the name field: the name is the trimmed text; Next is enabled exactly when it is non-empty. */
    method InputName(text: string)
      requires Valid()
      modifies this
      ensures Valid()
      ensures old(step) == NameStep ==>
        State() == old(State()).(name := JsTrim(text), nextDisabled := JsTrim(text) == "")
      ensures old(step) != NameStep ==> State() == old(State())
      ensures Stalled(old(State())) ==> Stalled(State())
    {
      if step == NameStep {
        var trimmed := JsTrim(text);
        ghost var before := State();
        name, nextDisabled := trimmed, trimmed == "";
        assert State() == before.(name := trimmed, nextDisabled := trimmed == "");
      }
    }

    /** Next on step 1 (only while enabled): show the name in the headings and move to step 2. */
    method ClickNextFromName()
      requires Valid()
      modifies this
      ensures Valid()
      ensures old(step) == NameStep && !old(nextDisabled) ==>
        State() == old(State()).(step := AvatarStep, nameShown := old(name))
      ensures !(old(step) == NameStep && !old(nextDisabled)) ==> State() == old(State())
      ensures Stalled(old(State())) ==> Stalled(State())
    {
      if step == NameStep && !nextDisabled {
        ghost var before := State();
        nameShown, step := name, AvatarStep;
        assert State() == before.(step := AvatarStep, nameShown := name);
      }
    }

    /** A click on avatar button `i` on step 2: unmark every button, mark button `i`, take its glyph. */
    method PickAvatar(i: nat)
      requires Valid()
      requires i < |Palette|
      modifies this, marks
      ensures Valid()
      ensures old(step) == AvatarStep ==>
        State() == old(State()).(avatar := Palette[i], marks := Marked(i))
      ensures old(step) != AvatarStep ==> State() == old(State()) && marks[..] == old(marks[..])
      ensures Stalled(old(State())) ==> Stalled(State())
    {
      if step == AvatarStep {
        for j := 0 to marks.Length
          modifies marks
          invariant forall k :: 0 <= k < j ==> !marks[k]
          invariant forall k :: j <= k < marks.Length ==> marks[k] == old(marks[k])
        {
          marks[j] := false;
        }
        marks[i] := true;
        avatar := Palette[i];
        selected := i;
        assert marks[..] == Marked(i);
      }
    }

    /** Next on step 2: move to step 3. */
    method ClickNextFromAvatar()
      requires Valid()
      modifies this
      ensures Valid()
      ensures old(step) == AvatarStep ==> State() == old(State()).(step := ContextStep)
      ensures old(step) != AvatarStep ==> State() == old(State())
      ensures Stalled(old(State())) ==> Stalled(State())
    {
      if step == AvatarStep {
        ghost var before := State();
        step := ContextStep;
        assert State() == before.(step := ContextStep);
      }
    }

    /** Choosing option `i` of the vibe select on step 3. */
    method SelectVibe(i: nat)
      requires Valid()
      requires i < |VibeOptions|
      modifies this
      ensures Valid()
      ensures old(step) == ContextStep ==> State() == old(State()).(vibe := VibeOptions[i])
      ensures old(step) != ContextStep ==> State() == old(State())
      ensures Stalled(old(State())) ==> Stalled(State())
    {
      if step == ContextStep {
        ghost var before := State();
        vibe := VibeOptions[i];
        assert State() == before.(vibe := VibeOptions[i]);
      }
    }

    /** Typing in the goals or the extra field on step 3. */
    method EditText(goalsText: string, extraText: string)
      requires Valid()
      modifies this
      ensures Valid()
      ensures old(step) == ContextStep ==> State() == old(State()).(goals := goalsText, extra := extraText)
      ensures old(step) != ContextStep ==> State() == old(State())
      ensures Stalled(old(State())) ==> Stalled(State())
    {
      if step == ContextStep {
        ghost var before := State();
        goals, extra := goalsText, extraText;
        assert State() == before.(goals := goalsText, extra := extraText);
      }
    }

    /**
     * The create button on step 3 (only while enabled): disable it and send
     * the request with the script's name and avatar, the fields and the site
     * values; `None` when the click cannot happen.
     */
    method ClickCreate() returns (request: Option<Ajax.Params>)
      requires Valid()
      modifies this
      ensures Valid()
      ensures request.Some? <==> old(step) == ContextStep && !old(createDisabled)
      ensures request.Some? ==>
        && request.value == CreateRequest(createNonce, name, avatar, vibe, goals, extra, siteTitle, siteTagline, aboutContent)
        && name != ""
        && State() == old(State()).(createDisabled := true, awaiting := true)
      ensures request.None? ==> State() == old(State())
      ensures Stalled(old(State())) ==> Stalled(State())
    {
      if step == ContextStep && !createDisabled {
        ghost var before := State();
        createDisabled, awaiting := true, true;
        assert State() == before.(createDisabled := true, awaiting := true);
        request := Some(CreateRequest(createNonce, name, avatar, vibe, goals, extra, siteTitle, siteTagline, aboutContent));
      } else {
        request := None;
      }
    }

    /**
     * The server's reply to the create request. jQuery calls the success
     * callback only for an HTTP 2xx reply, so after a 403 (failed nonce) the
     * request is over and the button stays disabled: the page is stalled on
     * step 3. An error reply raises an alert with its message (or the
     * fallback for an empty one) and re-enables the button on step 3; a
     * success moves to step 4 with the chosen avatar, the chat link and the
     * agent configuration. A reply with no request in flight changes nothing.
     */
    method Receive(reply: Ajax.Reply<Ajax.Created>)
      requires Valid()
      modifies this
      ensures Valid()
      ensures !old(awaiting) ==> State() == old(State())
      ensures old(awaiting) && reply.Forbidden? ==> State() == old(State()).(awaiting := false) && Stalled(State())
      ensures old(awaiting) && reply.JsonError? ==>
        State() == old(State()).(
          alertShown := Some(if reply.message == "" then ErrorFallback else reply.message),
          createDisabled := false, awaiting := false)
      ensures old(awaiting) && reply.JsonSuccess? ==>
        State() == old(State()).(
          step := DoneStep, doneAvatar := old(avatar), chatHref := reply.data.chatUrl,
          config := Some(BuildAgentConfig(homeUrl, old(name))), awaiting := false)
      ensures Stalled(old(State())) ==> Stalled(State())
    {
      if awaiting {
        match reply
        case Forbidden => EndForbidden();
        case JsonError(message) => ShowError(message);
        case JsonSuccess(created) => ShowDone(created);
      }
    }

    /** A 403 reply: no callback runs, and the request is no longer in flight. */
    method EndForbidden()
      requires Valid() && awaiting
      modifies this
      ensures Valid()
      ensures State() == old(State()).(awaiting := false)
    {
      ghost var before := State();
      awaiting := false;
      assert State() == before.(awaiting := false);
    }

    /** The error callback: alert the message (or the fallback for an empty one) and re-enable the button. */
    method ShowError(message: string)
      requires Valid() && awaiting
      modifies this
      ensures Valid()
      ensures State() == old(State()).(
        alertShown := Some(if message == "" then ErrorFallback else message),
        createDisabled := false, awaiting := false)
    {
      ghost var before := State();
      var shown := if message == "" then ErrorFallback else message;
      alertShown := Some(shown);
      createDisabled, awaiting := false, false;
      assert State() == before.(alertShown := Some(shown), createDisabled := false, awaiting := false);
    }

    /** The success callback: step 4 with the chosen avatar, the chat link and the agent configuration. */
    method ShowDone(created: Ajax.Created)
      requires Valid() && awaiting
      modifies this
      ensures Valid()
      ensures State() == old(State()).(
        step := DoneStep, doneAvatar := old(avatar), chatHref := created.chatUrl,
        config := Some(BuildAgentConfig(homeUrl, old(name))), awaiting := false)
    {
      ghost var before := State();
      DoneConsistent(before, selected, homeUrl, created.chatUrl);
      var built := BuildAgentConfig(homeUrl, name);
      step, doneAvatar, chatHref, config, awaiting := DoneStep, avatar, created.chatUrl, Some(built), false;
      assert State() == before.(step := DoneStep, doneAvatar := avatar, chatHref := created.chatUrl,
                                config := Some(built), awaiting := false);
    }

    /** The "Connect your own agent" button on step 4 shows or hides the configuration. */
    method ToggleAgentSetup()
      requires Valid()
      modifies this
      ensures Valid()
      ensures old(step) == DoneStep ==> State() == old(State()).(agentSetupOpen := !old(agentSetupOpen))
      ensures old(step) != DoneStep ==> State() == old(State())
      ensures Stalled(old(State())) ==> Stalled(State())
    {
      if step == DoneStep {
        ghost var before := State();
        agentSetupOpen := !agentSetupOpen;
        assert State() == before.(agentSetupOpen := !before.agentSetupOpen);
      }
    }
  }

  /** Trimming twice is trimming once. */
  lemma JsTrimIdempotent(s: string)
    ensures JsTrim(JsTrim(s)) == JsTrim(s)
  {
    JsTrimTrimmed(JsTrim(s));
  }
}
