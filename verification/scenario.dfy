/**
 * Properties that span the wizard page, the create endpoint and the profile
 * section: what a request built by the wizard turns into on the server, the
 * one name the two sides judge differently, what a 403 reply leaves the page
 * in, and the end-to-end example of creating an assistant and viewing its
 * profile.
 */
module Scenario {
  import opened Wrappers
  import opened Php
  import opened Host
  import opened Ajax
  import opened Profile
  import opened Wizard

  /** The wizard sends every field, so no server-side default applies: each argument is the sanitised value the page sent. */
  lemma WizardRequestNeedsNoDefaults(
    svc: Services, nonce: string, name: string, avatar: string, vibe: string, goals: string, extra: string,
    siteTitle: string, siteTagline: string, about: string)
    ensures BuildArgs(svc, CreateRequest(nonce, name, avatar, vibe, goals, extra, siteTitle, siteTagline, about)) ==
      CreateArgs(svc.sanitizeText(name), svc.sanitizeText(avatar),
        Context(svc.sanitizeText(vibe), svc.sanitizeTextarea(goals), svc.sanitizeTextarea(extra),
                svc.sanitizeText(siteTitle), svc.sanitizeText(siteTagline), svc.sanitizeTextarea(about)))
  {
  }

  /**
   * The name "0": the page enables Next for it (JavaScript's `!name` is
   * false for a non-empty string), while the server's `empty($name)` is true,
   * so an authorised request with that name is refused with
   * `Name is required.` and never reaches the creator.
   */
  lemma ZeroNamePassesPageFailsServer(
    svc: Services, nonce: string, avatar: string, vibe: string, goals: string, extra: string,
    siteTitle: string, siteTagline: string, about: string, store: Store, create: Creator)
    requires svc.sanitizeText("0") == "0"
    requires Authorised(svc, CreateRequest(nonce, "0", avatar, vibe, goals, extra, siteTitle, siteTagline, about), CreateAction)
    ensures HandleCreate(svc, CreateRequest(nonce, "0", avatar, vibe, goals, extra, siteTitle, siteTagline, about), store, create)
      == Handled(JsonError(NameRequired), store)
  {
    var params := CreateRequest(nonce, "0", avatar, vibe, goals, extra, siteTitle, siteTagline, about);
    assert BuildArgs(svc, params).name == "0" by {
      assert params["name"] == "0";
    }
  }

  /** The page's Next button is enabled for the name "0": it trims to itself and is not empty. */
  lemma ZeroNameEnablesNext()
    ensures JsTrim("0") == "0" != ""
  {
    JsTrimTrimmed("0");
  }

  /** The owl face, U+1F989. */
  const Owl := "\U{1F989}"

  /** The context the wizard sends for the example below. */
  const SageContext := Context("playful", "writing posts", "", "My Blog", "Thoughts on things", "")

  /**
   * Creating "Sage" with the owl avatar, vibe "playful", goals "writing
   * posts", site "My Blog" and tagline "Thoughts on things", by an
   * authorised caller whose sanitisers leave these plain values alone: the
   * creator receives exactly these values, and the reply holds the new id and
   * the chat link.
   */
  lemma SageCreated(svc: Services, nonce: string, store: Store, create: Creator, id: int)
    requires svc.sanitizeText("Sage") == "Sage" && svc.sanitizeText(Owl) == Owl
    requires svc.sanitizeText("playful") == "playful"
    requires svc.sanitizeText("My Blog") == "My Blog" && svc.sanitizeText("Thoughts on things") == "Thoughts on things"
    requires svc.sanitizeTextarea("writing posts") == "writing posts" && svc.sanitizeTextarea("") == ""
    requires Authorised(svc, CreateRequest(nonce, "Sage", Owl, "playful", "writing posts", "", "My Blog", "Thoughts on things", ""), CreateAction)
    requires create(store, CreateArgs("Sage", Owl, SageContext)).0 == NewUser(id)
    ensures HandleCreate(svc, CreateRequest(nonce, "Sage", Owl, "playful", "writing posts", "", "My Blog", "Thoughts on things", ""), store, create).reply
      == JsonSuccess(Created(id, svc.adminBase + ChatPagePath))
  {
    var params := CreateRequest(nonce, "Sage", Owl, "playful", "writing posts", "", "My Blog", "Thoughts on things", "");
    WizardRequestNeedsNoDefaults(svc, nonce, "Sage", Owl, "playful", "writing posts", "", "My Blog", "Thoughts on things", "");
    assert BuildArgs(svc, params) == CreateArgs("Sage", Owl, SageContext);
  }

  /**
   * Once the creator has stored the owl and the example context on the new
   * user, its profile shows the owl and the three rows
   * "Vibe: Playful", "Knows about: My Blog — Thoughts on things" and
   * "Helping with: writing posts".
   */
  lemma SageProfile(user: User)
    requires IsAssistant(user) && user.avatarMeta == Owl && user.contextMeta == ContextMeta(SageContext)
    ensures ProfileSection(user) == Some(Section(Owl, [
      Row(VibeLabel, "Playful"),
      Row(KnowsAboutLabel, "My Blog" + TaglineSeparator + "Thoughts on things"),
      Row(HelpingWithLabel, "writing posts")]))
  {
    assert Ucfirst("playful") == "Playful";
    AllFieldsFilled(user);
  }

  /**
   * A 403 reply to the create request is final: a later reply and a second
   * click on the create button change nothing, and the page stays on step 3
   * with the button disabled.
   */
  method ForbiddenIsFinal(w: SetupWizard, c: Created)
    requires w.Valid() && w.step == ContextStep && !w.createDisabled
    modifies w
    ensures w.Valid() && w.step == ContextStep && w.createDisabled && !w.awaiting
  {
    var request := w.ClickCreate();
    assert request.Some?;
    w.Receive(Forbidden);
    w.Receive(JsonSuccess(c));
    var again := w.ClickCreate();
    assert again.None?;
  }
}
