/**
 * What the controller shows about an assistant outside the wizard: the
 * summary rows on a user's profile page and the "Create Your Assistant"
 * notice on the Users screen. Markup and escaping are not modelled; the
 * functions return the rows and the notice as values.
 */
module Profile {
  import opened Wrappers
  import opened Php
  import opened Host

  const VibeLabel := "Vibe"
  const KnowsAboutLabel := "Knows about"
  const HelpingWithLabel := "Helping with"

  /** The separator between site title and tagline, U+2014 (em dash) with spaces around it. */
  const TaglineSeparator := " \U{2014} "

  const SetupPagePath := "admin.php?page=clawpress-assistant-setup"

  /** One row of the profile table. */
  datatype Row = Row(caption: string, value: string)

  /** The profile section: the heading's glyph and the table rows. */
  datatype Section = Section(glyph: string, rows: seq<Row>)

  /** `! empty( $meta[$key] )`. */
  predicate Filled(ctx: map<string, string>, key: string) {
    !Falsy(Str(Field(ctx, key)))
  }

  /** The value of the row captioned `caption`, if there is one. */
  function RowValue(rows: seq<Row>, caption: string): (v: Option<string>)
    ensures v.Some? ==> Row(caption, v.value) in rows
    ensures v.None? ==> forall r :: r in rows ==> r.caption != caption
  {
    if rows == [] then None
    else if rows[0].caption == caption then Some(rows[0].value)
    else RowValue(rows[1..], caption)
  }

  /** The site title, followed by the separator and the tagline when the tagline is filled. */
  function KnowsAbout(ctx: map<string, string>): string {
    Field(ctx, "site_title") + (if Filled(ctx, "site_tagline") then TaglineSeparator + Field(ctx, "site_tagline") else "")
  }

  /**
   * The table rows, in the order Vibe, Knows about, Helping with; each is
   * present exactly when its context field is filled, and there is no other.
   */
  function SummaryRows(ctx: map<string, string>): (rows: seq<Row>)
    ensures |rows| == (if Filled(ctx, "vibe") then 1 else 0) + (if Filled(ctx, "site_title") then 1 else 0)
      + (if Filled(ctx, "goals") then 1 else 0)
    ensures forall r :: r in rows ==> r.caption == VibeLabel || r.caption == KnowsAboutLabel || r.caption == HelpingWithLabel
    ensures RowValue(rows, VibeLabel) == if Filled(ctx, "vibe") then Some(Ucfirst(Field(ctx, "vibe"))) else None
    ensures RowValue(rows, KnowsAboutLabel) == if Filled(ctx, "site_title") then Some(KnowsAbout(ctx)) else None
    ensures RowValue(rows, HelpingWithLabel) == if Filled(ctx, "goals") then Some(Field(ctx, "goals")) else None
  {
    var vibe := if Filled(ctx, "vibe") then [Row(VibeLabel, Ucfirst(Field(ctx, "vibe")))] else [];
    var knows := if Filled(ctx, "site_title") then [Row(KnowsAboutLabel, KnowsAbout(ctx))] else [];
    var goals := if Filled(ctx, "goals") then [Row(HelpingWithLabel, Field(ctx, "goals"))] else [];
    RowValueAppend(vibe, knows, VibeLabel);
    RowValueAppend(vibe, knows, KnowsAboutLabel);
    RowValueAppend(vibe, knows, HelpingWithLabel);
    RowValueAppend(vibe + knows, goals, VibeLabel);
    RowValueAppend(vibe + knows, goals, KnowsAboutLabel);
    RowValueAppend(vibe + knows, goals, HelpingWithLabel);
    vibe + knows + goals
  }

  /** Looking a caption up in two tables put together finds the first table's row first. */
  lemma {:induction false} RowValueAppend(a: seq<Row>, b: seq<Row>, caption: string)
    ensures RowValue(a + b, caption) == if RowValue(a, caption).Some? then RowValue(a, caption) else RowValue(b, caption)
  {
    if a != [] {
      assert (a + b)[1..] == a[1..] + b;
      RowValueAppend(a[1..], b, caption);
    } else {
      assert a + b == b;
    }
  }

  /** The rows are a sub-list of Vibe, Knows about, Helping with, in that order. */
  lemma SummaryRowsOrdered(ctx: map<string, string>)
    ensures var rows := SummaryRows(ctx);
      forall i, j :: 0 <= i < j < |rows| ==> CaptionRank(rows[i].caption) < CaptionRank(rows[j].caption)
  {
  }

  /** Position of a caption in the table. */
  function CaptionRank(caption: string): nat {
    if caption == VibeLabel then 0 else if caption == KnowsAboutLabel then 1 else 2
  }

  /** `render_profile_section($user)`: nothing for a user without the role; otherwise the glyph and the rows. */
  function ProfileSection(user: User): (s: Option<Section>)
    ensures s.None? <==> !IsAssistant(user)
    ensures s.Some? ==> s.value.glyph == Glyph(user) && s.value.rows == SummaryRows(user.contextMeta)
  {
    if IsAssistant(user) then Some(Section(Glyph(user), SummaryRows(user.contextMeta))) else None
  }

  /** An assistant whose four displayed fields are all filled gets all three rows, in order. */
  lemma AllFieldsFilled(user: User)
    requires IsAssistant(user)
    requires var ctx := user.contextMeta;
      Filled(ctx, "vibe") && Filled(ctx, "site_title") && Filled(ctx, "site_tagline") && Filled(ctx, "goals")
    ensures var ctx := user.contextMeta; ProfileSection(user) == Some(Section(Glyph(user), [
      Row(VibeLabel, Ucfirst(Field(ctx, "vibe"))),
      Row(KnowsAboutLabel, Field(ctx, "site_title") + TaglineSeparator + Field(ctx, "site_tagline")),
      Row(HelpingWithLabel, Field(ctx, "goals"))]))
  {
    var ctx := user.contextMeta;
    var vibe, knows, goals :=
      Row(VibeLabel, Ucfirst(Field(ctx, "vibe"))), Row(KnowsAboutLabel, KnowsAbout(ctx)), Row(HelpingWithLabel, Field(ctx, "goals"));
    assert KnowsAbout(ctx) == Field(ctx, "site_title") + TaglineSeparator + Field(ctx, "site_tagline");
    assert SummaryRows(ctx) == [vibe] + [knows] + [goals];
    assert [vibe] + [knows] + [goals] == [vibe, knows, goals];
  }

  /** An assistant with no stored context gets a heading and an empty table. */
  lemma EmptyContextNoRows(user: User)
    requires IsAssistant(user) && user.contextMeta == map[]
    ensures ProfileSection(user) == Some(Section(Glyph(user), []))
  {
  }

  /** The notice's call to action: a link to the setup page. */
  datatype Notice = Notice(ctaUrl: string)

  /**
   * `users_page_notice`: shown exactly on the screen with id `users` while
   * `get_assistant()` finds no assistant.
   */
  function UsersPageNotice(screenId: Option<string>, assistant: Option<User>, svc: Services): (n: Option<Notice>)
    ensures n.Some? <==> screenId == Some("users") && assistant.None?
    ensures n.Some? ==> n.value.ctaUrl == AdminUrl(svc, SetupPagePath)
  {
    if screenId != Some("users") then None
    else if assistant.Some? then None
    else Some(Notice(AdminUrl(svc, SetupPagePath)))
  }
}
