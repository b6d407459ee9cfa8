/** The wiki page view (frontend/src/page/WikiPage.tsx): which panel is
    shown, the rendered body, loading a page by slug and saving an edit. */
module Wiki {
  import opened Common

  /** A wiki page object as the page holds it. The save handler writes to
      the held object itself, so this is a class, not a value. */
  class Page {
    var slug: string
    var body_md: string
    var revision: int
    var title: string
    var created_on: int
    var updated_on: int

    constructor (slug: string, body_md: string, revision: int, title: string, created_on: int, updated_on: int)
      ensures Record() == PageRecord(slug, body_md, revision, title, created_on, updated_on)
    {
      this.slug, this.body_md, this.revision := slug, body_md, revision;
      this.title, this.created_on, this.updated_on := title, created_on, updated_on;
    }

    /** The page's fields as they stand. */
    function Record(): PageRecord
      reads this
    {
      PageRecord(slug, body_md, revision, title, created_on, updated_on)
    }
  }

  /** The fields of a page at one moment: what a request carries. */
  datatype PageRecord = PageRecord(
    slug: string, body_md: string, revision: int, title: string,
    created_on: int, updated_on: int)

  /** `slug || 'home'`: the route slug, or `home` when it is absent or
      empty. The result is never empty. */
  function EffectiveSlug(slug: Option<string>): (s: string)
    ensures s != ""
    ensures slug.Some? && slug.value != "" ==> s == slug.value
    ensures slug.None? || slug.value == "" ==> s == "home"
  {
    if slug.Some? && slug.value != "" then slug.value else "home"
  }

  /** The body the view displays: nothing, or the rendering of some
      markdown (the renderer itself is not modelled). */
  datatype Html = Blank | RenderedMarkdown(md: string)

  /** `bodyHTML`: a page is rendered only when it has a revision and a
      non-empty body; revision 0 means the page does not exist. */
  function BodyHtml(revision: int, body_md: string): (h: Html)
    ensures h.RenderedMarkdown? <==> revision > 0 && body_md != ""
    ensures h.RenderedMarkdown? ==> h.md == body_md
  {
    if revision > 0 && body_md != "" then RenderedMarkdown(body_md) else Blank
  }

  /** One block of the page: the spinner, the page with its title and body,
      the not-found notice for a slug, or the editor. `canEdit` and
      `canCreate` tell whether the Edit Page and Create It buttons show. */
  datatype Panel =
    | LoadingPanel
    | ViewPanel(title: string, body: Html, canEdit: bool)
    | NotFoundPanel(slug: string, canCreate: bool)
    | EditorPanel(initialBody: string)

  /** The blocks the page renders, in order, for the given state. */
  function Render(loading: bool, editMode: bool, page: PageRecord, slug: Option<string>,
                  level: PermissionLevel): (r: seq<Panel>)
    ensures |r| <= 1
    ensures page.revision >= 0 ==> |r| == 1
    ensures r == [] <==> !loading && !editMode && page.revision < 0
    ensures |r| == 1 ==> (r[0].LoadingPanel? <==> loading)
    ensures |r| == 1 ==> (r[0].ViewPanel? <==> !loading && !editMode && page.revision > 0)
    ensures |r| == 1 ==> (r[0].NotFoundPanel? <==> !loading && !editMode && page.revision == 0)
    ensures |r| == 1 ==> (r[0].EditorPanel? <==> !loading && editMode)
    ensures |r| == 1 && r[0].ViewPanel? ==>
              r[0].body == BodyHtml(page.revision, page.body_md) && (r[0].canEdit <==> AtLeastModerator(level))
    ensures |r| == 1 && r[0].NotFoundPanel? ==>
              r[0].slug == EffectiveSlug(slug) && (r[0].canCreate <==> AtLeastModerator(level))
    ensures |r| == 1 && r[0].EditorPanel? ==> r[0].initialBody == page.body_md
  {
    (if loading then [LoadingPanel] else [])
    + (if !loading && !editMode && page.revision > 0
       then [ViewPanel(page.title, BodyHtml(page.revision, page.body_md), AtLeastModerator(level))]
       else [])
    + (if !loading && !editMode && page.revision == 0
       then [NotFoundPanel(EffectiveSlug(slug), AtLeastModerator(level))]
       else [])
    + (if !loading && editMode then [EditorPanel(page.body_md)] else [])
  }

  /** The flash appended by a successful save of the page with this slug. */
  function SavedFlash(slug: string): Flash {
    Flash("Saved wiki page", Success, "Slug " + slug + " updated", true)
  }

  class WikiPageView {
    var page: Page
    var loading: bool
    var editMode: bool
    /** The shared flash list. */
    var flashes: seq<Flash>
    /** The `slug` route parameter. */
    var slug: Option<string>

    /** Mounting with the shared default page object. */
    constructor (defaultPage: Page, slug: Option<string>, flashes: seq<Flash>)
      ensures page == defaultPage && loading && !editMode
      ensures this.flashes == flashes && this.slug == slug
    {
      page, loading, editMode := defaultPage, true, false;
      this.flashes, this.slug := flashes, slug;
    }

    /** The load effect as written: it raises and clears the loading flag
        in the same turn, before the page request has settled, and returns
        the slug it requests. */
    method LoadPageAsWritten() returns (requested: string)
      modifies this`loading
      ensures requested == EffectiveSlug(slug)
      ensures !loading
    {
      loading := true;
      requested := EffectiveSlug(slug);
      loading := false;
    }

    /** The load effect with the flag cleared when the request settles:
        this half raises it and returns the slug it requests. */
    method LoadPage() returns (requested: string)
      modifies this`loading
      ensures requested == EffectiveSlug(slug)
      ensures loading
    {
      loading := true;
      requested := EffectiveSlug(slug);
    }

    /** The page request settled: a fetched page replaces the held one, a
        failure keeps it; either way the loading flag is cleared. */
    method OnPageFetched(outcome: Fetch<Page>)
      modifies this`page, this`loading
      ensures !loading
      ensures outcome.Resolved? ==> page == outcome.value
      ensures outcome.Rejected? ==> page == old(page)
    {
      if outcome.Resolved? {
        page := outcome.value;
      }
      loading := false;
    }

    /** The Edit Page or Create It button, which only a moderator sees and
        only on the view or not-found panel. */
    method OnEdit(level: PermissionLevel)
      requires !loading && !editMode && page.revision >= 0 && AtLeastModerator(level)
      modifies this`editMode
      ensures editMode
    {
      editMode := true;
    }

    /** `onSave`: stamps the held page object itself with the effective
        slug and the new body, submits it, and when the save succeeds
        shows the saved page, appends one flash and leaves edit mode;
        a failed save leaves the view (and the stamped object) as it is. */
    method OnSave(newBody: string, outcome: Fetch<Page>) returns (submitted: PageRecord)
      modifies this, page
      ensures submitted == old(page.Record()).(slug := EffectiveSlug(slug), body_md := newBody)
      ensures old(page).Record() == submitted
      ensures slug == old(slug) && loading == old(loading)
      ensures outcome.Resolved? ==>
                page == outcome.value && !editMode && flashes == old(flashes) + [SavedFlash(outcome.value.slug)]
      ensures outcome.Rejected? ==>
                page == old(page) && editMode == old(editMode) && flashes == old(flashes)
    {
      var newPage := page;
      newPage.slug := EffectiveSlug(slug);
      newPage.body_md := newBody;
      submitted := newPage.Record();
      match outcome {
        case Resolved(p) =>
          page := p;
          flashes := flashes + [SavedFlash(p.slug)];
          editMode := false;
        case Rejected(_) =>
      }
    }
  }

  /** As written, a freshly mounted page whose request is still pending
      shows the not-found notice for its slug instead of the spinner. */
  method PendingLoadAsWritten(level: PermissionLevel) returns (shown: seq<Panel>)
    ensures shown == [NotFoundPanel("home", AtLeastModerator(level))]
  {
    var defaultPage := new Page("", "", 0, "", 0, 0);
    var view := new WikiPageView(defaultPage, None, []);
    var _ := view.LoadPageAsWritten();
    shown := Render(view.loading, view.editMode, view.page.Record(), view.slug, level);
  }

  /** With the flag cleared on settling, a pending request shows the
      spinner and nothing else. */
  method PendingLoad(level: PermissionLevel) returns (shown: seq<Panel>)
    ensures shown == [LoadingPanel]
  {
    var defaultPage := new Page("", "", 0, "", 0, 0);
    var view := new WikiPageView(defaultPage, None, []);
    var _ := view.LoadPage();
    shown := Render(view.loading, view.editMode, view.page.Record(), view.slug, level);
  }
}
