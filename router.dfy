/** The application shell of App.tsx: the current view and the selected entry,
    the handlers that move between views and call the store, the duplicate
    action, and what each state renders. */
module Router {
  import opened Types
  import opened Store
  import Board

  const CopySuffix := " (Cópia)"

  /** `handleDuplicate`'s record: the original without `id`, `createdAt` and
      `analytics`, its name marked as a copy. */
  function DuplicateDraft(e: Entry): Draft {
    MetaFree(e).(name := e.name + CopySuffix)
  }

  /** The copy keeps type, content, style, description, status and page data,
      gets the new identifier, time and an empty log, and a different name. */
  lemma DuplicateCopiesFields(e: Entry, freshId: string, now: int)
    ensures var c := Stamp(DuplicateDraft(e), freshId, now);
      c.kind == e.kind && c.content == e.content && c.style == e.style &&
      c.description == e.description && c.status == e.status &&
      c.intermediateData == e.intermediateData &&
      c.id == freshId && c.createdAt == now && c.analytics == [] &&
      c.name == e.name + CopySuffix && c.name != e.name
  {
  }

  /** The patch `handleUpdate` sends: every field of the saved record, including
      an absent intermediate record, which clears the entry's. */
  function DraftPatch(d: Draft): Patch {
    Patch(None, Some(d.name), Some(d.description), Some(d.kind), Some(d.content),
          Some(d.intermediateData), Some(d.style), None, Some(d.status), None)
  }

  /** Saving an edit replaces every field except `id`, `createdAt` and `analytics`. */
  lemma EditReplacesAllButMeta(e: Entry, d: Draft)
    ensures ApplyPatch(e, DraftPatch(d)) == Stamp(d, e.id, e.createdAt).(analytics := e.analytics)
    ensures MetaFree(ApplyPatch(e, DraftPatch(d))) == d
  {
  }

  /** `activeItem`: the first entry whose id is the selected one; none while
      nothing is selected. */
  function ActiveItem(items: seq<Entry>, activeId: Option<string>): (r: Option<Entry>)
    ensures r.Some? ==> activeId.Some? && r.value in items && r.value.id == activeId.value
    ensures r.None? <==> activeId.None? || !HasId(items, activeId.value)
  {
    if activeId.None? then None
    else
      var r := FindById(items, activeId.value);
      assert r.Some? ==> exists k :: FirstWithId(items, activeId.value, k) && r.value == items[k];
      r
  }

  /** The main panel of the shell. */
  datatype Panel =
    | ListPanel
    | WizardPanel(initialData: Option<Entry>, creating: bool)
    | AnalyticsPanel(item: Entry)
    | NoPanel

  /** What the application renders: the stand-alone public page, or the shell
      with one main panel. */
  datatype Screen = PublicPage(kind: QRType, data: Option<PageData>) | Shell(panel: Panel)

  /** The render of App.tsx for a state. */
  function Render(view: ViewMode, activeId: Option<string>, items: seq<Entry>): (r: Screen)
    ensures r.PublicPage? <==> view == Public && ActiveItem(items, activeId).Some?
    ensures r.Shell? && r.panel.AnalyticsPanel? <==> view == Analytics && ActiveItem(items, activeId).Some?
    ensures r.Shell? && r.panel.WizardPanel? <==> view in {Create, Edit}
    ensures r.Shell? && r.panel.ListPanel? <==> view == Dashboard
    ensures r.Shell? && r.panel.WizardPanel? ==>
      r.panel.initialData == ActiveItem(items, activeId) && (r.panel.creating <==> view == Create)
  {
    var active := ActiveItem(items, activeId);
    if view == Public && active.Some? then
      PublicPage(active.value.kind, active.value.intermediateData)
    else
      Shell(match view
        case Dashboard => ListPanel
        case Create => WizardPanel(active, true)
        case Edit => WizardPanel(active, false)
        case Analytics => if active.Some? then AnalyticsPanel(active.value) else NoPanel
        case Public => NoPanel)
  }

  /** The public page and the analytics panel show the selected entry itself:
      the first entry holding the selected id, with its type and page data. */
  lemma RenderShowsActiveItem(view: ViewMode, activeId: Option<string>, items: seq<Entry>)
    ensures var r := Render(view, activeId, items);
      var a := ActiveItem(items, activeId);
      (r.PublicPage? ==> a.Some? && r == PublicPage(a.value.kind, a.value.intermediateData)) &&
      (r.Shell? && r.panel.AnalyticsPanel? ==> a.Some? && r.panel.item == a.value)
  {
  }

  /** The application component's own state over the store. */
  class App {
    const store: QRStore
    var view: ViewMode
    var activeId: Option<string>

    /** No handler of the shell opens the public page. */
    predicate Valid()
      reads this
    {
      view != Public
    }

    function Current(): Screen
      reads this, store
    {
      Render(view, activeId, store.items)
    }

    /** The shell starts on the dashboard with nothing selected. */
    constructor (s: QRStore)
      ensures store == s && view == Dashboard && activeId == None && Valid()
    {
      store := s;
      view := Dashboard;
      activeId := None;
    }

    /** The dashboard's "Criar Novo QR" button. */
    method OnAdd()
      requires Valid()
      modifies this`view
      ensures view == Create && Valid()
    {
      view := Create;
    }

    /** A card's "Editar" button. */
    method OnEdit(id: string)
      requires Valid()
      modifies this
      ensures view == Edit && activeId == Some(id) && Valid()
    {
      activeId := Some(id);
      view := Edit;
    }

    /** A card's analytics button. */
    method OnAnalytics(id: string)
      requires Valid()
      modifies this
      ensures view == Analytics && activeId == Some(id) && Valid()
    {
      activeId := Some(id);
      view := Analytics;
    }

    /** The wizard's cancel button. */
    method OnCancel()
      requires Valid()
      modifies this
      ensures view == Dashboard && activeId == None && Valid()
    {
      view := Dashboard;
      activeId := None;
    }

    /** The analytics panel's back button. */
    method OnBack()
      requires Valid()
      modifies this
      ensures view == Dashboard && activeId == None && Valid()
    {
      view := Dashboard;
      activeId := None;
    }

    /** The sidebar's "Dashboard" entry: the selection is kept. */
    method NavDashboard()
      requires Valid()
      modifies this`view
      ensures view == Dashboard && Valid()
    {
      view := Dashboard;
    }

    /** The sidebar's "Analytics Global" entry, which opens the creation wizard. */
    method NavAnalyticsGlobal()
      requires Valid()
      modifies this`view
      ensures view == Create && Valid()
    {
      view := Create;
    }

    /** `handleCreate`: add the saved record and return to the dashboard. */
    method HandleCreate(data: Draft, freshId: string, now: int)
      requires Valid() && !HasId(store.items, freshId)
      modifies this`view, store
      ensures store.items == [Stamp(data, freshId, now)] + old(store.items) && store.Synced()
      ensures view == Dashboard && Valid()
    {
      var _ := store.AddItem(data, freshId, now);
      view := Dashboard;
    }

    /** `handleUpdate`: with an entry selected (a non-empty id), apply the saved
        record to it, return to the dashboard and clear the selection; with none
        selected, do nothing. */
    method HandleUpdate(data: Draft)
      requires Valid()
      modifies this, store
      ensures Valid()
      ensures old(activeId).Some? && old(activeId).value != "" ==>
        store.items == Updated(old(store.items), old(activeId).value, DraftPatch(data)) && store.Synced() &&
        view == Dashboard && activeId == None
      ensures old(activeId).None? || old(activeId).value == "" ==>
        store.items == old(store.items) && store.storage == old(store.storage) &&
        view == old(view) && activeId == old(activeId)
    {
      if activeId.Some? && activeId.value != "" {
        store.UpdateItem(activeId.value, DraftPatch(data));
        view := Dashboard;
        activeId := None;
      }
    }

    /** `handleDuplicate`: add a copy of the entry with that id to the front;
        an unknown id changes nothing. */
    method HandleDuplicate(id: string, freshId: string, now: int)
      requires !HasId(store.items, freshId)
      modifies store
      ensures FindById(old(store.items), id).None? ==>
        store.items == old(store.items) && store.storage == old(store.storage)
      ensures FindById(old(store.items), id).Some? ==>
        store.items == [Stamp(DuplicateDraft(FindById(old(store.items), id).value), freshId, now)] + old(store.items) &&
        store.Synced()
    {
      var original := FindById(store.items, id);
      if original.Some? {
        var _ := store.AddItem(DuplicateDraft(original.value), freshId, now);
      }
    }

    /** A card's delete button. */
    method OnDelete(id: string)
      modifies store
      ensures store.items == Deleted(old(store.items), id) && store.Synced()
    {
      store.DeleteItem(id);
    }

    /** The status button: `updateItem(id, { status })`. */
    method OnUpdateStatus(id: string, status: Status)
      modifies store
      ensures store.items == Updated(old(store.items), id, Board.StatusPatch(status)) && store.Synced()
    {
      store.UpdateItem(id, Board.StatusPatch(status));
    }
  }

  /** In every state the shell's handlers reach, the public page is not shown. */
  lemma NoPublicPageFromShell(app: App)
    requires app.Valid()
    ensures !app.Current().PublicPage?
  {
  }
}
