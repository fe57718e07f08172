/** The creation wizard of components/QRGenerator.tsx: three steps (type,
    content, style) over a set of draft fields, and a save action that checks the
    name and builds the record handed to the application. */
module Generator {
  import opened Types

  datatype Step = TypeStep | ContentStep | StyleStep

  /** `['type', 'content', 'style'].indexOf(step)`. */
  function StepIndex(s: Step): (k: nat)
    ensures k < 3
  {
    match s
    case TypeStep => 0
    case ContentStep => 1
    case StyleStep => 2
  }

  /** The footer buttons: "Continuar" and "Personalizar Visual" go forward,
      "Voltar" goes back. The forward button of the style step is "Salvar",
      which saves instead of moving. */
  datatype Button = Forward | Back

  /** The step a footer button leads to, when the current step has that button. */
  function NextStep(s: Step, b: Button): (r: Option<Step>)
    ensures r.None? <==> (s == TypeStep && b == Back) || (s == StyleStep && b == Forward)
    ensures r.Some? && b == Forward ==> StepIndex(r.value) == StepIndex(s) + 1
    ensures r.Some? && b == Back ==> StepIndex(r.value) + 1 == StepIndex(s)
  {
    match (s, b)
    case (TypeStep, Forward) => Some(ContentStep)
    case (ContentStep, Back) => Some(TypeStep)
    case (ContentStep, Forward) => Some(StyleStep)
    case (StyleStep, Back) => Some(ContentStep)
    case _ => None
  }

  /** The only step moves are type to content, content to type, content to
      style and style to content. */
  lemma OnlyAdjacentMoves(s: Step, t: Step)
    ensures (exists b :: NextStep(s, b) == Some(t)) <==>
      (s, t) in {(TypeStep, ContentStep), (ContentStep, TypeStep), (ContentStep, StyleStep), (StyleStep, ContentStep)}
  {
    if (s, t) == (TypeStep, ContentStep) || (s, t) == (ContentStep, StyleStep) {
      assert NextStep(s, Forward) == Some(t);
    } else if (s, t) == (ContentStep, TypeStep) || (s, t) == (StyleStep, ContentStep) {
      assert NextStep(s, Back) == Some(t);
    }
  }

  /** The connector after step indicator `idx` is highlighted when the current
      step lies beyond it. */
  function ConnectorLit(step: Step, idx: nat): bool
    requires idx < 2
  {
    StepIndex(step) > idx
  }

  /** The number of highlighted connectors is the number of steps completed. */
  lemma LitConnectorsCountSteps(step: Step)
    ensures (if ConnectorLit(step, 0) then 1 else 0) + (if ConnectorLit(step, 1) then 1 else 0) == StepIndex(step)
  {
  }

  /** The value the live preview encodes: the content, or "Preview" while the
      content is empty. */
  function PreviewValue(content: string): (r: string)
    ensures r != ""
    ensures content != "" ==> r == content
  {
    if content == "" then "Preview" else content
  }

  /** The content form shown at the content step. */
  datatype Form = UrlForm | WhatsAppForm | BioForm | EventForm | ComingSoon

  /** `renderContentForm`: URL, WHATSAPP, BIO and EVENT have their own form;
      every other type shows the "Em breve..." placeholder. */
  function ContentForm(t: QRType): (r: Form)
    ensures r == ComingSoon <==> t in {Email, Phone, Maps, Pix}
    ensures r == UrlForm <==> t == Url
    ensures r == WhatsAppForm <==> t == WhatsApp
    ensures r == BioForm <==> t == Bio
    ensures r == EventForm <==> t == Event
  {
    match t
    case Url => UrlForm
    case WhatsApp => WhatsAppForm
    case Bio => BioForm
    case Event => EventForm
    case _ => ComingSoon
  }

  /** The draft state of the wizard: one field per `useState` except `step`.
      The page-data fields hold whatever record the edited entry carried, or the
      defaults. */
  datatype Fields = Fields(
    kind: QRType,
    name: string,
    description: string,
    content: string,
    style: QRStyle,
    bioData: PageData,
    eventData: PageData)

  const DefaultTheme := Theme("#9333ea", "#faf5ff")
  const DefaultBio := BioPageData(None, "", "", "", "", "", [], DefaultTheme)
  const DefaultEvent := EventPageData(None, "", "", "", "", "", "Inscreva-se", "", DefaultTheme)

  /** The initial draft: the edited entry's fields, or type URL, empty texts
      and the default style. The entry's intermediate record, when present,
      seeds both page-data fields (the source casts it to either shape). */
  function InitialFields(initial: Option<Entry>, defaultStyle: QRStyle): (f: Fields)
    ensures initial.None? ==>
      f.kind == Url && f.name == "" && f.description == "" && f.content == "" && f.style == defaultStyle
    ensures initial.Some? ==>
      f.kind == initial.value.kind && f.name == initial.value.name &&
      f.description == initial.value.description && f.content == initial.value.content &&
      f.style == initial.value.style
    ensures initial.Some? && initial.value.intermediateData.Some? ==>
      f.bioData == initial.value.intermediateData.value && f.eventData == initial.value.intermediateData.value
    ensures initial.None? || initial.value.intermediateData.None? ==>
      f.bioData == BioPage(DefaultBio) && f.eventData == EventPage(DefaultEvent)
  {
    match initial
    case None =>
      Fields(Url, "", "", "", defaultStyle, BioPage(DefaultBio), EventPage(DefaultEvent))
    case Some(e) =>
      Fields(e.kind, e.name, e.description, e.content, e.style,
             e.intermediateData.GetOr(BioPage(DefaultBio)),
             e.intermediateData.GetOr(EventPage(DefaultEvent)))
  }

  const NameRequired := "Dê um nome ao seu QR Code"
  const BioPlaceholder := "#/view/bio-placeholder"
  const EventPlaceholder := "#/view/event-placeholder"

  /** `handleSave`: an empty name is refused with an alert; otherwise the saved
      record carries the drafted name, description, type and style, status
      active, and content and intermediate data chosen by type. */
  function Payload(f: Fields): (r: Result<Draft, string>)
    ensures r.Err? <==> f.name == ""
    ensures r.Err? ==> r.error == NameRequired
    ensures r.Ok? ==>
      r.value.name == f.name && r.value.description == f.description &&
      r.value.kind == f.kind && r.value.style == f.style && r.value.status == Active
  {
    if f.name == "" then Err(NameRequired)
    else
      var content, intermediate :=
        if f.kind == Bio then BioPlaceholder else if f.kind == Event then EventPlaceholder else f.content,
        if f.kind == Bio then Some(f.bioData) else if f.kind == Event then Some(f.eventData) else None;
      Ok(Draft(f.name, f.description, f.kind, content, intermediate, f.style, Active))
  }

  /** BIO saves the bio record behind a placeholder address, EVENT the event
      record; every other type saves the typed content and no page data. */
  lemma PayloadByType(f: Fields)
    requires f.name != ""
    ensures f.kind == Bio ==> Payload(f).value.content == BioPlaceholder && Payload(f).value.intermediateData == Some(f.bioData)
    ensures f.kind == Event ==> Payload(f).value.content == EventPlaceholder && Payload(f).value.intermediateData == Some(f.eventData)
    ensures f.kind !in {Bio, Event} ==> Payload(f).value.content == f.content && Payload(f).value.intermediateData == None
  {
  }

  /** An entry the wizard itself saved comes back unchanged, apart from its
      status, when it is opened for editing and saved again without changes. */
  lemma EditWithoutChanges(e: Entry, defaultStyle: QRStyle)
    requires e.name != ""
    requires e.kind == Bio ==> e.content == BioPlaceholder && e.intermediateData.Some?
    requires e.kind == Event ==> e.content == EventPlaceholder && e.intermediateData.Some?
    requires e.kind !in {Bio, Event} ==> e.intermediateData == None
    ensures Payload(InitialFields(Some(e), defaultStyle)) ==
      Ok(Draft(e.name, e.description, e.kind, e.content, e.intermediateData, e.style, Active))
  {
  }

  /** The wizard component's state. */
  class Wizard {
    var step: Step
    var kind: QRType
    var name: string
    var description: string
    var content: string
    var style: QRStyle
    var bioData: PageData
    var eventData: PageData

    function Values(): Fields
      reads this
    {
      Fields(kind, name, description, content, style, bioData, eventData)
    }

    /** The wizard opens at the type step over the initial draft. */
    constructor (initialData: Option<Entry>, defaultStyle: QRStyle)
      ensures step == TypeStep
      ensures Values() == InitialFields(initialData, defaultStyle)
    {
      var f := InitialFields(initialData, defaultStyle);
      step := TypeStep;
      kind, name, description, content := f.kind, f.name, f.description, f.content;
      style, bioData, eventData := f.style, f.bioData, f.eventData;
    }

    /** A footer button: moves to the next or previous step, with no validation,
        and never touches a draft field, so going back loses nothing. */
    method Press(b: Button)
      modifies this`step
      ensures step == NextStep(old(step), b).GetOr(old(step))
      ensures Values() == old(Values())
    {
      var next := NextStep(step, b);
      if next.Some? {
        step := next.value;
      }
    }

    /** The type cards of the first step. */
    method SetType(t: QRType)
      modifies this`kind
      ensures Values() == old(Values()).(kind := t)
    {
      kind := t;
    }

    /** "Nome Interno". */
    method SetName(s: string)
      modifies this`name
      ensures Values() == old(Values()).(name := s)
    {
      name := s;
    }

    /** "Categoria". */
    method SetDescription(s: string)
      modifies this`description
      ensures Values() == old(Values()).(description := s)
    {
      description := s;
    }

    /** The URL and WhatsApp forms. */
    method SetContent(s: string)
      modifies this`content
      ensures Values() == old(Values()).(content := s)
    {
      content := s;
    }

    /** The colour pickers and logo controls of the style step. */
    method SetStyle(s: QRStyle)
      modifies this`style
      ensures Values() == old(Values()).(style := s)
    {
      style := s;
    }

    /** The bio form. */
    method SetBioData(d: BioPageData)
      modifies this`bioData
      ensures Values() == old(Values()).(bioData := BioPage(d))
    {
      bioData := BioPage(d);
    }

    /** The event form. */
    method SetEventData(d: EventPageData)
      modifies this`eventData
      ensures Values() == old(Values()).(eventData := EventPage(d))
    {
      eventData := EventPage(d);
    }

    /** "Salvar QR Code": the record passed to `onSave`, or the alert text. */
    method HandleSave() returns (r: Result<Draft, string>)
      ensures r == Payload(Values())
      ensures r.Err? <==> name == ""
    {
      if name == "" {
        return Err(NameRequired);
      }
      var finalContent := content;
      var intermediateData: Option<PageData> := None;
      if kind == Bio {
        intermediateData := Some(bioData);
        finalContent := BioPlaceholder;
      } else if kind == Event {
        intermediateData := Some(eventData);
        finalContent := EventPlaceholder;
      }
      r := Ok(Draft(name, description, kind, finalContent, intermediateData, style, Active));
    }
  }
}
