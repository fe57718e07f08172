/** The records and enumerations of the QR code hub (types.ts).

    Enumerations that the application stores as strings (the code type, the
    error-correction level, the entry status and the view mode) are datatypes
    here, each with the string it is written as and the parser that reads it
    back, so that the persisted JSON shape of an entry is pinned down. */
module Types {

  datatype Option<+T> = None | Some(value: T) {
    function GetOr(default: T): T {
      match this
      case Some(v) => v
      case None => default
    }
  }

  datatype Result<+T, +E> = Ok(value: T) | Err(error: E)

  /** QRType: the eight kinds of code. */
  datatype QRType = Url | WhatsApp | Email | Phone | Maps | Pix | Bio | Event

  const AllTypes: seq<QRType> := [Url, WhatsApp, Email, Phone, Maps, Pix, Bio, Event]

  /** The string value of each enum member, which is its own member name. */
  function TypeValue(t: QRType): string {
    match t
    case Url => "URL"
    case WhatsApp => "WHATSAPP"
    case Email => "EMAIL"
    case Phone => "PHONE"
    case Maps => "MAPS"
    case Pix => "PIX"
    case Bio => "BIO"
    case Event => "EVENT"
  }

  function ParseType(s: string): (r: Option<QRType>)
    ensures r.Some? ==> TypeValue(r.value) == s
  {
    if s == "URL" then Some(Url)
    else if s == "WHATSAPP" then Some(WhatsApp)
    else if s == "EMAIL" then Some(Email)
    else if s == "PHONE" then Some(Phone)
    else if s == "MAPS" then Some(Maps)
    else if s == "PIX" then Some(Pix)
    else if s == "BIO" then Some(Bio)
    else if s == "EVENT" then Some(Event)
    else None
  }

  /** The enumeration has exactly eight members, all listed, with eight distinct
      string values, and each value parses back to its member. */
  lemma TypesEnumerated()
    ensures |AllTypes| == 8
    ensures forall t: QRType :: t in AllTypes
    ensures forall i, j :: 0 <= i < j < |AllTypes| ==> TypeValue(AllTypes[i]) != TypeValue(AllTypes[j])
    ensures forall t: QRType :: ParseType(TypeValue(t)) == Some(t)
  {
    forall t: QRType ensures t in AllTypes {
      var k := match t
        case Url => 0 case WhatsApp => 1 case Email => 2 case Phone => 3
        case Maps => 4 case Pix => 5 case Bio => 6 case Event => 7;
      assert AllTypes[k] == t;
    }
  }

  /** Error-correction level of the code image: the four levels of ISO/IEC 18004. */
  datatype Level = L | M | Q | H

  function LevelValue(l: Level): string {
    match l
    case L => "L"
    case M => "M"
    case Q => "Q"
    case H => "H"
  }

  function ParseLevel(s: string): (r: Option<Level>)
    ensures r.Some? ==> LevelValue(r.value) == s
    ensures r.None? <==> s !in {"L", "M", "Q", "H"}
  {
    if s == "L" then Some(L)
    else if s == "M" then Some(M)
    else if s == "Q" then Some(Q)
    else if s == "H" then Some(H)
    else None
  }

  lemma LevelRoundTrip(l: Level)
    ensures ParseLevel(LevelValue(l)) == Some(l)
  {
  }

  /** Entry status: exactly 'active' or 'inactive'. */
  datatype Status = Active | Inactive

  function StatusValue(s: Status): string {
    match s
    case Active => "active"
    case Inactive => "inactive"
  }

  function ParseStatus(s: string): (r: Option<Status>)
    ensures r.Some? ==> StatusValue(r.value) == s
    ensures r.None? <==> s != "active" && s != "inactive"
  {
    if s == "active" then Some(Active)
    else if s == "inactive" then Some(Inactive)
    else None
  }

  lemma StatusRoundTrip(s: Status)
    ensures ParseStatus(StatusValue(s)) == Some(s)
  {
  }

  /** ViewMode: the five screens of the application shell. */
  datatype ViewMode = Dashboard | Create | Edit | Analytics | Public

  function ViewValue(v: ViewMode): string {
    match v
    case Dashboard => "dashboard"
    case Create => "create"
    case Edit => "edit"
    case Analytics => "analytics"
    case Public => "public"
  }

  function ParseView(s: string): (r: Option<ViewMode>)
    ensures r.Some? ==> ViewValue(r.value) == s
  {
    if s == "dashboard" then Some(Dashboard)
    else if s == "create" then Some(Create)
    else if s == "edit" then Some(Edit)
    else if s == "analytics" then Some(Analytics)
    else if s == "public" then Some(Public)
    else None
  }

  lemma ViewRoundTrip(v: ViewMode)
    ensures ParseView(ViewValue(v)) == Some(v)
  {
  }

  /** QRStyle: appearance of the code image. `logoSize` and `borderRadius` are
      JavaScript numbers; the model keeps them as integers. */
  datatype QRStyle = QRStyle(
    fgColor: string,
    bgColor: string,
    level: Level,
    includeLogo: bool,
    logoUrl: Option<string>,
    logoSize: int,
    borderRadius: int)

  datatype Theme = Theme(primary: string, background: string)

  // `label` is a Dafny keyword, so the link text is called `caption`.
  datatype Link = Link(caption: string, url: string)

  /** BioPageData: the contact card shown by the public page of a BIO code. */
  datatype BioPageData = BioPageData(
    photo: Option<string>,
    name: string,
    role: string,
    company: string,
    email: string,
    phone: string,
    links: seq<Link>,
    theme: Theme)

  /** EventPageData: the landing page of an EVENT code. */
  datatype EventPageData = EventPageData(
    banner: Option<string>,
    title: string,
    description: string,
    date: string,
    time: string,
    location: string,
    ctaLabel: string,
    ctaUrl: string,
    theme: Theme)

  /** `intermediateData`, when present, is either a bio record or an event record. */
  datatype PageData = BioPage(bio: BioPageData) | EventPage(event: EventPageData)

  /** AnalyticsRecord: one scan, with a millisecond timestamp, a device label
      and an optional location. */
  datatype AnalyticsRecord = AnalyticsRecord(timestamp: int, device: string, location: Option<string>)

  /** QRCodeEntry. The source field `type` is called `kind` here. */
  datatype Entry = Entry(
    id: string,
    name: string,
    description: string,
    kind: QRType,
    content: string,
    intermediateData: Option<PageData>,
    style: QRStyle,
    createdAt: int,
    status: Status,
    analytics: seq<AnalyticsRecord>)

  /** The argument of `addItem`: an entry without `id`, `createdAt` and `analytics`.
      It is also the record the wizard hands to its `onSave` callback. */
  datatype Draft = Draft(
    name: string,
    description: string,
    kind: QRType,
    content: string,
    intermediateData: Option<PageData>,
    style: QRStyle,
    status: Status)

  /** Partial<QRCodeEntry>, the argument of `updateItem`: a field is either
      absent (None) or given. `intermediateData` has a third state: present with
      the value `undefined`, which an object spread copies like any other value. */
  datatype Patch = Patch(
    id: Option<string>,
    name: Option<string>,
    description: Option<string>,
    kind: Option<QRType>,
    content: Option<string>,
    intermediateData: Option<Option<PageData>>,
    style: Option<QRStyle>,
    createdAt: Option<int>,
    status: Option<Status>,
    analytics: Option<seq<AnalyticsRecord>>)

  const EmptyPatch := Patch(None, None, None, None, None, None, None, None, None, None)
}
