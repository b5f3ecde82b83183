/** The records the two form steps hold in component state and persist:
    the contact details (`formData` / `userInfo`) and the five entries
    (`entries` / `draftEntries`), their JSON text, and the user-visible
    effects (toasts and navigations) the pages emit. */
module Records {
  import opened Base
  import Json

  // ----- ContactInfo: { fullName, email, phone } -----

  datatype ContactField = FullName | Email | Phone

  datatype ContactInfo = ContactInfo(fullName: string, email: string, phone: string)
  {
    function Field(f: ContactField): string
    {
      match f
      case FullName => fullName
      case Email => email
      case Phone => phone
    }

    /** `{ ...prev, [field]: value }`: the named field takes `value` and the
        other two keep theirs. */
    function Update(f: ContactField, value: string): (r: ContactInfo)
      ensures r.Field(f) == value
      ensures forall g :: g != f ==> r.Field(g) == Field(g)
    {
      match f
      case FullName => this.(fullName := value)
      case Email => this.(email := value)
      case Phone => this.(phone := value)
    }
  }

  const ContactKeys: seq<string> := ["fullName", "email", "phone"]

  /** `JSON.stringify(formData)`; the members keep the order in which the
      initial state declares them. */
  function EncodeContact(c: ContactInfo): (r: string)
    ensures |r| >= 2 && r[0] == '{' && r[|r| - 1] == '}'
  {
    Json.EncodeObject(ContactKeys, [c.fullName, c.email, c.phone])
  }

  /** `JSON.parse` of a stored `userInfo`; `None` where it would throw. */
  function DecodeContact(s: string): (r: Option<ContactInfo>)
    ensures s == [] || s[0] != '{' ==> r == None
  {
    match Json.DecodeObject(ContactKeys, s)
    case None => None
    case Some(vs) => Some(ContactInfo(vs[0], vs[1], vs[2]))
  }

  /** What the first step stores is read back by the second step unchanged:
      the same three strings, untrimmed. */
  lemma ContactRoundTrip(c: ContactInfo)
    ensures DecodeContact(EncodeContact(c)) == Some(c)
  {
    Json.ObjectRoundTrip(ContactKeys, [c.fullName, c.email, c.phone]);
  }

  // ----- Entries: { entry1, ..., entry5 } -----

  datatype EntryField = Entry1 | Entry2 | Entry3 | Entry4 | Entry5

  datatype Entries = Entries(entry1: string, entry2: string, entry3: string, entry4: string, entry5: string)
  {
    function Field(f: EntryField): string
    {
      match f
      case Entry1 => entry1
      case Entry2 => entry2
      case Entry3 => entry3
      case Entry4 => entry4
      case Entry5 => entry5
    }

    /** `{ ...prev, [entryNumber]: value }`: one entry changes, the other
        four keep their text. */
    function Update(f: EntryField, value: string): (r: Entries)
      ensures r.Field(f) == value
      ensures forall g :: g != f ==> r.Field(g) == Field(g)
    {
      match f
      case Entry1 => this.(entry1 := value)
      case Entry2 => this.(entry2 := value)
      case Entry3 => this.(entry3 := value)
      case Entry4 => this.(entry4 := value)
      case Entry5 => this.(entry5 := value)
    }
  }

  /** The initial `entries` state: five empty strings. */
  const NoEntries := Entries("", "", "", "", "")

  const EntryKeys: seq<string> := ["entry1", "entry2", "entry3", "entry4", "entry5"]

  /** `JSON.stringify(entries)`. */
  function EncodeEntries(e: Entries): (r: string)
    ensures |r| >= 2 && r[0] == '{' && r[|r| - 1] == '}'
  {
    Json.EncodeObject(EntryKeys, [e.entry1, e.entry2, e.entry3, e.entry4, e.entry5])
  }

  /** `JSON.parse` of a stored draft; `None` where it would throw. */
  function DecodeEntries(s: string): (r: Option<Entries>)
    ensures s == [] || s[0] != '{' ==> r == None
  {
    match Json.DecodeObject(EntryKeys, s)
    case None => None
    case Some(vs) => Some(Entries(vs[0], vs[1], vs[2], vs[3], vs[4]))
  }

  lemma EntriesRoundTrip(e: Entries)
    ensures DecodeEntries(EncodeEntries(e)) == Some(e)
  {
    Json.ObjectRoundTrip(EntryKeys, [e.entry1, e.entry2, e.entry3, e.entry4, e.entry5]);
  }

  // ----- Where they are kept -----

  /** The local-storage key of the contact details. */
  const UserInfoKey := "userInfo"

  /** The local-storage key of the entries draft. */
  const DraftKey := "draftEntries"

  // ----- What the user sees -----

  /** The destructive toasts the two steps show. `SubmissionFailed` carries
      the attempt count its text depends on. */
  datatype Notice =
    | NameMissing | EmailMissing | EmailInvalid | PhoneMissing | PhoneInvalid
    | SessionRequired | EntryMissing | SessionExpired | SessionError
    | SubmissionFailed(attempts: int)
  {
    /** Every toast has a title. */
    function Title(): (r: string)
      ensures r != []
    {
      match this
      case NameMissing => "Missing Information"
      case EmailMissing => "Missing Information"
      case EmailInvalid => "Invalid Email"
      case PhoneMissing => "Missing Information"
      case PhoneInvalid => "Invalid Phone Number"
      case SessionRequired => "Session Required"
      case EntryMissing => "Missing Entry"
      case SessionExpired => "Session Expired"
      case SessionError => "Session Error"
      case SubmissionFailed(_) => "Submission Failed"
    }

    /** Every toast has a description; a failed submit picks its text by
        the number of attempts made. */
    function Description(): string
    {
      match this
      case NameMissing => "Please enter your full name."
      case EmailMissing => "Please enter your email address."
      case EmailInvalid => "Please enter a valid email address."
      case PhoneMissing => "Please enter your phone number."
      case PhoneInvalid => "Please enter a valid phone number."
      case SessionRequired => "Please start from the beginning to collect your information."
      case EntryMissing => "Please fill in at least the first entry."
      case SessionExpired => "Please start over from the beginning."
      case SessionError => "Please start over from the beginning."
      case SubmissionFailed(n) =>
        if n == 1 then "Unable to submit your entries. Please check your internet connection and try again."
        else "Failed to submit after 3 attempts. Please try again later or contact support if the problem persists."
    }
  }

  /** The routes the steps navigate to. */
  datatype Route = InfoRoute | SubmissionRoute | ThankYouRoute
  {
    function Path(): string
    {
      match this
      case InfoRoute => "/info"
      case SubmissionRoute => "/submission"
      case ThankYouRoute => "/thank-you"
    }
  }

  /** The three routes navigate to three different paths. */
  lemma RoutePathsDistinct(a: Route, b: Route)
    ensures a.Path() == b.Path() <==> a == b
  {
    if a != b {
      assert |a.Path()| != |b.Path()|;
    }
  }

  /** A toast or a navigation. */
  datatype Effect = Toast(notice: Notice) | Navigate(route: Route)
}
