/**
 * The proof generator: from the selected kind and the form, a document with
 * content and metadata, every empty form field replaced by a kind-specific
 * default and the date and time taken from the clock when the form leaves them
 * empty; plus the name of the downloaded file.
 */
module ProofGenerator {
  import opened Wrappers
  import opened Text

  /** The form's fields; every one starts out empty. */
  datatype FormData = FormData(
    doctorName: string,
    hospitalName: string,
    date: string,
    time: string,
    location: string,
    contactName: string,
    reason: string)

  /** One entry of the table of proof kinds. */
  datatype ProofKind = ProofKind(id: string, name: string, description: string)

  datatype ChatMessage = ChatMessage(sender: string, message: string, time: string)

  /** A proof's content: a text document, or the messages of a chat. */
  datatype Content = Document(text: string) | Conversation(messages: seq<ChatMessage>)

  /** The metadata of each kind of proof. */
  datatype Metadata =
    | MedicalMeta(hospital: string, doctor: string, date: string, time: string)
    | ChatMeta(platform: string, date: string, time: string)
    | LocationMeta(location: string, coordinates: string, date: string, time: string)
    | AppointmentMeta(provider: string, location: string, date: string, time: string, confirmationNumber: string)

  datatype Proof = Proof(typeName: string, content: Content, metadata: Metadata)

  /**
   * The clock as a generation reads it: today's date and the current time as the
   * page formats them, and the six confirmation digits of the two separate clock
   * readings of an appointment.
   */
  datatype Clock = Clock(today: string, now: string, confirmationInContent: string, confirmationInMetadata: string)

  /** The notice shown after pressing the generate button. */
  datatype Notice = SelectProofType | ProofGenerated

  /** The page's state. */
  datatype ProofView = ProofView(proofType: string, isGenerating: bool, generatedProof: Option<Proof>, formData: FormData)

  const EmptyForm: FormData := FormData("", "", "", "", "", "", "")

  /** The four kinds of proof, in display order. */
  const ProofTypes: seq<ProofKind> := [
    ProofKind("medical", "Medical Certificate", "Doctor's note or medical documentation"),
    ProofKind("chat", "Chat Screenshot", "Fake text conversation or email thread"),
    ProofKind("location", "Location Log", "GPS location proof or check-in"),
    ProofKind("appointment", "Appointment Confirmation", "Meeting or appointment verification")]

  /** `value || default` on a string: the default replaces only the empty string. */
  function OrDefault(value: string, default: string): (r: string)
    ensures value != "" ==> r == value
    ensures value == "" ==> r == default
  {
    if value != "" then value else default
  }

  /** The ids of the table of proof kinds. */
  predicate IsProofKind(kind: string) {
    kind == "medical" || kind == "chat" || kind == "location" || kind == "appointment"
  }

  /** `proofTypes.find(t => t.id === kind)?.name`: the display name of a known kind. */
  function DisplayName(kind: string): (r: Option<string>)
    ensures r.Some? <==> IsProofKind(kind)
  {
    if kind == "medical" then Some(ProofTypes[0].name)
    else if kind == "chat" then Some(ProofTypes[1].name)
    else if kind == "location" then Some(ProofTypes[2].name)
    else if kind == "appointment" then Some(ProofTypes[3].name)
    else None
  }

  /** Each entry of the table is a known kind, and its display name is the one a proof of that kind carries. */
  lemma DisplayNamesFromTable()
    ensures forall i :: 0 <= i < |ProofTypes| ==> IsProofKind(ProofTypes[i].id) && DisplayName(ProofTypes[i].id) == Some(ProofTypes[i].name)
  {
  }

  /** The fixed passages of the three text documents, between the places the form's values go. */
  const CertificateHead := "\nMEDICAL CERTIFICATE\n\nPatient: [Your Name]"
  const CertificateStatement := "\n\nThis is to certify that the above-mentioned patient was examined and found to be suffering from acute gastroenteritis with associated symptoms including nausea, vomiting, and severe abdominal discomfort.\n\nThe patient is advised to take complete rest for 24-48 hours and avoid strenuous activities.\n\n"
  const CertificateTail := "\nLicense No: MD-2024-0847\nContact: (555) 123-4567\n            "
  const LocationHead := "\nLocation Check-in Confirmation\n"
  const LocationAddress := "Address: 123 Medical Center Drive, Downtown\n"
  const LocationTail := "Duration: 2 hours 15 minutes\n\nGPS Coordinates: 40.7589, -73.9851\nDevice: iPhone 12 Pro\nAccuracy: \U{B1}3 meters\n\nThis location log was automatically generated by your device's location services.\n            "
  const AppointmentHead := "\nAPPOINTMENT CONFIRMATION\n\nAppointment Details:"
  const AppointmentDuration := "\nDuration: 1 hour\n"
  const AppointmentAddress := "Address: 456 Professional Plaza, Suite 201\n"
  const AppointmentClosing := "\n\nPlease arrive 15 minutes early for check-in.\nContact: (555) 987-6543\n            "

  /** The certificate's text: it shows the date and time, and "Dr. " and the doctor above the hospital. */
  function MedicalText(date: string, time: string, doctor: string, hospital: string): (r: string)
    ensures Contains(r, "\nDate: " + date + "\nTime: " + time)
    ensures Contains(r, "Dr. " + doctor + "\n" + hospital)
  {
    var when := "\nDate: " + date + "\nTime: " + time;
    var who := "Dr. " + doctor + "\n" + hospital;
    var s1 := CertificateHead + when;
    var s2 := s1 + CertificateStatement;
    var s3 := s2 + who;
    ContainsSuffix(CertificateHead, when);
    ContainsExtended(s1, CertificateStatement, when);
    ContainsSuffix(s2, who);
    ContainsExtended(s2, who, when);
    ContainsExtended(s3, CertificateTail, when);
    ContainsExtended(s3, CertificateTail, who);
    s3 + CertificateTail
  }

  /** The fixed chat: four messages, alternating between the contact and the user. */
  const ChatMessages: seq<ChatMessage> := [
    ChatMessage("Emergency Contact", "Hey, we have a family emergency. Can you come home ASAP?", "9:23 AM"),
    ChatMessage("You", "What happened? Is everyone okay?", "9:24 AM"),
    ChatMessage("Emergency Contact", "Dad fell and we're heading to the hospital. Need you here.", "9:24 AM"),
    ChatMessage("You", "On my way. Will call work and leave immediately.", "9:25 AM")]

  /** The location log's text: it shows the location, and the check-in time followed by the date. */
  function LocationText(date: string, time: string, location: string): (r: string)
    ensures Contains(r, "\nLocation: " + location + "\n")
    ensures Contains(r, "Check-in Time: " + time + " on " + date + "\n")
  {
    var where := "\nLocation: " + location + "\n";
    var when := "Check-in Time: " + time + " on " + date + "\n";
    var s1 := LocationHead + where;
    var s2 := s1 + LocationAddress;
    var s3 := s2 + when;
    ContainsSuffix(LocationHead, where);
    ContainsExtended(s1, LocationAddress, where);
    ContainsSuffix(s2, when);
    ContainsExtended(s2, when, where);
    ContainsExtended(s3, LocationTail, where);
    ContainsExtended(s3, LocationTail, when);
    s3 + LocationTail
  }

  /**
   * The appointment confirmation's text: it shows the date and time, the
   * provider together with the location, the reason and the confirmation number.
   */
  function AppointmentText(date: string, time: string, provider: string, location: string, reason: string, confirmation: string): (r: string)
    ensures Contains(r, "\nDate: " + date + "\nTime: " + time)
    ensures Contains(r, "\nProvider: " + provider + "\nLocation: " + location + "\n")
    ensures Contains(r, "\nReason: " + reason + "\n")
    ensures Contains(r, "\nConfirmation #: APT-" + confirmation)
  {
    var when := "\nDate: " + date + "\nTime: " + time;
    var who := "\nProvider: " + provider + "\nLocation: " + location + "\n";
    var why := "\nReason: " + reason + "\n";
    var number := "\nConfirmation #: APT-" + confirmation;
    var s1 := AppointmentHead + when;
    var s2 := s1 + AppointmentDuration;
    var s3 := s2 + who;
    var s4 := s3 + AppointmentAddress;
    var s5 := s4 + why;
    var s6 := s5 + number;
    ContainsSuffix(AppointmentHead, when);
    ContainsExtended(s1, AppointmentDuration, when);
    ContainsSuffix(s2, who);
    ContainsExtended(s2, who, when);
    ContainsExtended(s3, AppointmentAddress, when);
    ContainsExtended(s3, AppointmentAddress, who);
    ContainsSuffix(s4, why);
    ContainsExtended(s4, why, when);
    ContainsExtended(s4, why, who);
    ContainsSuffix(s5, number);
    ContainsExtended(s5, number, when);
    ContainsExtended(s5, number, who);
    ContainsExtended(s5, number, why);
    ContainsExtended(s6, AppointmentClosing, when);
    ContainsExtended(s6, AppointmentClosing, who);
    ContainsExtended(s6, AppointmentClosing, why);
    ContainsExtended(s6, AppointmentClosing, number);
    s6 + AppointmentClosing
  }

  /**
   * The switch of `generateProof`: the proof of kind `kind`, or none for a kind
   * outside the table (the switch has no default case).
   */
  function BuildProof(kind: string, form: FormData, clock: Clock): (r: Option<Proof>)
    ensures r.Some? <==> DisplayName(kind).Some?
    ensures r.Some? ==> r.value.typeName == DisplayName(kind).value
    ensures r.Some? ==> r.value.metadata.date == OrDefault(form.date, clock.today)
    ensures r.Some? ==> r.value.metadata.time == OrDefault(form.time, clock.now)
  {
    var date := OrDefault(form.date, clock.today);
    var time := OrDefault(form.time, clock.now);
    if kind == "medical" then
      Some(Proof("Medical Certificate",
        Document(MedicalText(date, time, OrDefault(form.doctorName, "Sarah Johnson"), OrDefault(form.hospitalName, "City Medical Center"))),
        MedicalMeta(OrDefault(form.hospitalName, "City Medical Center"), OrDefault(form.doctorName, "Dr. Sarah Johnson"), date, time)))
    else if kind == "chat" then
      Some(Proof("Chat Screenshot", Conversation(ChatMessages), ChatMeta("WhatsApp", date, time)))
    else if kind == "location" then
      Some(Proof("Location Log",
        Document(LocationText(date, time, OrDefault(form.location, "City Hospital Emergency Room"))),
        LocationMeta(OrDefault(form.location, "City Hospital Emergency Room"), "40.7589, -73.9851", date, time)))
    else if kind == "appointment" then
      Some(Proof("Appointment Confirmation",
        Document(AppointmentText(date, time, OrDefault(form.doctorName, "Dr. Michael Chen"),
          OrDefault(form.location, "Downtown Medical Associates"), OrDefault(form.reason, "Routine medical consultation"),
          clock.confirmationInContent)),
        AppointmentMeta(OrDefault(form.doctorName, "Dr. Michael Chen"), OrDefault(form.location, "Downtown Medical Associates"),
          date, time, "APT-" + clock.confirmationInMetadata)))
    else None
  }

  /**
   * A medical certificate shows the date and time of the metadata, and the
   * doctor after a literal "Dr. " followed by the hospital; an empty doctor
   * field gives 'Sarah Johnson' in the text but 'Dr. Sarah Johnson' in the
   * metadata.
   */
  lemma MedicalCertificateFields(form: FormData, clock: Clock)
    ensures var p := BuildProof("medical", form, clock).value;
      && p.content.Document?
      && p.metadata.MedicalMeta?
      && p.metadata.hospital == OrDefault(form.hospitalName, "City Medical Center")
      && p.metadata.doctor == OrDefault(form.doctorName, "Dr. Sarah Johnson")
      && Contains(p.content.text, "\nDate: " + p.metadata.date + "\nTime: " + p.metadata.time)
      && Contains(p.content.text, "Dr. " + OrDefault(form.doctorName, "Sarah Johnson") + "\n" + p.metadata.hospital)
  {
  }

  /** A location log names the location of the metadata, and the check-in time and date. */
  lemma LocationLogFields(form: FormData, clock: Clock)
    ensures var p := BuildProof("location", form, clock).value;
      && p.content.Document?
      && p.metadata.LocationMeta?
      && p.metadata.location == OrDefault(form.location, "City Hospital Emergency Room")
      && p.metadata.coordinates == "40.7589, -73.9851"
      && Contains(p.content.text, "\nLocation: " + p.metadata.location + "\n")
      && Contains(p.content.text, "Check-in Time: " + p.metadata.time + " on " + p.metadata.date + "\n")
  {
  }

  /**
   * An appointment confirmation names the provider, location and reason (their
   * defaults when empty); date, time, provider and location agree with the metadata, while
   * the two confirmation numbers come from separate clock readings.
   */
  lemma AppointmentFields(form: FormData, clock: Clock)
    ensures var p := BuildProof("appointment", form, clock).value;
      && p.content.Document?
      && p.metadata.AppointmentMeta?
      && p.metadata.provider == OrDefault(form.doctorName, "Dr. Michael Chen")
      && p.metadata.location == OrDefault(form.location, "Downtown Medical Associates")
      && p.metadata.confirmationNumber == "APT-" + clock.confirmationInMetadata
      && Contains(p.content.text, "\nDate: " + p.metadata.date + "\nTime: " + p.metadata.time)
      && Contains(p.content.text, "\nProvider: " + p.metadata.provider + "\nLocation: " + p.metadata.location + "\n")
      && Contains(p.content.text, "\nReason: " + OrDefault(form.reason, "Routine medical consultation") + "\n")
      && Contains(p.content.text, "\nConfirmation #: APT-" + clock.confirmationInContent)
  {
  }

  /** The chat proof: always the same four messages, alternating between the contact and the user. */
  lemma ChatAlternates(form: FormData, clock: Clock)
    ensures var p := BuildProof("chat", form, clock).value;
      && p.content == Conversation(ChatMessages)
      && p.metadata == ChatMeta("WhatsApp", OrDefault(form.date, clock.today), OrDefault(form.time, clock.now))
      && |p.content.messages| == 4
      && forall i :: 0 <= i < 4 ==> p.content.messages[i].sender == if i % 2 == 0 then "Emergency Contact" else "You"
  {
  }

  /**
   * `generateProof`: with no kind chosen, nothing changes and the user is asked
   * to choose one; otherwise the built proof (none for an unknown kind) replaces
   * the shown one and the page is no longer generating.
   */
  function GenerateProof(v: ProofView, clock: Clock): (r: (ProofView, Notice))
    ensures v.proofType == "" ==> r == (v, SelectProofType)
    ensures v.proofType != "" ==>
      && !r.0.isGenerating
      && r.0.generatedProof == BuildProof(v.proofType, v.formData, clock)
      && r.0.proofType == v.proofType && r.0.formData == v.formData
      && r.1 == ProofGenerated
    ensures !v.isGenerating ==> !r.0.isGenerating
  {
    if v.proofType == "" then (v, SelectProofType)
    else (v.(isGenerating := false, generatedProof := BuildProof(v.proofType, v.formData, clock)), ProofGenerated)
  }

  /**
   * The downloaded file's name: the type with each whitespace run replaced by
   * '_', lower-cased, then '_', the clock reading and '.txt'.
   */
  function DownloadName(typeName: string, now: nat): (name: string)
    ensures |name| >= 4 && name[|name| - 4..] == ".txt"
  {
    ToLower(ReplaceWhitespaceRuns(typeName, '_')) + "_" + DecimalString(now) + ".txt"
  }

  /** A download name contains no whitespace and no upper-case ASCII letter. */
  lemma DownloadNameIsPlain(typeName: string, now: nat)
    ensures forall i :: 0 <= i < |DownloadName(typeName, now)| ==>
      !IsWhitespace(DownloadName(typeName, now)[i]) && !('A' <= DownloadName(typeName, now)[i] <= 'Z')
  {
    var u := ReplaceWhitespaceRuns(typeName, '_');
    NoWhitespaceLeft(typeName, '_');
    var lowered := ToLower(u);
    assert forall i :: 0 <= i < |lowered| ==> !IsWhitespace(lowered[i]);
    var digits := DecimalString(now);
    var name := lowered + "_" + digits + ".txt";
    assert name == DownloadName(typeName, now);
    forall i | 0 <= i < |name| ensures !IsWhitespace(name[i]) && !('A' <= name[i] <= 'Z') {
      if i < |lowered| {
        assert name[i] == lowered[i];
      } else if i == |lowered| {
        assert name[i] == '_';
      } else if i < |lowered| + 1 + |digits| {
        assert name[i] == digits[i - |lowered| - 1];
      }
    }
  }

  /**
   * A type name of two words joined by one space, as each name in the table is,
   * gives a file name of the two words lower-cased and joined by '_', as in
   * 'medical_certificate_<now>.txt'.
   */
  lemma TwoWordFileName(first: string, second: string, now: nat)
    requires forall i :: 0 <= i < |first| ==> !IsWhitespace(first[i])
    requires forall i :: 0 <= i < |second| ==> !IsWhitespace(second[i])
    ensures DownloadName(first + " " + second, now) == ToLower(first) + "_" + ToLower(second) + "_" + DecimalString(now) + ".txt"
  {
    OneSpaceReplaced(first, second, '_');
    assert first + " " + second == first + [' '] + second;
    var u := first + ['_'] + second;
    assert ToLower(u) == ToLower(first) + "_" + ToLower(second) by {
      forall i | 0 <= i < |u| ensures ToLower(u)[i] == (ToLower(first) + "_" + ToLower(second))[i] {
        if i < |first| {
          assert u[i] == first[i];
        } else if i > |first| {
          assert u[i] == second[i - |first| - 1];
        }
      }
    }
  }

  /** `downloadProof`: nothing without a proof; otherwise the file name and the content. */
  function DownloadProof(generated: Option<Proof>, now: nat): (r: Option<(string, Content)>)
    ensures r.None? <==> generated.None?
    ensures r.Some? ==> r.value.0 == DownloadName(generated.value.typeName, now) && r.value.1 == generated.value.content
  {
    match generated
    case None => None
    case Some(p) => Some((DownloadName(p.typeName, now), p.content))
  }

  /** `shareProof`: nothing without a proof; otherwise the type as title and the content. */
  function ShareProof(generated: Option<Proof>): (r: Option<(string, Content)>)
    ensures r.None? <==> generated.None?
    ensures r.Some? ==> r.value == (generated.value.typeName, generated.value.content)
  {
    match generated
    case None => None
    case Some(p) => Some((p.typeName, p.content))
  }
}
