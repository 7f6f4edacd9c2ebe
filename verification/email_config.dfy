/** Mail composition for registration and workshop e-mails: batch selection
    by registration date, template, subject and attachment choice, and the
    placeholder substitution chain. Templates are opaque strings loaded at
    start-up and the SMTP transport is a success/failure outcome. */
module EmailConfig {
  import opened Wrappers
  import opened Text

  datatype Attachment = Attachment(filename: string, path: string, cid: string)

  datatype Message = Message(from: string, to: string, subject: string, html: string, attachments: seq<Attachment>)

  /** The five HTML templates read from `public/email-template`. */
  datatype Templates = Templates(
    batch1: string,
    batch2: string,
    failedRegistration: string,
    workshopSuccess: string,
    workshopRejected: string)

  /** The process working directory and the `EMAIL_FROM` address. */
  datatype MailEnv = MailEnv(cwd: string, emailFrom: string)

  /** A send that reached the transport: the message, and the returned
      `{ success }` flag (false when `sendMail` threw). */
  datatype Delivery = Delivery(message: Message, success: bool)

  /** What a send function fixes before substitution. */
  datatype Layout = Layout(template: string, subject: string, attachments: seq<Attachment>)

  function AssetPath(env: MailEnv, filename: string): string
  {
    env.cwd + "/public/email-template/email-asset/" + filename
  }

  /** The inline image `<name>.png` with content id `<name>`. */
  function Asset(env: MailEnv, name: string): (a: Attachment)
    ensures a.cid == name && a.filename == name + ".png"
  {
    Attachment(name + ".png", AssetPath(env, name + ".png"), name)
  }

  function Sender(env: MailEnv): string
  {
    "HackAttack.CCIHimaIF <" + env.emailFrom + ">"
  }

  const Batch1Subject: string := "\U{1F389} CONGRATS! Anda Resmi Terdaftar di HACKATTACK 2025 - Batch 1"
  const Batch2Subject: string := "\U{1F389} CONGRATS! Anda Resmi Terdaftar di HACKATTACK 2025 - Batch 2"
  const FailedSubject: string := "\U{26A0}\U{FE0F} PENTING: Pendaftaran HACKATTACK 2025 Anda Perlu Diperbaiki"
  const BatchRequired: string := "Batch is required for success emails"
  const InvalidRegistrationStatus: string := "Invalid status. Must be 'success' or 'failed'"
  const InvalidWorkshopStatus: string := "Invalid status. Must be 'approved' or 'rejected'"

  /** Batch boundaries, in milliseconds since the epoch, at midnight UTC of
      2025-10-27, 2025-11-08, 2025-11-09 and 2025-11-15. */
  const Batch1Start: int := 1761523200000
  const Batch1End: int := 1762560000000
  const Batch2Start: int := 1762646400000
  const Batch2End: int := 1763164800000

  /** `determineBatch`: batch 1 inside the closed batch-1 interval, batch 2
      for every other date, before batch 1 or after batch 2 included. */
  function DetermineBatch(registrationDate: int): (batch: int)
    ensures batch == 1 || batch == 2
    ensures batch == 1 <==> Batch1Start <= registrationDate <= Batch1End
  {
    if Batch1Start <= registrationDate && registrationDate <= Batch1End then 1
    else if Batch2Start <= registrationDate && registrationDate <= Batch2End then 2
    else 2
  }

  /** The batch-1 interval ends at the first instant of 2025-11-08, so a
      registration later that same day already falls in batch 2. */
  lemma DetermineBatchBoundary()
    ensures DetermineBatch(Batch1End) == 1
    ensures DetermineBatch(Batch1End + 1) == 2
    ensures DetermineBatch(Batch1Start - 1) == 2
  {
  }

  /** Successive global replacements, each scanning the previous result. */
  function Substitute(html: string, pairs: seq<(string, string)>): string
    requires forall k :: 0 <= k < |pairs| ==> |pairs[k].0| > 0
    decreases |pairs|
  {
    if pairs == [] then html
    else Substitute(ReplaceAll(html, pairs[0].0, pairs[0].1), pairs[1..])
  }

  /** The registration branch: template, subject and the header plus banner
      images; a success without batch 1 or 2, or an unknown status, throws. */
  function RegistrationLayout(t: Templates, env: MailEnv, status: string, batch: Option<int>): (r: Result<Layout>)
    ensures r.Ok? <==> (status == "success" && (batch == Some(1) || batch == Some(2))) || status == "failed"
    ensures status == "success" && !(batch == Some(1) || batch == Some(2)) ==> r == Err(BatchRequired)
    ensures status != "success" && status != "failed" ==> r == Err(InvalidRegistrationStatus)
    ensures r.Ok? ==> |r.value.attachments| == 2 && r.value.attachments[0] == Asset(env, "header")
    ensures r.Ok? && status == "success" ==>
      r.value.attachments[1] == Asset(env, "bannersuccess") &&
      (batch == Some(1) ==> r.value.template == t.batch1 && r.value.subject == Batch1Subject) &&
      (batch == Some(2) ==> r.value.template == t.batch2 && r.value.subject == Batch2Subject)
    ensures r.Ok? && status == "failed" ==>
      r.value.attachments[1] == Asset(env, "bannergagal") &&
      r.value.template == t.failedRegistration && r.value.subject == FailedSubject
  {
    var header := Asset(env, "header");
    if status == "success" then
      if batch == Some(1) then Ok(Layout(t.batch1, Batch1Subject, [header, Asset(env, "bannersuccess")]))
      else if batch == Some(2) then Ok(Layout(t.batch2, Batch2Subject, [header, Asset(env, "bannersuccess")]))
      else Err(BatchRequired)
    else if status == "failed" then
      Ok(Layout(t.failedRegistration, FailedSubject, [header, Asset(env, "bannergagal")]))
    else Err(InvalidRegistrationStatus)
  }

  /** `{{teamLeader}}` then `{{email}}`; `{{rejectMessage}}` joins only for a
      failed status with a non-empty message. */
  function RegistrationPlaceholders(teamLeader: string, email: string, status: string, rejectMessage: Option<string>): (pairs: seq<(string, string)>)
    ensures |pairs| == 2 || |pairs| == 3
    ensures pairs[0] == ("{{teamLeader}}", teamLeader) && pairs[1] == ("{{email}}", email)
    ensures |pairs| == 3 <==> status == "failed" && rejectMessage.Some? && rejectMessage.value != ""
    ensures |pairs| == 3 ==> pairs[2] == ("{{rejectMessage}}", rejectMessage.value)
    ensures forall k :: 0 <= k < |pairs| ==> |pairs[k].0| > 0 && pairs[k].0[0] == '{'
  {
    var base := [("{{teamLeader}}", teamLeader), ("{{email}}", email)];
    if status == "failed" && rejectMessage.Some? && rejectMessage.value != "" then
      base + [("{{rejectMessage}}", rejectMessage.value)]
    else base
  }

  /** `sendRegistrationEmail`: a thrown error before any send, or the
      delivery attempt with the composed message. */
  function SendRegistrationEmail(t: Templates, env: MailEnv, email: string, teamLeader: string, status: string,
                                 batch: Option<int>, rejectMessage: Option<string>, transportOk: bool): (r: Result<Delivery>)
    ensures r.Ok? <==> RegistrationLayout(t, env, status, batch).Ok?
    ensures r.Err? ==> r.error == RegistrationLayout(t, env, status, batch).error
    ensures r.Ok? ==>
      var layout := RegistrationLayout(t, env, status, batch).value;
      r.value.success == transportOk &&
      r.value.message == Message(Sender(env), email, layout.subject,
        Substitute(layout.template, RegistrationPlaceholders(teamLeader, email, status, rejectMessage)),
        layout.attachments)
  {
    match RegistrationLayout(t, env, status, batch)
    case Err(e) => Err(e)
    case Ok(layout) =>
      var html := Substitute(layout.template, RegistrationPlaceholders(teamLeader, email, status, rejectMessage));
      Ok(Delivery(Message(Sender(env), email, layout.subject, html, layout.attachments), transportOk))
  }

  /** Text without an opening brace holds no placeholder. */
  predicate BraceFree(s: string)
  {
    '{' !in s
  }

  lemma BraceFreeLiteral(x: string, p: string)
    requires BraceFree(x) && |p| > 0 && p[0] == '{'
    ensures Literal(x, p)
  {
    forall j | 0 <= j < |x| ensures !MatchAt(x + p, p, j) {
      assert (x + p)[j] == x[j] && x[j] in x;
      if j + |p| <= |x + p| {
        assert (x + p)[j..j + |p|][0] == x[j];
      }
    }
  }

  lemma {:induction false} JoinBraceFree(parts: seq<string>, sep: string)
    requires BraceFree(sep)
    requires forall i :: 0 <= i < |parts| ==> BraceFree(parts[i])
    ensures BraceFree(Join(parts, sep))
  {
    if |parts| > 1 {
      JoinBraceFree(parts[1..], sep);
    }
  }

  lemma {:induction false} SubstituteBraceFree(s: string, pairs: seq<(string, string)>)
    requires forall k :: 0 <= k < |pairs| ==> |pairs[k].0| > 0 && pairs[k].0[0] == '{'
    requires BraceFree(s)
    ensures Substitute(s, pairs) == s
  {
    if pairs != [] {
      BraceFreeLiteral(s, pairs[0].0);
      ReplaceAllLiteral(s, pairs[0].0, pairs[0].1);
      SubstituteBraceFree(s, pairs[1..]);
    }
  }

  /** A template whose only placeholders are `{{teamLeader}}` gets the team
      leader's name at every one of them, whatever the status. */
  lemma RegistrationFillsLeader(parts: seq<string>, teamLeader: string, email: string, status: string, rejectMessage: Option<string>)
    requires forall i :: 0 <= i < |parts| ==> BraceFree(parts[i])
    requires BraceFree(teamLeader)
    ensures Substitute(Join(parts, "{{teamLeader}}"), RegistrationPlaceholders(teamLeader, email, status, rejectMessage))
            == Join(parts, teamLeader)
  {
    var pairs := RegistrationPlaceholders(teamLeader, email, status, rejectMessage);
    forall i | 0 <= i < |parts| ensures Literal(parts[i], "{{teamLeader}}") {
      BraceFreeLiteral(parts[i], "{{teamLeader}}");
    }
    ReplaceAllEveryOccurrence(parts, "{{teamLeader}}", teamLeader);
    JoinBraceFree(parts, teamLeader);
    SubstituteBraceFree(Join(parts, teamLeader), pairs[1..]);
  }

  /** The name, heading, date and benefits a workshop e-mail shows. */
  datatype WorkshopDetails = WorkshopDetails(name: string, title: string, date: string,
                                             benefit1: string, benefit2: string, benefit3: string)

  const Workshop1: WorkshopDetails := WorkshopDetails(
    "Workshop 1 \U{1F929}\U{263A}\U{FE0F} Hackattack 2025 \U{2013} Decode the Problem: Framing Ideas into Digital Impact for Nusantara.",
    "\U{1F50D} Saatnya Ikut Workshop 1 Hackattack 2025 Decode the Problem ",
    "Minggu, 9 November 2025",
    "Belajar teknik framing masalah yang relevan dengan kondisi nyata di Nusantara ",
    "Mendapatkan panduan dari mentor dalam menyusun solusi digital yang tepat sasaran",
    "Mengembangkan kemampuan berpikir kritis dan analitis untuk inovasi sosial")

  const Workshop2: WorkshopDetails := WorkshopDetails(
    "Workshop 2 \U{1F929}\U{263A}\U{FE0F} Hackattack 2025 \U{2013} Code the Solution: Prototyping Smart Innovations for Real-World Impact.",
    "Undangan Resmi Workshop 2 Hackattack 2025 Code the Solution",
    "Minggu, 23 November 2025",
    "Mengubah ide menjadi prototipe digital yang konkret",
    "Menggunakan pendekatan desain dan coding yang efisien",
    "Mempelajari cara membuat solusi digital yang bisa langsung diuji di dunia nyata")

  /** The two known workshop keys expand to their fixed details; any other
      name is shown as given, with empty heading, date and benefits. */
  function WorkshopInfo(workshopName: string): (d: WorkshopDetails)
    ensures workshopName == "workshop1" ==> d == Workshop1
    ensures workshopName == "workshop2" ==> d == Workshop2
    ensures workshopName != "workshop1" && workshopName != "workshop2" ==>
      d == WorkshopDetails(workshopName, "", "", "", "", "")
  {
    var given := WorkshopDetails(workshopName, "", "", "", "", "");
    var afterFirst := if given.name == "workshop1" then Workshop1 else given;
    if afterFirst.name == "workshop2" then Workshop2 else afterFirst
  }

  function ApprovedSubject(name: string): string
  {
    "\U{1F389} Workshop Registration Approved - " + name
  }

  function RejectedSubject(name: string): string
  {
    "\U{26A0}\U{FE0F} Workshop Registration Update - " + name
  }

  /** The workshop branch: approved and rejected pick their template, subject
      and banner; any other status throws. */
  function WorkshopLayout(t: Templates, env: MailEnv, status: string, name: string): (r: Result<Layout>)
    ensures r.Ok? <==> status == "approved" || status == "rejected"
    ensures r.Err? ==> r.error == InvalidWorkshopStatus
    ensures r.Ok? ==> |r.value.attachments| == 2 && r.value.attachments[0] == Asset(env, "header")
    ensures status == "approved" ==>
      r.value == Layout(t.workshopSuccess, ApprovedSubject(name), [Asset(env, "header"), Asset(env, "bannersuccess")])
    ensures status == "rejected" ==>
      r.value == Layout(t.workshopRejected, RejectedSubject(name), [Asset(env, "header"), Asset(env, "bannergagal")])
  {
    var header := Asset(env, "header");
    if status == "approved" then Ok(Layout(t.workshopSuccess, ApprovedSubject(name), [header, Asset(env, "bannersuccess")]))
    else if status == "rejected" then Ok(Layout(t.workshopRejected, RejectedSubject(name), [header, Asset(env, "bannergagal")]))
    else Err(InvalidWorkshopStatus)
  }

  /** The nine workshop placeholders in order; `{{rejectMessage}}` joins only
      for a rejection with a non-empty message. */
  function WorkshopPlaceholders(d: WorkshopDetails, participantName: string, email: string, institution: string,
                                status: string, rejectMessage: Option<string>): (pairs: seq<(string, string)>)
    ensures |pairs| == 9 || |pairs| == 10
    ensures |pairs| == 10 <==> status == "rejected" && rejectMessage.Some? && rejectMessage.value != ""
    ensures pairs[0] == ("{{participantName}}", participantName) && pairs[1] == ("{{participantEmail}}", email)
    ensures pairs[2] == ("{{workshopTitle}}", d.title) && pairs[3] == ("{{workshopDate}}", d.date)
    ensures pairs[4] == ("{{workshopName}}", d.name) && pairs[5] == ("{{institution}}", institution)
    ensures pairs[6] == ("{{Benefit1}}", d.benefit1) && pairs[7] == ("{{Benefit2}}", d.benefit2) &&
      pairs[8] == ("{{Benefit3}}", d.benefit3)
    ensures |pairs| == 10 ==> pairs[9] == ("{{rejectMessage}}", rejectMessage.value)
    ensures forall k :: 0 <= k < |pairs| ==> |pairs[k].0| > 0 && pairs[k].0[0] == '{'
  {
    var base := [
      ("{{participantName}}", participantName),
      ("{{participantEmail}}", email),
      ("{{workshopTitle}}", d.title),
      ("{{workshopDate}}", d.date),
      ("{{workshopName}}", d.name),
      ("{{institution}}", institution),
      ("{{Benefit1}}", d.benefit1),
      ("{{Benefit2}}", d.benefit2),
      ("{{Benefit3}}", d.benefit3)];
    if status == "rejected" && rejectMessage.Some? && rejectMessage.value != "" then
      base + [("{{rejectMessage}}", rejectMessage.value)]
    else base
  }

  /** `sendWorkshopEmail`: a thrown error for an unknown status, or the
      delivery attempt with the composed message. */
  function SendWorkshopEmail(t: Templates, env: MailEnv, email: string, participantName: string, workshopName: string,
                             institution: string, status: string, rejectMessage: Option<string>, transportOk: bool): (r: Result<Delivery>)
    ensures r.Ok? <==> status == "approved" || status == "rejected"
    ensures r.Err? ==> r.error == InvalidWorkshopStatus
    ensures r.Ok? ==>
      var d := WorkshopInfo(workshopName);
      var layout := WorkshopLayout(t, env, status, d.name).value;
      r.value.success == transportOk &&
      r.value.message == Message(Sender(env), email, layout.subject,
        Substitute(layout.template, WorkshopPlaceholders(d, participantName, email, institution, status, rejectMessage)),
        layout.attachments)
  {
    var d := WorkshopInfo(workshopName);
    match WorkshopLayout(t, env, status, d.name)
    case Err(e) => Err(e)
    case Ok(layout) =>
      var html := Substitute(layout.template, WorkshopPlaceholders(d, participantName, email, institution, status, rejectMessage));
      Ok(Delivery(Message(Sender(env), email, layout.subject, html, layout.attachments), transportOk))
  }

  /** A template without placeholders is sent exactly as written. */
  lemma WorkshopTemplateVerbatim(t: Templates, env: MailEnv, email: string, participantName: string, workshopName: string,
                                 institution: string, status: string, rejectMessage: Option<string>, transportOk: bool)
    requires status == "approved" || status == "rejected"
    requires BraceFree(t.workshopSuccess) && BraceFree(t.workshopRejected)
    ensures var r := SendWorkshopEmail(t, env, email, participantName, workshopName, institution, status, rejectMessage, transportOk);
      r.Ok? && r.value.message.html == (if status == "approved" then t.workshopSuccess else t.workshopRejected)
  {
    var d := WorkshopInfo(workshopName);
    var layout := WorkshopLayout(t, env, status, d.name).value;
    SubstituteBraceFree(layout.template, WorkshopPlaceholders(d, participantName, email, institution, status, rejectMessage));
  }
}
