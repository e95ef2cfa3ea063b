/** What the drafter computes for one usage row: the overage, the client's
    charge, the two body templates, the subject and folder of each role, and
    the path and text of the file a notice is saved to (mail.py).

    Hours are held as whole hundredths of an hour (14.50 h is 1450) and money
    as whole hundredths of a rupee, so the arithmetic and the `{:.2f}`
    rendering are exact. */
module Notices {
  import opened Text
  import opened FixedPoint

  /** The columns of an overused_*.csv row that the drafter reads. */
  datatype UsageRow = UsageRow(name: string, email: string, allowed: int, actual: int)

  /** Which of the two row loops a row is processed by. */
  datatype Role = Client | Worker

  /** A drafted notice, as handed to send_email. */
  datatype Message = Message(folder: string, to: string, subject: string, body: string)

  /** Rate charged to a client per extra hour, in rupees. */
  const RatePerHour: int := 10

  const ClientFolder: string := "sent_mails/clients"
  const WorkerFolder: string := "sent_mails/workers"
  const ClientSubject: string := "Billing Alert: Extra Energy Usage"
  const WorkerSubject: string := "Warning: Excessive Usage"

  /** The rupee sign that precedes the client's charge. */
  const Rupee: char := '₹'

  // Fixed text of the two body templates, cut where a value is interpolated.
  // Each template is a triple-quoted string that starts with a line break and
  // indents every line by eight spaces. Long lines are written as two
  // literals so that the verifier can inspect their characters.
  const Indent: string := "        "
  const Greeting: string := "\n" + Indent + "Dear "
  const ClientLead: string := "\n" + Indent + "You have exceeded your allowed " + "energy usage by "
  const ClientMid: string :=
    "hours.\n"
    + Indent + "As per the agreement, you are " + "required to pay " + [Rupee]
  const ClientTail: string :=
    "for the extra usage.\n"
    + "\n"
    + Indent + "Please make the necessary payment " + "at your earliest convenience.\n"
    + "\n"
    + Indent + "Regards,\n"
    + Indent + "Energy Monitoring Team\n"
    + Indent
  const WorkerLead: string := "\n" + Indent + "You have exceeded the allocated time by "
  const WorkerTail: string :=
    "hours.\n"
    + Indent + FineWarning
    + "\n"
    + Indent + ComplianceRequest
    + "\n"
    + Indent + "Regards,\n"
    + Indent + "Operations Team\n"
    + Indent
  const FineWarning: string := "If this continues, a fine will be " + "charged for every extra hour used.\n"
  const ComplianceRequest: string := "Please ensure compliance " + "with the allotted time.\n"

  /** extra_hours = actual - allowed, in hundredths of an hour. */
  function ExtraHours(row: UsageRow): (r: int)
    ensures r > 0 <==> row.actual > row.allowed
    ensures row.allowed + r == row.actual
  {
    row.actual - row.allowed
  }

  /** extra_cost = extra_hours * 10: hundredths of an hour times the rate give
      hundredths of a rupee. */
  function ExtraCost(extra: int): (r: int)
    ensures r > 0 <==> extra > 0
    ensures r % RatePerHour == 0 && r / RatePerHour == extra
  {
    extra * RatePerHour
  }

  /** A line of text: its tag, its value and a line break. */
  function Line(tag: string, value: string): string
  {
    tag + value + "\n"
  }

  /** A figure in a body: the text that leads up to it, the amount rendered to
      two decimals, and the space after it. */
  function Figure(lead: string, amount: nat): string
  {
    lead + Format2(amount) + " "
  }

  /** The billing body sent to a client. */
  function ClientBody(name: string, hours: nat, cost: nat): string
  {
    Line(Greeting, name + ",") + Figure(ClientLead, hours) + Figure(ClientMid, cost) + ClientTail
  }

  /** The warning body sent to a worker. */
  function WorkerBody(name: string, hours: nat): string
  {
    Line(Greeting, name + ",") + Figure(WorkerLead, hours) + WorkerTail
  }

  function Subject(role: Role): string {
    match role
    case Client => ClientSubject
    case Worker => WorkerSubject
  }

  function Folder(role: Role): string {
    match role
    case Client => ClientFolder
    case Worker => WorkerFolder
  }

  /** The body drafted for a row whose overage is positive. */
  function Body(role: Role, row: UsageRow): string
    requires ExtraHours(row) > 0
  {
    var extra := ExtraHours(row);
    match role
    case Client => ClientBody(row.name, extra, ExtraCost(extra))
    case Worker => WorkerBody(row.name, extra)
  }

  /** The notice one row of either loop produces, if any. */
  function Notice(role: Role, row: UsageRow): (r: Option<Message>)
    ensures r.Some? <==> row.actual > row.allowed
    ensures r.Some? ==> r.value.to == row.email && r.value.folder == Folder(role) && r.value.subject == Subject(role)
  {
    if ExtraHours(row) > 0 then Some(Message(Folder(role), row.email, Subject(role), Body(role, row))) else None
  }

  /** file_path = f"{folder}/{to_email}.txt" */
  function FilePath(folder: string, to: string): (p: string)
    ensures |p| == |folder| + |to| + 5
    ensures p[..|folder| + 1] == folder + "/" && p[|folder| + 1..|folder| + 1 + |to|] == to
  {
    folder + "/" + to + ".txt"
  }

  /** The text save_email writes: a Subject line, a To line, a blank line and
      the body. */
  function FileContent(subject: string, to: string, body: string): string
  {
    Line("Subject: ", subject) + Line("To: ", to) + "\n" + body
  }

  /** Reads a line with the given tag off the front of `s`: its value and
      what follows the line break. */
  function ReadLine(s: string, tag: string): (r: Option<(string, string)>)
    ensures r.Some? ==> s == Line(tag, r.value.0) + r.value.1 && '\n' !in r.value.0
  {
    var afterLabel :- StripPrefix(s, tag);
    SplitAt(afterLabel, '\n')
  }

  /** Reads a figure with the given lead-in off the front of `s`: its amount
      and what follows the space after it. */
  function ReadFigure(s: string, lead: string): (r: Option<(nat, string)>)
    ensures r.Some? ==> s == Figure(lead, r.value.0) + r.value.1
  {
    var afterLead :- StripPrefix(s, lead);
    var split :- SplitAt(afterLead, ' ');
    var amount :- Parse2(split.0);
    Format2OfParse2(split.0);
    Some((amount, split.1))
  }

  /** The three parts of a saved notice. */
  datatype Envelope = Envelope(subject: string, to: string, body: string)

  /** Splits a saved file at its first two line breaks. */
  function ParseFileContent(text: string): Option<Envelope>
  {
    var subjectLine :- ReadLine(text, "Subject: ");
    var toLine :- ReadLine(subjectLine.1, "To: ");
    var body :- StripPrefix(toLine.1, "\n");
    Some(Envelope(subjectLine.0, toLine.0, body))
  }

  /** The figures a client body shows. */
  datatype ClientFigures = ClientFigures(name: string, hours: nat, cost: nat)

  /** Reads the name, hours and charge back out of a client body. */
  function ParseClientBody(b: string): Option<ClientFigures>
  {
    var nameLine :- ReadLine(b, Greeting);
    var hours :- ReadFigure(nameLine.1, ClientLead);
    var cost :- ReadFigure(hours.1, ClientMid);
    var line := nameLine.0;
    if |line| >= 1 && line[|line| - 1] == ',' && cost.1 == ClientTail
    then Some(ClientFigures(line[..|line| - 1], hours.0, cost.0))
    else None
  }

  /** The figures a worker body shows. */
  datatype WorkerFigures = WorkerFigures(name: string, hours: nat)

  /** Reads the name and hours back out of a worker body. */
  function ParseWorkerBody(b: string): Option<WorkerFigures>
  {
    var nameLine :- ReadLine(b, Greeting);
    var hours :- ReadFigure(nameLine.1, WorkerLead);
    var line := nameLine.0;
    if |line| >= 1 && line[|line| - 1] == ',' && hours.1 == WorkerTail
    then Some(WorkerFigures(line[..|line| - 1], hours.0))
    else None
  }

  /** The rendered figures contain neither of the characters the parsers
      split at, nor a rupee sign. */
  lemma Format2Separators(v: nat)
    ensures ' ' !in Format2(v) && '\n' !in Format2(v) && Rupee !in Format2(v)
  {
    var s := Format2(v);
    forall i | 0 <= i < |s| ensures s[i] != ' ' && s[i] != '\n' && s[i] != Rupee {
      assert IsDigit(s[i]) || s[i] == '.';
    }
  }

  lemma ReadLineOf(tag: string, value: string, rest: string)
    requires '\n' !in value
    ensures ReadLine(Line(tag, value) + rest, tag) == Some((value, rest))
  {
    assert Line(tag, value) + rest == tag + (value + ['\n'] + rest);
    StripPrefixOf(tag, value + ['\n'] + rest);
    SplitAtFirst(value, '\n', rest);
  }

  lemma ReadFigureOf(lead: string, amount: nat, rest: string)
    ensures ReadFigure(Figure(lead, amount) + rest, lead) == Some((amount, rest))
  {
    var f := Format2(amount);
    assert Figure(lead, amount) + rest == lead + (f + [' '] + rest);
    StripPrefixOf(lead, f + [' '] + rest);
    Format2Separators(amount);
    SplitAtFirst(f, ' ', rest);
    Parse2OfFormat2(amount);
  }

  /** A path names its folder and its address: two notices of one folder go
      to the same file only when they have the same address. */
  lemma FilePathInjective(folder: string, to1: string, to2: string)
    requires FilePath(folder, to1) == FilePath(folder, to2)
    ensures to1 == to2
  {
    var p := FilePath(folder, to1);
    assert to1 == p[|folder| + 1..|folder| + 1 + |to1|];
  }

  lemma FilePathsDiffer(folder: string, to1: string, to2: string)
    requires to1 != to2
    ensures FilePath(folder, to1) != FilePath(folder, to2)
  {
    if FilePath(folder, to1) == FilePath(folder, to2) {
      FilePathInjective(folder, to1, to2);
    }
  }

  /** No client notice and no worker notice share a file: the two folders
      differ at their twelfth character. */
  lemma ClientAndWorkerPathsDiffer(to1: string, to2: string)
    ensures FilePath(ClientFolder, to1) != FilePath(WorkerFolder, to2)
  {
    assert FilePath(ClientFolder, to1)[11] == 'c';
    assert FilePath(WorkerFolder, to2)[11] == 'w';
  }

  lemma FileContentLines(subject: string, to: string, body: string)
    ensures FileContent(subject, to, body) == Line("Subject: ", subject) + (Line("To: ", to) + ("\n" + body))
  {
  }

  /** Splitting a saved file at its first two line breaks gives back the
      subject, the address and the body it was written from. */
  lemma FileContentRoundTrip(subject: string, to: string, body: string)
    requires '\n' !in subject && '\n' !in to
    ensures ParseFileContent(FileContent(subject, to, body)) == Some(Envelope(subject, to, body))
  {
    var afterTo := "\n" + body;
    FileContentLines(subject, to, body);
    ReadLineOf("Subject: ", subject, Line("To: ", to) + afterTo);
    ReadLineOf("To: ", to, afterTo);
    StripPrefixOf("\n", body);
  }

  /** Conversely, every text the split accepts is the file save_email writes
      for what it returns. */
  lemma ParseFileContentSound(text: string)
    requires ParseFileContent(text).Some?
    ensures var e := ParseFileContent(text).value;
      && FileContent(e.subject, e.to, e.body) == text
      && '\n' !in e.subject && '\n' !in e.to
  {
    var subjectLine := ReadLine(text, "Subject: ").value;
    var toLine := ReadLine(subjectLine.1, "To: ").value;
    var body := StripPrefix(toLine.1, "\n").value;
    assert ParseFileContent(text) == Some(Envelope(subjectLine.0, toLine.0, body));
    var first, second := Line("Subject: ", subjectLine.0), Line("To: ", toLine.0);
    assert text == first + subjectLine.1;
    assert subjectLine.1 == second + toLine.1;
    assert toLine.1 == "\n" + body;
    FileContentLines(subjectLine.0, toLine.0, body);
  }

  lemma ClientBodyPieces(name: string, hours: nat, cost: nat)
    ensures ClientBody(name, hours, cost)
         == Line(Greeting, name + ",") + (Figure(ClientLead, hours) + (Figure(ClientMid, cost) + ClientTail))
  {
    var l, f1, f2 := Line(Greeting, name + ","), Figure(ClientLead, hours), Figure(ClientMid, cost);
    ConcatAssoc(l + f1, f2, ClientTail);
    ConcatAssoc(l, f1, f2 + ClientTail);
  }

  lemma WorkerBodyPieces(name: string, hours: nat)
    ensures WorkerBody(name, hours) == Line(Greeting, name + ",") + (Figure(WorkerLead, hours) + WorkerTail)
  {
    ConcatAssoc(Line(Greeting, name + ","), Figure(WorkerLead, hours), WorkerTail);
  }

  /** A client body shows the name, the extra hours and the charge, each
      figure to two decimals, and they can be read back from it. */
  lemma ClientBodyRoundTrip(name: string, hours: nat, cost: nat)
    requires '\n' !in name
    ensures ParseClientBody(ClientBody(name, hours, cost)) == Some(ClientFigures(name, hours, cost))
  {
    var afterHours := Figure(ClientMid, cost) + ClientTail;
    var afterName := Figure(ClientLead, hours) + afterHours;
    ClientBodyPieces(name, hours, cost);
    ReadLineOf(Greeting, name + ",", afterName);
    ReadFigureOf(ClientLead, hours, afterHours);
    ReadFigureOf(ClientMid, cost, ClientTail);
    assert (name + ",")[..|name|] == name;
  }

  /** Conversely, every text the client parser accepts is the client body of
      the figures it reads. */
  lemma ParseClientBodySound(b: string)
    requires ParseClientBody(b).Some?
    ensures var f := ParseClientBody(b).value;
      ClientBody(f.name, f.hours, f.cost) == b && '\n' !in f.name
  {
    var nameLine := ReadLine(b, Greeting).value;
    var hours := ReadFigure(nameLine.1, ClientLead).value;
    var cost := ReadFigure(hours.1, ClientMid).value;
    var line := nameLine.0;
    var name := line[..|line| - 1];
    assert ParseClientBody(b) == Some(ClientFigures(name, hours.0, cost.0));
    LastChar(line, ',');
    assert b == Line(Greeting, line) + nameLine.1;
    assert nameLine.1 == Figure(ClientLead, hours.0) + hours.1;
    assert hours.1 == Figure(ClientMid, cost.0) + ClientTail;
    ClientBodyPieces(name, hours.0, cost.0);
  }

  /** A worker body shows the name and the extra hours to two decimals, and
      they can be read back from it. */
  lemma WorkerBodyRoundTrip(name: string, hours: nat)
    requires '\n' !in name
    ensures ParseWorkerBody(WorkerBody(name, hours)) == Some(WorkerFigures(name, hours))
  {
    var afterName := Figure(WorkerLead, hours) + WorkerTail;
    WorkerBodyPieces(name, hours);
    ReadLineOf(Greeting, name + ",", afterName);
    ReadFigureOf(WorkerLead, hours, WorkerTail);
    assert (name + ",")[..|name|] == name;
  }

  /** Conversely, every text the worker parser accepts is the worker body of
      the figures it reads. */
  lemma ParseWorkerBodySound(b: string)
    requires ParseWorkerBody(b).Some?
    ensures var f := ParseWorkerBody(b).value;
      WorkerBody(f.name, f.hours) == b && '\n' !in f.name
  {
    var nameLine := ReadLine(b, Greeting).value;
    var hours := ReadFigure(nameLine.1, WorkerLead).value;
    var line := nameLine.0;
    var name := line[..|line| - 1];
    assert ParseWorkerBody(b) == Some(WorkerFigures(name, hours.0));
    LastChar(line, ',');
    assert b == Line(Greeting, line) + nameLine.1;
    assert nameLine.1 == Figure(WorkerLead, hours.0) + WorkerTail;
    WorkerBodyPieces(name, hours.0);
  }

  lemma WorkerTemplateHasNoRupee()
    ensures Rupee !in Greeting && Rupee !in WorkerLead && Rupee !in WorkerTail
  {
    assert Rupee !in Indent;
    WorkerTailHasNoRupee();
  }

  lemma WorkerTailHasNoRupee()
    ensures Rupee !in WorkerTail
  {
    FineWarningHasNoRupee();
    ComplianceRequestHasNoRupee();
    assert Rupee !in Indent;
  }

  lemma FineWarningHasNoRupee()
    ensures Rupee !in FineWarning
  {
  }

  lemma ComplianceRequestHasNoRupee()
    ensures Rupee !in ComplianceRequest
  {
  }

  /** A worker body names no amount of money: unless the worker's name
      carries one, it has no rupee sign, whereas every client body has one,
      just before the charge. */
  lemma OnlyClientBodiesNameAnAmount(name: string, hours: nat, cost: nat)
    ensures Rupee !in name ==> Rupee !in WorkerBody(name, hours)
    ensures Rupee in ClientBody(name, hours, cost)
  {
    WorkerTemplateHasNoRupee();
    Format2Separators(hours);
    WorkerBodyPieces(name, hours);
    ClientBodyPieces(name, hours, cost);
    assert Rupee in ClientMid;
  }
}
