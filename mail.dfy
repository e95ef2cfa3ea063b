/** The drafting run of mail.py: every overused client row and then every
    overused worker row is checked for a positive overage, and each one that
    has it is saved as a notice file. The directory tree under sent_mails is
    modelled as a map from file path to file text. */
module Mail {
  import opened Text
  import opened FixedPoint
  import opened Notices

  /** The files the drafter writes: path to text. */
  type Store = map<string, string>

  /** save_email on the store: sets the notice file of `to` in `folder` and
      nothing else; a file already at that path is overwritten. */
  function Save(store: Store, to: string, subject: string, body: string, folder: string): (r: Store)
    ensures FilePath(folder, to) in r && r[FilePath(folder, to)] == FileContent(subject, to, body)
    ensures r.Keys == store.Keys + {FilePath(folder, to)}
    ensures forall p :: p in store && p != FilePath(folder, to) ==> r[p] == store[p]
  {
    store[FilePath(folder, to) := FileContent(subject, to, body)]
  }

  /** The text of the notice file drafted for a row with a positive overage. */
  function NoticeText(role: Role, row: UsageRow): string
    requires ExtraHours(row) > 0
  {
    FileContent(Subject(role), row.email, Body(role, row))
  }

  /** One iteration of either row loop. */
  function Step(store: Store, role: Role, row: UsageRow): (r: Store)
    ensures row.actual <= row.allowed ==> r == store
    ensures row.actual > row.allowed ==>
      FilePath(Folder(role), row.email) in r && r[FilePath(Folder(role), row.email)] == NoticeText(role, row)
    ensures forall p :: p != FilePath(Folder(role), row.email) ==>
      (p in r <==> p in store) && (p in store ==> r[p] == store[p])
  {
    SaveNotice(store, Notice(role, row))
  }

  /** Saves a drafted notice, if there is one. */
  function SaveNotice(store: Store, n: Option<Message>): Store
  {
    match n
    case None => store
    case Some(m) => Save(store, m.to, m.subject, m.body, m.folder)
  }

  /** Saves the drafted notices in order. */
  function SaveAll(store: Store, ns: seq<Option<Message>>): Store
  {
    if ns == [] then store
    else SaveNotice(SaveAll(store, ns[..|ns| - 1]), ns[|ns| - 1])
  }

  /** The file a drafted notice goes to. */
  function PathOf(m: Message): string
  {
    FilePath(m.folder, m.to)
  }

  /** The notices one loop drafts for `rows`, in row order. */
  function Drafted(role: Role, rows: seq<UsageRow>): (ns: seq<Option<Message>>)
    ensures |ns| == |rows|
    ensures forall i :: 0 <= i < |rows| ==> ns[i] == Notice(role, rows[i])
  {
    seq(|rows|, i requires 0 <= i < |rows| => Notice(role, rows[i]))
  }

  /** The store after one loop has gone through `rows` in order. */
  function DraftAll(store: Store, role: Role, rows: seq<UsageRow>): Store
  {
    SaveAll(store, Drafted(role, rows))
  }

  /** Whether notice `i` is the last one of `ns` that goes to its file. */
  predicate LastSaveOf(ns: seq<Option<Message>>, i: int)
  {
    && 0 <= i < |ns|
    && ns[i].Some?
    && forall j :: i < j < |ns| && ns[j].Some? ==> PathOf(ns[j].value) != PathOf(ns[i].value)
  }

  /** Whether row `i` is the last row of `rows` that gets a notice for its
      address. */
  predicate LastNoticeFor(rows: seq<UsageRow>, i: int)
  {
    && 0 <= i < |rows|
    && rows[i].actual > rows[i].allowed
    && forall j :: i < j < |rows| && rows[j].actual > rows[j].allowed ==> rows[j].email != rows[i].email
  }

  /** Going through one more row applies one more loop iteration. */
  lemma DraftAllExtend(store: Store, role: Role, rows: seq<UsageRow>, i: nat)
    requires i < |rows|
    ensures DraftAll(store, role, rows[..i + 1]) == Step(DraftAll(store, role, rows[..i]), role, rows[i])
  {
    var ns := Drafted(role, rows[..i + 1]);
    assert ns[..i] == Drafted(role, rows[..i]);
  }

  /** Saving no notice at all leaves every file as it was. */
  lemma {:induction false} SaveNothing(store: Store, ns: seq<Option<Message>>)
    requires forall i :: 0 <= i < |ns| ==> ns[i].None?
    ensures SaveAll(store, ns) == store
  {
    if ns != [] {
      SaveNothing(store, ns[..|ns| - 1]);
    }
  }

  /** A path no saved notice goes to keeps its file, or keeps having none. */
  lemma {:induction false} SaveAllKeeps(store: Store, ns: seq<Option<Message>>, p: string)
    requires forall i :: 0 <= i < |ns| && ns[i].Some? ==> PathOf(ns[i].value) != p
    ensures p in SaveAll(store, ns) <==> p in store
    ensures p in store ==> SaveAll(store, ns)[p] == store[p]
  {
    if ns != [] {
      SaveAllKeeps(store, ns[..|ns| - 1], p);
    }
  }

  /** Every saved notice leaves a file at its path. */
  lemma {:induction false} SaveAllFiles(store: Store, ns: seq<Option<Message>>, i: int)
    requires 0 <= i < |ns| && ns[i].Some?
    ensures PathOf(ns[i].value) in SaveAll(store, ns)
  {
    if i < |ns| - 1 {
      SaveAllFiles(store, ns[..|ns| - 1], i);
    }
  }

  /** Last write wins: a file holds the last notice saved to it. */
  lemma {:induction false} SaveAllLastWins(store: Store, ns: seq<Option<Message>>, i: int)
    requires LastSaveOf(ns, i)
    ensures var m := ns[i].value;
      PathOf(m) in SaveAll(store, ns) && SaveAll(store, ns)[PathOf(m)] == FileContent(m.subject, m.to, m.body)
  {
    if i < |ns| - 1 {
      SaveAllLastWins(store, ns[..|ns| - 1], i);
    }
  }

  /** Rows whose usage is within the allowance leave every file as it was. */
  lemma CompliantRowsLeaveStoreUnchanged(store: Store, role: Role, rows: seq<UsageRow>)
    requires forall i :: 0 <= i < |rows| ==> rows[i].actual <= rows[i].allowed
    ensures DraftAll(store, role, rows) == store
  {
    SaveNothing(store, Drafted(role, rows));
  }

  /** A path that no drafted notice of the loop targets keeps its file, or
      keeps having none. */
  lemma UntouchedPathsKeepTheirFiles(store: Store, role: Role, rows: seq<UsageRow>, p: string)
    requires forall i :: 0 <= i < |rows| && rows[i].actual > rows[i].allowed ==>
      p != FilePath(Folder(role), rows[i].email)
    ensures p in DraftAll(store, role, rows) <==> p in store
    ensures p in store ==> DraftAll(store, role, rows)[p] == store[p]
  {
    SaveAllKeeps(store, Drafted(role, rows), p);
  }

  /** Every row with a positive overage leaves a file for its address. */
  lemma EveryOveruseIsFiled(store: Store, role: Role, rows: seq<UsageRow>, i: int)
    requires 0 <= i < |rows| && rows[i].actual > rows[i].allowed
    ensures FilePath(Folder(role), rows[i].email) in DraftAll(store, role, rows)
  {
    SaveAllFiles(store, Drafted(role, rows), i);
  }

  /** Last write wins: the file of an address holds the notice of the last
      row with that address that got one. */
  lemma LastNoticeWins(store: Store, role: Role, rows: seq<UsageRow>, i: int)
    requires LastNoticeFor(rows, i)
    ensures FilePath(Folder(role), rows[i].email) in DraftAll(store, role, rows)
    ensures DraftAll(store, role, rows)[FilePath(Folder(role), rows[i].email)] == NoticeText(role, rows[i])
  {
    var ns := Drafted(role, rows);
    forall j | i < j < |ns| && ns[j].Some?
      ensures PathOf(ns[j].value) != PathOf(ns[i].value)
    {
      FilePathsDiffer(Folder(role), rows[j].email, rows[i].email);
    }
    SaveAllLastWins(store, ns, i);
  }

  /** The worker loop never changes a file in the clients' folder. */
  lemma WorkerLoopKeepsClientFiles(store: Store, rows: seq<UsageRow>, to: string)
    ensures FilePath(ClientFolder, to) in DraftAll(store, Worker, rows) <==> FilePath(ClientFolder, to) in store
    ensures FilePath(ClientFolder, to) in store ==>
      DraftAll(store, Worker, rows)[FilePath(ClientFolder, to)] == store[FilePath(ClientFolder, to)]
  {
    forall i | 0 <= i < |rows| && rows[i].actual > rows[i].allowed
      ensures FilePath(ClientFolder, to) != FilePath(Folder(Worker), rows[i].email)
    {
      ClientAndWorkerPathsDiffer(to, rows[i].email);
    }
    UntouchedPathsKeepTheirFiles(store, Worker, rows, FilePath(ClientFolder, to));
  }

  /** After a whole run, the file of a client's address holds the billing
      notice of the last client row with that address that got one, even
      though the worker loop ran after it. */
  lemma RunKeepsLastClientNotice(store: Store, clients: seq<UsageRow>, workers: seq<UsageRow>, i: int)
    requires LastNoticeFor(clients, i)
    ensures var after := DraftAll(DraftAll(store, Client, clients), Worker, workers);
      && FilePath(ClientFolder, clients[i].email) in after
      && after[FilePath(ClientFolder, clients[i].email)] == NoticeText(Client, clients[i])
  {
    LastNoticeWins(store, Client, clients, i);
    WorkerLoopKeepsClientFiles(DraftAll(store, Client, clients), workers, clients[i].email);
  }

  /** A drafted client notice reads back as the billing subject, the row's
      address, and a body showing the row's name, its overage and a charge of
      ten rupees per extra hour, which is positive. */
  lemma ClientNoticeReadsBack(row: UsageRow)
    requires row.actual > row.allowed
    requires '\n' !in row.name && '\n' !in row.email
    ensures var e := ParseFileContent(NoticeText(Client, row));
      && e.Some? && e.value.subject == ClientSubject && e.value.to == row.email
      && var f := ParseClientBody(e.value.body);
      && f.Some? && f.value.name == row.name
      && f.value.hours == row.actual - row.allowed
      && f.value.cost == (row.actual - row.allowed) * RatePerHour && f.value.cost > 0
  {
    var h := ExtraHours(row);
    FileContentRoundTrip(ClientSubject, row.email, Body(Client, row));
    ClientBodyRoundTrip(row.name, h, ExtraCost(h));
  }

  /** A drafted worker notice reads back as the warning subject, the row's
      address, and a body showing the row's name and its overage; unless the
      name carries one it has no rupee sign, so it names no amount. */
  lemma WorkerNoticeReadsBack(row: UsageRow)
    requires row.actual > row.allowed
    requires '\n' !in row.name && '\n' !in row.email
    ensures var e := ParseFileContent(NoticeText(Worker, row));
      && e.Some? && e.value.subject == WorkerSubject && e.value.to == row.email
      && var f := ParseWorkerBody(e.value.body);
      && f.Some? && f.value.name == row.name && f.value.hours == row.actual - row.allowed
      && (Rupee !in row.name ==> Rupee !in e.value.body)
  {
    var h := ExtraHours(row);
    FileContentRoundTrip(WorkerSubject, row.email, Body(Worker, row));
    WorkerBodyRoundTrip(row.name, h);
    OnlyClientBodiesNameAnAmount(row.name, h, 0);
  }

  /** A client allowed 12 hours who used 14.50 gets sent_mails/clients/jane@x.com.txt,
      billed for 2.50 extra hours at 25.00 rupees. */
  lemma ClientOverageExample(store: Store)
    ensures var row := UsageRow("Jane Doe", "jane@x.com", 1200, 1450);
      DraftAll(store, Client, [row])
      == store["sent_mails/clients/jane@x.com.txt" := FileContent(ClientSubject, "jane@x.com", ClientBody("Jane Doe", 250, 2500))]
  {
    var row := UsageRow("Jane Doe", "jane@x.com", 1200, 1450);
    DraftAllExtend(store, Client, [row], 0);
    assert FilePath(ClientFolder, "jane@x.com") == "sent_mails/clients/jane@x.com.txt";
  }

  /** A worker allowed 0.50 hours who used 0.30 gets no file. */
  lemma CompliantWorkerExample(store: Store)
    ensures DraftAll(store, Worker, [UsageRow("Sam Roe", "sam@x.com", 50, 30)]) == store
  {
    CompliantRowsLeaveStoreUnchanged(store, Worker, [UsageRow("Sam Roe", "sam@x.com", 50, 30)]);
  }

  /** The drafter with the file system it writes to. */
  class Drafter {
    var files: Store

    constructor (existing: Store)
      ensures files == existing
    {
      files := existing;
    }

    /** save_email: writes the Subject line, the To line, a blank line and the
        body to <folder>/<to>.txt, replacing what was there. */
    method SaveEmail(to: string, subject: string, body: string, folder: string)
      modifies this
      ensures files == Save(old(files), to, subject, body, folder)
    {
      var path := folder + "/" + to + ".txt";
      var text := "";
      text := text + "Subject: " + subject + "\n";
      assert text == Line("Subject: ", subject);
      text := text + "To: " + to + "\n";
      assert text == Line("Subject: ", subject) + Line("To: ", to);
      text := text + "\n" + body;
      assert text == FileContent(subject, to, body);
      files := files[path := text];
    }

    /** send_email: only saves the notice; nothing is transmitted. */
    method SendEmail(to: string, subject: string, body: string, folder: string)
      modifies this
      ensures files == Save(old(files), to, subject, body, folder)
    {
      SaveEmail(to, subject, body, folder);
    }

    /** One iteration of the client loop: the overage guard, the charge at
        ten rupees per extra hour, the billing body and the send. */
    method DraftClientRow(row: UsageRow)
      modifies this
      ensures files == Step(old(files), Client, row)
    {
      var extraHours := row.actual - row.allowed;
      if extraHours > 0 {
        var extraCost := extraHours * RatePerHour;
        var body := ClientBody(row.name, extraHours, extraCost);
        assert Notice(Client, row) == Some(Message(ClientFolder, row.email, ClientSubject, body));
        SendEmail(row.email, ClientSubject, body, ClientFolder);
      }
    }

    /** One iteration of the worker loop: the overage guard, the warning body
        and the send. */
    method DraftWorkerRow(row: UsageRow)
      modifies this
      ensures files == Step(old(files), Worker, row)
    {
      var extraHours := row.actual - row.allowed;
      if extraHours > 0 {
        var body := WorkerBody(row.name, extraHours);
        assert Notice(Worker, row) == Some(Message(WorkerFolder, row.email, WorkerSubject, body));
        SendEmail(row.email, WorkerSubject, body, WorkerFolder);
      }
    }

    /** One iteration of the loop of either role. */
    method DraftRow(role: Role, row: UsageRow)
      modifies this
      ensures files == Step(old(files), role, row)
    {
      match role
      case Client => DraftClientRow(row);
      case Worker => DraftWorkerRow(row);
    }

    /** One of the two row loops: drafts a notice for every row whose actual
        usage exceeds its allowance, in row order. */
    method DraftNotices(role: Role, rows: seq<UsageRow>)
      modifies this
      ensures files == DraftAll(old(files), role, rows)
    {
      for i := 0 to |rows|
        invariant files == DraftAll(old(files), role, rows[..i])
      {
        DraftRow(role, rows[i]);
        DraftAllExtend(old(files), role, rows, i);
      }
      assert rows[..|rows|] == rows;
    }

    /** The whole script: the client loop, then the worker loop. */
    method Run(clients: seq<UsageRow>, workers: seq<UsageRow>)
      modifies this
      ensures files == DraftAll(DraftAll(old(files), Client, clients), Worker, workers)
    {
      DraftNotices(Client, clients);
      DraftNotices(Worker, workers);
    }
  }
}
