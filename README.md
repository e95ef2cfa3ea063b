# Energy-usage notice drafter, modelled in Dafny

This project models the notification drafter of the Smart Light Energy
Management System, `mail.py`. The script reads the overused-clients rows and
the overused-workers rows. For each row it computes the overage
(`extra_hours = actual - allowed`) and skips the row unless the overage is
strictly positive. For a client it computes a charge of 10 rupees per extra
hour and fills in a billing template. For a worker it fills in a warning
template that names no amount. Each notice is saved as
`<folder>/<email>.txt`, holding a `Subject:` line, a `To:` line, a blank
line and the body. Client notices go to `sent_mails/clients` and worker
notices to `sent_mails/workers`. A later notice for the same address
overwrites an earlier one. `send_email` only saves; nothing is transmitted.

Modules:

- `Text` (text.dfy): an `Option` type and the string helpers used to read
  drafted text back (first occurrence of a character, split, strip a prefix).
- `FixedPoint` (fixed_point.dfy): the `{:.2f}` rendering. Quantities are
  whole hundredths, so `Format2(250) == "2.50"`. `Parse2` reads a figure back.
  The two are proved mutually inverse.
- `Notices` (notices.dfy): the `UsageRow` and `Role` datatypes, the overage
  and cost arithmetic, the two body templates, subjects and folders, the
  file path and file text, and parsers that recover every interpolated value
  from the text.
- `Mail` (mail.dfy): the file store as a `map` from path to text. `Save` is
  one save and `Step` one loop iteration. `SaveAll` saves a sequence of
  drafted notices in order, and `DraftAll` (one whole loop) is `SaveAll` over
  the notices of the rows. What overwriting means (last write wins, untouched
  paths keep their files) is proved once about `SaveAll` and then carried over
  to the rows. The `Drafter` class has a `files` field holding the store. Its
  methods `SaveEmail`, `SendEmail`, `DraftClientRow`, `DraftWorkerRow`,
  `DraftNotices` (one row loop) and `Run` (both loops) update it in place.
  Each method is proved equal to the matching function.

Hours are whole hundredths of an hour and money is whole hundredths of a
rupee. The input data is produced already rounded to two decimals
(generate_data.py:26 and generate_data.py:37), so this representation is exact.

## Model

| member | source | states |
|---|---|---|
| `Notices.ExtraHours` | mail.py:43-45 | the overage is positive exactly when actual usage exceeds the allowance, and allowance plus overage is the actual usage |
| `Notices.ExtraCost` | mail.py:48 | the charge is positive exactly when the overage is, and it is exactly ten rupees per extra hour (a multiple of the rate whose quotient is the overage) |
| `Notices.Notice` | mail.py:40-85 | a row yields a notice if and only if actual usage strictly exceeds the allowance; the notice is addressed to the row's email, with its role's folder and subject |
| `FixedPoint.Format2` | mail.py:53-54 | the `{:.2f}` rendering of an amount in hundredths: at least four characters, a point three from the end, and every character a digit or the point; `Parse2OfFormat2` and `Format2OfParse2` prove it is read back exactly |
| `Notices.FilePath` | mail.py:20 | `folder/to.txt`: the folder, a slash, the address and the five further characters, with the address at a fixed place so the path determines it (`FilePathInjective`) |
| `Notices.FileContent` | mail.py:21-24 | the Subject line, the To line, a blank line and the body, in that order; `FileContentRoundTrip` and `ParseFileContentSound` prove each part is recovered and nothing else is written |
| `Notices.ClientBody` | mail.py:50-60 | the billing f-string with the name, the overage and the charge interpolated; `ClientBodyRoundTrip` and `ParseClientBodySound` prove the three values are exactly what can be read from it |
| `Notices.WorkerBody` | mail.py:73-83 | the warning f-string with the name and the overage interpolated; `WorkerBodyRoundTrip` and `ParseWorkerBodySound` prove the two values are exactly what can be read from it, and `OnlyClientBodiesNameAnAmount` that it names no amount |
| `Notices.Body` | mail.py:48-60 | the body of a row with a positive overage: the billing body with the charge at ten rupees per extra hour for a client, the warning body for a worker; `ClientNoticeReadsBack` and `WorkerNoticeReadsBack` state what each shows |
| `Notices.Subject` | mail.py:62 | "Billing Alert: Extra Energy Usage" for clients (mail.py:62) and "Warning: Excessive Usage" for workers (mail.py:85); the read-back lemmas show it is the file's Subject line |
| `Notices.Folder` | mail.py:15-16 | sent_mails/clients for clients and sent_mails/workers for workers, the folders passed at mail.py:62 and mail.py:85; `ClientAndWorkerPathsDiffer` proves they never share a path |
| `Mail.NoticeText` | mail.py:21-24 | the text written for an overused row: its role's subject, its address and its body; `ClientNoticeReadsBack` and `WorkerNoticeReadsBack` prove it reads back as those values |
| `Mail.DraftAll` | mail.py:40-85 | the store after one loop, saving each overused row's notice in row order; `DraftAllExtend` ties it to one more iteration, and `LastNoticeWins`, `UntouchedPathsKeepTheirFiles`, `EveryOveruseIsFiled` and `CompliantRowsLeaveStoreUnchanged` state what it holds |
| `FixedPoint.Parse2OfFormat2` | mail.py:53-54 | reading a two-decimal rendering back gives exactly the amount rendered |
| `FixedPoint.Format2OfParse2` | mail.py:76 | every text the figure reader accepts is exactly the rendering of the amount it reads |
| `FixedPoint.Format2Injective` | mail.py:53 | different amounts never render the same way |
| `Notices.FilePathInjective` | mail.py:20 | within one folder, two notices get the same path string only when they have the same address (the same file, for addresses without `/` on a case-sensitive file system) |
| `Notices.ClientAndWorkerPathsDiffer` | mail.py:15-16 | no client notice path string equals any worker notice path string, so, for addresses without `/`, no worker notice can overwrite a client notice |
| `Notices.FileContentRoundTrip` | mail.py:21-24 | splitting a saved file at its first two line breaks recovers the subject, the address and the body (when subject and address hold no line break) |
| `Notices.ParseFileContentSound` | mail.py:21-24 | every text that splits this way is exactly the file written for the parts it yields, and those parts hold no line break |
| `Notices.ClientBodyRoundTrip` | mail.py:50-60 | the billing body shows the name, the extra hours and the charge, each to two decimals, and all three can be read back from it |
| `Notices.ParseClientBodySound` | mail.py:50-60 | every text the billing-body reader accepts is exactly the billing body of the values it reads |
| `Notices.WorkerBodyRoundTrip` | mail.py:73-83 | the warning body shows the name and the extra hours to two decimals, and both can be read back from it |
| `Notices.ParseWorkerBodySound` | mail.py:73-83 | every text the warning-body reader accepts is exactly the warning body of the values it reads |
| `Notices.OnlyClientBodiesNameAnAmount` | mail.py:73-83 | a warning body has no rupee sign unless the name has one, while every billing body has one |
| `Mail.Save` | mail.py:18-24 | saving sets exactly the file at folder/address.txt to the notice text, adds no other path and keeps every other file |
| `Mail.Step` | mail.py:41-62 | a row within its allowance leaves the store unchanged; an overused row sets its address's file to its notice; every other path keeps its state |
| `Mail.DraftAllExtend` | mail.py:40-62 | the store after the first i+1 rows is one more loop iteration applied to the store after the first i rows |
| `Mail.SaveNothing` | mail.py:18-24 | a run in which no notice is saved leaves every file as it was |
| `Mail.SaveAllKeeps` | mail.py:18-24 | a path that no saved notice goes to keeps its file, or keeps having none |
| `Mail.SaveAllFiles` | mail.py:18-24 | every saved notice leaves a file at its folder/address.txt path |
| `Mail.SaveAllLastWins` | mail.py:21 | a file holds the text of the last notice saved to its path, since each save opens the file for writing and replaces it |
| `Mail.CompliantRowsLeaveStoreUnchanged` | mail.py:45-47 | a loop over rows that are all within their allowance writes nothing |
| `Mail.UntouchedPathsKeepTheirFiles` | mail.py:40-62 | a path that no overused row of the loop targets keeps its file, or keeps having none |
| `Mail.EveryOveruseIsFiled` | mail.py:65-85 | every overused row leaves a file for its address |
| `Mail.LastNoticeWins` | mail.py:21 | after a loop, the path of an address holds the notice of the last overused row with exactly that address string (the file of that address, for addresses without `/` on a case-sensitive file system) |
| `Mail.WorkerLoopKeepsClientFiles` | mail.py:85 | the worker loop neither adds, removes nor changes any path in the clients' folder (so no client file, for worker addresses without `/`) |
| `Mail.RunKeepsLastClientNotice` | mail.py:39-85 | after both loops, each client's file holds the billing notice of that client's last overused row |
| `Mail.ClientNoticeReadsBack` | mail.py:45-62 | a drafted client file reads back as the billing subject, the row's address, its name, its overage and a positive charge of ten rupees per extra hour |
| `Mail.WorkerNoticeReadsBack` | mail.py:70-85 | a drafted worker file reads back as the warning subject, the row's address, its name and its overage, and names no amount |
| `FixedPoint.Format2Example` | mail.py:53-54 | 2.50 hours and 25.00 rupees render as `2.50` and `25.00` |
| `Mail.ClientOverageExample` | mail.py:40-62 | a client allowed 12 hours who used 14.50 sets exactly one file, sent_mails/clients/jane@x.com.txt, to the billing notice for 2.50 hours and 25.00 rupees |
| `Mail.CompliantWorkerExample` | mail.py:65-72 | a worker allowed 0.50 hours who used 0.30 gets no file |
| `Mail.Drafter.constructor` | mail.py:15-16 | the drafter starts from the files the folders already hold |
| `Mail.Drafter.SaveEmail` | mail.py:18-24 | building the path and writing the three parts of the file in order updates the store exactly as `Save` does |
| `Mail.Drafter.SendEmail` | mail.py:26-28 | sending has exactly the effect of saving and no other |
| `Mail.Drafter.DraftClientRow` | mail.py:41-62 | one client iteration (guard, charge, billing body, send) updates the store exactly as `Step` does for a client row |
| `Mail.Drafter.DraftWorkerRow` | mail.py:66-85 | one worker iteration (guard, warning body, send) updates the store exactly as `Step` does for a worker row |
| `Mail.Drafter.DraftRow` | mail.py:40-85 | one iteration of the loop of the given role updates the store exactly as `Step` does |
| `Mail.Drafter.DraftNotices` | mail.py:40-85 | one row loop, run in row order, leaves the store that `DraftAll` describes |
| `Mail.Drafter.Run` | mail.py:39-85 | the script runs the client loop and then the worker loop over the same store |

## Left out

- Reading `data/overused_clients.csv` and `data/overused_workers.csv` (mail.py:7-8) is not modelled; the rows are the parameters of `Run`. Only the four columns the script reads are kept; ID and Role are not.
- Creating the two folders (mail.py:15-16) and the final success message (mail.py:87) are left out. The store has no directories, and a failed `open` (for example an address containing `/` that names a missing folder) is not modelled.
- The commented-out SMTP transport and the sender credentials (mail.py:11-12, mail.py:29-37) never run and are left out.
- Floating point: hours are whole hundredths, so `actual - allowed`, `extra_hours * 10` and `{:.2f}` are exact. The source computes them in binary floating point, which could differ in the last digit only for inputs that are not already rounded to two decimals.
- Missing values (NaN) in the CSV and non-string names or addresses are not modelled.
- The upstream filter that produces the overused files is not part of this repository, and it is not modelled. The drafter's own `> 0` guard is what is verified.
- generate_data.py (random records from `random` and Faker) and main.py (an opaque pre-trained estimator loaded with joblib) are not part of this model.
- Paths are compared as plain strings. The store does no `.`/`..` resolution and no case folding, so an address containing `/` (for example `../clients/jane@x.com`, which reaches the clients' folder from the workers' one) or two addresses that differ only in letter case can name one file on a real file system while the model keeps two paths. The store also holds the text as written, before UTF-8 encoding and before any text-mode newline translation.
- The read-back lemmas need the name, the address and the subject to contain no line break, since the file is split at line breaks. The drafting itself has no such restriction.
