# Verification of the FTP server

A Dafny model of the FTP server in `FTP/server/src`, a subset of RFC 959, with proofs about its
path normaliser, its sessions and their transfer threads, its data path and its event loop.
`dafny verify dfyconfig.toml` checks all of it.

## What is modelled

Four parts of the server, and two small ones they need.

- **Paths.** `connect_dir` works on the bytes of its destination buffer, with a cursor that also
  jumps back. `Normaliser.ConnectDir` is that loop on an array. It is proved, byte for byte,
  against a left fold of path components over a stack (`Paths`), and the fold's own laws
  (confluence, fixpoints, when it fails) are proved beside it. `HostPaths` adds `real_dir`.
- **Sessions and workers.** `Clients` has the command handlers and the dispatch of `interpret` as
  functions on a client record; `Sessions.Session` is the record updated in place, each method
  proved equal to its function. `Server` is a state machine: the main loop, which takes the status
  snapshot and the act on it in two separate steps, interleaved in every possible way with the
  phases of any number of detached workers. `Rounds`, `Transfers`, `Directories` and `Replies` prove
  invariants over all its runs, `Logins` and `Renewal` invariants of one session over the runs that
  keep a rule on its descriptor, and `Exactness` that the rules are just what the results need.
  `Logs` says what the summaries of a log used there mean in terms of the events; `Scenarios` has
  runs that exist.
- **Data path.** `DataPath` has `send_msg` and the copy loops as methods over channels, streams and
  files; the network chooses every short write, every segment and every failure. Whatever
  `send_file` and `recv_file` do to data and session is shown to be moves of the state machine's
  worker.
- **Descriptors.** `Descriptors.Operator` is the event loop's tables and one round of the loop in
  place, whose bound `max_fd` changes in its own body. `Refinement` shows that such a round is a
  run of the state machine.
- **Texts.** `Commands` has the words of a line, `HostPort` and `Decimal` the address text of PORT
  and PASV, `Listing` the size column of LIST.
- **Commands.** `Answers` says of every command line, for every record and every behaviour of the
  system, what it is answered with, what it changes, which host paths it acts on and which worker it
  starts, without naming a handler. `Conversations` says what several commands do together.

A `Say` event in a log stands for a reply that is sent, whether or not its write succeeds. `Lost`
is not a reply: it marks a transfer or a list that has had its 150 and will get no 226.

## Assumptions

- *Orderly.* Login safety, the agreement of a record with the descriptor set and the stability of a
  status snapshot are stated for one session, over runs in which its own connection is not closed
  while a worker is outstanding on it. Other connections may be closed at any time.
  `Exactness.LoginSafeIff`, `Exactness.TableAgreesIff` and `Exactness.SnapshotHoldsIff` show that
  this is exactly what they need: a hang-up keeps them in every continuation if and only if no
  worker of the session is outstanding. Otherwise the next client on the descriptor can become
  available without a login (`Exactness.LoginCanBeBypassed`).
- *Answered.* Conservation of replies holds of every run when it is counted from the start
  (`Replies.ReplyConservation`). Counted from any later event it holds if and only if no 150 is
  pending there, which is to say no worker is busy (`Replies.ConservedSinceIff`,
  `Replies.PendingIsBusy`). So it holds within every single connection over runs in which none of
  them is closed while a worker has still to send its 226; a client may close after reading it.
  Again the rule is exactly what is needed (`Exactness.ConnectionConservedIff`); otherwise the next
  client can get a 226 without a 150 (`Exactness.StrayReplyCanCome`).
- *Prompt.* A fresh data connection for every transfer of a session is stated over runs that are
  orderly on it and in which no command of it that uses a data connection (LIST, or RETR and STOR
  with a name) is read while a worker of it has been created but has not begun. For every single
  line this is exactly what is needed (`Exactness.FreshIffPromptLine`), and so is the order
  (`Exactness.FreshIffOrderlyHangUp`); `Exactness.ConnectionCanServeTwice` is a run without it.
  Taking the creation and the beginning of a worker as one step is a special case
  (`Renewal.FreshWhenEager`); nothing is asked about its 226, release and close.
- All other results over runs hold of every run, also that a round handles every ready descriptor,
  that a member's record is in use, and that a snapshot DISCONNECTED is never taken.
- A `write` that does not fail makes progress; `fwrite` writes everything; `fread` comes up short
  only at the end of a file.
- `accept` returns a descriptor that is not in use, greater than the listening one and less than
  `MAX_CLIENT`; the listening one is greater than 0; `select` reports members of its set.
- A handler is one step of the state machine. The replies of the operating system to a handler's
  calls are a parameter, `Clients.Env`, and arbitrary.
- A command line is complete and holds a word, as the main loop receives it.
- The host path fits in `MAX_BUF` where `real_dir` is performed in place; the source does not check it.

## Where code and documentation differ

The model follows the code. By RFC 959, section 4.1.2, the six numbers of PORT are fields of eight
bits, but the range check (`FTP/server/src/control.c:72-74`) adds to the value instead of the
pointer: only the first octet, to 252, and the high byte of the port, to 254, are checked
(`HostPort.PortAcceptsIff`, `HostPort.PortAcceptsBadOctet`). The round trip with PASV therefore holds exactly for the endpoints
in those ranges (`HostPort.PrintThenPort`). The width of LIST's size column is computed from sizes
cut to 32 bits; `Listing.PadIndexIff` says exactly which sizes can be padded, and
`Listing.SizeTooLarge` gives the smallest one that cannot in a directory of its own.

## Model

| member | source | states |
|---|---|---|
| Normaliser.ConnectDir | FTP/server/src/ftputils.c:20-63 | succeeds exactly when the length check passes and no ".." pops an empty stack; then the buffer holds the surviving components, byte for byte, with a final slash exactly after a last raw component "" or ".."; at most one iteration per character of the joined path; untouched after a refusal by length |
| Normaliser.Normalise | FTP/server/src/ftputils.c:36-62 | the loop alone, from any held rooted string: result, failure and iteration bound as for the fold |
| Normaliser.Iterate | FTP/server/src/ftputils.c:38-60 | one iteration on the bytes is exactly the step on the held string, with every branch and refusal |
| Normaliser.StepKeeps | FTP/server/src/ftputils.c:38-60 | every iteration keeps the part before the cursor settled and the normal form of the whole, strictly shortens the distance to the end, also on the jump back, and never lengthens the string; the guards "previous char is /" and "no previous slash" are never met |
| Normaliser.SettledEnd | FTP/server/src/ftputils.c:38-62 | with the cursor at the end the buffer is its own normal form |
| Normaliser.Comparisons | FTP/server/src/ftputils.c:39-43 | the strncmp calls recognise exactly "//", "/." and "/.." as whole components |
| Normaliser.CutBack | FTP/server/src/ftputils.c:49-56 | cutting with a NUL and moving the tail leaves the text up to the previous slash and the text after "/.." |
| Normaliser.Delete | FTP/server/src/ftputils.c:40-42 | memmove deletes exactly the given characters and keeps the terminator |
| CStrings.MatchesIff | FTP/server/src/ftputils.c:39-43 | strncmp with a literal looks for it at the cursor |
| CStrings.MatchesEnd | FTP/server/src/ftputils.c:41-43 | strncmp with a literal and its NUL looks for it as the whole rest |
| Paths.FoldSucceedsIff | FTP/server/src/ftputils.c:36-62 | the fold succeeds exactly when no prefix of the components climbs above its start; the depth of the result |
| Paths.ConnectSucceedsIff | FTP/server/src/ftputils.c:20-63 | connect_dir succeeds exactly when the lengths fit and no prefix of the raw components climbs above the root |
| Paths.NormIsNormal | FTP/server/src/ftputils.c:25-60 | a result has no "//", "." or ".." and is not longer than the input |
| Paths.NormalIffFixpoint | FTP/server/src/ftputils.c:25-60 | normal forms are exactly the fixpoints |
| Paths.NormConfluent | FTP/server/src/ftputils.c:25-60 | norm(x ++ y) = norm(norm(x) ++ y) for y from a slash on, with the same failures |
| Paths.ConnectTwice | FTP/server/src/ftputils.c:25-60 | applying connect_dir to a and then to a relative b gives what one application to a/b gives, failures included |
| Paths.ConnectFixpoint | FTP/server/src/ftputils.c:25-60 | a non-empty normal path comes back byte for byte from any father |
| Paths.ConnectEnterLeave | FTP/server/src/ftputils.c:25-60 | a simple name followed by ".." restores the components |
| Paths.ConnectIsGood | FTP/server/src/ftputils.c:20-63 | a result is normal and fits its buffer with the terminator |
| HostPaths.RealDir | FTP/server/src/ftputils.c:65-74 | the destination holds root, slash where needed, and path |
| HostPaths.HostPathNames | FTP/server/src/ftputils.c:65-74 | the names of the host path are the root's followed by the session path's |
| HostPaths.NormalStaysWithin | FTP/server/src/ftputils.c:65-74 | a normal session path gives a host path at or below the root |
| DataPath.SendMsg | FTP/server/src/ftputils.c:3-18 | 0 with everything written, -1 exactly after a failing write with a proper prefix written, whatever the short writes |
| DataPath.CopyOut | FTP/server/src/ftputils.c:146-157 | without a failing write the whole file is sent, after exactly size/8192 (rounded down) + 1 reads; a prefix otherwise |
| DataPath.SendFile | FTP/server/src/ftputils.c:137-174 | finishes exactly when no data write fails; then file, 226 and released session; otherwise a prefix, no 226, and a session left in TRANSFER; all of it as moves of the state machine's worker |
| DataPath.CopyIn | FTP/server/src/ftputils.c:185-199 | without a failing read everything that arrives is stored, however segmented; a prefix otherwise |
| DataPath.RecvFile | FTP/server/src/ftputils.c:176-216 | finishes exactly when no read fails; then the stored bytes are those that arrived, with 226 and release; otherwise a prefix and no 226; all of it as moves of the state machine's worker |
| DataPath.Finish | FTP/server/src/ftputils.c:159-169 | the 226, then AVAILABLE, no transfer mode and no data descriptor |
| DataPath.RoundTrip | FTP/server/src/ftputils.c:137-216 | what recv_file stores is what send_file read, for every schedule of short writes and segments without a failure, and a prefix of it with one |
| Transfers.PrefixAlways | FTP/server/src/ftputils.c:146-202 | at every moment of every run what a worker has moved is a prefix of its source, and a 226 can only be sent when it is all of it |
| Transfers.FaithfulMove | FTP/server/src/ftputils.c:146-199 | every move of a worker keeps moved bytes and buffer together equal to what has been read |
| Transfers.StoredIsRead | FTP/server/src/ftputils.c:137-216 | across two servers, each in any run: when both workers have finished, the stored file is the one that was read |
| Decimal.ScanIntIff | FTP/server/src/control.c:64-68 | %d reads white space, an optional sign and the longest run of digits, and nothing else |
| HostPort.ScanSixIff | FTP/server/src/control.c:64-68 | all six numbers are converted exactly when the line is PORT and six such texts joined by commas |
| HostPort.PortAcceptsIff | FTP/server/src/control.c:54-87 | exactly which lines PORT accepts, by that grammar: six numbers, the first up to 252 and the fifth up to 254, none of these two negative; the stored address is always well formed |
| HostPort.PortStores | FTP/server/src/control.c:70-82 | what an accepted line stores: the four listed octets, or 0.0.0.0 if one of them is none, and the port modulo 2^16 |
| HostPort.PrintThenPort | FTP/server/src/control.c:64-144 | the text PASV prints is read back by PORT exactly for a first octet up to 252 and a port up to 65279, to the same address and port |
| HostPort.PortAcceptsBadOctet | FTP/server/src/control.c:64-82 | a line with an octet of 999 is accepted and sets the address 0.0.0.0 |
| HostPort.ScanSixOf | FTP/server/src/control.c:64-68 | six listed numbers are converted to those six numbers |
| HostPort.ReplaceDots | FTP/server/src/control.c:133-140 | the loop replaces every dot in place, and nothing else |
| Decimal.ValueOfDec | FTP/server/src/ftputils.c:110-112 | the printed number denotes the number |
| Decimal.LeadingZero | FTP/server/src/control.c:64-68 | leading zeros do not change the number that digits denote |
| Conversations.StorLine | FTP/server/src/control.c:251-351 | over a connection made in either mode, a STOR of a file that opens gets its 150 and a receiver |
| Decimal.ScanOfDec | FTP/server/src/control.c:64-68 | a printed number is read back, up to what follows it |
| Decimal.DecMonotone | FTP/server/src/ftputils.c:110-122 | larger numbers are not shorter in decimal |
| Listing.FirstPass | FTP/server/src/control.c:433-468 | the largest of 0 and the shown sizes as ints |
| Listing.FieldsAligned | FTP/server/src/ftputils.c:110-122 | for sizes below 2^31: pad index not negative, field exactly as wide as the largest size, and stripping and reading gives the size back |
| Listing.PadIndexIff | FTP/server/src/ftputils.c:110-122 | for any sizes: the pad index is not negative exactly when the size is below the power of ten the width allows, and never from 10^10 on |
| Listing.SizeTooLarge | FTP/server/src/control.c:462-468 | a lone file of 2^31 bytes has pad index -9 |
| Listing.FormatSize | FTP/server/src/ftputils.c:110-122 | the 128 byte table yields the right-aligned size |
| Sessions.Session.Pass | FTP/server/src/control.c:18-40 | in place: the scan accepts exactly an "@" behind the first character |
| Sessions.Session.Pasv | FTP/server/src/control.c:89-147 | in place, with the printed address; a late failure leaves the new socket behind |
| Sessions.Session.Locate | FTP/server/src/control.c:369-378 | connect_dir and real_dir on local buffers yield the fold's path and its host path |
| Sessions.Session.Cwd | FTP/server/src/control.c:360-391 | in place: the directory changes only to an existing normal path |
| Sessions.Session.Rmd | FTP/server/src/control.c:564-588 | return value and the one host path it acts on |
| Sessions.Session.Rnfr | FTP/server/src/control.c:590-616 | in place: the host path is kept only if it exists |
| Sessions.Session.Rnto | FTP/server/src/control.c:618-642 | return value and the two host paths of the rename |
| Sessions.Session.StartTransfer | FTP/server/src/ftputils.c:142-144 | the session enters TRANSFER and nothing else changes |
| Sessions.Session.Release | FTP/server/src/ftputils.c:162-165 | the session is AVAILABLE without a transfer mode and nothing else changes |
| Sessions.Session.CloseData | FTP/server/src/ftputils.c:168-169 | the data descriptor is cleared and nothing else changes |
| Sessions.Session.Interpret | FTP/server/src/interpreter.c:80-370 | in place: record, replies, host paths and worker of the dispatch, for any status snapshot |
| Sessions.Session.Serve | FTP/server/src/interpreter.c:153-362 | the same for the commands of a logged-in session |
| Clients.InterpretShape | FTP/server/src/interpreter.c:80-370 | without a login only the accepted USER and PASS change the record, to the next status; with one, 150, 226, data mode and worker go together in one of six shapes, and directories and host paths stay within the root |
| Clients.ServeShape | FTP/server/src/interpreter.c:153-362 | every command of a logged-in session has one of those shapes |
| Commands.CommandIff | FTP/server/src/interpreter.c:4-78 | a word is read as a command exactly when it is that command's text |
| Commands.FirstWordIff | FTP/server/src/interpreter.c:81-85 | the word that a line is read by is the first between blanks |
| Answers.RetrAnswer | FTP/server/src/control.c:149-249 | 150 exactly when the line is long enough, the data connection of the session's mode is made and the file is opened; a sender exactly when its thread is created too; 504, 502 or 425 by the first failing call |
| Answers.StorAnswer | FTP/server/src/control.c:251-351 | the same, with a receiver |
| Answers.WorkersComeFrom | FTP/server/src/interpreter.c:210-239 | only RETR starts a sender, only STOR a receiver, and only with a snapshot AVAILABLE |
| Answers.ListAnswer | FTP/server/src/control.c:421-562 | always a 150; 226, and the data connection used up, exactly when both opendirs and the data connection succeed; 550 exactly when an opendir or the socket fails |
| Answers.CwdAnswer | FTP/server/src/control.c:360-391 | the directory becomes the named path exactly when there is one and it opens; 250, or 504 |
| Answers.RmdAnswer | FTP/server/src/control.c:564-588 | acts on the host path of the named path and no other; 250, 502 or 504; the record stays |
| Answers.RnfrAnswer | FTP/server/src/control.c:590-616 | keeps the host path of the named path exactly when it exists; 350, 502 or 504 |
| Answers.RntoAnswer | FTP/server/src/control.c:618-642 | renames the kept host path to that of the named path; 250, 502 or 504; the record stays |
| Answers.PortAnswer | FTP/server/src/interpreter.c:186-195 | 200 with the new address and mode exactly for an accepted line, else 504 and nothing changes |
| Answers.PasvAnswer | FTP/server/src/control.c:89-147 | which call fails decides reply, mode and whether the new socket is left behind |
| Answers.PlainAnswer | FTP/server/src/interpreter.c:153-362 | the one reply to SYST, TYPE, QUIT, PWD, MKD and to lines that are no command here, and the one field that TYPE sets |
| Answers.LoginAnswer | FTP/server/src/interpreter.c:97-152 | before the login: which line moves the status, and 331, 230, 500, 503 or 504 for every line |
| Answers.NoAnswer | FTP/server/src/interpreter.c:94-96 | with a snapshot TRANSFER or DISCONNECTED a line has no effect |
| Conversations.RmdWhereCwdEnters | FTP/server/src/control.c:564-588 | RMD of a name acts on the directory that CWD to it would enter |
| Conversations.LoginExactly | FTP/server/src/control.c:4-40 | exactly which lines take a session from CONNECTED to PASSWORD and from there to AVAILABLE |
| Conversations.LoginConversation | FTP/server/src/interpreter.c:97-152 | an anonymous login with a mail address succeeds and changes nothing but the status |
| Conversations.PwdThenCwd | FTP/server/src/interpreter.c:250-275 | the directory PWD prints takes any session to that directory |
| Conversations.CwdTwice | FTP/server/src/control.c:360-391 | two CWDs, the second relative, answer and end as one CWD to the joined path |
| Conversations.RenameConversation | FTP/server/src/control.c:590-642 | RNFR then RNTO renames the one resolved host path to the other |
| Conversations.PassiveThenPort | FTP/server/src/interpreter.c:186-209 | the endpoint of one server's 227 becomes another's data address, exactly in the admitted ranges |
| Descriptors.AddTight | FTP/server/src/operator.c:84-87 | after an accept max_fd is the maximum |
| Descriptors.RescanFinds | FTP/server/src/operator.c:116-124 | the downward search finds the largest member at or below its start |
| Descriptors.RemoveTight | FTP/server/src/operator.c:111-124 | after a disconnect the rescan finds a member, max_fd is the maximum and listenfd still a member |
| Descriptors.Operator.constructor | FTP/server/src/operator.c:47-51 | the state before the loop is valid |
| Descriptors.Operator.RefindMax | FTP/server/src/operator.c:116-124 | the in-place rescan computes that search |
| Descriptors.Operator.Handle | FTP/server/src/operator.c:73-138 | accept, disconnect and command in place: tables, record and count, and max_fd still the maximum |
| Descriptors.Operator.Round | FTP/server/src/operator.c:68-139 | every ready descriptor is handled exactly once, in ascending order, although the bound changes in the loop; each record sees its own input and no other; a connection accepted in the round is not served in it; the table agrees with the set afterwards |
| Descriptors.MidwayAgrees | FTP/server/src/operator.c:68-139 | handling any part of a round keeps table and set in agreement and directories good |
| Descriptors.MidwayEnd | FTP/server/src/operator.c:68-139 | when the loop stops at its current bound nobody ready is left |
| Refinement.RoundIsRun | FTP/server/src/operator.c:53-140 | a round in place is a run of the state machine without worker moves, with the same, and only possible, tables at the end |
| Rounds.TightNext | FTP/server/src/operator.c:84-124 | every step of the server keeps max_fd the maximum |
| Rounds.AlwaysShaped | FTP/server/src/operator.c:53-140 | in every reachable state max_fd is the maximum, listenfd is a member, and whoever the round still has to visit is a member |
| Rounds.AcceptedIsNotReady | FTP/server/src/operator.c:73-102 | an accepted descriptor is not among those of the round |
| Rounds.RoundHandlesAll | FTP/server/src/operator.c:68-139 | in every run, with workers and disconnects at any time, a round handles every ready descriptor exactly once, in ascending order |
| Rounds.MembersInUse | FTP/server/src/operator.c:82-114 | in every run a member other than listenfd has a record in use |
| Rounds.NeverDisconnected | FTP/server/src/interpreter.c:88-96 | in every run a snapshot DISCONNECTED is never taken |
| Directories.NeverOutside | FTP/server/src/control.c:360-642 | over every run every session directory is normal and shorter than MAX_BUF, and every host path that CWD, LIST, RMD, RNFR and RNTO act on is the root followed by simple names, except the empty one that RNTO renames from when there was no RNFR |
| Replies.ReplyConservation | FTP/server/src/ftputils.c:159-202 | over every run, per descriptor: 150s = 226s + workers yet to send theirs + failures, and in every prefix 226s do not exceed 150s (RFC 959, section 5.4) |
| Replies.ConservedSinceIff | FTP/server/src/ftputils.c:159-202 | over every run, from any event of it on: 150s = 226s + workers yet to send theirs + failures exactly when no 150 is pending there, and then no later prefix has more 226s than 150s |
| Replies.PendingIsBusy | FTP/server/src/ftputils.c:159-202 | in every reachable state the pending 150s are those of the workers yet to send their 226 |
| Replies.ConnectionConservation | FTP/server/src/operator.c:82-114 | conservation within each single control connection since its own 220, over runs in which none is closed before its workers have sent their 226 (RFC 959, section 5.4) |
| Logins.LoginSafety | FTP/server/src/interpreter.c:88-153 | over every interleaving that is orderly on the session: in AVAILABLE or TRANSFER, or with an outstanding worker, it has had an accepted USER and then an accepted PASS since its own accept |
| Logins.TableAgreement | FTP/server/src/operator.c:82-114 | over runs orderly on it, a record is in use exactly when its descriptor is a member other than listenfd |
| Logins.SnapshotStability | FTP/server/src/interpreter.c:88-153 | over runs orderly on the session: a snapshot CONNECTED or PASSWORD is still the status when acted on; for AVAILABLE it is then AVAILABLE or TRANSFER |
| Logs.TrackStage | FTP/server/src/interpreter.c:97-152 | the summary of a log says which of accept, USER and PASS have happened, in order, on the present connection |
| Logs.TrackCounts | FTP/server/src/control.c:231-248 | the summary counts 150s, 226s and failures |
| Logs.RenewedMeans | FTP/server/src/control.c:85-141 | the summary says that a PORT or PASV lies between any two completions |
| Renewal.FreshConnection | FTP/server/src/control.c:160-205 | over every interleaving that is prompt on the session: before each of its completed transfers and lists, and after the one before, there is a successful PORT or PASV of it |
| Clients.ServeQuiet | FTP/server/src/interpreter.c:153-362 | a command other than LIST, RETR and STOR with a name changes the transfer mode only by announcing a data connection, and begins no transfer |
| Renewal.FreshWhenEager | FTP/server/src/control.c:242-248 | in particular when a worker's creation and its beginning are one step |
| Exactness.LoginSafeIff | FTP/server/src/operator.c:104-126 | a hang-up keeps login safety in every continuation exactly when no worker of the session is outstanding; otherwise some continuation makes the next client on the descriptor available without a login |
| Exactness.TableAgreesIff | FTP/server/src/operator.c:104-126 | the same condition is exact for the agreement of record and descriptor set |
| Exactness.SnapshotHoldsIff | FTP/server/src/interpreter.c:88-153 | and for the stability of the snapshot |
| Exactness.FreshIffPromptLine | FTP/server/src/control.c:160-205 | reading a given line keeps fresh connections in every continuation exactly when it uses no data connection or no worker of the session has still to begin; otherwise the worker and the list or second worker complete over one PORT or PASV |
| Exactness.FreshIffOrderlyHangUp | FTP/server/src/operator.c:104-126 | a hang-up keeps fresh connections in every continuation exactly when no worker of the session is outstanding |
| Exactness.ConnectionConservedIff | FTP/server/src/operator.c:104-126 | a hang-up keeps conservation within connections in every continuation exactly when no worker of the session has still to send its 226; otherwise some continuation sends it to the next client |
| Exactness.StrayReplyCanCome | FTP/server/src/ftputils.c:159-160 | from the start, a run in which a client gets a 226 and has had no 150 |
| Exactness.LoginCanBeBypassed | FTP/server/src/ftputils.c:162-165 | from the start, a run after which a connected client is available and has not logged in |
| Exactness.ConnectionCanServeTwice | FTP/server/src/control.c:421-562 | from the start, a run orderly on the session in which two completions have no PORT or PASV between them |
| Scenarios.FileDelivered | FTP/server/src/ftputils.c:137-174 | from the start, for every proper client and every file, a prompt run in which login, PORT and RETR put the whole file on the data channel and get a 226 |
| Scenarios.FileStored | FTP/server/src/ftputils.c:176-216 | from the start, for every proper client, a prompt run in which login, PORT and STOR store all the bytes that arrive and get a 226 |
| Scenarios.Completes | FTP/server/src/ftputils.c:137-216 | a sender or receiver in any state before its 226 can always come to it, with all of its data moved |
| Scenarios.EndsRound | FTP/server/src/operator.c:68-139 | behind the listening descriptor a round can always be ended without changing any record, worker or table |
| Conversations.SilentIff | FTP/server/src/interpreter.c:210-239 | exactly which commands of a logged-in session get no reply at all |
| HostPort.PortStoresListedIff | FTP/server/src/control.c:64-82 | when the stored endpoint is the listed one: exactly when octets two to four are octets and the two port numbers together are a 16-bit number |
| Listing.SizeFields | FTP/server/src/control.c:433-546 | both passes: the largest size; as many fields as shown entries; the field of each stands behind those of the entries before it, is as wide as the largest size, and strips to its size |
| Listing.ShownExactly | FTP/server/src/control.c:443-460 | ".", ".." and entries that stat fails on have no field, all others have |
| Listing.FittingIsPaddable | FTP/server/src/control.c:433-546 | any directory with sizes below 2^31 meets the condition of the two passes |
| Sessions.HostFitsWhenShort | FTP/server/src/ftputils.c:65-74 | the host path fits its buffer whenever root, directory and name together are short enough |

## Left out

- The kernel: sockets, `select`, threads, `stat`, `opendir`, `rename` and `fopen` are answers in `Clients.Env` or choices of the model; no symbolic links.
- The paths of RETR, STOR and MKD: they ignore the result of `connect_dir`, and absolute MKD does not normalise (`FTP/server/src/control.c:211`, `FTP/server/src/control.c:313`, `FTP/server/src/control.c:403-410`); they are session steps only.
- The buffer after a failing `connect_dir`, and `real_dir` on it: the callers that check the result discard both.
- HostPaths.RealDir: stated only for host paths that fit in `MAX_BUF`, because the source copies longer ones past the end of its buffer, where C gives it no meaning; `Sessions.HostFitsWhenShort` says when they fit.
- Sessions.Session.Locate: the same condition on the host path, for the same reason.
- Sessions.Session.Cwd: the same condition.
- Sessions.Session.Rmd: the same condition.
- Sessions.Session.Rnfr: the same condition.
- Sessions.Session.Rnto: the same condition.
- Sessions.Session.Serve: the same condition, for CWD, RMD, RNFR and RNTO lines only; the whole-run results use the functions of `Clients`, which are not restricted.
- Sessions.Session.Interpret: the same condition, with a snapshot AVAILABLE only.
- More about the methods of `Sessions.Session` without a loop or buffer (`User`, `Type`, `Port`, `OpenData`, `Transfer`, `List`): they are proved equal to the functions of `Clients`, whose outcomes `Answers` describes.
- A conclusion that every command gets a reply: it is false of the code, and `Conversations.SilentIff` says of which commands.
- A call of `Sessions.Session.Interpret` from `Descriptors.Operator.Handle`: the operator holds records as values and calls `Clients.Interpret`, to which the in-place dispatch is proved equal; that dispatch stands by itself.
- "RNTO needs RNFR", and a count of clients online: the code enforces neither; `client_cnt` only grows (it is in `Descriptors.Operator`).
- Listing.SizeFields: stated for directories in which no size has more digits than the width (`Listing.Paddable`); for any other the code writes in front of its table, where C gives it no meaning.
- Listing.FormatSize: requires a pad index that is not negative, for the same reason.
- HostPort.PortAcceptsIff: the numbers of `sscanf` are unbounded here, and the text buffer for the address is not modelled.
- Scenarios.FileDelivered: a run that exists, not one that every scheduler takes; the model has no fairness.
- Line framing, blank lines and the shared input buffer: one complete command line for each step.
- `send_msg` to the control connection failing in a handler: the code ignores it too. A failing write of the 220, or a failing `select` or `accept`, ends the server and the run.
- Interleaving inside a handler: a handler reads `data_fd` more than once while a worker of the same session may clear it; a worker's channel is fixed when the worker is created.
- Storage of `dir` and `rndir`: strings in the record; the buffers of `connect_dir`, `real_dir`, the address text and the size table are arrays.
- The directory passes of `list` are in `Listing`, apart from the session step `Sessions.Session.List`; the bytes of a list on its data connection are not modelled.
- Owner, time and permission text of a list, the wording of replies beyond their code and argument, command-line parsing in `server.c`.
- The fields `control_fd` and `connect_method`, which nothing uses.
- The clients, the `tcp` and `udp` programs and `autograde.py`.
