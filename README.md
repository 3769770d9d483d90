# GroundSeg pier registry, ship-name check and upload/meld sweep in Dafny

This project models the core of GroundSeg, the controller that runs Urbit
ships ("piers") in docker containers on a home server:

- the pier registry `Urbit` (api/urbit.py): the per-pier configuration
  records and their JSON files, the ordered pier list, the containers and the
  upload status, with every operation that edits them — port allocation,
  create and boot, start and delete, the power, autostart, network, loom,
  meld and URL toggles, the meld schedule, anchor (WireGuard relay)
  registration and its poll, custom domains and the DNS check, the listing
  and detail views and the lens-address scan;
- the ship-name (@p) check `Utils.check_patp` (api/utils.py), with its two
  syllable tables, against an independent definition of a well-formed name;
- the chunked assembly of an uploaded pier archive in `pier_upload` and one
  sweep of `meld_loop` (api/groundseg.py).

Files and modules:

| file | module | what it holds |
|---|---|---|
| wrappers.dfy | Wrappers | `Option` |
| strings.dfy | Strings | `split`, `join`, slicing, `str`/`int` of naturals, list filtering |
| patp.dfy | Patp | the syllable tables, `check_patp`, the reference ship-name predicate and the lemmas about them |
| pierdata.dfy | PierData | the configuration record, its defaults, `build_config`, the saved document and the default merge of `load_config`, the display URL |
| meldclock.dfy | MeldClock | the timestamp arithmetic of `send_meld` and `schedule_meld`, the `HHMM` format |
| anchor.dfy | Anchor | the service scan, the registration calls and the poll of `register_urbit` |
| urbits.dfy | Urbits | the class `Urbit` and the functions that specify its methods |
| groundseg.dfy | GroundSeg | `pier_upload` (class `Uploads`) and the meld sweep |

The state the source changes in place is the state of two classes:
`Urbits.Urbit` holds `urbits` (`_urbits`), `piers` (`config['piers']`),
`files` (the `settings/pier/<patp>.json` files), `containers` (docker
containers by name, with their running flag) and `uploadStatus`;
`GroundSeg.Uploads` holds the upload files as byte sequences. Every method
states its whole new state; loops carry their invariants.

Everything outside the process is a parameter: what docker, MinIO, the
WireGuard relay, the lens command, `getaddrinfo` and the clock answer is
passed in, one argument per call (`minioOk`, `dockerStatus`, `createOk`,
`replies`, `lookups`, `now`, ...). A loop that waits on the outside world
without a bound (the anchor poll) consumes a finite sequence of answers and
reports `Stalled` when it runs out.

Where the written description of the system and the code differ, the model
follows the code:

- the first pier gets ports 8081 and 34344 (one above the bases 8080 and
  34343), api/urbit.py:413-423;
- the poll's `tries` counter stops at 16, so the back-off tops out at 32
  seconds, api/urbit.py:789-793;
- `toggle_network` changes only `network`; the `wg_*` fields stay,
  api/urbit.py:523-526;
- `~sampaltux`, nine letters in one segment, is invalid: every segment must be
  six letters, api/utils.py:56-63;
- `send_meld` sets `meld_last` before parsing `meld_time`, so a `meld_time`
  that does not parse leaves `meld_last` changed and unsaved,
  api/urbit.py:674-681;
- `toggle_meld` answers 200 in every case, api/urbit.py:614-632;
- a file name with an unrecognised ending extracts nothing and still boots,
  api/urbit.py:284-322;
- `save_config` opens the file for writing before looking up the record, so
  for an unknown pier it leaves an empty (invalid) file, api/urbit.py:1058-1066;
- after a meld, `meld_next` is today at the scheduled HH:MM plus
  `meld_frequency` days, so it can fall less than `meld_frequency` days after
  the meld (a meld at 23:00 scheduled for 01:00 with a frequency of one day is
  next due two hours later), api/urbit.py:677-681;
- the meld sweep sends `|meld` only, without the `|pack` before it that
  `send_pack_meld` sends, api/groundseg.py:157-158.

## Model

| member | source | states |
|---|---|---|
| Patp.CheckPatpMeaning | api/utils.py:27-65 | `check_patp` accepts a string exactly when, less one leading `~`, it does not begin with `doz` and is a ship name: a suffix syllable, or one or more six-letter words (prefix syllable + suffix syllable) joined by `-` |
| Patp.CheckPatpInMeaning | api/utils.py:33-63 | the same equivalence for any two tables of three-letter syllables, relating the segment scan to the existence of a word list whose join is the name |
| Patp.PrefixSyllables | api/utils.py:41-45 | the prefix table splits into exactly 256 syllables of three lower-case letters |
| Patp.SuffixSyllables | api/utils.py:42-46 | the suffix table splits into exactly 256 syllables of three lower-case letters, the first `zod`, no later one holding a `z` |
| Patp.SigilStripped | api/utils.py:33-34 | a name and the same name behind one `~` are judged alike; any name behind `~~` is invalid |
| Patp.NonStringRejected | api/utils.py:29-30 | a value that is not a string is invalid |
| Patp.DozRule | api/utils.py:37-41 | every name beginning with `doz` after the sigil is rejected; `doz` is a prefix syllable and no suffix; `dozzod` is a ship name yet rejected |
| Patp.GalaxyRule | api/utils.py:49-50 | a name of three characters after the sigil is valid exactly when it is a suffix syllable |
| Patp.EmptySegmentsRejected | api/utils.py:53-63 | the empty name, a bare `~`, and names with a leading, trailing or doubled `-` are invalid |
| Patp.ForeignFirstRejected | api/utils.py:49-63 | a name whose first character after the sigil is no letter is invalid |
| Patp.AcceptsWords | api/utils.py:53-65 | any number (at least one) of words joined by `-` is accepted unless it makes three letters or starts with `doz` |
| Patp.ValidExamples | api/utils.py:41-65 | `~zod` and `~sampel-palnet` are valid |
| Patp.RunTogetherRejectedIn | api/utils.py:56-63 | `~sampaltux`, nine letters in one segment, is rejected |
| Patp.Normalise | api/utils.py:33-34 | exactly one leading `~` is removed, if present |
| Patp.Syllables | api/utils.py:45-46 | the table cut into three-character pieces, in order, the last possibly shorter |
| PierData.BuildConfig | api/urbit.py:426-433 | the defaults with exactly the name and the two ports replaced |
| PierData.SaveLoadRoundTrip | api/urbit.py:1047-1066 | loading the document `save_config` wrote gives back the record unchanged |
| PierData.EmptyFileLoadsDefaults | api/urbit.py:1051 | a file with no keys loads as `default_pier_config` |
| PierData.PartialFileLoadsBuiltConfig | api/urbit.py:1051 | a file with only the name and ports loads as the record `build_config` makes |
| PierData.LoadSaveLoad | api/urbit.py:1047-1066 | load, save, load is the same as load |
| PierData.DisplayUrl | api/urbit.py:192-201 | a local pier's URL is `http://<host>.local:` followed by its HTTP port, and what follows the prefix reads back as that port (after a `-` when it is negative); a WireGuard pier's is the anchor URL, or the custom domain when it is set and chosen |
| MeldClock.FormatMeldTime | api/urbit.py:586-596 | the stored `meld_time` is four characters |
| MeldClock.Pad2 | api/urbit.py:586-594 | a zero-padded two-digit string |
| MeldClock.MeldTimeRoundTrip | api/urbit.py:586-596 | the `HHMM` string reads back (through `int` of its two halves) as the hour and minute given, and is all digits |
| MeldClock.DefaultMeldTime | api/urbit.py:25-48 | the default `0000` is midnight |
| MeldClock.NextMeldPlacement | api/urbit.py:677-681 | after a meld, `meld_next` lies at the scheduled time of day, `freq` days after today |
| MeldClock.NextMeldAfterNow | api/urbit.py:677-681 | with a frequency of a day or more `meld_next` is after now, and always within a day of now + `freq` days |
| MeldClock.RescheduledPlacement | api/urbit.py:577-584 | rescheduling places `meld_next` at the new HH:MM of its day, keeps its seconds, and moves its day by the change of frequency |
| MeldClock.RescheduleUnchanged | api/urbit.py:577-584 | rescheduling to the same frequency and the time of day `meld_next` already has changes nothing |
| MeldClock.RescheduleTwice | api/urbit.py:577-584 | two reschedules compose into one by the total change of frequency |
| MeldClock.ParseMeldTime | api/urbit.py:677-678 | parses exactly when both halves parse as `int` |
| Anchor.ThirdLabelFromEnd | api/urbit.py:738 | defined exactly for URLs with three or more labels, giving a label without `.` |
| Anchor.ScanServices | api/urbit.py:737-750 | the five flags say which services some entry registers for the pier; the first URL with fewer than three labels makes it raise |
| Anchor.RegistrationCalls | api/urbit.py:752-760 | `patp`/`urbit` is registered unless both urbit services exist; `s3.patp`/`minio` unless all three minio services exist; nothing else |
| Anchor.PubUrlDropsFirstLabel | api/urbit.py:775 | the public URL is the endpoint with its first label dropped |
| Anchor.PubUrlOfSingleLabel | api/urbit.py:775 | an endpoint without a `.` gives an empty public URL |
| Anchor.Note | api/urbit.py:779-787 | an entry whose URL is none of the four expected ones records nothing |
| Anchor.NoteKeepsProvenance | api/urbit.py:778-787 | reading an offered `ok` entry keeps every recorded value traceable to an `ok` entry under exactly its expected URL |
| Anchor.ReadRound | api/urbit.py:777-794 | one pass over the entries ends with the values `ReadEntries` gives and sleeps once, for `tries * 2` seconds, exactly when it stopped at an entry that is not `ok`; `tries` follows the sleeps, every sleep is its back-off and every value keeps its provenance |
| Anchor.ReadStopped | api/urbit.py:788-794 | once a pass has stopped at an entry that is not `ok`, the entries after it are never read |
| Anchor.ReadSleepsOnNotOk | api/urbit.py:777-794 | a pass sleeps exactly when some entry of it is not `ok` |
| Anchor.ReadAllOk | api/urbit.py:777-787 | a pass over `ok` entries reads all of them without sleeping: the service URL is set when some entry is under `patp.pub`, and each port is that of the last entry under its URL, or what it was before when there is none |
| Anchor.UrlsDiffer | api/urbit.py:779-786 | the four expected URLs are pairwise different, so an entry sets the values of at most one of them |
| Anchor.LastPortListed | api/urbit.py:779-787 | when some entry is under the URL, the port read is that of such an entry, whatever was known before |
| Anchor.PollAnchor | api/urbit.py:762-796 | the answer is the poll's outcome over the given answers: Ready with the five values as soon as all are known, Stalled otherwise; it sleeps once for every pass that stopped, the i-th sleep being the i-th back-off; a Ready service URL is `patp.pub` and each port came from an offered `ok` entry under its exact URL |
| Anchor.PollDone | api/urbit.py:769 | once the five values are known the loop ends: later answers change nothing |
| Anchor.ReadyStays | api/urbit.py:769-796 | a poll that finished answers the same however many answers follow |
| Anchor.FullRoundReady | api/urbit.py:769-796 | an unfinished poll that receives an answer whose entries are all `ok` with a port and cover the four expected URLs finishes on it: the service URL is `patp.pub` and each port is the last one that answer gives under its URL |
| Anchor.BackoffSchedule | api/urbit.py:789-793 | the back-off grows by two seconds a round to 32 seconds and stays there |
| Anchor.OfferedGrows | api/urbit.py:771-774 | the relay data seen after some rounds is still offered after all of them |
| Urbits.NextNetwork | api/urbit.py:523-526 | the new network is `wireguard` or `none` |
| Urbits.NetworkToggleTwice | api/urbit.py:523-526 | with WireGuard registered and running, toggling twice restores either mode; otherwise the pier ends on `none`; `wireguard` always goes to `none` |
| Urbits.NextAutostart | api/urbit.py:488-494 | `off` becomes `boot` for a running pier and `noboot` otherwise; anything else becomes `off` |
| Urbits.Melded | api/urbit.py:674-681 | a successful meld sets `meld_last` to now and changes only `meld_next` besides; the rest runs exactly when `meld_time` parses to a clock time |
| Urbits.MeldedSchedule | api/urbit.py:674-681 | after a successful meld the next is at the scheduled time of day, `meld_frequency` days after today, and after now for a frequency of a day or more |
| Urbits.MinioEndpoint | api/urbit.py:814-835 | the custom S3 domain if set, else `s3.` and the anchor URL |
| Urbits.MinioEndpointFollowsAlias | api/urbit.py:945-992 | a custom S3 domain that was set is used; once deleted the anchor's S3 URL is used again |
| Urbits.ListedExactly | api/urbit.py:180-211 | every entry belongs to a listed pier with a container and a record and shows its running state, URL and remote flag; every such pier has an entry; there are no more entries than listed names |
| Urbits.ListedDistinct | api/urbit.py:180-211 | with no name listed twice no two entries share a name, so (with `ListedExactly`) each listed pier with a container and a record has exactly one entry |
| Urbits.NextPortUnique | api/urbit.py:413-423 | the free-port rule fixes the port, so repeated allocations from the same registry agree |
| Urbits.FirstPorts | api/urbit.py:413-423 | with no pier the first ports are 8081 and 34344 |
| Urbits.AddedOnceAtEnd | api/urbit.py:713-714 | after `add_urbit(p)` the list holds `p` once, last, and every other name as often and in the same order as before |
| Urbits.BucketMembers | api/urbit.py:165-170 | a `start_all` bucket holds exactly the piers whose start reported its key |
| Urbits.ReloadedExactly | api/urbit.py:165-166 | after `start_all` exactly the listed piers with a loadable file hold the record their file gives; every other record is unchanged |
| Urbits.MarkedExactly | api/urbit.py:165-166 | after `start_all` the running containers are those running before and those sorted `succeeded`; none is removed |
| Urbits.Rebuilt | api/urbit.py:921-935 | other containers are untouched; a missing container stays missing; a stopped one survives exactly when the removal fails or the new creation succeeds; a running one is started again |
| Urbits.InfoMatchesListing | api/urbit.py:180-211 | the details `get_info` gives for a listed pier match its `list_ships` entry |
| Urbits.LaunchAnswers | api/urbit.py:231-241 | the launch succeeds exactly when the container is created, registration is not needed or its first scan passes and its poll finishes, and MinIO and the docker start succeed; it hangs exactly when the container is created and the registration poll never finishes; a launch that starts answers the start's answer on the saved record |
| Urbits.ExistingAnswers | api/urbit.py:247-264 | booting an uploaded pier answers 200 exactly when the launch succeeds and never answers exactly when registration never does; `create_existing` answers `succeeded` exactly when the launch does, the start's answer whenever the start runs, and `Failed to boot <patp>` when creation or registration fails |
| Urbits.Urbit.constructor | api/urbit.py:55-80 | the registry starts with the given list, files and containers, no record loaded, and the name check fixed to `check_patp` |
| Urbits.Urbit.SaveConfig | api/urbit.py:1058-1066 | the file holds the record afterwards exactly when the pier has one; otherwise it is left empty |
| Urbits.Urbit.LoadConfig | api/urbit.py:1047-1056 | a readable file replaces the record by its keys over the defaults; a saved record is unchanged by it |
| Urbits.Urbit.Start | api/urbit.py:83-91 | `failed` without a loadable file, None when MinIO fails, else the docker status; the container runs after exactly a `succeeded` start |
| Urbits.Urbit.StartAll | api/urbit.py:158-177 | the four buckets are the piers sorted by their start status, in order; the records and containers are those of starting every pier in turn |
| Urbits.Urbit.Delete | api/urbit.py:98-128 | 200 exactly when the container was deleted and the file and record existed; every earlier step stays done on a failure |
| Urbits.Urbit.ListShips | api/urbit.py:180-211 | the entries are the listing of the pier list |
| Urbits.Urbit.GetInfo | api/urbit.py:355-409 | 400 without a container; raises without a record or with an unparsable `meld_time`; otherwise the details show the pier's URL, state, flags and meld time |
| Urbits.Urbit.GetOpenUrbitPorts | api/urbit.py:413-423 | each port is above its base and every port in use, and the least such value |
| Urbits.Urbit.TogglePower | api/urbit.py:436-457 | 400 without a container, raises without a record; a running pier is stopped (400 and no change if the stop fails), then answers 400 if `off` or is marked `noboot`, saved, 200; a stopped pier answers 400 if `off`, else is marked `boot`, saved and started, 200 exactly when the start succeeds, and then running |
| Urbits.Urbit.ToggleAutostart | api/urbit.py:481-504 | 200 exactly when the container and record exist; the new `boot_status` is the autostart toggle, saved |
| Urbits.Urbit.Recreate | api/urbit.py:531-536 | the container is created again and runs only if it was running before and the start succeeds |
| Urbits.Urbit.ToggleNetwork | api/urbit.py:506-543 | only `network` changes, to the next mode, and is saved; the container is recreated and restarted only if it was running |
| Urbits.Urbit.SetLoom | api/urbit.py:545-572 | only `loom_size` changes and is saved; the container is recreated and restarted only if it was running |
| Urbits.Urbit.ScheduleMeld | api/urbit.py:574-612 | 200 exactly for a known pier and a valid clock time; `meld_next` is rescheduled, `meld_time` stored as `HHMM` that reads back as the time given, the frequency replaced, all saved |
| Urbits.Urbit.GetLoopbackAddr | api/urbit.py:700-707 | the last word of the last log line announcing the loopback address; None exactly when there is no log or no such line |
| Urbits.Urbit.SendMeld | api/urbit.py:661-696 | a failed exec changes nothing; a successful one applies `Melded` and saves exactly when `meld_time` parses |
| Urbits.Urbit.SendPackMeld | api/urbit.py:634-659 | 200 exactly when pack and meld succeed and the meld time parses, and then only the pier's file is rewritten, from its melded record; on 400 no file changes; the record is melded whenever both commands succeed and unchanged otherwise |
| Urbits.Urbit.ToggleMeld | api/urbit.py:614-632 | always 200; `meld_schedule` flips and is saved; a pier now scheduled and due whose pack and meld succeed is melded, and saved again when its meld time parses; only the pier's file changes, and nothing without a record |
| Urbits.Urbit.AddUrbit | api/urbit.py:710-720 | the pier moves to the end of the list, every other occurrence removed |
| Urbits.Urbit.SetWireguardNetwork | api/urbit.py:800-811 | the anchor URL and four ports are stored and saved; False without a record |
| Urbits.Urbit.RegisterUrbit | api/urbit.py:723-798 | True at once without WireGuard; with it, raises exactly when the first scan meets a URL of fewer than three labels, never answers exactly when the poll does not finish, and otherwise answers True exactly for a pier with a record; the registration calls follow the scan and there is one back-off sleep for each pass that stopped; on True only the pier's anchor fields change, to the polled values, each traceable to the relay, and only its file is rewritten; on any other answer nothing changes |
| Urbits.Urbit.UpdateWireguardNetwork | api/urbit.py:881-942 | stores URL, ports and alias; only if something differs is it saved and, for a WireGuard pier, the container rebuilt |
| Urbits.Urbit.Rebuild | api/urbit.py:921-935 | the containers become `Rebuilt` of the old ones; the records are unchanged |
| Urbits.Urbit.DnsRecord | api/urbit.py:994-1023 | True exactly when one of the first three attempts resolves both names to the same address; the sleeps are 2, 4, 6 seconds after each miss |
| Urbits.Urbit.SetMinio | api/urbit.py:814-835 | 200 and the S3 endpoint when the service account is created, else 400 |
| Urbits.Urbit.CustomDomain | api/urbit.py:945-992 | per service and operation: set needs the alias to resolve like the anchor and the anchor to accept it, delete needs the anchor; on success the domain fields change and only the pier's file is rewritten from them; anything else is 400 with nothing changed |
| Urbits.Urbit.SwapUrl | api/urbit.py:1026-1040 | `alias` becomes `default` and anything else `alias`, and only the pier's file is rewritten; 400 and nothing changed without a record |
| Urbits.Urbit.NewRecord | api/urbit.py:222-228 | the new record is `build_config` with the next free ports, saved; every other record is unchanged |
| Urbits.Urbit.Launch | api/urbit.py:231-241 | answers how far the launch got as a function of the external answers: not created, registration failed, registration never answering, or the start's answer on the saved record; nothing changes without a container; otherwise the record gets the polled anchor values exactly when registration stored them, stays saved, and no other record or file changes; the pier is listed last and its container runs exactly after a `succeeded` launch |
| Urbits.Urbit.Create | api/urbit.py:214-245 | 400 and nothing changed for an invalid name; otherwise the record is `build_config` on the next free ports (with the anchor values when the launch stored them), saved, no other record or file changed; 200 exactly when the old container was deleted and the launch succeeded, `Stalled` exactly when it was deleted and the launch never answers, else 400; the container is gone after a failed create, and runs exactly on 200; the pier is listed last exactly when the container was created |
| Urbits.Urbit.CreateExisting | api/urbit.py:325-352 | as `create` without the delete, after marking the upload `booting`: the start's answer when the launch reaches the start, `Failed to boot <patp>` when creation or registration fails, and no answer when registration never answers; the container runs exactly when the answer is `succeeded` |
| Urbits.Urbit.ExtractPier | api/urbit.py:267-322 | an archive that does not open answers `File extraction failed` with the status left at `setup`; a failed extraction answers the same with the status at `extracting` of the total member size; otherwise, and for an unrecognised file ending, it answers `to-create` with the status at `cleaning`; only the pier's status changes |
| Urbits.Urbit.BootExisting | api/urbit.py:247-264 | an invalid pier name answers `File is invalid` and changes nothing; a failed extraction answers `File extraction failed`, drops the pier's upload status and changes nothing else; once extracted, 200 exactly when the launch succeeds, no answer (status `booting`) when registration never answers, and otherwise the start's answer or `Failed to boot <patp>` with the upload status dropped; 200 marks the upload `done` with the pier listed last and running; only the pier's record and file change |
| Urbits.Urbit.BootExtracted | api/urbit.py:257-262 | after extraction: 200 exactly when the boot succeeds, marking the upload `done`; `booting` kept while registration never answers; otherwise the boot's answer with the upload status dropped; only the pier's record and file change, the container runs exactly on 200 and the pier is listed last exactly when the container was created |
| GroundSeg.ChooseSession | api/groundseg.py:272-275 | the query argument exactly when its string form has 64 characters, else the cookie |
| GroundSeg.ShortArgumentUsesCookie | api/groundseg.py:274-275 | an argument of any other length, or none, gives the cookie |
| GroundSeg.StoreChunk | api/groundseg.py:297-319 | chunk 0 removes the file; a successful write appends the data, whatever the offset; other files are untouched |
| GroundSeg.DeliveredAssembles | api/groundseg.py:297-315 | the chunks of one upload stored in order assemble into the concatenation of their data, whatever was there before |
| GroundSeg.Uploads.PierUpload | api/groundseg.py:271-336 | no known session is 404 with nothing changed; otherwise the chunk is stored; a failed write is `Can't write file`; a non-final chunk 200; a final chunk `File size mismatched` or the boot's answer |
| GroundSeg.Turn | api/groundseg.py:155-158 | only the due pier's record and file change, to the melded record when the lens command succeeds |
| GroundSeg.Sweep | api/groundseg.py:150-160 | a pass finishes at most every pier and keeps the set of records |
| GroundSeg.MeldTurn | api/groundseg.py:157-158 | looking up the lens address and sending the meld (without a pack) is the `Turn` of the pier |
| GroundSeg.MeldSweep | api/groundseg.py:147-162 | the loop leaves the records, files, sent list and count that `Sweep` gives |
| GroundSeg.SweepStops | api/groundseg.py:155-160 | the pass stops exactly at the first pier that was due and whose lookup raised, and finishes every pier before it |
| GroundSeg.SweepSendsDue | api/groundseg.py:155-158 | a pier is sent a meld exactly when the pass got past its turn and it had `meld_schedule` on and `meld_next` at or before that turn's clock |
| GroundSeg.SweepRecords | api/groundseg.py:150-160 | each record after a pass is melded exactly when its turn came, it was due and the lens command succeeded; otherwise unchanged |
| GroundSeg.MeldedNotDueAgain | api/groundseg.py:155-158 | a pier melded successfully with a frequency of a day or more is not due again at the same clock |

## Left out

- Docker, MinIO, the WireGuard relay, the lens command, `getaddrinfo`,
  `socket.gethostname` and the clock are not modelled; their answers are
  parameters of the methods that call them.
- JSON files are modelled as a map from pier name to the parsed document;
  a key holding a value of the wrong type is not modelled, and writing a
  file is assumed to succeed.
- Archives are not read: `extract_pier` takes the member sizes (or None if
  the archive cannot be opened) and whether extraction succeeded. A `.tar`
  file is opened as gzip by the source; which archives open is part of that
  parameter. The removal of the uploaded directory uses `ignore_errors`, so
  its failure branch (`Failed to remove`) cannot be reached and is not
  modelled.
- Urbits.Urbit.constructor: the wait for updater information before
  `start_all` (api/urbit.py:65-78) is a sleep loop on another object and is
  left out; the call to `start_all` is `StartAll`.
- The registry's name check is the field `validName`, fixed to
  `check_patp` by the constructor's precondition, so that the registry's
  proofs do not unfold the syllable tables.
- Urbits.Urbit.Delete: the relay and MinIO deletions are assumed not to
  raise; the save of `system.json` is not modelled.
- Urbits.Urbit.ToggleNetwork, SetLoom: the container removal is assumed to
  succeed.
- The time zone: every conversion is taken in UTC on a UTC host, so "today
  at HH:MM" is the start of the day plus HH hours and MM minutes.
- `int()` of a string is modelled for decimal digits only (no sign, no
  spaces, no underscores).
- The meld sweep models one pass; `meld_loop`'s endless repetition and its
  30-second sleep are left out. The orchestrator's per-pier objects
  (api/orchestrator.py is not part of this model) are modelled as the
  records of the registry, and a pier whose lens lookup raises sends no meld.
- Anchor.PollAnchor: the real poll has no bound; running out of the given
  answers is reported as `Stalled`, and `create`, `create_existing` and
  `boot_existing` then never answer.
- GroundSeg.Uploads.PierUpload: `secure_filename`, the subfolder creation,
  the watchtower restarts and malformed integer form fields are not
  modelled; `boot_existing_urbit` is the `boot` parameter. Removing an
  existing file for chunk 0 is assumed to succeed, so the
  `File exists, try again` branch cannot be reached; a failed write is
  modelled as writing nothing.
- Export, logs, `get_code`, `stop`, and the MinIO endpoint helpers that only
  call out to the lens or docker are not part of the core and are left out.
