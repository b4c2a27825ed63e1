# turms: a verified model of the message-dispatch pipeline

`turms` is a command-line tool that posts a message card to a Microsoft Teams
channel through an incoming webhook. A single run of its root command does the following:

1. It checks that a body was given, either `--body` or `--body-from-file`. If not, it exits with status 1.
2. It checks that a webhook URL was given, either `TURMS_URL` or `--url`. If not, it exits with status 1.
3. It replaces a CSS colour name in `--color` by its hex code.
4. It lets `--url` override `TURMS_URL`.
5. It asks the Teams client library's validator about the URL. An error exits with status 1.
6. When `--body-from-file` is given, it reads the file and the contents replace `--body`. A read error exits with status 1.
7. It sends a card made of the title, the text and the colour. Then it prints `Message Sent!` and exits with status 0.

The project models this pipeline in three modules:

- `ColorTable` (`color_table.dfy`) models `getColorMap`. This is the map of the 148 CSS named colours of CSS Color Module Level 4, section 6.1. The module also models the substitution that `Run` performs with it. It proves the following:
  - every key is a lowercase letter run;
  - every value is `#` followed by six lowercase hex digits;
  - hence no value is a key, and substitution is idempotent;
  - lookup is exact and case-sensitive.
- `Pipeline` (`pipeline.dfy`) defines `Dispatch`, a reference function from the flags, the environment value and the answers of the three collaborators to the outcome of a run. The collaborators are the URL validator, the file reader and the sender. The outcome is one of two things:
  - a failure, with exit status 1;
  - the card and URL handed to the sender, with exit status 0.

  Both kinds of outcome carry the ordered list of collaborator calls made. This is how "nothing read" and "nothing sent" are stated. The lemmas state each property of the pipeline for all inputs.
- `Root` (`root.dfy`) models the command's package-level variables as the fields of class `Turms`. `Run` is an imperative method that updates them in place at the points the source does and returns early where the source calls `os.Exit(1)`. It is proved to give exactly the outcome `Dispatch` gives, and it states the new value of every field. `SendTheMessage` builds the card from the fields.

A delivery failure does not change the exit status: the code prints the sender's error, then prints `Message Sent!` and exits with status 0 (`cmd/root.go:87-93`). `Pipeline.SendErrorStillExitsZero` proves that a send error still gives exit status 0.

## Model

| member | source | states |
|---|---|---|
| ColorTable.Colors | cmd/root.go:128-281 | the 148 name/value pairs of the literal, as fourteen disjoint groups joined by map union |
| ColorTable.TableWellFormed | cmd/root.go:128-281 | every key of the table returned by `getColorMap` is a non-empty run of lowercase ASCII letters, and every value is `#` followed by six lowercase hex digits |
| ColorTable.ValuesAreNotKeys | cmd/root.go:131-280 | in a table of that shape no value is itself a key, because a value starts with `#` |
| ColorTable.EmptyLookupMeansUnknown | cmd/root.go:61-64 | `Lookup` is the Go index `colorMap[color]`, which gives the zero string for a missing key; on the command's table it is empty exactly when the colour is not a key, since no value is empty |
| ColorTable.Substitute | cmd/root.go:63-66 | the colour sent is the input or the input's table value; on a well-formed table a key becomes exactly its value and any other input, including `""`, is passed through |
| ColorTable.SubstituteIdempotent | cmd/root.go:63-66 | on a well-formed table, substituting the result again changes nothing |
| ColorTable.OnlyColorNamesSubstituted | cmd/root.go:63-66 | lookup is exact and case-sensitive: an input that is not a lowercase letter run (`Red`, `#ff0000`, `""`) is never replaced |
| ColorTable.TableSubstitution | cmd/root.go:61-66 | with the command's own table a key becomes its value, anything else is unchanged, and substituting twice equals substituting once |
| ColorTable.CssRed | cmd/root.go:252 | the table maps `red` to `#ff0000` |
| ColorTable.CssRebeccaPurple | cmd/root.go:251 | the table maps `rebeccapurple` to `#663399` |
| ColorTable.SubstituteExamples | cmd/root.go:61-66 | `red` becomes `#ff0000`; `Red` and `#ff0000` reach the card unchanged |
| Pipeline.ResolveUrl | cmd/root.go:68-70 | the destination is `--url` when it is non-empty and `TURMS_URL` otherwise; it is one of the two, and it is empty exactly when both are |
| Pipeline.SendingClient | cmd/root.go:117-118 | the client the card is sent with skips the library's own URL re-validation |
| Pipeline.DispatchCalls | cmd/root.go:71-93 | a run that passes the validator calls it once, reads the body file once exactly when one is named, and sends last; the calls are in that order |
| Pipeline.CountStage | cmd/root.go:71-93 | the number of calls of one kind in a trace is at most its length, and zero exactly when no call of that kind was made |
| Pipeline.InOrderAtMostOnce | cmd/root.go:71-93 | a trace whose calls follow the order validate, read, send holds at most one call of each kind |
| Pipeline.CalledAtMostOnce | cmd/root.go:71-93 | nothing is retried: in every run the URL is validated, the file read and the card sent at most once, and the card is sent exactly once on a dispatched run and never otherwise |
| Pipeline.Dispatch | cmd/root.go:47-94 | exit status is 0 exactly for a dispatched card and 1 for every failure; the presence failures are exactly the runs with no calls; every run that calls anything validates the resolved URL first; a run is dispatched exactly when its last call is a send; a dispatched card carries the title, the substituted colour and either the file contents or `--body`, and goes to the resolved URL |
| Pipeline.BodyCheckFirst | cmd/root.go:49-53 | the run ends with `NoBody`, no calls and status 1 if and only if both `--body` and `--body-from-file` are empty |
| Pipeline.UrlCheckSecond | cmd/root.go:55-59 | the run ends with `NoWebhookUrl`, no calls and status 1 if and only if a body is present and both `TURMS_URL` and `--url` are empty |
| Pipeline.OverrideTakesPrecedence | cmd/root.go:68-75 | with a non-empty `--url`, every URL validated or sent to is `--url`, never `TURMS_URL` |
| Pipeline.ThemeColorOnCard | cmd/root.go:61-66 | the card's theme colour is the table value of a known name and the unchanged `--color` otherwise |
| Pipeline.ValidatorErrorStops | cmd/root.go:71-75 | an error from the validator on the resolved URL ends the run with status 1 after that one call: no file is read and nothing is sent |
| Pipeline.ValidityFlagIgnored | cmd/root.go:71 | only the validator's error is consulted: two validators that report the same errors give the same outcome, whatever their boolean results |
| Pipeline.BodyFileTakesPrecedence | cmd/root.go:77-85 | with a body file, the card text is exactly the file contents whatever `--body` is; a read error ends the run with status 1 before any send; without a body file nothing is read and `--body` is sent unchanged |
| Pipeline.SendErrorStillExitsZero | cmd/root.go:87-93 | once the checks, the validator and the read have passed, the run is dispatched with status 0, and it reports a send error exactly when the sender returns one |
| Pipeline.ScenarioPlainText | cmd/root.go:47-94 | `--body hello` with `TURMS_URL` set and no colour or title sends the card (title `""`, text `hello`) to that URL with status 0 |
| Pipeline.ScenarioPlainTextWithTable | cmd/root.go:47-94 | with the command's table, that plain-text run sends the card with title `""`, text `hello` and an empty theme colour |
| Pipeline.ScenarioFileAndColor | cmd/root.go:47-94 | a body file holding `report ready` and a known colour give a card with that text and the colour's value; the calls are validate, read, send |
| Pipeline.ScenarioRedWithTable | cmd/root.go:47-94 | with the command's table, that body file and `--color red` give a card coloured `#ff0000` |
| Pipeline.ScenarioRejectedOverride | cmd/root.go:68-75 | an empty `TURMS_URL` and a `--url` the validator refuses give `InvalidWebhookUrl`, status 1, and a single validate call |
| Root.Turms.constructor | cmd/root.go:106-112 | the command's variables start as `TURMS_URL` and the parsed flags |
| Root.Turms.SendTheMessage | cmd/root.go:115-125 | the card carries exactly the current title, text and colour, and it goes to the current `webHookUrl` through a client that skips URL re-validation |
| Root.Turms.Run | cmd/root.go:47-94 | the outcome is `Dispatch` of the starting variables with the command's table. If a presence check fails, nothing changes. Otherwise `color` becomes its substitution and `webHookUrl` the resolved URL. `text` becomes the file contents only on a dispatched run with a body file. `title`, `fileBody` and `overriddenUrl` never change |
| Root.Turms.ResolveAndSend | cmd/root.go:61-93 | the part of `Run` after the presence checks, for a given colour map: its outcome is `Dispatch` for that map, and it states the new value of each variable |

The source writes the table as one map literal. `ColorTable.Colors` writes the same 148 entries as fourteen literals grouped by initial letter and joins them with map union. This lets each group be checked on its own: `LowercaseKeysX`, `HexValuesX` and `GroupWellFormedX` are the steps for group `X`, and `TableWellFormed` joins them. Each of the 148 keys of the literal appears in exactly one group, with the value the literal gives it, so the groups are disjoint and their union holds exactly the literal's pairs. This correspondence is between the two texts and is not itself a proved statement.

## Left out

- Cobra's command and flag registration and `Execute` (`cmd/root.go:34-44`, `99-104`) are framework plumbing. The parsed flag values and `TURMS_URL` are inputs to the model: the `Request` datatype and the constructor of `Turms`.
- `os.Getenv` is not modelled. Its result is the `envUrl` input.
- `ioutil.ReadFile` is not modelled. It is the `readFile` collaborator, which returns contents or an error. File bytes are taken as characters, with no decoding.
- The client library is not modelled: `IsValidWebhookURL`, `NewClient`, `NewMessageCard` and `Send`. Its source is not part of this model. These calls are the `validate` and `send` collaborators. HTTP and the card's wire format are not modelled.
- Console output (`fmt.Println`) and the process exit (`os.Exit`) are modelled only as the outcome: the failure kind and the exit status. The diagnostic texts and the `Message Sent!` line are not modelled.
- Root.Turms.Run: the steps after the presence checks are in `ResolveAndSend`, one method in the source's closure. The step order and every update stay the same. The split keeps the proof about the 148-entry table apart from the proof about the steps.
- ColorTable.SubstituteIdempotent and ColorTable.OnlyColorNamesSubstituted are stated for any well-formed map. They hold for the command's table because of `TableWellFormed`, and `TableSubstitution` combines the two.
- The `gray`/`grey` and other alias pairs of the table are plain entries of the map. There is no separate lemma stating that the two spellings agree.
