/**
 The decision pipeline of the `turms` command as one function of its inputs.

 A run reads six strings (the `--body`, `--body-from-file`, `--color`,
 `--title` and `--url` flags and the `TURMS_URL` environment value) and
 consults three collaborators it does not implement: the webhook URL
 validator of the Teams client library, the file system, and the library's
 sender. Each collaborator is a function parameter, and the outcome keeps the
 list of calls made to them, in order, so that "nothing was read" and
 "nothing was sent" can be stated.
 */
module Pipeline {
  import ColorTable

  datatype Option<T> = None | Some(value: T)

  /** The parsed flags and the environment value, as the command sees them. */
  datatype Request = Request(
    text: string,         // --body (-b)
    fileBody: string,     // --body-from-file (-f), a path
    color: string,        // --color (-c)
    title: string,        // --title (-t)
    envUrl: string,       // TURMS_URL
    overrideUrl: string   // --url (-u)
  )

  /** The message card handed to the sender. */
  datatype Card = Card(title: string, text: string, themeColor: string)

  /** The client the card is sent with; the command turns off its URL re-check. */
  datatype Client = Client(skipWebhookUrlValidation: bool)

  /** The two results of the library's URL validator: a flag and an error. */
  datatype Validation = Validation(valid: bool, error: Option<string>)

  /** The result of reading the body file: its bytes (as characters) or an error. */
  datatype FileRead = Contents(data: string) | ReadError(reason: string)

  /** The result of sending: no error, or the sender's error. */
  datatype Delivery = Delivered | SendError(reason: string)

  datatype Collaborators = Collaborators(
    validate: string -> Validation,
    readFile: string -> FileRead,
    send: (Client, string, Card) -> Delivery
  )

  /** One call made to a collaborator. */
  datatype Call =
    | ValidateUrl(url: string)
    | ReadFile(path: string)
    | Send(client: Client, url: string, card: Card)

  /** Why a run stopped early; each one prints a diagnostic and exits with status 1. */
  datatype Failure =
    | NoBody
    | NoWebhookUrl
    | InvalidWebhookUrl(reason: string)
    | FileNotRead(reason: string)
  {
    /** The failures raised by the two presence checks, before anything is resolved. */
    predicate IsPresenceFailure() {
      NoBody? || NoWebhookUrl?
    }
  }

  /** How a run ends: stopped by a failure, or after handing a card to the sender. */
  datatype Outcome =
    | Aborted(failure: Failure, calls: seq<Call>, exitCode: int)
    | Dispatched(url: string, card: Card, delivery: Delivery, calls: seq<Call>, exitCode: int)

  /** The position of a kind of call in the fixed order validate, read, send. */
  function Stage(c: Call): nat {
    match c
    case ValidateUrl(_) => 0
    case ReadFile(_) => 1
    case Send(_, _, _) => 2
  }

  /** Each kind of call happens at most once, and in the order validate, read, send. */
  predicate InOrder(calls: seq<Call>) {
    forall i, j :: 0 <= i < j < |calls| ==> Stage(calls[i]) < Stage(calls[j])
  }

  /** How many calls of the given stage a trace holds. */
  function CountStage(calls: seq<Call>, stage: nat): (n: nat)
    ensures n <= |calls|
    ensures n == 0 <==> forall c :: c in calls ==> Stage(c) != stage
  {
    if calls == [] then 0
    else (if Stage(calls[0]) == stage then 1 else 0) + CountStage(calls[1..], stage)
  }

  /** A trace in order holds at most one call of each stage. */
  lemma {:induction false} InOrderAtMostOnce(calls: seq<Call>, stage: nat)
    requires InOrder(calls)
    ensures CountStage(calls, stage) <= 1
  {
    if calls != [] {
      var rest := calls[1..];
      forall i, j | 0 <= i < j < |rest|
        ensures Stage(rest[i]) < Stage(rest[j])
      {
        assert rest[i] == calls[i + 1] && rest[j] == calls[j + 1];
      }
      InOrderAtMostOnce(rest, stage);
      if Stage(calls[0]) == stage {
        forall c | c in rest
          ensures Stage(c) != stage
        {
          var k :| 0 <= k < |rest| && rest[k] == c;
          assert calls[k + 1] == c;
        }
      }
    }
  }

  predicate HasBody(req: Request) {
    |req.text| > 0 || |req.fileBody| > 0
  }

  predicate HasUrl(req: Request) {
    |req.envUrl| > 0 || |req.overrideUrl| > 0
  }

  /**
   The destination of the card: `--url` when it is given, `TURMS_URL`
   otherwise. It is one of the two and is empty only when both are.
   */
  function ResolveUrl(envUrl: string, overrideUrl: string): (url: string)
    ensures url == overrideUrl || url == envUrl
    ensures |overrideUrl| > 0 ==> url == overrideUrl
    ensures |url| > 0 <==> |envUrl| > 0 || |overrideUrl| > 0
  {
    if |overrideUrl| > 0 then overrideUrl else envUrl
  }

  /** The client as `sendTheMessage` sets it up. */
  function SendingClient(): (c: Client)
    ensures c.skipWebhookUrlValidation
  {
    Client(true)
  }

  /** The call trace of a run that gets past the validator. */
  function DispatchCalls(url: string, path: string, card: Card): (calls: seq<Call>)
    ensures InOrder(calls)
    ensures |calls| == (if |path| > 0 then 3 else 2)
    ensures calls[0] == ValidateUrl(url) && calls[|calls| - 1] == Send(SendingClient(), url, card)
    ensures ReadFile(path) in calls <==> |path| > 0
  {
    [ValidateUrl(url)] + (if |path| > 0 then [ReadFile(path)] else []) + [Send(SendingClient(), url, card)]
  }

  /**
   A run of the command, from its inputs and its collaborators' answers to
   its outcome. The two presence checks come first and call nothing; the
   colour is substituted and the URL resolved; the validator's error stops the
   run; a body file, when named, is read and replaces the text; the card is
   sent and the run exits with 0 whether or not sending failed.
   */
  function Dispatch(colors: map<string, string>, req: Request, io: Collaborators): (o: Outcome)
    ensures o.exitCode == (if o.Dispatched? then 0 else 1)
    ensures InOrder(o.calls)
    ensures o.Aborted? && o.failure.IsPresenceFailure() <==> o.calls == []
    ensures o.calls != [] ==> o.calls[0] == ValidateUrl(ResolveUrl(req.envUrl, req.overrideUrl))
    ensures o.Dispatched? <==> |o.calls| > 0 && o.calls[|o.calls| - 1].Send?
    ensures o.Dispatched? ==>
      && o.url == ResolveUrl(req.envUrl, req.overrideUrl)
      && o.card.title == req.title
      && o.card.themeColor == ColorTable.Substitute(colors, req.color)
      && (|req.fileBody| > 0 ==> io.readFile(req.fileBody) == Contents(o.card.text))
      && (|req.fileBody| == 0 ==> o.card.text == req.text)
      && o.calls[|o.calls| - 1] == Send(SendingClient(), o.url, o.card)
      && o.delivery == io.send(SendingClient(), o.url, o.card)
  {
    if !HasBody(req) then
      Aborted(NoBody, [], 1)
    else if !HasUrl(req) then
      Aborted(NoWebhookUrl, [], 1)
    else
      var color := ColorTable.Substitute(colors, req.color);
      var url := ResolveUrl(req.envUrl, req.overrideUrl);
      var verdict := io.validate(url);
      if verdict.error.Some? then
        Aborted(InvalidWebhookUrl(verdict.error.value), [ValidateUrl(url)], 1)
      else if |req.fileBody| > 0 && io.readFile(req.fileBody).ReadError? then
        Aborted(FileNotRead(io.readFile(req.fileBody).reason), [ValidateUrl(url), ReadFile(req.fileBody)], 1)
      else
        var text := if |req.fileBody| > 0 then io.readFile(req.fileBody).data else req.text;
        var card := Card(req.title, text, color);
        Dispatched(url, card, io.send(SendingClient(), url, card), DispatchCalls(url, req.fileBody, card), 0)
  }

  /**
   The body check comes first: with neither a body nor a body file the run
   fails with `NoBody`, calls nothing and exits 1, and only then.
   */
  lemma BodyCheckFirst(colors: map<string, string>, req: Request, io: Collaborators)
    ensures Dispatch(colors, req, io) == Aborted(NoBody, [], 1) <==> !HasBody(req)
  {
  }

  /**
   The URL check comes second: with a body but neither `TURMS_URL` nor
   `--url`, the run fails with `NoWebhookUrl`, calls nothing and exits 1.
   */
  lemma UrlCheckSecond(colors: map<string, string>, req: Request, io: Collaborators)
    ensures Dispatch(colors, req, io) == Aborted(NoWebhookUrl, [], 1) <==> HasBody(req) && !HasUrl(req)
  {
  }

  /**
   No retries: the URL is validated, the body file read and the card sent at
   most once in a run, and the card is sent exactly when the run is dispatched.
   */
  lemma CalledAtMostOnce(colors: map<string, string>, req: Request, io: Collaborators)
    ensures forall stage :: CountStage(Dispatch(colors, req, io).calls, stage) <= 1
    ensures CountStage(Dispatch(colors, req, io).calls, 2)
      == (if Dispatch(colors, req, io).Dispatched? then 1 else 0)
  {
    var o := Dispatch(colors, req, io);
    forall stage: nat
      ensures CountStage(o.calls, stage) <= 1
    {
      InOrderAtMostOnce(o.calls, stage);
    }
    if !o.Dispatched? {
      forall c | c in o.calls
        ensures Stage(c) != 2
      {
        var k :| 0 <= k < |o.calls| && o.calls[k] == c;
        if k < |o.calls| - 1 {
          assert Stage(o.calls[k]) < Stage(o.calls[|o.calls| - 1]);
        }
      }
    }
  }

  /**
   The URL that is validated and the URL that the card is sent to are the
   resolved one, and a non-empty `--url` is never passed over for `TURMS_URL`.
   */
  lemma OverrideTakesPrecedence(colors: map<string, string>, req: Request, io: Collaborators)
    requires |req.overrideUrl| > 0
    ensures forall c :: c in Dispatch(colors, req, io).calls && !c.ReadFile? ==> c.url == req.overrideUrl
    ensures Dispatch(colors, req, io).Dispatched? ==> Dispatch(colors, req, io).url == req.overrideUrl
  {
    var o := Dispatch(colors, req, io);
    forall c | c in o.calls && !c.ReadFile?
      ensures c.url == req.overrideUrl
    {
      if !o.Dispatched? {
        assert o.calls == [] || o.calls == [ValidateUrl(req.overrideUrl)]
          || o.calls == [ValidateUrl(req.overrideUrl), ReadFile(req.fileBody)];
      }
    }
  }

  /**
   The theme colour on the card, with the command's own table: a table key
   becomes exactly its value, and any other `--color` (empty, capitalised, a
   hex code, an unknown name) arrives unchanged.
   */
  lemma ThemeColorOnCard(req: Request, io: Collaborators)
    requires Dispatch(ColorTable.Colors(), req, io).Dispatched?
    ensures req.color in ColorTable.Colors() ==>
      Dispatch(ColorTable.Colors(), req, io).card.themeColor == ColorTable.Colors()[req.color]
    ensures req.color !in ColorTable.Colors() ==>
      Dispatch(ColorTable.Colors(), req, io).card.themeColor == req.color
  {
    ColorTable.TableSubstitution(req.color);
  }

  /**
   The validator's error decides: when it reports one for the resolved URL,
   the run exits 1 after that single call, reading no file and sending nothing.
   */
  lemma ValidatorErrorStops(colors: map<string, string>, req: Request, io: Collaborators)
    requires HasBody(req) && HasUrl(req)
    requires io.validate(ResolveUrl(req.envUrl, req.overrideUrl)).error.Some?
    ensures Dispatch(colors, req, io) == Aborted(
      InvalidWebhookUrl(io.validate(ResolveUrl(req.envUrl, req.overrideUrl)).error.value),
      [ValidateUrl(ResolveUrl(req.envUrl, req.overrideUrl))], 1)
  {
  }

  /**
   The validator's boolean result is never consulted: two validators that
   agree on their errors give the same outcome.
   */
  lemma ValidityFlagIgnored(colors: map<string, string>, req: Request, io: Collaborators, io': Collaborators)
    requires forall u :: io.validate(u).error == io'.validate(u).error
    requires forall p :: io.readFile(p) == io'.readFile(p)
    requires forall cl, u, cd :: io.send(cl, u, cd) == io'.send(cl, u, cd)
    ensures Dispatch(colors, req, io) == Dispatch(colors, req, io')
  {
  }

  /**
   A body file, when named, is read after the validator and wins over
   `--body`; a read error exits 1 and sends nothing. Without a body file,
   nothing is read and `--body` is sent as it is.
   */
  lemma BodyFileTakesPrecedence(colors: map<string, string>, req: Request, io: Collaborators)
    ensures |req.fileBody| > 0 && Dispatch(colors, req, io).Dispatched? ==>
      io.readFile(req.fileBody) == Contents(Dispatch(colors, req, io).card.text)
    ensures |req.fileBody| == 0 ==>
      (forall c :: c in Dispatch(colors, req, io).calls ==> !c.ReadFile?)
      && (Dispatch(colors, req, io).Dispatched? ==> Dispatch(colors, req, io).card.text == req.text)
    ensures (HasUrl(req) && |req.fileBody| > 0 && io.readFile(req.fileBody).ReadError?
      && io.validate(ResolveUrl(req.envUrl, req.overrideUrl)).error.None?) ==>
      Dispatch(colors, req, io) == Aborted(FileNotRead(io.readFile(req.fileBody).reason),
        [ValidateUrl(ResolveUrl(req.envUrl, req.overrideUrl)), ReadFile(req.fileBody)], 1)
  {
  }

  /**
   A send error does not change the exit status: once the card is handed to
   the sender the run exits 0, and the sender's answer is only reported.
   */
  lemma SendErrorStillExitsZero(colors: map<string, string>, req: Request, io: Collaborators)
    requires HasBody(req) && HasUrl(req)
    requires io.validate(ResolveUrl(req.envUrl, req.overrideUrl)).error.None?
    requires |req.fileBody| > 0 ==> io.readFile(req.fileBody).Contents?
    ensures Dispatch(colors, req, io).Dispatched? && Dispatch(colors, req, io).exitCode == 0
    ensures Dispatch(colors, req, io).delivery.SendError? <==>
      io.send(SendingClient(), Dispatch(colors, req, io).url, Dispatch(colors, req, io).card).SendError?
  {
  }

  /** A body text, a `TURMS_URL`, no colour and no title, for any colour map. */
  lemma ScenarioPlainText(colors: map<string, string>, io: Collaborators)
    requires io.validate("https://contoso.webhook.office.com/x").error.None?
    ensures var o := Dispatch(colors, Request("hello", "", "", "", "https://contoso.webhook.office.com/x", ""), io);
      o.Dispatched? && o.exitCode == 0 && o.url == "https://contoso.webhook.office.com/x"
      && o.card == Card("", "hello", ColorTable.Substitute(colors, ""))
  {
  }

  /** With the command's table, the plain-text run sends a card with an empty theme colour. */
  lemma ScenarioPlainTextWithTable(io: Collaborators)
    requires io.validate("https://contoso.webhook.office.com/x").error.None?
    ensures Dispatch(ColorTable.Colors(), Request("hello", "", "", "", "https://contoso.webhook.office.com/x", ""), io).card
      == Card("", "hello", "")
  {
    ColorTable.TableWellFormed();
    ColorTable.OnlyColorNamesSubstituted(ColorTable.Colors(), "");
    ScenarioPlainText(ColorTable.Colors(), io);
  }

  /** A body file holding "report ready" and a colour the map knows. */
  lemma ScenarioFileAndColor(colors: map<string, string>, io: Collaborators, name: string, hex: string)
    requires ColorTable.Substitute(colors, name) == hex
    requires io.validate("https://contoso.webhook.office.com/x").error.None?
    requires io.readFile("report.md") == Contents("report ready")
    ensures var o := Dispatch(colors, Request("", "report.md", name, "", "https://contoso.webhook.office.com/x", ""), io);
      o.Dispatched? && o.card == Card("", "report ready", hex)
      && o.calls == [ValidateUrl("https://contoso.webhook.office.com/x"), ReadFile("report.md"),
                     Send(SendingClient(), "https://contoso.webhook.office.com/x", o.card)]
  {
  }

  /** With the command's table, a body file and the colour `red` give a card coloured `#ff0000`. */
  lemma ScenarioRedWithTable(io: Collaborators)
    requires io.validate("https://contoso.webhook.office.com/x").error.None?
    requires io.readFile("report.md") == Contents("report ready")
    ensures Dispatch(ColorTable.Colors(), Request("", "report.md", "red", "", "https://contoso.webhook.office.com/x", ""), io).card
      == Card("", "report ready", "#ff0000")
  {
    ColorTable.SubstituteExamples();
    ScenarioFileAndColor(ColorTable.Colors(), io, "red", "#ff0000");
  }

  /** An empty `TURMS_URL` and an override the validator refuses: nothing is read or sent. */
  lemma ScenarioRejectedOverride(colors: map<string, string>, io: Collaborators)
    requires io.validate("https://bad").error == Some("bad url")
    ensures Dispatch(colors, Request("hi", "", "", "", "", "https://bad"), io)
      == Aborted(InvalidWebhookUrl("bad url"), [ValidateUrl("https://bad")], 1)
  {
  }
}
