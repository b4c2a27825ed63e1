/**
 The command itself: the package-level variables that the flags and the
 environment fill in, which `Run` then updates in place, and the `Run` action
 with its early exits. Each exit of the source (`os.Exit(1)` after a
 diagnostic, `os.Exit(0)` after sending) is a return with the outcome.
 */
module Root {
  import ColorTable
  import opened Pipeline

  class Turms {
    var webHookUrl: string
    var text: string
    var color: string
    var title: string
    var fileBody: string
    var overriddenUrl: string

    /** The variables once `init` has read `TURMS_URL` and the flags are parsed. */
    constructor (req: Request)
      ensures Flags() == req
    {
      webHookUrl := req.envUrl;
      text := req.text;
      color := req.color;
      title := req.title;
      fileBody := req.fileBody;
      overriddenUrl := req.overrideUrl;
    }

    /** The variables read as a request; `webHookUrl` is where `TURMS_URL` is kept. */
    function Flags(): Request
      reads this
    {
      Request(text, fileBody, color, title, webHookUrl, overriddenUrl)
    }

    /**
     `sendTheMessage`: a client that skips its own URL re-check, a card made of
     the current title, text and colour, sent to the current `webHookUrl`.
     */
    method SendTheMessage(io: Collaborators) returns (card: Card, delivery: Delivery)
      ensures card.title == title && card.text == text && card.themeColor == color
      ensures delivery == io.send(SendingClient(), webHookUrl, card)
    {
      var client := SendingClient();
      card := Card(title, text, color);
      delivery := io.send(client, webHookUrl, card);
    }

    /**
     The `Run` action. Its outcome is the one `Dispatch` gives for the
     variables it starts from and the command's colour table. When a presence
     check fails nothing is changed; otherwise the colour and the URL are
     rewritten, and the text only once the body file has been read without error.
     */
    method Run(io: Collaborators) returns (o: Outcome)
      modifies this
      ensures o == Dispatch(ColorTable.Colors(), old(Flags()), io)
      ensures title == old(title) && fileBody == old(fileBody) && overriddenUrl == old(overriddenUrl)
      ensures o.Aborted? && o.failure.IsPresenceFailure() ==> Flags() == old(Flags())
      ensures !(o.Aborted? && o.failure.IsPresenceFailure()) ==>
        && color == ColorTable.Substitute(ColorTable.Colors(), old(color))
        && webHookUrl == ResolveUrl(old(webHookUrl), overriddenUrl)
      ensures text == (if o.Dispatched? then o.card.text else old(text))
    {
      if |text| == 0 && |fileBody| == 0 {
        return Aborted(NoBody, [], 1);
      }
      if |webHookUrl| == 0 && |overriddenUrl| == 0 {
        return Aborted(NoWebhookUrl, [], 1);
      }
      var colorMap := ColorTable.Colors();
      o := ResolveAndSend(colorMap, io);
    }

    /**
     The rest of `Run` once both presence checks have passed, with the map
     `getColorMap` returned: substitute the colour, let `--url` replace
     `TURMS_URL`, stop on a validator error, let the body file replace the
     text or stop on a read error, then send and exit with 0.
     */
    method ResolveAndSend(colorMap: map<string, string>, io: Collaborators) returns (o: Outcome)
      requires HasBody(Flags()) && HasUrl(Flags())
      modifies this
      ensures o == Dispatch(colorMap, old(Flags()), io)
      ensures title == old(title) && fileBody == old(fileBody) && overriddenUrl == old(overriddenUrl)
      ensures color == ColorTable.Substitute(colorMap, old(color))
      ensures webHookUrl == ResolveUrl(old(webHookUrl), overriddenUrl)
      ensures text == (if o.Dispatched? then o.card.text else old(text))
    {
      var c := ColorTable.Lookup(colorMap, color);
      if |c| > 0 {
        color := c;
      }

      if |overriddenUrl| > 0 {
        webHookUrl := overriddenUrl;
      }
      var verdict := io.validate(webHookUrl);
      if verdict.error.Some? {
        return Aborted(InvalidWebhookUrl(verdict.error.value), [ValidateUrl(webHookUrl)], 1);
      }

      if |fileBody| > 0 {
        var source := io.readFile(fileBody);
        if source.ReadError? {
          return Aborted(FileNotRead(source.reason), [ValidateUrl(webHookUrl), ReadFile(fileBody)], 1);
        }
        text := source.data;
      }

      var card, delivery := SendTheMessage(io);
      return Dispatched(webHookUrl, card, delivery, DispatchCalls(webHookUrl, fileBody, card), 0);
    }
  }
}
