// webhook/webhook_client.go: a webhook client is an ID and a token, given directly or parsed
// from the webhook URL's path ".../<id>/<token>".
module WebhookClient {
  import opened Wrappers
  import opened Snowflakes
  import opened GoStrings

  const ErrInvalidWebhookURL := "invalid webhook URL"

  /** The identity part of a webhook Client; its REST client and logger come from options outside this model. */
  datatype Client = Client(id: ID, token: string)

  /** New: the ID and the token are stored as given. */
  function New(id: ID, token: string): (c: Client)
    ensures c.id == id && c.token == token
  {
    Client(id, token)
  }

  /**
   * NewWithURL. url.Parse is the parameter urlPath: it gives the decoded path of the URL, or the
   * text of its parse error.
   */
  function NewWithURL(urlPath: string -> Result<string>, webhookURL: string): (r: Result<Client>)
    ensures urlPath(webhookURL).Err? ==> r == Err("invalid webhook URL: " + urlPath(webhookURL).error)
    ensures urlPath(webhookURL).Ok? && |Fields(urlPath(webhookURL).value, '/')| != 3 ==> r == Err(ErrInvalidWebhookURL)
    ensures urlPath(webhookURL).Ok? && |Fields(urlPath(webhookURL).value, '/')| == 3 ==>
              var parts := Fields(urlPath(webhookURL).value, '/');
              && (ParseID(parts[1]).Err? ==> r == Err(ParseID(parts[1]).error))
              && (ParseID(parts[1]).Ok? ==> r == Ok(Client(ParseID(parts[1]).value, parts[2])))
  {
    match urlPath(webhookURL)
    case Err(e) => Err("invalid webhook URL: " + e)
    case Ok(path) =>
      var parts := Fields(path, '/');
      if |parts| != 3 then Err(ErrInvalidWebhookURL)
      else
        var token := parts[2];
        match ParseID(parts[1])
        case Err(e) => Err(e)
        case Ok(id) => Ok(New(id, token))
  }

  /**
   * A URL whose path is "/<any>/<id>/<token>", with the first and last segments non-empty and free
   * of '/', builds the client with that ID and token; the first segment plays no part.
   */
  lemma NewWithURLRoundTrip(urlPath: string -> Result<string>, webhookURL: string, first: string, id: ID, token: string)
    requires first != "" && '/' !in first
    requires token != "" && '/' !in token
    requires urlPath(webhookURL) == Ok("/" + first + "/" + IDString(id) + "/" + token)
    ensures NewWithURL(urlPath, webhookURL) == Ok(New(id, token))
  {
    DecimalStringDenotes(id);
    assert '/' !in IDString(id) by {
      forall i | 0 <= i < |IDString(id)| ensures IDString(id)[i] != '/' {
        assert IsDigit(IDString(id)[i]);
      }
    }
    var segments := [first, IDString(id), token];
    assert Join(segments[2..], '/') == token;
    assert Join(segments[1..], '/') == IDString(id) + "/" + token;
    assert "/" + first + "/" + IDString(id) + "/" + token == ['/'] + Join(segments, '/');
    FieldsOfPath(segments, '/');
    ParseIDString(id);
  }
}
