// internal/tokenhelper/tokenhelper.go: a bot token is "<application ID>.<rest>"; the ID is the
// snowflake in front of the first '.'.
module TokenHelper {
  import opened Wrappers
  import opened Snowflakes
  import opened GoStrings

  /** fluxer.ErrInvalidBotToken; its text is not part of this model, so the constant carries the Go name. */
  const ErrInvalidBotToken := "fluxer.ErrInvalidBotToken"

  /**
   * IDFromToken: the first '.'-separated piece of the token, parsed as a snowflake. The split
   * always has a first piece, so only the parse can fail.
   */
  function IDFromToken(token: string): (r: Result<ID>)
    ensures r != Err(ErrInvalidBotToken)
    ensures r.Ok? <==> ParseID(Split(token, '.')[0]).Ok?
  {
    var strs := Split(token, '.');
    if |strs| == 0 then Err(ErrInvalidBotToken)
    else
      match ParseID(strs[0])
      case Err(e) => Err(e)
      case Ok(id) => Ok(id)
  }

  /**
   * The invalid-token branch is never taken: the split always has a first piece, and the result
   * (value or parse error) is exactly the parse of that piece.
   */
  lemma IDFromTokenParsesFirstPiece(token: string)
    ensures IDFromToken(token) == ParseID(Split(token, '.')[0])
    ensures IDFromToken(token) != Err(ErrInvalidBotToken)
  {
  }

  /** Only the text before the first '.' matters. */
  lemma IDFromTokenPrefix(prefix: string, rest: string)
    requires '.' !in prefix
    ensures IDFromToken(prefix + "." + rest) == ParseID(prefix)
  {
    SplitAtFirst(prefix, '.', rest);
  }

  /** A token without a '.' is parsed whole. */
  lemma IDFromTokenWhole(token: string)
    requires '.' !in token
    ensures IDFromToken(token) == ParseID(token)
  {
    SplitWithoutSep(token, '.');
  }

  /** A token built from an application ID and any secret yields that ID. */
  lemma IDFromTokenRoundTrip(id: ID, secret: string)
    ensures IDFromToken(IDString(id) + "." + secret) == Ok(id)
  {
    DecimalStringDenotes(id);
    assert '.' !in IDString(id) by {
      forall i | 0 <= i < |IDString(id)| ensures IDString(id)[i] != '.' {
        assert IsDigit(IDString(id)[i]);
      }
    }
    IDFromTokenPrefix(IDString(id), secret);
    ParseIDString(id);
  }
}
