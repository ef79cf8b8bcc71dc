// fluxer.QueryValues: the map from query parameter names to the values the REST layer encodes.
module QueryValues {
  import opened Snowflakes
  import opened Permissions

  /**
   * A query value, by the Go type it holds. A list of snowflakes is kept as the list; its text is
   * what slicehelper.JoinSnowflakes makes of it. Likewise a list of scopes and fluxer.JoinScopes.
   */
  datatype QueryValue =
    | BoolValue(b: bool)
    | StringValue(s: string)
    | IntValue(i: int)
    | IDValue(id: ID)
    | PermissionsValue(p: Permissions)
    | SnowflakesValue(ids: seq<ID>)
    | ScopesValue(scopes: seq<string>)

  type Values = map<string, QueryValue>
}
