// rest/applications.go: the query parameters of the entitlements listing.
module RestApplications {
  import opened Snowflakes
  import opened QueryValues

  /** GetEntitlementsParams; a zero ID or limit means "not given". */
  datatype GetEntitlementsParams = GetEntitlementsParams(
    userID: ID,
    skuIDs: seq<ID>,
    before: ID,
    after: ID,
    limit: int,
    guildID: ID,
    excludeEnded: bool,
    excludeDeleted: bool)

  /** The names ToQueryValues may produce. */
  const EntitlementQueryKeys: set<string> :=
    {"exclude_ended", "exclude_deleted", "sku_ids", "user_id", "before", "after", "limit", "guild_id"}

  /**
   * GetEntitlementsParams.ToQueryValues: the two exclusion flags always, every other parameter
   * exactly when it is set, and no other name.
   */
  method ToQueryValues(p: GetEntitlementsParams) returns (values: Values)
    ensures values.Keys <= EntitlementQueryKeys
    ensures "exclude_ended" in values && values["exclude_ended"] == BoolValue(p.excludeEnded)
    ensures "exclude_deleted" in values && values["exclude_deleted"] == BoolValue(p.excludeDeleted)
    ensures ("sku_ids" in values <==> |p.skuIDs| > 0) && ("sku_ids" in values ==> values["sku_ids"] == SnowflakesValue(p.skuIDs))
    ensures ("user_id" in values <==> p.userID != 0) && ("user_id" in values ==> values["user_id"] == IDValue(p.userID))
    ensures ("before" in values <==> p.before != 0) && ("before" in values ==> values["before"] == IDValue(p.before))
    ensures ("after" in values <==> p.after != 0) && ("after" in values ==> values["after"] == IDValue(p.after))
    ensures ("limit" in values <==> p.limit != 0) && ("limit" in values ==> values["limit"] == IntValue(p.limit))
    ensures ("guild_id" in values <==> p.guildID != 0) && ("guild_id" in values ==> values["guild_id"] == IDValue(p.guildID))
  {
    values := map["exclude_ended" := BoolValue(p.excludeEnded), "exclude_deleted" := BoolValue(p.excludeDeleted)];
    if |p.skuIDs| > 0 {
      values := values["sku_ids" := SnowflakesValue(p.skuIDs)];
    }
    if p.userID != 0 {
      values := values["user_id" := IDValue(p.userID)];
    }
    if p.before != 0 {
      values := values["before" := IDValue(p.before)];
    }
    if p.after != 0 {
      values := values["after" := IDValue(p.after)];
    }
    if p.limit != 0 {
      values := values["limit" := IntValue(p.limit)];
    }
    if p.guildID != 0 {
      values := values["guild_id" := IDValue(p.guildID)];
    }
  }

  /** The zero params give just the two exclusion flags, both false. */
  method ZeroParamsGiveFlagsOnly() returns (values: Values)
    ensures values == map["exclude_ended" := BoolValue(false), "exclude_deleted" := BoolValue(false)]
  {
    values := ToQueryValues(GetEntitlementsParams(0, [], 0, 0, 0, 0, false, false));
  }
}
