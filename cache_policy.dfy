// cache/cache_policy.go: the predicates a cache consults before storing an entity, and
// their combinators.
module CachePolicies {
  import opened Wrappers
  import opened Snowflakes
  import opened Entities
  import opened Channels

  /** Policy[T]: whether an entity should be cached. */
  type Policy<!T> = T -> bool

  /** PolicyNone never caches. */
  function PolicyNone<T(!new)>(): (p: Policy<T>)
    ensures forall e :: !p(e)
  {
    (_: T) => false
  }

  /** PolicyAll always caches. */
  function PolicyAll<T(!new)>(): (p: Policy<T>)
    ensures forall e :: p(e)
  {
    (_: T) => true
  }

  /** PolicyMembersInclude: only members of one of the given guilds. */
  function PolicyMembersInclude(guildIDs: seq<ID>): (p: Policy<Member>)
    ensures forall m :: p(m) <==> exists i :: 0 <= i < |guildIDs| && guildIDs[i] == m.guildID
  {
    (m: Member) => m.guildID in guildIDs
  }

  /**
   * PolicyMembersInVoice: only members with a cached voice state. The Go closure consults the
   * live voice-state cache each time it runs; the model takes that cache's entries, keyed by
   * (guild ID, user ID), as they are when the policy is applied.
   */
  function PolicyMembersInVoice(voiceStates: map<(ID, ID), VoiceState>): (p: Policy<Member>)
    ensures forall m :: p(m) <==> (m.guildID, m.user.id) in voiceStates
  {
    (m: Member) => (m.guildID, m.user.id) in voiceStates
  }

  /** PolicyChannelInclude: only channels whose type is listed. */
  function PolicyChannelInclude(channelTypes: seq<ChannelType>): (p: Policy<Channel>)
    ensures forall c :: p(c) <==> exists i :: 0 <= i < |channelTypes| && channelTypes[i] == c.Type()
  {
    (c: Channel) => c.Type() in channelTypes
  }

  /** PolicyChannelExclude: only channels whose type is not listed. */
  function PolicyChannelExclude(channelTypes: seq<ChannelType>): (p: Policy<Channel>)
    ensures forall c :: p(c) <==> forall i :: 0 <= i < |channelTypes| ==> channelTypes[i] != c.Type()
  {
    (c: Channel) => c.Type() !in channelTypes
  }

  /** For the same type list, the include and exclude policies disagree on every channel. */
  lemma IncludeExcludeComplement(channelTypes: seq<ChannelType>, c: Channel)
    ensures PolicyChannelInclude(channelTypes)(c) <==> !PolicyChannelExclude(channelTypes)(c)
  {
  }

  /** p.Or(q) */
  function Or<T(!new)>(p: Policy<T>, q: Policy<T>): (r: Policy<T>)
    ensures forall e :: r(e) <==> p(e) || q(e)
  {
    (e: T) => p(e) || q(e)
  }

  /** p.And(q) */
  function And<T(!new)>(p: Policy<T>, q: Policy<T>): (r: Policy<T>)
    ensures forall e :: r(e) <==> p(e) && q(e)
  {
    (e: T) => p(e) && q(e)
  }

  /** The policy AnyPolicy builds: nil for no policies, else the first one Or-ed with each later one in turn. */
  function AnyPolicyOf<T(!new)>(policies: seq<Policy<T>>): (r: Option<Policy<T>>)
    ensures r.Some? <==> policies != []
    decreases |policies|
  {
    if policies == [] then None
    else if |policies| == 1 then Some(policies[0])
    else Some(Or(AnyPolicyOf(policies[..|policies| - 1]).value, policies[|policies| - 1]))
  }

  /** The policy AllPolicies builds: nil for no policies, else the first one And-ed with each later one in turn. */
  function AllPoliciesOf<T(!new)>(policies: seq<Policy<T>>): (r: Option<Policy<T>>)
    ensures r.Some? <==> policies != []
    decreases |policies|
  {
    if policies == [] then None
    else if |policies| == 1 then Some(policies[0])
    else Some(And(AllPoliciesOf(policies[..|policies| - 1]).value, policies[|policies| - 1]))
  }

  /** AnyPolicy: the loop with a nil-seeded accumulator. */
  method AnyPolicy<T(!new)>(policies: seq<Policy<T>>) returns (policy: Option<Policy<T>>)
    ensures policy == AnyPolicyOf(policies)
  {
    policy := None;
    for k := 0 to |policies|
      invariant policy == AnyPolicyOf(policies[..k])
    {
      assert policies[..k + 1][..k] == policies[..k];
      if policy.None? {
        policy := Some(policies[k]);
      } else {
        policy := Some(Or(policy.value, policies[k]));
      }
    }
    assert policies[..|policies|] == policies;
  }

  /** AllPolicies: the loop with a nil-seeded accumulator. */
  method AllPolicies<T(!new)>(policies: seq<Policy<T>>) returns (policy: Option<Policy<T>>)
    ensures policy == AllPoliciesOf(policies)
  {
    policy := None;
    for k := 0 to |policies|
      invariant policy == AllPoliciesOf(policies[..k])
    {
      assert policies[..k + 1][..k] == policies[..k];
      if policy.None? {
        policy := Some(policies[k]);
      } else {
        policy := Some(And(policy.value, policies[k]));
      }
    }
    assert policies[..|policies|] == policies;
  }

  /** AnyPolicy accepts an entity iff some listed policy does. */
  lemma {:induction false} AnyPolicyAcceptsIfSomeDoes<T(!new)>(policies: seq<Policy<T>>, e: T)
    requires policies != []
    ensures AnyPolicyOf(policies).value(e) <==> exists i :: 0 <= i < |policies| && policies[i](e)
    decreases |policies|
  {
    if |policies| > 1 {
      var init := policies[..|policies| - 1];
      AnyPolicyAcceptsIfSomeDoes(init, e);
      assert forall i :: 0 <= i < |init| ==> init[i] == policies[i];
    }
  }

  /** AllPolicies accepts an entity iff every listed policy does. */
  lemma {:induction false} AllPoliciesAcceptIfAllDo<T(!new)>(policies: seq<Policy<T>>, e: T)
    requires policies != []
    ensures AllPoliciesOf(policies).value(e) <==> forall i :: 0 <= i < |policies| ==> policies[i](e)
    decreases |policies|
  {
    if |policies| > 1 {
      var init := policies[..|policies| - 1];
      AllPoliciesAcceptIfAllDo(init, e);
      assert forall i :: 0 <= i < |init| ==> init[i] == policies[i];
    }
  }
}
