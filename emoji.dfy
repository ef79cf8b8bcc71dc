// fluxer/emoji.go: custom emojis and their text forms.
module Emojis {
  import opened Snowflakes
  import opened GoTime

  datatype PartialEmoji = PartialEmoji(id: ID, name: string, animated: bool)

  /** An emoji together with the guild it belongs to (stamped by the library, not sent by the API). */
  datatype Emoji = Emoji(partial: PartialEmoji, guildID: ID)
  {
    function ID(): ID { partial.id }
  }

  /** reaction(name, id): "name:id". */
  function ReactionString(name: string, id: ID): (s: string)
    ensures s == name + ":" + IDString(id)
  {
    name + ":" + IDString(id)
  }

  /** Reaction(): empty for an emoji without a name, otherwise "name:id". */
  function Reaction(e: PartialEmoji): (s: string)
    ensures s == "" <==> e.name == ""
    ensures e.name != "" ==> s == e.name + ":" + IDString(e.id)
  {
    if e.name == "" then "" else ReactionString(e.name, e.id)
  }

  /**
   * The two mention forms; the formatting helpers are not part of this model and
   * follow the <:name:id> and <a:name:id> convention.
   */
  /** The static form wraps the reaction text "name:id" in "<:" and ">". */
  function EmojiMention(id: ID, name: string): (r: string)
    ensures |r| >= 3 && r[..2] == "<:" && r[|r| - 1] == '>'
    ensures r[2..|r| - 1] == ReactionString(name, id)
  {
    "<:" + name + ":" + IDString(id) + ">"
  }

  /** The animated form wraps the reaction text "name:id" in "<a:" and ">". */
  function AnimatedEmojiMention(id: ID, name: string): (r: string)
    ensures |r| >= 4 && r[..3] == "<a:" && r[|r| - 1] == '>'
    ensures r[3..|r| - 1] == ReactionString(name, id)
  {
    "<a:" + name + ":" + IDString(id) + ">"
  }

  /** Mention(): the animated form exactly when the emoji is animated. */
  function Mention(e: PartialEmoji): (s: string)
    ensures e.animated ==> s == AnimatedEmojiMention(e.id, e.name)
    ensures !e.animated ==> s == EmojiMention(e.id, e.name)
    ensures |s| >= 2 && s[0] == '<' && (s[1] == 'a' <==> e.animated)
  {
    if e.animated then AnimatedEmojiMention(e.id, e.name) else EmojiMention(e.id, e.name)
  }

  /** String() is Mention(). */
  function EmojiString(e: PartialEmoji): (s: string)
    ensures s == Mention(e)
  {
    Mention(e)
  }

  /**
   * CreatedAt(): the zero time for ID 0, otherwise the time encoded in the ID; the
   * snowflake library's decoding of that time is passed in as idTime.
   */
  function CreatedAt(e: PartialEmoji, idTime: ID -> Time): (t: Time)
    ensures e.id == 0 ==> t == Zero
    ensures e.id != 0 ==> t == idTime(e.id)
  {
    if e.id == 0 then Zero else idTime(e.id)
  }

  /** The index of the first ':' in s, or |s| when there is none. */
  function FirstColon(s: string): (k: nat)
    ensures k <= |s|
    decreases |s|
  {
    if s == [] then 0 else if s[0] == ':' then 0 else 1 + FirstColon(s[1..])
  }

  lemma {:induction false} FirstColonOfJoin(x: string, y: string)
    requires ':' !in x
    ensures FirstColon(x + ":" + y) == |x|
    decreases |x|
  {
    if x != [] {
      assert (x + ":" + y)[1..] == x[1..] + ":" + y;
      FirstColonOfJoin(x[1..], y);
    }
  }

  /** Reactions of two named emojis are equal only when name and ID both agree. */
  lemma ReactionInjective(a: PartialEmoji, b: PartialEmoji)
    requires a.name != "" && b.name != ""
    requires ':' !in a.name && ':' !in b.name
    requires Reaction(a) == Reaction(b)
    ensures a.name == b.name && a.id == b.id
  {
    var s := Reaction(a);
    FirstColonOfJoin(a.name, IDString(a.id));
    FirstColonOfJoin(b.name, IDString(b.id));
    assert a.name == s[..|a.name|] == b.name;
    assert IDString(a.id) == s[|a.name| + 1..] == IDString(b.id);
    ParseIDString(a.id);
    ParseIDString(b.id);
  }
}
