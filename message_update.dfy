// fluxer/message_update.go: MessageUpdate, the copy-and-return builder for editing a message.
// Every builder takes the update by value and returns a modified copy, so each one is a
// function of the datatype; the two RetainAttachments builders append in a loop and are methods.
// Slices are values here: WithEmbed's slices.Insert can shift the receiver's own embeds when
// their backing array has room, and AddFiles/AddFile may share a backing array between two
// updates built from one base. Neither aliasing effect is modelled.
module MessageUpdates {
  import opened Wrappers
  import opened Snowflakes
  import opened BitFlags
  import opened Messages
  import opened MessageParts

  /** A nil pointer field is None; Files is a plain slice, whose nil and empty forms behave alike. */
  datatype MessageUpdate = MessageUpdate(
    content: Option<string>,
    embeds: Option<seq<Embed>>,
    attachments: Option<seq<AttachmentUpdate>>,
    files: seq<File>,
    allowedMentions: Option<AllowedMentions>,
    flags: Option<Flags>)
  {
    /** The embeds the builders start from: nil counts as an empty list. */
    function CurrentEmbeds(): seq<Embed>
    {
      embeds.GetOr([])
    }

    function WithContent(content: string): (r: MessageUpdate)
      ensures r.content == Some(content)
      ensures r.(content := this.content) == this
    {
      this.(content := Some(content))
    }

    /** ClearContent sends an explicitly empty content, not a missing one. */
    function ClearContent(): (r: MessageUpdate)
      ensures r.content.Some? && r.content.value == ""
      ensures r.(content := this.content) == this
    {
      WithContent("")
    }

    function WithEmbeds(embeds: seq<Embed>): (r: MessageUpdate)
      ensures r.embeds == Some(embeds)
      ensures r.(embeds := this.embeds) == this
    {
      this.(embeds := Some(embeds))
    }

    /** WithEmbed(i, e) inserts e before position i (it does not replace); out of range it only turns nil into empty. */
    function WithEmbed(i: nat, embed: Embed): (r: MessageUpdate)
      ensures r.embeds.Some?
      ensures i < |CurrentEmbeds()| ==>
        |r.embeds.value| == |CurrentEmbeds()| + 1 && r.embeds.value[i] == embed &&
        r.embeds.value[..i] == CurrentEmbeds()[..i] && r.embeds.value[i + 1..] == CurrentEmbeds()[i..]
      ensures i >= |CurrentEmbeds()| ==> r.embeds.value == CurrentEmbeds()
      ensures r.(embeds := this.embeds) == this
    {
      var current := CurrentEmbeds();
      if i < |current| then this.(embeds := Some(current[..i] + [embed] + current[i..]))
      else this.(embeds := Some(current))
    }

    /** AddEmbeds appends after the existing embeds. */
    function AddEmbeds(embeds: seq<Embed>): (r: MessageUpdate)
      ensures r.embeds.Some? && |r.embeds.value| == |CurrentEmbeds()| + |embeds|
      ensures r.embeds.value[..|CurrentEmbeds()|] == CurrentEmbeds()
      ensures r.embeds.value[|CurrentEmbeds()|..] == embeds
      ensures r.(embeds := this.embeds) == this
    {
      this.(embeds := Some(CurrentEmbeds() + embeds))
    }

    /** ClearEmbeds sends an explicitly empty list. */
    function ClearEmbeds(): (r: MessageUpdate)
      ensures r.embeds.Some? && r.embeds.value == []
      ensures r.(embeds := this.embeds) == this
    {
      this.(embeds := Some([]))
    }

    /** RemoveEmbed(i) deletes position i when it exists, keeping the order of the rest. */
    function RemoveEmbed(i: nat): (r: MessageUpdate)
      ensures r.embeds.Some?
      ensures i < |CurrentEmbeds()| ==>
        |r.embeds.value| == |CurrentEmbeds()| - 1 &&
        r.embeds.value[..i] == CurrentEmbeds()[..i] && r.embeds.value[i..] == CurrentEmbeds()[i + 1..]
      ensures i >= |CurrentEmbeds()| ==> r.embeds.value == CurrentEmbeds()
      ensures r.(embeds := this.embeds) == this
    {
      var current := CurrentEmbeds();
      if i < |current| then this.(embeds := Some(current[..i] + current[i + 1..]))
      else this.(embeds := Some(current))
    }

    function WithFiles(files: seq<File>): (r: MessageUpdate)
      ensures r.files == files
      ensures r.(files := this.files) == this
    {
      this.(files := files)
    }

    /** UpdateFile(i, f) replaces only position i, and only when it exists. */
    function UpdateFile(i: nat, file: File): (r: MessageUpdate)
      ensures |r.files| == |files|
      ensures forall k :: 0 <= k < |files| && k != i ==> r.files[k] == files[k]
      ensures i < |files| ==> r.files[i] == file
      ensures r.(files := this.files) == this
    {
      if i < |files| then this.(files := files[i := file]) else this
    }

    function AddFiles(files: seq<File>): (r: MessageUpdate)
      ensures |r.files| == |this.files| + |files|
      ensures r.files[..|this.files|] == this.files && r.files[|this.files|..] == files
      ensures r.(files := this.files) == this
    {
      this.(files := this.files + files)
    }

    /** AddFile(name, description, reader, flags...) appends one new file. */
    function AddFile(name: string, description: string, fileFlags: seq<int>): (r: MessageUpdate)
      ensures |r.files| == |files| + 1 && r.files[..|files|] == files
      ensures r.files[|files|].name == name && r.files[|files|].description == description
      ensures r.(files := this.files) == this
    {
      this.(files := files + [NewFile(name, description, fileFlags)])
    }

    function ClearFiles(): (r: MessageUpdate)
      ensures r.files == []
      ensures r.(files := this.files) == this
    {
      this.(files := [])
    }

    /** RemoveFile(i) deletes position i when it exists. */
    function RemoveFile(i: nat): (r: MessageUpdate)
      ensures i < |files| ==> |r.files| == |files| - 1 && r.files[..i] == files[..i] && r.files[i..] == files[i + 1..]
      ensures i >= |files| ==> r == this
      ensures r.(files := this.files) == this
    {
      if i < |files| then this.(files := files[..i] + files[i + 1..]) else this
    }

    /** RetainAttachmentsByID(ids...) appends one AttachmentKeep per ID after the existing attachments. */
    method RetainAttachmentsByID(ids: seq<ID>) returns (r: MessageUpdate)
      ensures r.attachments == Some(attachments.GetOr([]) + KeepAll(ids))
      ensures r.(attachments := this.attachments) == this
    {
      var existing := attachments.GetOr([]);
      var newAttachments := existing;
      for k := 0 to |ids|
        invariant newAttachments == existing + KeepAll(ids[..k])
      {
        KeepAllSnoc(ids, k);
        newAttachments := newAttachments + [AttachmentKeep(ids[k])];
      }
      assert ids[..|ids|] == ids;
      r := this.(attachments := Some(newAttachments));
    }

    /** RetainAttachments(attachments...) keeps the given attachments by their IDs. */
    method RetainAttachments(retained: seq<Attachment>) returns (r: MessageUpdate)
      ensures r.attachments == Some(attachments.GetOr([]) + KeepAll(AttachmentIDs(retained)))
      ensures r.(attachments := this.attachments) == this
    {
      var existing := attachments.GetOr([]);
      var newAttachments := existing;
      for k := 0 to |retained|
        invariant newAttachments == existing + KeepAll(AttachmentIDs(retained)[..k])
      {
        KeepAllSnoc(AttachmentIDs(retained), k);
        newAttachments := newAttachments + [AttachmentKeep(retained[k].id)];
      }
      assert AttachmentIDs(retained)[..|retained|] == AttachmentIDs(retained);
      r := this.(attachments := Some(newAttachments));
    }

    /** WithAllowedMentions(nil) is ClearAllowedMentions. */
    function WithAllowedMentions(allowedMentions: Option<AllowedMentions>): (r: MessageUpdate)
      ensures r.allowedMentions == allowedMentions
      ensures r.(allowedMentions := this.allowedMentions) == this
    {
      this.(allowedMentions := allowedMentions)
    }

    function ClearAllowedMentions(): (r: MessageUpdate)
      ensures r.allowedMentions.None?
      ensures r.(allowedMentions := this.allowedMentions) == this
    {
      WithAllowedMentions(None)
    }

    function WithFlags(flags: Flags): (r: MessageUpdate)
      ensures r.flags == Some(flags)
      ensures r.(flags := this.flags) == this
    {
      this.(flags := Some(flags))
    }

    /** AddFlags: nil flags count as MessageFlagsNone; the result holds every given bit. */
    function AddFlags(bits: seq<Flags>): (r: MessageUpdate)
      ensures r.flags.Some? && r.flags.value == flags.GetOr(MessageFlagsNone) | Union(bits)
      ensures Has(r.flags.value, bits)
      ensures r.(flags := this.flags) == this
    {
      var held := flags.GetOr(MessageFlagsNone);
      var added := Add(held, bits);
      AddIsUnion(held, bits);
      HasAfterAdd(held, bits);
      this.(flags := Some(added))
    }

    /** RemoveFlags: nil flags count as MessageFlagsNone; the result clears every given bit. */
    function RemoveFlags(bits: seq<Flags>): (r: MessageUpdate)
      ensures r.flags.Some? && r.flags.value == flags.GetOr(MessageFlagsNone) & !Union(bits)
      ensures r.(flags := this.flags) == this
    {
      RemoveIsDifference(flags.GetOr(MessageFlagsNone), bits);
      this.(flags := Some(Remove(flags.GetOr(MessageFlagsNone), bits)))
    }

    /** ClearFlags sends an explicit MessageFlagsNone. */
    function ClearFlags(): (r: MessageUpdate)
      ensures r.flags == Some(MessageFlagsNone)
      ensures r.(flags := this.flags) == this
    {
      WithFlags(MessageFlagsNone)
    }

    function WithSuppressEmbeds(suppressEmbeds: bool): (r: MessageUpdate)
      ensures r.flags.Some?
      ensures r.(flags := this.flags) == this
    {
      this.(flags := Some(SetBit(flags.GetOr(MessageFlagsNone), MessageFlagSuppressEmbeds, suppressEmbeds)))
    }

    function WithIsComponentsV2(isComponentsV2: bool): (r: MessageUpdate)
      ensures r.flags.Some?
      ensures r.(flags := this.flags) == this
    {
      this.(flags := Some(SetBit(flags.GetOr(MessageFlagsNone), MessageFlagIsComponentsV2, isComponentsV2)))
    }
  }

  /** NewMessageUpdate: every field unset. */
  function NewMessageUpdate(): (r: MessageUpdate)
    ensures r.content.None? && r.embeds.None? && r.attachments.None? && r.files == []
    ensures r.allowedMentions.None? && r.flags.None?
  {
    MessageUpdate(None, None, None, [], None, None)
  }

  /** Inserting an embed and then removing the same position gives back the original embeds. */
  lemma InsertThenRemoveEmbed(m: MessageUpdate, i: nat, e: Embed)
    requires i < |m.CurrentEmbeds()|
    ensures m.WithEmbed(i, e).RemoveEmbed(i).embeds == Some(m.CurrentEmbeds())
  {
    var current := m.CurrentEmbeds();
    var inserted := current[..i] + [e] + current[i..];
    assert m.WithEmbed(i, e).CurrentEmbeds() == inserted;
    assert inserted[..i] + inserted[i + 1..] == current;
  }

  /** Two AddEmbeds calls are one AddEmbeds of the concatenation. */
  lemma AddEmbedsTwice(m: MessageUpdate, a: seq<Embed>, b: seq<Embed>)
    ensures m.AddEmbeds(a).AddEmbeds(b) == m.AddEmbeds(a + b)
  {
    assert m.CurrentEmbeds() + a + b == m.CurrentEmbeds() + (a + b);
  }

  /** Retaining attachments and retaining their IDs append the same Keep entries: one per attachment, in order. */
  lemma RetainedEntries(existing: seq<AttachmentUpdate>, retained: seq<Attachment>)
    ensures |KeepAll(AttachmentIDs(retained))| == |retained|
    ensures forall k :: 0 <= k < |retained| ==>
      (existing + KeepAll(AttachmentIDs(retained)))[|existing| + k] == AttachmentKeep(retained[k].id)
  {
    KeepAllAt(AttachmentIDs(retained));
  }

  /** WithSuppressEmbeds decides the SuppressEmbeds bit and leaves every other bit as it was. */
  lemma WithSuppressEmbedsOwnBit(m: MessageUpdate, suppressEmbeds: bool)
    ensures m.WithSuppressEmbeds(suppressEmbeds).flags.value & MessageFlagSuppressEmbeds ==
      (if suppressEmbeds then MessageFlagSuppressEmbeds else 0)
    ensures m.WithSuppressEmbeds(suppressEmbeds).flags.value & !MessageFlagSuppressEmbeds ==
      m.flags.GetOr(MessageFlagsNone) & !MessageFlagSuppressEmbeds
  {
    SetBitSets(m.flags.GetOr(MessageFlagsNone), MessageFlagSuppressEmbeds, suppressEmbeds);
    SetBitKeeps(m.flags.GetOr(MessageFlagsNone), MessageFlagSuppressEmbeds, suppressEmbeds);
  }

  /** WithIsComponentsV2 decides the IsComponentsV2 bit and leaves every other bit as it was. */
  lemma WithIsComponentsV2OwnBit(m: MessageUpdate, isComponentsV2: bool)
    ensures m.WithIsComponentsV2(isComponentsV2).flags.value & MessageFlagIsComponentsV2 ==
      (if isComponentsV2 then MessageFlagIsComponentsV2 else 0)
    ensures m.WithIsComponentsV2(isComponentsV2).flags.value & !MessageFlagIsComponentsV2 ==
      m.flags.GetOr(MessageFlagsNone) & !MessageFlagIsComponentsV2
  {
    SetBitSets(m.flags.GetOr(MessageFlagsNone), MessageFlagIsComponentsV2, isComponentsV2);
    SetBitKeeps(m.flags.GetOr(MessageFlagsNone), MessageFlagIsComponentsV2, isComponentsV2);
  }

  /** After RemoveFlags none of the removed bits is present. */
  lemma RemoveFlagsClears(m: MessageUpdate, bits: seq<Flags>, i: nat)
    requires i < |bits|
    ensures m.RemoveFlags(bits).flags.value & bits[i] == 0
  {
    NoneAfterRemove(m.flags.GetOr(MessageFlagsNone), bits, i);
  }
}
