// The payload pieces that the two message-update builders carry. Their declarations
// (Embed, Attachment, AttachmentUpdate, File, AllowedMentions) live in files that are not
// part of this model: only the fields the builders touch are kept.
module MessageParts {
  import opened Snowflakes
  import opened BitFlags

  datatype Embed = Embed(title: string, description: string, url: string)

  datatype Attachment = Attachment(id: ID, filename: string)

  /** An entry of the attachments list sent with an edit: keep an existing one, or upload a new one. */
  datatype AttachmentUpdate =
    | AttachmentKeep(id: ID)
    | AttachmentCreate(fileIndex: int, filename: string, description: string)

  /** A file to upload; the reader is replaced by the file's identity. */
  datatype File = File(name: string, description: string, flags: seq<int>)

  datatype AllowedMentions = AllowedMentions(parse: seq<string>, users: seq<ID>, roles: seq<ID>, repliedUser: bool)

  /** NewFile(name, description, reader, flags...). */
  function NewFile(name: string, description: string, flags: seq<int>): (f: File)
    ensures f.name == name && f.description == description && f.flags == flags
  {
    File(name, description, flags)
  }

  /** One AttachmentKeep entry per ID, in order. */
  function KeepAll(ids: seq<ID>): seq<AttachmentUpdate>
    decreases |ids|
  {
    if ids == [] then [] else [AttachmentKeep(ids[0])] + KeepAll(ids[1..])
  }

  lemma {:induction false} KeepAllAt(ids: seq<ID>)
    ensures |KeepAll(ids)| == |ids|
    ensures forall i :: 0 <= i < |ids| ==> KeepAll(ids)[i] == AttachmentKeep(ids[i])
    decreases |ids|
  {
    if ids != [] {
      KeepAllAt(ids[1..]);
    }
  }

  lemma {:induction false} KeepAllAppend(a: seq<ID>, b: seq<ID>)
    ensures KeepAll(a + b) == KeepAll(a) + KeepAll(b)
    decreases |a|
  {
    if a == [] {
      assert a + b == b;
    } else {
      assert (a + b)[0] == a[0];
      assert (a + b)[1..] == a[1..] + b;
      KeepAllAppend(a[1..], b);
    }
  }

  /** The Keep entries of a prefix grow by one per further ID. */
  lemma KeepAllSnoc(ids: seq<ID>, k: nat)
    requires k < |ids|
    ensures KeepAll(ids[..k + 1]) == KeepAll(ids[..k]) + [AttachmentKeep(ids[k])]
  {
    assert ids[..k + 1] == ids[..k] + [ids[k]];
    KeepAllAppend(ids[..k], [ids[k]]);
  }

  /** The IDs of a list of attachments, in order. */
  function AttachmentIDs(attachments: seq<Attachment>): (ids: seq<ID>)
    ensures |ids| == |attachments|
    ensures forall i :: 0 <= i < |ids| ==> ids[i] == attachments[i].id
  {
    seq(|attachments|, i requires 0 <= i < |attachments| => attachments[i].id)
  }

  /** The flag update behind WithSuppressEmbeds and WithIsComponentsV2: Add(bit) when on, Remove(bit) otherwise. */
  function SetBit(f: Flags, bit: Flags, on: bool): Flags
  {
    if on then Add(f, [bit]) else Remove(f, [bit])
  }

  lemma AddOne(f: Flags, bit: Flags)
    ensures Add(f, [bit]) == f | bit
  {
    assert [bit][1..] == [];
  }

  lemma RemoveOne(f: Flags, bit: Flags)
    ensures Remove(f, [bit]) == f & !bit
  {
    assert [bit][1..] == [];
  }

  /** The chosen bit ends up set exactly when asked for. */
  lemma SetBitSets(f: Flags, bit: Flags, on: bool)
    ensures SetBit(f, bit, on) & bit == (if on then bit else 0)
  {
    if on {
      AddOne(f, bit);
      OrSets(f, bit);
    } else {
      RemoveOne(f, bit);
      AndNotClears(f, bit);
    }
  }

  /** Every other bit is left as it was. */
  lemma SetBitKeeps(f: Flags, bit: Flags, on: bool)
    ensures SetBit(f, bit, on) & !bit == f & !bit
  {
    if on {
      AddOne(f, bit);
      OrKeeps(f, bit);
    } else {
      RemoveOne(f, bit);
      AndNotKeeps(f, bit);
    }
  }

  lemma OrSets(f: Flags, bit: Flags) ensures (f | bit) & bit == bit {}
  lemma OrKeeps(f: Flags, bit: Flags) ensures (f | bit) & !bit == f & !bit {}
  lemma AndNotClears(f: Flags, bit: Flags) ensures (f & !bit) & bit == 0 {}
  lemma AndNotKeeps(f: Flags, bit: Flags) ensures (f & !bit) & !bit == f & !bit {}
}
