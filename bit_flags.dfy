// The variadic flag helpers that every flag type of the library delegates to
// (Add, Remove, Has, Missing). Go's flag types are 64-bit integers; they are modelled
// as bv64 so that |, & and &^ mean what they mean in Go.
module BitFlags {

  type Flags = bv64

  /** Every bit set in sub is also set in f. */
  predicate Includes(f: Flags, sub: Flags)
  {
    f & sub == sub
  }

  /** Add(f, bits...): f with every given bit set; no bit of f is ever cleared. */
  function Add(f: Flags, bits: seq<Flags>): (r: Flags)
    ensures Includes(r, f)
    decreases |bits|
  {
    if bits == [] then
      IncludesSelf(f);
      f
    else
      var r := Add(f | bits[0], bits[1..]);
      KeepsLeft(r, f, bits[0]);
      r
  }

  /** Remove(f, bits...): f with every given bit cleared (f &^ bit for each); no bit is ever set that f lacks. */
  function Remove(f: Flags, bits: seq<Flags>): (r: Flags)
    ensures Includes(f, r)
    decreases |bits|
  {
    if bits == [] then
      IncludesSelf(f);
      f
    else
      var r := Remove(f & !bits[0], bits[1..]);
      WithinKept(r, f, bits[0]);
      r
  }

  lemma IncludesSelf(f: Flags)
    ensures Includes(f, f)
  {
  }

  lemma KeepsLeft(r: Flags, a: Flags, b: Flags)
    requires Includes(r, a | b)
    ensures Includes(r, a)
  {
  }

  lemma WithinKept(r: Flags, a: Flags, b: Flags)
    requires Includes(a & !b, r)
    ensures Includes(a, r)
  {
  }

  /** Has(f, bits...): every given bit is set, so Has of no bits always holds. */
  function Has(f: Flags, bits: seq<Flags>): (r: bool)
    ensures bits == [] ==> r
  {
    forall i :: 0 <= i < |bits| ==> Includes(f, bits[i])
  }

  /** Missing(f, bits...): at least one given bit is not set, so nothing is missing from no bits. */
  function Missing(f: Flags, bits: seq<Flags>): (r: bool)
    ensures r ==> |bits| > 0
  {
    exists i :: 0 <= i < |bits| && !Includes(f, bits[i])
  }

  /** Missing is exactly the negation of Has. */
  lemma MissingIsNotHas(f: Flags, bits: seq<Flags>)
    ensures Missing(f, bits) <==> !Has(f, bits)
  {
  }

  /** Add sets exactly the union of the given bits. */
  lemma {:induction false} AddIsUnion(f: Flags, bits: seq<Flags>)
    ensures Add(f, bits) == f | Union(bits)
    decreases |bits|
  {
    if bits != [] {
      AddIsUnion(f | bits[0], bits[1..]);
      OrAssoc(f, bits[0], Union(bits[1..]));
    }
  }

  lemma OrAssoc(a: Flags, b: Flags, c: Flags)
    ensures (a | b) | c == a | (b | c)
  {
  }

  /** The OR of a list of bits. */
  function Union(bits: seq<Flags>): Flags
    decreases |bits|
  {
    if bits == [] then 0 else bits[0] | Union(bits[1..])
  }

  /** Remove clears exactly the union of the given bits. */
  lemma {:induction false} RemoveIsDifference(f: Flags, bits: seq<Flags>)
    ensures Remove(f, bits) == f & !Union(bits)
    decreases |bits|
  {
    if bits != [] {
      RemoveIsDifference(f & !bits[0], bits[1..]);
    }
  }

  /** After Add, all the added bits are present. */
  lemma {:induction false} HasAfterAdd(f: Flags, bits: seq<Flags>)
    ensures Has(Add(f, bits), bits)
  {
    AddIsUnion(f, bits);
    forall i | 0 <= i < |bits| ensures Add(f, bits) & bits[i] == bits[i] {
      UnionContains(bits, i);
    }
  }

  /** After Remove, no removed bit is present. */
  lemma {:induction false} NoneAfterRemove(f: Flags, bits: seq<Flags>, i: nat)
    requires i < |bits|
    ensures Remove(f, bits) & bits[i] == 0
  {
    RemoveIsDifference(f, bits);
    UnionContains(bits, i);
  }

  lemma {:induction false} UnionContains(bits: seq<Flags>, i: nat)
    requires i < |bits|
    ensures Union(bits) & bits[i] == bits[i]
    decreases |bits|
  {
    if i > 0 {
      UnionContains(bits[1..], i - 1);
    }
  }
}
