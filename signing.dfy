/**
 * Request signing (`generateHash`, src/controllers/pagaService.js:11-16).
 * Each provider request carries a `hash` header: the SHA-512 hex digest
 * (FIPS 180-4, section 6.4) of the request's field values joined with no
 * separator and followed by the shared key. The digest itself is a
 * parameter of the model (`sha512`); what is modelled is the preimage.
 */
module Signing {
  import opened Common

  /** `valuesArray.join("")`. */
  function Concat(values: seq<string>): string {
    if values == [] then "" else Concat(values[..|values| - 1]) + values[|values| - 1]
  }

  /** The text that is hashed: the values in order, then the key. */
  function Preimage(values: seq<string>, key: string): string {
    Concat(values) + key
  }

  /** JavaScript's `string + hashkey` when the key is not configured turns
      the missing key into the text "undefined". */
  function KeyText(hashKey: Option<string>): string {
    match hashKey
    case Some(k) => k
    case None => "undefined"
  }

  function GenerateHash(values: seq<string>, hashKey: Option<string>, sha512: string -> string): string {
    sha512(Preimage(values, KeyText(hashKey)))
  }

  /** Position at which field `i` starts in the preimage. */
  function Offset(values: seq<string>, i: nat): nat
    requires i <= |values|
  {
    |Concat(values[..i])|
  }

  lemma {:induction false} ConcatAppend(a: seq<string>, b: seq<string>)
    ensures Concat(a + b) == Concat(a) + Concat(b)
    decreases |b|
  {
    if b == [] {
      assert a + b == a;
    } else {
      var b' := b[..|b| - 1];
      assert (a + b)[..|a + b| - 1] == a + b';
      ConcatAppend(a, b');
    }
  }

  lemma ConcatLength(values: seq<string>, i: nat)
    requires i < |values|
    ensures Offset(values, i) + |values[i]| == Offset(values, i + 1)
  {
    assert values[..i + 1] == values[..i] + [values[i]];
    ConcatAppend(values[..i], [values[i]]);
    assert Concat([values[i]]) == Concat([]) + values[i];
  }

  /** Every field sits unchanged, at its offset, in the preimage, and the key
      closes it: the preimage is exactly the fields in order, then the key. */
  lemma FieldAt(values: seq<string>, key: string, i: nat)
    requires i < |values|
    ensures Offset(values, i) + |values[i]| == Offset(values, i + 1)
    ensures Offset(values, i + 1) <= |Preimage(values, key)|
    ensures Preimage(values, key)[Offset(values, i)..Offset(values, i + 1)] == values[i]
  {
    assert values == values[..i] + [values[i]] + values[i + 1..];
    ConcatAppend(values[..i] + [values[i]], values[i + 1..]);
    ConcatAppend(values[..i], [values[i]]);
    assert Concat([values[i]]) == Concat([]) + values[i];
    assert values[..i + 1] == values[..i] + [values[i]];
    var p := Preimage(values, key);
    assert p == Concat(values[..i]) + values[i] + Concat(values[i + 1..]) + key;
    ConcatLength(values, i);
  }

  /** Joining a short list is plain concatenation of its items. */
  lemma ConcatSmall(a: string, b: string, c: string, d: string)
    ensures Concat([a]) == a
    ensures Concat([a, b]) == a + b
    ensures Concat([a, b, c]) == a + b + c
    ensures Concat([a, b, c, d]) == a + b + c + d
  {
    assert [a, b, c, d][..3] == [a, b, c];
    assert [a, b, c][..2] == [a, b];
    assert [a, b][..1] == [a];
    assert Concat([a]) == Concat([]) + a;
  }

  lemma KeyIsSuffix(values: seq<string>, key: string)
    ensures |Preimage(values, key)| == |Concat(values)| + |key|
    ensures Preimage(values, key)[|Concat(values)|..] == key
  {
  }

  /** Trailing empty fields add nothing to the preimage. */
  lemma {:induction false} EmptyFieldsVanish(values: seq<string>, n: nat)
    ensures Concat(values + seq(n, _ => "")) == Concat(values)
    decreases n
  {
    if n > 0 {
      var pad := seq(n, _ => "");
      assert (values + pad)[..|values + pad| - 1] == values + seq(n - 1, _ => "");
      EmptyFieldsVanish(values, n - 1);
    } else {
      assert values + seq(0, _ => "") == values;
    }
  }

  /** Swapping two distinct fields of equal length changes the preimage. */
  lemma SwapChangesPreimage(values: seq<string>, key: string, i: nat, j: nat)
    requires i < j < |values|
    requires |values[i]| == |values[j]| && values[i] != values[j]
    ensures Preimage(values, key) != Preimage(values[i := values[j]][j := values[i]], key)
  {
    var swapped := values[i := values[j]][j := values[i]];
    assert swapped[..i] == values[..i];
    FieldAt(values, key, i);
    FieldAt(swapped, key, i);
    ConcatLength(values, i);
    ConcatLength(swapped, i);
  }

  /** Without a separator the preimage does not determine the fields: two
      different orders of "x" and "xx" sign the same text. */
  lemma SwapCanCollide(key: string)
    ensures ["x", "xx"] != ["xx", "x"]
    ensures Preimage(["x", "xx"], key) == Preimage(["xx", "x"], key)
  {
  }

  /** Equal preimages give equal digests, whatever the field lists. */
  lemma SamePreimageSameHash(v1: seq<string>, k1: Option<string>, v2: seq<string>, k2: Option<string>, sha512: string -> string)
    requires Preimage(v1, KeyText(k1)) == Preimage(v2, KeyText(k2))
    ensures GenerateHash(v1, k1, sha512) == GenerateHash(v2, k2, sha512)
  {
  }
}
