/**
 * `java.util.UUID` as its canonical text: 32 lower-case hexadecimal digits in groups of
 * 8-4-4-4-12 separated by hyphens, which is what `UUID.toString()` prints.
 */
module Uuid {
  import opened Wrappers
  import JavaText

  predicate IsHyphenPosition(i: int) { i == 8 || i == 13 || i == 18 || i == 23 }

  predicate IsLowerHex(c: char) { ('0' <= c <= '9') || ('a' <= c <= 'f') }

  predicate IsHex(c: char) { IsLowerHex(c) || ('A' <= c <= 'F') }

  /**
   * The text this model reads as a UUID: the canonical 36-character layout, hexadecimal digits
   * of either case. `UUID.fromString` also accepts shorter five-group hexadecimal text, which
   * is not modelled.
   */
  predicate WellFormed(s: string) {
    |s| == 36 && forall i :: 0 <= i < 36 ==> if IsHyphenPosition(i) then s[i] == '-' else IsHex(s[i])
  }

  /** Text `UUID.toString()` prints. */
  predicate Canonical(s: string) {
    |s| == 36 && forall i :: 0 <= i < 36 ==> if IsHyphenPosition(i) then s[i] == '-' else IsLowerHex(s[i])
  }

  /** A UUID, identified with its canonical text (so `toString()` is the value itself). */
  type Uuid = s: string | Canonical(s) witness "00000000-0000-0000-0000-000000000000"

  function LowerChar(c: char): (r: char)
    ensures IsHex(c) ==> IsLowerHex(r)
    ensures !('A' <= c <= 'F') ==> r == c
  {
    if 'A' <= c <= 'F' then (c as int - 'A' as int + 'a' as int) as char else c
  }

  /** `UUID.fromString(s)` on canonical-layout text; `None` stands for the exception any other text is refused with. */
  function FromString(s: string): (r: Option<Uuid>)
    ensures r.Some? <==> WellFormed(s)
    ensures r.Some? ==> |r.value| == |s| && forall i :: 0 <= i < |s| ==> r.value[i] == LowerChar(s[i])
  {
    if WellFormed(s) then
      var t := seq(|s|, i requires 0 <= i < |s| => LowerChar(s[i]));
      assert Canonical(t) by {
        forall i | 0 <= i < 36 ensures if IsHyphenPosition(i) then t[i] == '-' else IsLowerHex(t[i]) {
          assert t[i] == LowerChar(s[i]);
        }
      }
      Some(t)
    else None
  }

  /** Parsing the printed text of a UUID gives the same UUID. */
  lemma FromStringOfText(u: Uuid)
    ensures FromString(u) == Some(u)
  {
    assert WellFormed(u) by {
      forall i | 0 <= i < 36 ensures if IsHyphenPosition(i) then u[i] == '-' else IsHex(u[i]) {
        assert Canonical(u);
      }
    }
    var t := FromString(u).value;
    forall i | 0 <= i < |u| ensures t[i] == u[i] {
      assert Canonical(u) && (IsHyphenPosition(i) || IsLowerHex(u[i]));
    }
    assert t == u;
  }

  /** The text `"null"`, which string concatenation prints for a null UUID, is not a UUID. */
  lemma NullTextIsNotUuid()
    ensures FromString("null") == None
  {
  }

  /** The decimal text of a number is never UUID text: a digit stands where the first hyphen goes. */
  lemma NumberTextIsNotUuid(n: int)
    ensures FromString(JavaText.IntToText(n)) == None
  {
    var t := JavaText.IntToText(n);
    if |t| == 36 {
      if n < 0 {
        assert t[8] == JavaText.NatDigits(-n)[7];
      } else {
        assert t[8] == JavaText.NatDigits(n)[8];
      }
    }
  }
}
