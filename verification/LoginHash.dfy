/** The login hash of crates/rdesk_crypto/src/auth.rs, made by one function and verified by another,
    and the hexadecimal text in between. A str is the bytes of its UTF-8 form. */
module LoginHash {
  import opened Wrappers
  import opened Fips180
  import opened Sha256Code

  // ---- Hexadecimal text ---------------------------------------------------------------------------------

  /** Invalid text is refused; a slice that would cut a character in two never comes back. */
  datatype Decoding = Bytes(bytes: seq<Byte>) | Invalid | CutsCharacter

  function Digit(c: Byte): Option<Byte> {
    if 0x30 <= c <= 0x39 then Some(c - 0x30)
    else if 0x61 <= c <= 0x66 then Some(c - 0x61 + 10)
    else if 0x41 <= c <= 0x46 then Some(c - 0x41 + 10)
    else None
  }

  /** u8::from_str_radix(_, 16) on two characters: a plus sign before the one digit will do. */
  function Pair(x: Byte, y: Byte): Option<Byte> {
    if x == 0x2b then Digit(y)
    else if Digit(x).None? || Digit(y).None? then None
    else Some((Digit(x).value << 4) | Digit(y).value)
  }

  predicate Continues(c: Byte) { c & 0xc0 == 0x80 }

  /** The two bytes at i are not whole characters. */
  predicate Cuts(s: seq<Byte>, i: nat)
    requires i + 2 <= |s|
  {
    Continues(s[i]) || (i + 2 < |s| && Continues(s[i + 2]))
  }

  /** The two-character pieces of s from i on, up to the first that is no number. */
  function Pieces(s: seq<Byte>, i: nat): (d: Decoding)
    requires |s| % 2 == 0 && i % 2 == 0 && i <= |s|
    decreases |s| - i
  {
    if i == |s| then Bytes([])
    else if Cuts(s, i) then CutsCharacter
    else if Pair(s[i], s[i + 1]).None? then Invalid
    else
      var rest := Pieces(s, i + 2);
      if rest.Bytes? then Bytes([Pair(s[i], s[i + 1]).value] + rest.bytes) else rest
  }

  function Decode(s: seq<Byte>): Decoding {
    if |s| % 2 != 0 then Invalid else Pieces(s, 0)
  }

  function Prepend(front: seq<Byte>, d: Decoding): Decoding {
    if d.Bytes? then Bytes(front + d.bytes) else d
  }

  method HexDecode(s: seq<Byte>) returns (d: Decoding)
    ensures d == Decode(s)
  {
    if |s| % 2 != 0 {
      return Invalid;
    }
    var out: seq<Byte> := [];
    var i := 0;
    while i < |s|
      invariant i <= |s| && i % 2 == 0
      invariant Pieces(s, 0) == Prepend(out, Pieces(s, i))
    {
      if Cuts(s, i) {
        return CutsCharacter;
      }
      var byte := Pair(s[i], s[i + 1]);
      if byte.None? {
        return Invalid;
      }
      PrependNext(out, byte.value, Pieces(s, i + 2));
      out := out + [byte.value];
      i := i + 2;
    }
    return Bytes(out);
  }

  lemma PrependNext(front: seq<Byte>, v: Byte, d: Decoding)
    ensures Prepend(front, Prepend([v], d)) == Prepend(front + [v], d)
  {
    if d.Bytes? {
      assert front + ([v] + d.bytes) == front + [v] + d.bytes;
    }
  }

  /** The two characters at i are whole and spell v. */
  ghost predicate Spell(s: seq<Byte>, i: nat, v: Byte)
    requires i + 2 <= |s|
  {
    !Cuts(s, i) && Pair(s[i], s[i + 1]) == Some(v)
  }

  /** From i on, two characters a byte, s spells b. */
  ghost predicate Spells(s: seq<Byte>, i: nat, b: seq<Byte>)
    requires i <= |s|
  {
    |s| - i == 2 * |b| && forall j :: 0 <= j < |b| ==> Spell(s, i + 2 * j, b[j])
  }

  lemma SpellsStep(s: seq<Byte>, i: nat, b: seq<Byte>)
    requires i + 2 <= |s| && b != []
    ensures Spells(s, i, b) <==> Spell(s, i, b[0]) && Spells(s, i + 2, b[1..])
  {
    if Spells(s, i, b) {
      assert Spell(s, i + 2 * 0, b[0]);
      forall j | 0 <= j < |b[1..]|
        ensures Spell(s, i + 2 + 2 * j, b[1..][j])
      {
        assert i + 2 * (j + 1) == i + 2 + 2 * j;
      }
    }
    if Spell(s, i, b[0]) && Spells(s, i + 2, b[1..]) {
      forall j | 0 <= j < |b|
        ensures Spell(s, i + 2 * j, b[j])
      {
        if j > 0 {
          assert i + 2 + 2 * (j - 1) == i + 2 * j && b[1..][j - 1] == b[j];
        }
      }
    }
  }

  lemma {:induction false} PiecesSpell(s: seq<Byte>, i: nat, b: seq<Byte>)
    requires |s| % 2 == 0 && i % 2 == 0 && i <= |s|
    ensures Pieces(s, i) == Bytes(b) <==> Spells(s, i, b)
    decreases |s| - i
  {
    if i < |s| && b != [] {
      SpellsStep(s, i, b);
      PiecesSpell(s, i + 2, b[1..]);
      assert [b[0]] + b[1..] == b;
    }
  }

  /** Text decodes to b exactly when it spells b, two characters a byte, none of them wider than a byte. */
  lemma DecodeSpells(s: seq<Byte>, b: seq<Byte>)
    ensures Decode(s) == Bytes(b) <==> Spells(s, 0, b)
  {
    if |s| % 2 == 0 {
      PiecesSpell(s, 0, b);
    }
  }

  // ---- Writing a byte as two lower-case digits ----------------------------------------------------------

  function DigitText(n: Byte): Byte
    requires n < 16
  {
    if n < 10 then 0x30 + n else 0x61 + (n - 10)
  }

  function HexEncode(b: seq<Byte>): (s: seq<Byte>)
    ensures |s| == 2 * |b|
    ensures forall j :: 0 <= j < |b| ==> s[2 * j] == DigitText(b[j] >> 4) && s[2 * j + 1] == DigitText(b[j] & 0x0f)
  {
    if b == [] then []
    else
      var last := b[|b| - 1];
      HexEncode(b[..|b| - 1]) + [DigitText(last >> 4), DigitText(last & 0x0f)]
  }

  predicate LowerHex(c: Byte) { 0x30 <= c <= 0x39 || 0x61 <= c <= 0x66 }

  lemma PairWritten(v: Byte)
    ensures v >> 4 < 16 && v & 0x0f < 16
    ensures Pair(DigitText(v >> 4), DigitText(v & 0x0f)) == Some(v)
    ensures LowerHex(DigitText(v >> 4)) && LowerHex(DigitText(v & 0x0f))
  {
  }

  lemma LowerPair(x: Byte, y: Byte, v: Byte)
    requires LowerHex(x) && LowerHex(y) && Pair(x, y) == Some(v)
    ensures x == DigitText(v >> 4) && y == DigitText(v & 0x0f)
  {
  }

  ghost predicate InLowerCase(s: seq<Byte>) {
    forall i :: 0 <= i < |s| ==> LowerHex(s[i])
  }

  lemma Whole(s: seq<Byte>, i: nat)
    requires i + 2 <= |s| && InLowerCase(s)
    ensures !Cuts(s, i)
  {
    assert forall c: Byte :: LowerHex(c) ==> !Continues(c);
  }

  lemma EncodedIsLower(b: seq<Byte>)
    ensures InLowerCase(HexEncode(b))
  {
    var s := HexEncode(b);
    forall i | 0 <= i < |s|
      ensures LowerHex(s[i])
    {
      var j := i / 2;
      PairWritten(b[j]);
      assert i == 2 * j || i == 2 * j + 1;
    }
  }

  lemma EncodedSpells(b: seq<Byte>)
    ensures Spells(HexEncode(b), 0, b)
  {
    var s := HexEncode(b);
    EncodedIsLower(b);
    forall j | 0 <= j < |b|
      ensures Spell(s, 0 + 2 * j, b[j])
    {
      Whole(s, 2 * j);
      PairWritten(b[j]);
    }
  }

  lemma SpelledIsEncoded(s: seq<Byte>, b: seq<Byte>)
    requires Spells(s, 0, b) && InLowerCase(s)
    ensures s == HexEncode(b)
  {
    forall i | 0 <= i < |s|
      ensures s[i] == HexEncode(b)[i]
    {
      var j := i / 2;
      assert i == 2 * j || i == 2 * j + 1;
      assert Spell(s, 0 + 2 * j, b[j]);
      LowerPair(s[2 * j], s[2 * j + 1], b[j]);
    }
  }

  /** Among lower-case texts decoding undoes encoding and only that: s is the text of b exactly when it
      is in lower case and decodes to b. */
  lemma HexRoundTrip(s: seq<Byte>, b: seq<Byte>)
    ensures s == HexEncode(b) <==> Decode(s) == Bytes(b) && InLowerCase(s)
  {
    DecodeSpells(s, b);
    EncodedIsLower(b);
    EncodedSpells(b);
    if Spells(s, 0, b) && InLowerCase(s) {
      SpelledIsEncoded(s, b);
    }
  }

  // ---- The login hash -----------------------------------------------------------------------------------

  method CreateLoginHash(password: seq<Byte>, nonce: seq<Byte>) returns (hash: seq<Byte>)
    requires 8 * |password + nonce| < TWO_64
    ensures hash == Sha256(password + nonce)
  {
    hash := HashTwo(password, nonce);
  }

  /** None when the call does not come back. */
  ghost function Verdict(stored: seq<Byte>, nonce: seq<Byte>, received: seq<Byte>): Option<bool> {
    match Decode(stored)
    case Bytes(b) => Some(Sha256(b + nonce) == received)
    case Invalid => Some(false)
    case CutsCharacter => None
  }

  method VerifyLoginHash(stored: seq<Byte>, nonce: seq<Byte>, received: seq<Byte>) returns (ok: Option<bool>)
    requires 8 * (|stored| / 2 + |nonce|) < TWO_64
    ensures ok == Verdict(stored, nonce, received)
  {
    var decoded := HexDecode(stored);
    match decoded
    case CutsCharacter => return None;
    case Invalid => return Some(false);
    case Bytes(b) =>
      DecodeSpells(stored, b);
      var expected := HashTwo(b, nonce);
      var same := ConstantTimeEq(expected, received);
      return Some(same);
  }

  /** A hash made from the password is accepted exactly when the stored text spells, two characters a
      byte, bytes that hash with the nonce after them to the same digest. */
  lemma AcceptedExactlyWhen(stored: seq<Byte>, password: seq<Byte>, nonce: seq<Byte>)
    ensures Verdict(stored, nonce, Sha256(password + nonce)) == Some(true) <==>
            exists b :: Spells(stored, 0, b) && Sha256(b + nonce) == Sha256(password + nonce)
  {
    if Decode(stored).Bytes? {
      DecodeSpells(stored, Decode(stored).bytes);
    }
    forall b | Spells(stored, 0, b)
      ensures Decode(stored) == Bytes(b)
    {
      DecodeSpells(stored, b);
    }
  }

  /** The documented use, the hash of the password in store: the right password is accepted exactly
      when the password and its own digest hash alike under the nonce. */
  lemma StoredDigestAccepts(password: seq<Byte>, nonce: seq<Byte>)
    ensures Verdict(HexEncode(Sha256(password)), nonce, Sha256(password + nonce)) == Some(true) <==>
            Sha256(password + nonce) == Sha256(Sha256(password) + nonce)
    ensures Verdict(HexEncode(Sha256(password)), nonce, Sha256(password + nonce)) == Some(false) <==>
            Sha256(password + nonce) != Sha256(Sha256(password) + nonce)
  {
    HexRoundTrip(HexEncode(Sha256(password)), Sha256(password));
  }

  /** So it takes a password that is its own digest, or two different messages with one digest. */
  lemma AcceptanceIsACoincidence(password: seq<Byte>, nonce: seq<Byte>)
    requires Verdict(HexEncode(Sha256(password)), nonce, Sha256(password + nonce)) == Some(true)
    ensures password == Sha256(password)
            || exists x, y :: x != y && x == password + nonce && y == Sha256(password) + nonce && Sha256(x) == Sha256(y)
  {
    StoredDigestAccepts(password, nonce);
    var x, y := password + nonce, Sha256(password) + nonce;
    if x == y {
      assert x[..|x| - |nonce|] == password && y[..|y| - |nonce|] == Sha256(password);
    }
  }

  /** What the verifier does accept, whatever is stored: the hash made from the stored bytes themselves. */
  lemma HashOfStoredBytesAccepted(b: seq<Byte>, nonce: seq<Byte>)
    ensures Verdict(HexEncode(b), nonce, Sha256(b + nonce)) == Some(true)
  {
    HexRoundTrip(HexEncode(b), b);
  }
}
