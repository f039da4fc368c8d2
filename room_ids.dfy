/**
 * The two random identifiers of server/rooms/models.py: room ids from
 * `generate_id`, and peer ids from `uuid.uuid4().hex`. The random source is a
 * nondeterministic choice.
 */
module RoomIds {
  /** The characters `generate_id` draws from: no `O` and no `l`. */
  const IdAlphabet: string := Upper + Lower + Digits

  const Upper: string := "ABCDEFGHIJKLMNPQRSTUVWXYZ"
  const Lower: string := "abcdefghijkmnopqrstuvwxyz"
  const Digits: string := "0123456789"

  /** Upper-case letters but `O`, lower-case letters but `l`, and digits. */
  predicate IdChar(c: char) {
    ('A' <= c <= 'Z' && c != 'O') || ('a' <= c <= 'z' && c != 'l') || ('0' <= c <= '9')
  }

  /** The alphabet holds sixty characters, all of them id characters. */
  lemma AlphabetIsIdChars()
    ensures |IdAlphabet| == 60
    ensures forall c :: c in IdAlphabet ==> IdChar(c)
  {
    UpperChars();
    LowerChars();
    DigitChars();
    assert forall c :: c in IdAlphabet ==> c in Upper || c in Lower || c in Digits;
  }

  lemma UpperChars()
    ensures |Upper| == 25 && forall c :: c in Upper ==> 'A' <= c <= 'Z' && c != 'O'
  {
  }

  lemma LowerChars()
    ensures |Lower| == 25 && forall c :: c in Lower ==> 'a' <= c <= 'z' && c != 'l'
  {
  }

  lemma DigitChars()
    ensures |Digits| == 10 && forall c :: c in Digits ==> '0' <= c <= '9'
  {
  }

  /** Every id character is in the alphabet. */
  lemma IdCharsInAlphabet(c: char)
    requires IdChar(c)
    ensures c in IdAlphabet
  {
    if 'A' <= c <= 'Z' {
      assert c in Upper;
    } else if 'a' <= c <= 'z' {
      assert c in Lower;
    } else {
      assert c in Digits;
    }
  }

  /** `generate_id`: six independent picks from the alphabet. */
  method GenerateId() returns (id: string)
    ensures |id| == 6
    ensures forall i :: 0 <= i < |id| ==> id[i] in IdAlphabet && IdChar(id[i])
  {
    id := "";
    for k := 0 to 6
      invariant |id| == k
      invariant forall i :: 0 <= i < |id| ==> id[i] in IdAlphabet && IdChar(id[i])
    {
      assert IdAlphabet[0] in IdAlphabet;
      var c :| c in IdAlphabet;
      AlphabetIsIdChars();
      id := id + [c];
    }
  }

  const HexDigits: string := "0123456789abcdef"

  /** The hex form of a version-4 UUID: 32 lower-case hex digits, version `4`, variant `8`-`b`. */
  predicate IsUuid4Hex(s: string) {
    && |s| == 32
    && (forall i :: 0 <= i < |s| ==> s[i] in HexDigits)
    && s[12] == '4'
    && s[16] in "89ab"
  }

  /** `uuid.uuid4().hex`: some version-4 UUID. */
  method NewPeerId() returns (id: string)
    ensures IsUuid4Hex(id)
  {
    assert IsUuid4Hex("00000000000040008000000000000000");
    id :| IsUuid4Hex(id);
  }
}
