/**
  The one piece of option parsing with logic in it: `-m <mixer>` picks
  mixer device 0 or 1 from the first character of its argument, clamped
  to the digits '0'..'1'.
*/
module CommandLine {
  import opened CMacros

  newtype byte = x: int | 0 <= x < 256

  /** The value C gives a `char` holding byte `b` when it is promoted to
      `int`: where `char` is signed, bytes from 0x80 up are negative. */
  function CharValue(b: byte, signedChar: bool): (v: int)
    ensures b < 128 ==> v == b as int
    ensures b >= 128 ==> (v < 0 <==> signedChar)
  {
    if signedChar && b >= 128 then b as int - 256 else b as int
  }

  /** The mixer number of `-m`: the first character of the argument,
      clamped between the characters '0' and '1', less '0'. The argument
      is a C string, so an empty one reads its terminating NUL. */
  function MixerIdOption(optarg: seq<byte>, signedChar: bool): (id: int)
    ensures id == 0 || id == 1
    ensures id == 1 <==> |optarg| > 0 && CharValue(optarg[0], signedChar) >= '1' as int
  {
    var first := if |optarg| == 0 then 0 else CharValue(optarg[0], signedChar);
    Clamp(first, '0' as int, '1' as int) - '0' as int
  }

  /** The digit of a mixer number, as the byte a user types. */
  function Digit(id: int): byte
    requires 0 <= id <= 9
  {
    ('0' as int + id) as byte
  }

  /** Typing the number of either mixer selects that mixer; any larger
      digit selects mixer 1, whatever else follows on the argument. */
  lemma MixerDigitsRoundTrip(id: int, rest: seq<byte>, signedChar: bool)
    requires 0 <= id <= 9
    ensures MixerIdOption([Digit(id)] + rest, signedChar) == if id == 0 then 0 else 1
  {
    assert ([Digit(id)] + rest)[0] == Digit(id);
  }

  /** A first byte from 0x80 up selects mixer 0 where `char` is signed
      (it is negative, below '0') and mixer 1 where it is unsigned. */
  lemma HighBytesDependOnCharSign(b: byte, rest: seq<byte>)
    requires b >= 128
    ensures MixerIdOption([b] + rest, true) == 0
    ensures MixerIdOption([b] + rest, false) == 1
  {
    assert ([b] + rest)[0] == b;
  }
}
