/**
 * Engine-wide enumerations and small helpers shared by both back ends
 * (UtilsCommon.h): blend modes, shader and primitive kinds, the message
 * exception helper, wide-to-narrow string conversion and the random
 * helpers driven by the global random engine.
 */
module UtilsCommon {

  /** The blend modes a pipeline can be built for; End is the count sentinel, not a mode. */
  datatype BlendMode =
    | BlendNone | Alpha | Add | Subtract | Replace | Multiply | Lighten | Darken | Screen | End

  datatype ShaderType = BasicShader | BasicShaderForMesh

  datatype PrimitiveType = Board | Cube | Rect | Sphere | Cylinder | Capsule

  /** Number of real blend modes: the value of BlendMode::End. */
  const BLEND_MODE_COUNT: nat := 9

  /** size_t(mode): the enumerator's position in declaration order. */
  function BlendIndex(mode: BlendMode): (index: nat)
    ensures index <= BLEND_MODE_COUNT
    ensures index == BLEND_MODE_COUNT <==> mode == End
  {
    match mode
    case BlendNone => 0
    case Alpha => 1
    case Add => 2
    case Subtract => 3
    case Replace => 4
    case Multiply => 5
    case Lighten => 6
    case Darken => 7
    case Screen => 8
    case End => 9
  }

  /** The enumerator with a given position (static_cast<BlendMode>(index)). */
  function BlendModeAt(index: nat): (mode: BlendMode)
    requires index <= BLEND_MODE_COUNT
    ensures BlendIndex(mode) == index
  {
    if index == 0 then BlendNone
    else if index == 1 then Alpha
    else if index == 2 then Add
    else if index == 3 then Subtract
    else if index == 4 then Replace
    else if index == 5 then Multiply
    else if index == 6 then Lighten
    else if index == 7 then Darken
    else if index == 8 then Screen
    else End
  }

  /** Distinct blend modes have distinct positions, so the real modes are exactly positions 0..8. */
  lemma BlendIndexInjective(a: BlendMode, b: BlendMode)
    ensures BlendIndex(a) == BlendIndex(b) ==> a == b
    ensures BlendModeAt(BlendIndex(a)) == a
  {
  }

  /** The result of a call that may throw a std::runtime_error carrying a message. */
  datatype Outcome = Pass | Throw(message: string)

  /** ThrowIfFailed(errorMsg): raises unconditionally, carrying the message. */
  function ThrowIfFailed(errorMsg: string): (o: Outcome)
    ensures o.Throw? && o.message == errorMsg
  {
    Throw(errorMsg)
  }

  /** A wchar_t code unit: 16 bits on Windows and 32 bits elsewhere, so below 2^32 either way. */
  type WideChar = c: nat | c < 0x1_0000_0000

  /** static_cast<char>: the low eight bits of the code unit. */
  function Narrow(c: WideChar): (b: nat)
    ensures b < 256
    ensures c < 256 ==> b == c
  {
    c % 256
  }

  /** WstringToString: one narrow byte per wide character, in order. */
  method WstringToString(w: seq<WideChar>) returns (s: seq<nat>)
    ensures |s| == |w|
    ensures forall i :: 0 <= i < |w| ==> s[i] == Narrow(w[i])
  {
    s := [];
    var i := 0;
    while i < |w|
      invariant 0 <= i <= |w|
      invariant |s| == i
      invariant forall k :: 0 <= k < i ==> s[k] == Narrow(w[k])
    {
      s := s + [Narrow(w[i])];
      i := i + 1;
    }
  }

  /** Integral GetRandomNumber(lower, upper): uniform_int_distribution over the closed range. */
  method GetRandomNumber(lower: int, upper: int) returns (r: int)
    requires lower <= upper
    ensures lower <= r <= upper
  {
    r :| lower <= r <= upper;
  }

  /** Size of the alphabet GetRandomString samples from. */
  const ALPHABET_SIZE: nat := 62

  /** Character number i of "A..Za..z0..9". */
  function AlphabetChar(i: nat): char
    requires i < ALPHABET_SIZE
  {
    if i < 26 then ('A' as int + i) as char
    else if i < 52 then ('a' as int + (i - 26)) as char
    else ('0' as int + (i - 52)) as char
  }

  /** The static alphabet of GetRandomString. */
  function RandomCharacters(): (alphabet: string)
    ensures |alphabet| == ALPHABET_SIZE
  {
    seq(ALPHABET_SIZE, i requires 0 <= i < ALPHABET_SIZE => AlphabetChar(i))
  }

  predicate InAlphabet(c: char) {
    ('A' <= c <= 'Z') || ('a' <= c <= 'z') || ('0' <= c <= '9')
  }

  /** Position of an alphabet character in RandomCharacters(). */
  function Rank(c: char): (r: nat)
    requires InAlphabet(c)
    ensures r < ALPHABET_SIZE && RandomCharacters()[r] == c
  {
    if 'A' <= c <= 'Z' then c as int - 'A' as int
    else if 'a' <= c <= 'z' then 26 + (c as int - 'a' as int)
    else 52 + (c as int - '0' as int)
  }

  /** A run of consecutive alphabet characters. */
  lemma AlphabetRun(lo: nat, run: string)
    requires lo + |run| <= ALPHABET_SIZE
    requires forall j :: 0 <= j < |run| ==> run[j] == AlphabetChar(lo + j)
    ensures RandomCharacters()[lo..lo + |run|] == run
  {
  }

  /** The alphabet is the literal "ABC...XYZ" followed by "abc...xyz" and "012...789". */
  lemma AlphabetIsTheLiteral()
    ensures RandomCharacters()[..26] == "ABCDEFGHIJKLMNOPQRSTUVWXYZ"
    ensures RandomCharacters()[26..52] == "abcdefghijklmnopqrstuvwxyz"
    ensures RandomCharacters()[52..] == "0123456789"
  {
    AlphabetRun(0, "ABCDEFGHIJKLMNOPQRSTUVWXYZ");
    AlphabetRun(26, "abcdefghijklmnopqrstuvwxyz");
    AlphabetRun(52, "0123456789");
  }

  /** Every alphabet character is a letter or digit and ranks at its own position: no character repeats. */
  lemma AlphabetRanks()
    ensures forall i :: 0 <= i < ALPHABET_SIZE ==> InAlphabet(RandomCharacters()[i]) && Rank(RandomCharacters()[i]) == i
  {
    forall i | 0 <= i < ALPHABET_SIZE
      ensures InAlphabet(RandomCharacters()[i]) && Rank(RandomCharacters()[i]) == i
    {
      var c := RandomCharacters()[i];
      assert c == AlphabetChar(i);
      if i < 26 {
        assert 'A' <= c <= 'Z';
      } else if i < 52 {
        assert 'a' <= c <= 'z';
      } else {
        assert '0' <= c <= '9';
      }
    }
  }

  function Min(a: nat, b: nat): nat {
    if a <= b then a else b
  }

  /**
   * GetRandomString(length): std::sample over the alphabet.  The alphabet's
   * iterators are forward iterators, so std::sample performs selection
   * sampling: it walks the alphabet once and keeps each character with a
   * probability that forces exactly min(length, 62) picks.  The random
   * engine is a nondeterministic choice constrained the same way.
   */
  method GetRandomString(length: nat) returns (s: string)
    ensures |s| == Min(length, ALPHABET_SIZE)
    ensures forall k :: 0 <= k < |s| ==> InAlphabet(s[k])
    ensures forall k, l :: 0 <= k < l < |s| ==> Rank(s[k]) < Rank(s[l])
  {
    var wanted := Min(length, ALPHABET_SIZE);
    s := [];
    var i := 0;
    while i < ALPHABET_SIZE
      invariant 0 <= i <= ALPHABET_SIZE
      invariant |s| <= wanted && wanted - |s| <= ALPHABET_SIZE - i
      invariant forall k :: 0 <= k < |s| ==> InAlphabet(s[k]) && Rank(s[k]) < i
      invariant forall k, l :: 0 <= k < l < |s| ==> Rank(s[k]) < Rank(s[l])
    {
      var needed := wanted - |s|;
      var take: bool :| (needed == ALPHABET_SIZE - i ==> take) && (needed == 0 ==> !take);
      if take {
        AlphabetRanks();
        s := s + [RandomCharacters()[i]];
      }
      i := i + 1;
    }
  }
}
