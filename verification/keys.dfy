/** Keyboard keys as delivered by the host window, and the fixed table that
    decides which of them contribute a character to a barcode
    (Services/BarcodeService.cs, `KeyToChar`). */
module Keys {
  import opened Wrappers

  /** A key identifier.  The host's key enumeration is an integer-backed
      enum, so any integer is a possible value; the named constants below
      carry the enumeration's numeric values. */
  newtype Key = int

  const Return: Key := 6
  /** `Enter` is an alias of `Return`: the same enumeration value. */
  const Enter: Key := 6
  const Space: Key := 18
  const D0: Key := 34
  const D9: Key := 43
  const A: Key := 44
  const Z: Key := 69
  const NumPad0: Key := 74
  const NumPad9: Key := 83
  const Subtract: Key := 87
  const Decimal: Key := 88
  const OemMinus: Key := 143
  const OemPeriod: Key := 144

  /** The key that ends a scan. */
  predicate IsTerminator(k: Key) {
    k == Enter || k == Return
  }

  predicate IsDigit(c: char) {
    '0' <= c <= '9'
  }

  predicate IsUpperLetter(c: char) {
    'A' <= c <= 'Z'
  }

  /** The characters a barcode can be made of: digits, upper-case letters,
      '-', '.' and ' '. */
  predicate InAlphabet(c: char) {
    IsDigit(c) || IsUpperLetter(c) || c == '-' || c == '.' || c == ' '
  }

  /** The character `offset` places after `base`, which is '0' or 'A'. */
  function Offset(base: char, offset: int): char
    requires base == '0' || base == 'A'
    requires 0 <= offset <= 25
  {
    (base as int + offset) as char
  }

  /** The key-to-character table: main-row and numeric-pad digits give the
      digit, letters give the upper-case letter, minus/subtract give '-',
      period/decimal give '.', space gives ' ', and every other key gives
      nothing. */
  function KeyToChar(k: Key): (r: Option<char>)
    ensures r.Some? ==> InAlphabet(r.value)
    ensures IsTerminator(k) ==> r.None?
  {
    if D0 <= k <= D9 then Some(Offset('0', (k - D0) as int))
    else if NumPad0 <= k <= NumPad9 then Some(Offset('0', (k - NumPad0) as int))
    else if A <= k <= Z then Some(Offset('A', (k - A) as int))
    else if k == OemMinus || k == Subtract then Some('-')
    else if k == OemPeriod || k == Decimal then Some('.')
    else if k == Space then Some(' ')
    else None
  }

  /** Every key that produces character `c`, written character by character:
      the table read backwards. */
  function Producers(c: char): (ks: set<Key>)
  {
    if IsDigit(c) then {D0 + (c as int - '0' as int) as Key, NumPad0 + (c as int - '0' as int) as Key}
    else if IsUpperLetter(c) then {A + (c as int - 'A' as int) as Key}
    else if c == '-' then {OemMinus, Subtract}
    else if c == '.' then {OemPeriod, Decimal}
    else if c == ' ' then {Space}
    else {}
  }

  /** `KeyToChar` and `Producers` describe the same table: a key maps to
      `c` exactly when it is one of `c`'s producers. */
  lemma KeyToCharMatchesProducers(k: Key, c: char)
    ensures KeyToChar(k) == Some(c) <==> k in Producers(c)
  {
  }

  /** Every alphabet character can be typed, and no other character can. */
  lemma AlphabetIsReachable(c: char)
    ensures InAlphabet(c) <==> Producers(c) != {}
    ensures InAlphabet(c) ==> exists k :: KeyToChar(k) == Some(c)
  {
    if InAlphabet(c) {
      var k :| k in Producers(c);
      KeyToCharMatchesProducers(k, c);
    }
  }

  /** The characters contributed by a sequence of keys, in order: the
      mapped keys' characters, with unmapped keys contributing nothing. */
  function Mapped(ks: seq<Key>): (r: seq<char>)
    ensures |r| <= |ks|
    ensures forall i :: 0 <= i < |r| ==> InAlphabet(r[i])
    ensures (forall i :: 0 <= i < |ks| ==> KeyToChar(ks[i]).Some?) ==> |r| == |ks|
  {
    if ks == [] then [] else Mapped(ks[..|ks| - 1]) + KeyToChar(ks[|ks| - 1]).ToSeq()
  }
}
