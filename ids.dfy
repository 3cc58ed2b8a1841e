/** The random identifier generator of app/utils/utils.py. */
module Ids {

  /** The `n` consecutive characters starting at code point `first`. */
  function CharRange(first: char, n: nat): (r: string)
    requires first as int + n <= 0xD800
    ensures |r| == n
    ensures forall i :: 0 <= i < n ==> r[i] as int == first as int + i
  {
    seq(n, i requires 0 <= i < n => (first as int + i) as char)
  }

  /** `string.ascii_letters + string.digits`, 62 symbols. */
  const Alphabet: string := CharRange('a', 26) + CharRange('A', 26) + CharRange('0', 10)

  /** The default value of `length`. */
  const DefaultLength: nat := 8

  predicate IsAsciiAlnum(c: char) {
    ('a' <= c <= 'z') || ('A' <= c <= 'Z') || ('0' <= c <= '9')
  }

  /** A string that generate_id(length) can return. */
  predicate IsId(s: string, length: nat) {
    |s| == length && forall i :: 0 <= i < |s| ==> s[i] in Alphabet
  }

  /** `CharRange(first, n)` is the literal `lit` when `lit` has `n` consecutive code points from `first`. */
  lemma CharRangeIsLiteral(first: char, n: nat, lit: string)
    requires first as int + n <= 0xD800
    requires |lit| == n && forall i :: 0 <= i < n ==> lit[i] as int == first as int + i
    ensures CharRange(first, n) == lit
  {
  }

  /**
   * The alphabet spelled out is Python's `ascii_letters + digits`, with `ascii_letters`
   * being `ascii_lowercase + ascii_uppercase`.
   */
  lemma AlphabetLiteral()
    ensures Alphabet == "abcdefghijklmnopqrstuvwxyz" + "ABCDEFGHIJKLMNOPQRSTUVWXYZ" + "0123456789"
  {
    var lower, upper, digits := "abcdefghijklmnopqrstuvwxyz", "ABCDEFGHIJKLMNOPQRSTUVWXYZ", "0123456789";
    forall i | 0 <= i < 26 ensures lower[i] as int == 'a' as int + i { }
    CharRangeIsLiteral('a', 26, lower);
    forall i | 0 <= i < 26 ensures upper[i] as int == 'A' as int + i { }
    CharRangeIsLiteral('A', 26, upper);
    forall i | 0 <= i < 10 ensures digits[i] as int == '0' as int + i { }
    CharRangeIsLiteral('0', 10, digits);
  }

  /** The alphabet has 62 distinct symbols, and they are exactly the ASCII letters and digits. */
  lemma AlphabetIsAsciiAlnum()
    ensures |Alphabet| == 62
    ensures forall i, j :: 0 <= i < j < |Alphabet| ==> Alphabet[i] != Alphabet[j]
    ensures forall c :: c in Alphabet <==> IsAsciiAlnum(c)
  {
    forall c | IsAsciiAlnum(c) ensures c in Alphabet {
      var i := if 'a' <= c <= 'z' then c as int - 'a' as int
               else if 'A' <= c <= 'Z' then 26 + c as int - 'A' as int
               else 52 + c as int - '0' as int;
      assert Alphabet[i] == c;
    }
  }

  /**
   * `generate_id(length)`: `length` symbols drawn independently from the alphabet
   * (`random.choices` draws with replacement, and a negative `k` draws none).
   * The random draw is modelled as an arbitrary choice.
   */
  method GenerateId(length: int := DefaultLength) returns (id: string)
    ensures |id| == (if length < 0 then 0 else length)
    ensures forall i :: 0 <= i < |id| ==> IsAsciiAlnum(id[i])
    ensures length >= 0 ==> IsId(id, length)
  {
    AlphabetIsAsciiAlnum();
    id := "";
    var n := if length < 0 then 0 else length;
    var k := 0;
    while k < n
      invariant 0 <= k <= n && |id| == k
      invariant forall i :: 0 <= i < |id| ==> id[i] in Alphabet
    {
      assert Alphabet[0] in Alphabet;
      var c :| c in Alphabet;
      id := id + [c];
      k := k + 1;
    }
  }
}
