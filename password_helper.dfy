/** `passwordGeneration`: a random password of a given length over a fixed 70-character alphabet. */
module PasswordHelper {

  const Alphabet: string := "abcdefghijklmnopqrstuvwxyzABCDEFGHIJKLMNOPQRSTUVWXYZ0123456789@$!%*#?&"

  /** `s.charAt(k)`: the one-character string at `k`, or the empty string when `k` is out of range. */
  function CharAt(s: string, k: int): (r: string)
    ensures 0 <= k < |s| ==> r == [s[k]]
    ensures !(0 <= k < |s|) ==> r == ""
  {
    if 0 <= k < |s| then [s[k]] else ""
  }

  /** `Math.floor(r * chars.length)` for a draw `r` of `Math.random()`. */
  function DrawIndex(r: real): int
  {
    (r * |Alphabet| as real).Floor
  }

  /** A draw in [0, 1) picks a position inside the alphabet, so `charAt` never yields the empty string. */
  lemma DrawIndexInRange(r: real)
    requires 0.0 <= r < 1.0
    ensures 0 <= DrawIndex(r) < |Alphabet|
    ensures |CharAt(Alphabet, DrawIndex(r))| == 1
  {
    assert |Alphabet| == 70;
    assert 0.0 <= r * 70.0 < 70.0;
  }

  /**
   * The generation loop. `random(i)` is the value `Math.random()` returns on
   * the i-th iteration. A length of zero or less gives the empty string.
   */
  method PasswordGeneration(n: int, random: nat -> real) returns (password: string)
    requires forall i: nat :: 0.0 <= random(i) < 1.0
    ensures |password| == if n <= 0 then 0 else n
    ensures forall i :: 0 <= i < |password| ==> password[i] == Alphabet[DrawIndex(random(i))]
    ensures forall i :: 0 <= i < |password| ==> password[i] in Alphabet
  {
    password := "";
    var i := 0;
    while i < n
      invariant 0 <= i && (n <= 0 ==> i == 0) && (n > 0 ==> i <= n)
      invariant |password| == i
      invariant forall k :: 0 <= k < i ==> 0 <= DrawIndex(random(k)) < |Alphabet| && password[k] == Alphabet[DrawIndex(random(k))]
    {
      DrawIndexInRange(random(i));
      password := password + CharAt(Alphabet, DrawIndex(random(i)));
      i := i + 1;
    }
  }
}
