/**
 The string operations the binder relies on, as JavaScript defines them:
 decimal rendering of integers (`String(42)`), recognition of canonical array
 index keys (`"0"`, `"17"`), and `String.prototype.replace` called with a
 string pattern, including the `$`-patterns its replacement string honours.
 */
module Text {

  datatype Option<T> = None | Some(value: T)

  // ---------------------------------------------------------------------
  // Decimal numerals
  // ---------------------------------------------------------------------

  predicate IsDigit(c: char) {
    '0' <= c <= '9'
  }

  function DigitChar(d: nat): (c: char)
    requires d < 10
    ensures IsDigit(c) && c as int - '0' as int == d
  {
    ('0' as int + d) as char
  }

  function DigitValue(c: char): nat
    requires IsDigit(c)
  {
    c as int - '0' as int
  }

  /** The decimal numeral of `n`, as `String(n)` renders a non-negative integer. */
  function NatToString(n: nat): (s: string)
    ensures |s| > 0
    ensures forall i :: 0 <= i < |s| ==> IsDigit(s[i])
    ensures s[0] == '0' ==> n == 0
  {
    if n < 10 then [DigitChar(n)] else NatToString(n / 10) + [DigitChar(n % 10)]
  }

  /** The number a string of decimal digits denotes. */
  function DigitsValue(s: string): nat
    requires forall i :: 0 <= i < |s| ==> IsDigit(s[i])
  {
    if s == [] then 0 else DigitsValue(s[..|s| - 1]) * 10 + DigitValue(s[|s| - 1])
  }

  /**
   The array index a property key names: a non-empty string of digits without
   a leading zero (the canonical numeric strings of non-negative integers).
   */
  function ArrayIndex(k: string): (r: Option<nat>)
    ensures r.Some? ==> |k| > 0 && (forall i :: 0 <= i < |k| ==> IsDigit(k[i])) && (k[0] == '0' ==> |k| == 1)
  {
    if |k| > 0 && (forall i :: 0 <= i < |k| ==> IsDigit(k[i])) && (k[0] == '0' ==> |k| == 1)
    then Some(DigitsValue(k))
    else None
  }

  lemma {:induction false} DigitsValueOfNatToString(n: nat)
    ensures DigitsValue(NatToString(n)) == n
  {
    var s := NatToString(n);
    if n < 10 {
      assert s[..0] == [];
    } else {
      DigitsValueOfNatToString(n / 10);
      assert s[..|s| - 1] == NatToString(n / 10);
    }
  }

  /** Every numeral `NatToString` produces is the canonical key of that index. */
  lemma ArrayIndexOfNatToString(n: nat)
    ensures ArrayIndex(NatToString(n)) == Some(n)
  {
    DigitsValueOfNatToString(n);
  }

  lemma NatToStringInjective(m: nat, n: nat)
    ensures NatToString(m) == NatToString(n) <==> m == n
  {
    if NatToString(m) == NatToString(n) {
      ArrayIndexOfNatToString(m);
      ArrayIndexOfNatToString(n);
    }
  }

  /** `String(i)` for an integer `i`: a minus sign, then the numeral of its magnitude. */
  function IntToString(i: int): (s: string)
    ensures |s| > 0
    ensures (s[0] == '-') == (i < 0)
    ensures forall k :: 0 <= k < |s| ==> s[k] == '-' || IsDigit(s[k])
    ensures i >= 0 ==> s == NatToString(i)
    ensures i < 0 ==> s[1..] == NatToString(-i)
  {
    if i < 0 then "-" + NatToString(-i) else NatToString(i)
  }

  // ---------------------------------------------------------------------
  // String.prototype.replace with a string pattern
  // ---------------------------------------------------------------------

  /** The position of the first occurrence of `c` in `s`, if any. */
  function FirstIndexOf(s: string, c: char): (r: Option<nat>)
    ensures r.None? <==> c !in s
    ensures r.Some? ==> r.value < |s| && s[r.value] == c && c !in s[..r.value]
  {
    if s == [] then None
    else if s[0] == c then Some(0)
    else
      var r := FirstIndexOf(s[1..], c);
      assert s[1..] == s[1..][..];
      if r.None? then None
      else
        assert s[..r.value + 1] == [s[0]] + s[1..][..r.value];
        Some(r.value + 1)
  }

  predicate IsSubstitutionCode(c: char) {
    c == '$' || c == '&' || c == '`' || c == '\''
  }

  /**
   The replacement text the ECMAScript `GetSubstitution` operation builds from
   the replacement template `rep`, for a match `matched` preceded by `before`
   and followed by `after` in the subject string. With a string pattern there
   are no capture groups, so only `$$`, `$&`, `` $` `` and `$'` are special;
   every other character, including a `$` that starts none of them, is copied.
   */
  function Substitution(rep: string, before: string, matched: string, after: string): (r: string)
    decreases |rep|
    ensures forall ch :: ch in r ==> ch in rep || ch in before || ch in matched || ch in after
  {
    if |rep| >= 2 && rep[0] == '$' && IsSubstitutionCode(rep[1]) then
      var piece :=
        if rep[1] == '$' then "$"
        else if rep[1] == '&' then matched
        else if rep[1] == '`' then before
        else after;
      piece + Substitution(rep[2..], before, matched, after)
    else if rep == [] then []
    else [rep[0]] + Substitution(rep[1..], before, matched, after)
  }

  /** A template without `$` is inserted exactly as it is. */
  lemma {:induction false} SubstitutionLiteral(rep: string, before: string, matched: string, after: string)
    requires '$' !in rep
    ensures Substitution(rep, before, matched, after) == rep
  {
    if rep != [] {
      assert rep[0] != '$';
      assert '$' !in rep[1..] by {
        forall i | 0 <= i < |rep[1..]| ensures rep[1..][i] != '$' {
          assert rep[1..][i] == rep[i + 1];
        }
      }
      SubstitutionLiteral(rep[1..], before, matched, after);
    }
  }

  /**
   `s.replace(c, rep)` where the pattern is the one-character string `c`: only
   the first occurrence of `c` is replaced, by the substitution `rep` denotes;
   when `c` does not occur, `s` is returned unchanged.
   */
  function ReplaceFirst(s: string, c: char, rep: string): (r: string)
    ensures c !in s ==> r == s
    ensures forall i :: 0 <= i < |s| && s[i] == c && c !in s[..i] ==>
              r == s[..i] + Substitution(rep, s[..i], [c], s[i + 1..]) + s[i + 1..]
  {
    match FirstIndexOf(s, c)
    case None => s
    case Some(i) =>
      s[..i] + Substitution(rep, s[..i], [c], s[i + 1..]) + s[i + 1..]
  }

  /**
   With a replacement free of `$`: the text before the first `c` is kept, that
   `c` gives way to `rep`, and everything after it is kept, including any later
   occurrence of `c`.
   */
  lemma ReplaceFirstLiteral(s: string, c: char, rep: string, i: nat)
    requires i < |s| && s[i] == c && c !in s[..i]
    requires '$' !in rep
    ensures ReplaceFirst(s, c, rep) == s[..i] + rep + s[i + 1..]
    ensures |ReplaceFirst(s, c, rep)| == |s| - 1 + |rep|
  {
    SubstitutionLiteral(rep, s[..i], [c], s[i + 1..]);
  }

  /**
   The same, for a subject written as the text before its first `c`, that `c`,
   and the rest: the result is the text before, then `rep`, then the rest.
   */
  lemma ReplaceFirstAfterPrefix(prefix: string, c: char, suffix: string, rep: string)
    requires c !in prefix && '$' !in rep
    ensures ReplaceFirst(prefix + [c] + suffix, c, rep) == prefix + rep + suffix
  {
    var s := prefix + [c] + suffix;
    assert s[..|prefix|] == prefix && s[|prefix| + 1..] == suffix;
    ReplaceFirstLiteral(s, c, rep, |prefix|);
  }

  /** The template `$&` denotes the matched text. */
  lemma SubstitutionMatched(before: string, matched: string, after: string)
    ensures Substitution("$&", before, matched, after) == matched
  {
    var rep := "$&";
    assert |rep| >= 2 && rep[0] == '$' && rep[1] == '&' && rep[2..] == [];
    assert Substitution(rep, before, matched, after) == matched + Substitution([], before, matched, after);
  }

  /**
   `$&` in the replacement stands for the matched text, so replacing the first
   `*` by the two characters `$&` gives back the subject unchanged.
   */
  lemma ReplaceFirstMatchPattern(s: string, i: nat)
    requires i < |s| && s[i] == '*' && '*' !in s[..i]
    ensures ReplaceFirst(s, '*', "$&") == s
  {
    var before, after := s[..i], s[i + 1..];
    assert s == before + ['*'] + after by {
      assert s == s[..i] + s[i..];
      assert s[i..] == [s[i]] + s[i + 1..];
    }
    SubstitutionMatched(before, ['*'], after);
    assert ReplaceFirst(s, '*', "$&") == before + ['*'] + after;
  }
}
