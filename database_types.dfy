/**
 * The database type check of `download(dbType)`: the whole string must match the
 * regular expression (DB|PX)[0-9]{1,2}. The alternation is a two-character prefix and
 * the counted repetition is matched by `MatchesDigits`, one character at a time.
 */
module DatabaseTypes {

  /** The character class [0-9]: ASCII digits only. */
  predicate IsAsciiDigit(c: char) {
    '0' <= c <= '9'
  }

  /** Whether all of `s` matches [0-9]{lo,hi}. */
  predicate MatchesDigits(s: string, lo: nat, hi: nat)
    decreases |s|
  {
    if s == [] then lo == 0
    else 0 < hi && IsAsciiDigit(s[0]) && MatchesDigits(s[1..], if lo == 0 then 0 else lo - 1, hi - 1)
  }

  /** Whether all of `s` matches the group (DB|PX). */
  predicate IsTypePrefix(s: string) {
    s == "DB" || s == "PX"
  }

  /** Whether `dbType` matches (DB|PX)[0-9]{1,2} as a whole. */
  predicate IsValidDbType(dbType: string) {
    |dbType| >= 2 && IsTypePrefix(dbType[..2]) && MatchesDigits(dbType[2..], 1, 2)
  }

  /** The counted repetition accepts exactly the digit strings whose length lies within the bounds. */
  lemma {:induction false} MatchesDigitsIff(s: string, lo: nat, hi: nat)
    ensures MatchesDigits(s, lo, hi) <==>
      lo <= |s| <= hi && forall i :: 0 <= i < |s| ==> IsAsciiDigit(s[i])
  {
    if s != [] && 0 < hi {
      MatchesDigitsIff(s[1..], if lo == 0 then 0 else lo - 1, hi - 1);
      assert forall i :: 1 <= i < |s| ==> s[i] == s[1..][i - 1];
    }
  }

  /**
   * An accepted type is "DB" or "PX" followed by one or two ASCII digits, so it has
   * three or four characters; and every such string is accepted.
   */
  lemma ValidDbTypeShape(dbType: string)
    ensures IsValidDbType(dbType) <==>
      && (|dbType| == 3 || |dbType| == 4)
      && (dbType[..2] == "DB" || dbType[..2] == "PX")
      && forall i :: 2 <= i < |dbType| ==> IsAsciiDigit(dbType[i])
  {
    if |dbType| >= 2 {
      MatchesDigitsIff(dbType[2..], 1, 2);
      assert forall i :: 2 <= i < |dbType| ==> dbType[i] == dbType[2..][i - 2];
    }
  }

  /** An accepted type holds none of the separators used around it in file names and URLs. */
  lemma ValidDbTypeHasNoSeparator(dbType: string)
    requires IsValidDbType(dbType)
    ensures '_' !in dbType && '=' !in dbType && '&' !in dbType && '/' !in dbType
  {
    ValidDbTypeShape(dbType);
    assert dbType == dbType[..2] + dbType[2..];
    forall i | 2 <= i < |dbType| ensures dbType[i] != '_' && dbType[i] != '=' && dbType[i] != '&' && dbType[i] != '/' {
      assert IsAsciiDigit(dbType[i]);
    }
  }

  /** The types the tests use: "DB1" is accepted, "DB 1" is refused; and corner cases of the repetition. */
  lemma DbTypeExamples()
    ensures IsValidDbType("DB1") && IsValidDbType("PX11") && IsValidDbType("DB24")
    ensures !IsValidDbType("DB 1") && !IsValidDbType("DB") && !IsValidDbType("DB123")
    ensures !IsValidDbType("db1") && !IsValidDbType("XX1") && !IsValidDbType("")
  {
    ValidDbTypeShape("DB 1");
    ValidDbTypeShape("DB123");
    assert "db1"[..2][0] != "DB"[0] && "db1"[..2][0] != "PX"[0];
    assert "XX1"[..2][0] != "DB"[0] && "XX1"[..2][0] != "PX"[0];
  }
}
