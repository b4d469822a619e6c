/** The string grammars that the source checks before it stores or compares a name. */
module Identifiers {

  predicate IsLowerOrDigit(c: char) {
    'a' <= c <= 'z' || '0' <= c <= '9'
  }

  predicate IsHex(c: char) {
    'a' <= c <= 'f' || '0' <= c <= '9'
  }

  /** Lower-case words joined by single hyphens, starting with a letter, at most 63 characters. */
  predicate IsIdentifier(s: string) {
    && 1 <= |s| <= 63
    && 'a' <= s[0] <= 'z'
    && s[|s| - 1] != '-'
    && (forall i :: 0 <= i < |s| ==> IsLowerOrDigit(s[i]) || s[i] == '-')
    && (forall i :: 0 <= i < |s| - 1 ==> !(s[i] == '-' && s[i + 1] == '-'))
  }

  /** A canonical 8-4-4-4-12 lower-case UUID. */
  predicate IsUuid(s: string) {
    && |s| == 36
    && (forall i :: 0 <= i < 36 ==> if i in {8, 13, 18, 23} then s[i] == '-' else IsHex(s[i]))
  }

  /** A canonical SHA-256: 64 lower-case hexadecimal characters. */
  predicate IsSha256(s: string) {
    |s| == 64 && forall i :: 0 <= i < 64 ==> IsHex(s[i])
  }

  /** The scenario identifiers "01" through "17". */
  predicate IsScenarioId(s: string) {
    |s| == 2 && ((s[0] == '0' && '1' <= s[1] <= '9') || (s[0] == '1' && '0' <= s[1] <= '7'))
  }

  /** "full.sNN.vK" with NN a scenario identifier and K a positive decimal without leading zero. */
  predicate IsHandlerIdentity(s: string) {
    && |s| >= 11
    && s[..6] == "full.s"
    && IsScenarioId(s[6..8])
    && s[8..10] == ".v"
    && '1' <= s[10] <= '9'
    && (forall i :: 11 <= i < |s| ==> '0' <= s[i] <= '9')
  }
}
