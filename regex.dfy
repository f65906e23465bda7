/**
 * The platform's regular-expression engine, which this model does not
 * interpret. It is passed to the validators as three predicates:
 * `compiles(p)`: `NSRegularExpression(pattern: p)` succeeds;
 * `containsMatch(p, s)`: that expression's `firstMatch` finds a match somewhere in `s`;
 * `fullMatch(p, s)`: `NSPredicate(format: "SELF MATCHES %@", p)` holds of `s`,
 * that is, the pattern matches the whole of `s`.
 */
module Regex {

  datatype RegexEngine = RegexEngine(
    compiles: string -> bool,
    containsMatch: (string, string) -> bool,
    fullMatch: (string, string) -> bool)
}
