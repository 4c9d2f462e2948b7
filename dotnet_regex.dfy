/** The fragment of .NET regular expressions that the ship-code attributes use: a pattern
    `^...$` (no RegexOptions.Multiline) made of literal characters, the class \d and fixed
    repetitions {n}. Such a pattern has no alternation and no variable-width part, so
    Regex.IsMatch needs no backtracking: `^` pins the match to the start of the input, each
    atom consumes one character, and `$` then accepts the end of the input or a single final
    '\n' (outside Multiline mode `$` also matches just before a string-ending newline). */
module DotNetRegex {
  import opened DotNetText

  /** A one-character pattern element. */
  datatype Atom = Literal(c: char) | Digit

  /** An element of the pattern text: an atom, or an atom with the quantifier {count}. */
  datatype Element = One(atom: Atom) | Repeat(atom: Atom, count: nat)

  /** The pattern `^elements$`. */
  datatype AnchoredPattern = Anchored(elements: seq<Element>)

  predicate AtomMatches(a: Atom, c: char) {
    match a
    case Literal(l) => c == l
    case Digit => IsDecimalDigit(c)
  }

  function Replicate(a: Atom, n: nat): (r: seq<Atom>)
    ensures |r| == n && forall i :: 0 <= i < n ==> r[i] == a
  {
    if n == 0 then [] else [a] + Replicate(a, n - 1)
  }

  /** The atoms the pattern matches one after another, quantifiers unrolled. */
  function Atoms(elements: seq<Element>): seq<Atom> {
    if elements == [] then []
    else
      var head := match elements[0]
        case One(a) => [a]
        case Repeat(a, n) => Replicate(a, n);
      head + Atoms(elements[1..])
  }

  /** `$` without Multiline: the end of the input, or a single '\n' that ends it. */
  predicate AtEnd(rest: string) {
    rest == [] || rest == ['\n']
  }

  /** Matching the atoms from the current position, then `$`. */
  predicate MatchAtoms(atoms: seq<Atom>, s: string) {
    if atoms == [] then AtEnd(s)
    else s != [] && AtomMatches(atoms[0], s[0]) && MatchAtoms(atoms[1..], s[1..])
  }

  /** Regex.IsMatch for an anchored pattern: `^` allows only a match starting at index 0. */
  predicate IsMatch(p: AnchoredPattern, s: string) {
    MatchAtoms(Atoms(p.elements), s)
  }

  /** The declarative reading of MatchAtoms: the input is exactly as long as the atoms, or one
      longer with a final '\n', and every atom matches the character at its position. */
  lemma {:induction false} MatchAtomsCharacterised(atoms: seq<Atom>, s: string)
    ensures MatchAtoms(atoms, s) <==>
      && (|s| == |atoms| || (|s| == |atoms| + 1 && s[|atoms|] == '\n'))
      && forall k :: 0 <= k < |atoms| ==> AtomMatches(atoms[k], s[k])
  {
    if atoms != [] && s != [] {
      MatchAtomsCharacterised(atoms[1..], s[1..]);
      if AtomMatches(atoms[0], s[0]) && MatchAtoms(atoms[1..], s[1..]) {
        forall k | 0 <= k < |atoms| ensures AtomMatches(atoms[k], s[k]) {
          if k > 0 { assert atoms[1..][k - 1] == atoms[k] && s[1..][k - 1] == s[k]; }
        }
      }
      if |s| >= |atoms| && forall k :: 0 <= k < |atoms| ==> AtomMatches(atoms[k], s[k]) {
        forall k | 0 <= k < |atoms| - 1 ensures AtomMatches(atoms[1..][k], s[1..][k]) {
          assert atoms[1..][k] == atoms[k + 1] && s[1..][k] == s[k + 1];
        }
      }
    }
  }
}
