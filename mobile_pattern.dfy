/**
 * The mobile-number pattern of the registration form,
 *   ^[+]?[(]?[0-9]{1,4}[)]?[-\s.]?[(]?[0-9]{1,4}[)]?[-\s.]?[0-9]{1,9}$
 * as a sequence of bounded repetitions of character classes. The language
 * of such a sequence is defined declaratively, a backtracking matcher
 * decides it, and the properties of every accepted number are proved from
 * the definition.
 */
module MobilePattern {
  import opened Strings

  datatype CharClass = Digit | Exactly(c: char) | Separator

  /** `[0-9]`, a single literal, or `[-\s.]` */
  predicate InClass(c: char, k: CharClass) {
    match k
    case Digit => IsDigit(c)
    case Exactly(x) => c == x
    case Separator => c == '-' || c == '.' || IsWhitespace(c)
  }

  /** `cls{min,max}` */
  datatype Atom = Atom(cls: CharClass, min: nat, max: nat)

  const Pattern: seq<Atom> := [
    Atom(Exactly('+'), 0, 1),
    Atom(Exactly('('), 0, 1),
    Atom(Digit, 1, 4),
    Atom(Exactly(')'), 0, 1),
    Atom(Separator, 0, 1),
    Atom(Exactly('('), 0, 1),
    Atom(Digit, 1, 4),
    Atom(Exactly(')'), 0, 1),
    Atom(Separator, 0, 1),
    Atom(Digit, 1, 9)
  ]

  predicate AllIn(s: string, k: CharClass) {
    forall i :: 0 <= i < |s| ==> InClass(s[i], k)
  }

  /** `s[..n]` is a legal run of atom `a`. */
  predicate IsRun(a: Atom, s: string, n: nat) {
    a.min <= n <= a.max && n <= |s| && AllIn(s[..n], a.cls)
  }

  /** The language of an atom sequence: a concatenation of one legal run per atom. */
  ghost predicate InLanguage(atoms: seq<Atom>, s: string)
    decreases |atoms|
  {
    if atoms == [] then s == []
    else exists n: nat :: IsRun(atoms[0], s, n) && InLanguage(atoms[1..], s[n..])
  }

  /** `s[..n]` is a legal run of the first atom and the rest of `s` is in the language of the others. */
  ghost predicate SplitsAt(atoms: seq<Atom>, s: string, n: nat)
    requires atoms != []
  {
    IsRun(atoms[0], s, n) && InLanguage(atoms[1..], s[n..])
  }

  /** The longest run of the first atom's class at the front of `s`, capped at its maximum. */
  function MaxRun(a: Atom, s: string): (n: nat)
    ensures n <= a.max && n <= |s|
    ensures AllIn(s[..n], a.cls)
    ensures n < a.max && n < |s| ==> !InClass(s[n], a.cls)
    decreases |s|
  {
    if a.max == 0 || s == [] || !InClass(s[0], a.cls) then 0
    else
      var m := MaxRun(Atom(a.cls, a.min, a.max - 1), s[1..]);
      assert s[..1 + m] == [s[0]] + s[1..][..m];
      1 + m
  }

  /**
   * A backtracking matcher in the manner of a regular-expression engine:
   * each repetition is greedy and gives characters back one at a time.
   */
  function Match(atoms: seq<Atom>, s: string): bool
    decreases |atoms|, |s| + 1
  {
    if atoms == [] then s == []
    else TryRuns(atoms, s, MaxRun(atoms[0], s))
  }

  /** Tries the runs of length `k`, `k - 1`, ..., `atoms[0].min` for the first atom. */
  function TryRuns(atoms: seq<Atom>, s: string, k: nat): bool
    requires atoms != [] && k <= |s|
    decreases |atoms|, k
  {
    if k < atoms[0].min then false
    else Match(atoms[1..], s[k..]) || (k > 0 && TryRuns(atoms, s, k - 1))
  }

  /** Every prefix of a run is a run. */
  lemma AllInPrefix(s: string, k: CharClass, n: nat, m: nat)
    requires m <= n <= |s| && AllIn(s[..n], k)
    ensures AllIn(s[..m], k)
  {
    assert forall i :: 0 <= i < m ==> s[..m][i] == s[..n][i];
  }

  /** A run longer than `MaxRun` is impossible. */
  lemma NoLongerRun(a: Atom, s: string, n: nat)
    requires MaxRun(a, s) < n <= |s| && n <= a.max
    ensures !AllIn(s[..n], a.cls)
  {
    var m := MaxRun(a, s);
    assert s[..n][m] == s[m];
  }

  /** Some run of length at most `k` splits `s`. */
  ghost predicate SplitsUpTo(atoms: seq<Atom>, s: string, k: nat)
    requires atoms != []
  {
    SplitsAt(atoms, s, k) || (k > 0 && SplitsUpTo(atoms, s, k - 1))
  }

  lemma {:induction false} SplitsUpToWitness(atoms: seq<Atom>, s: string, k: nat, n: nat)
    requires atoms != [] && n <= k && SplitsAt(atoms, s, n)
    ensures SplitsUpTo(atoms, s, k)
    decreases k
  {
    if n < k {
      SplitsUpToWitness(atoms, s, k - 1, n);
    }
  }

  lemma {:induction false} SplitsUpToSome(atoms: seq<Atom>, s: string, k: nat)
    requires atoms != [] && SplitsUpTo(atoms, s, k)
    ensures InLanguage(atoms, s)
    decreases k
  {
    if !SplitsAt(atoms, s, k) {
      SplitsUpToSome(atoms, s, k - 1);
    }
  }

  /** `TryRuns` succeeds exactly when some run no longer than `k` splits `s`. */
  lemma {:induction false} TryRunsSound(atoms: seq<Atom>, s: string, k: nat)
    requires atoms != [] && k <= |s| && k <= atoms[0].max && AllIn(s[..k], atoms[0].cls)
    ensures TryRuns(atoms, s, k) <==> SplitsUpTo(atoms, s, k)
    decreases |atoms|, k
  {
    if k >= atoms[0].min {
      MatchDecides(atoms[1..], s[k..]);
    }
    if k > 0 {
      AllInPrefix(s, atoms[0].cls, k, k - 1);
      TryRunsSound(atoms, s, k - 1);
    }
  }

  /** The matcher decides the language. */
  lemma {:induction false} MatchDecides(atoms: seq<Atom>, s: string)
    ensures Match(atoms, s) <==> InLanguage(atoms, s)
    decreases |atoms|, |s| + 1
  {
    if atoms != [] {
      var k := MaxRun(atoms[0], s);
      TryRunsSound(atoms, s, k);
      if SplitsUpTo(atoms, s, k) {
        SplitsUpToSome(atoms, s, k);
      }
      if InLanguage(atoms, s) {
        var n: nat :| IsRun(atoms[0], s, n) && InLanguage(atoms[1..], s[n..]);
        if n > k {
          NoLongerRun(atoms[0], s, n);
        }
        SplitsUpToWitness(atoms, s, k, n);
      }
    }
  }

  /** `mobileRegex.test(mobile)` */
  function MatchesMobile(mobile: string): (ok: bool)
    ensures ok <==> InLanguage(Pattern, mobile)
  {
    MatchDecides(Pattern, mobile);
    Match(Pattern, mobile)
  }

  // Properties of every accepted mobile number, proved from the language definition.

  function DigitCount(s: string): (n: nat)
    ensures n <= |s|
  {
    if s == [] then 0 else (if IsDigit(s[0]) then 1 else 0) + DigitCount(s[1..])
  }

  lemma {:induction false} DigitCountAppend(a: string, b: string)
    ensures DigitCount(a + b) == DigitCount(a) + DigitCount(b)
  {
    if a == [] {
      assert a + b == b;
    } else {
      assert (a + b)[0] == a[0] && (a + b)[1..] == a[1..] + b;
      DigitCountAppend(a[1..], b);
    }
  }

  /** A class that never matches a digit. */
  predicate DigitFree(k: CharClass) {
    forall c :: InClass(c, k) ==> !IsDigit(c)
  }

  lemma {:induction false} DigitCountOfRun(s: string, k: CharClass)
    requires AllIn(s, k)
    ensures k == Digit ==> DigitCount(s) == |s|
    ensures DigitFree(k) ==> DigitCount(s) == 0
  {
    if s != [] {
      DigitCountOfRun(s[1..], k);
    }
  }

  /** The fewest and the most digits the atoms can match. */
  function MinDigits(atoms: seq<Atom>): nat {
    if atoms == [] then 0 else (if atoms[0].cls == Digit then atoms[0].min else 0) + MinDigits(atoms[1..])
  }

  function MaxDigits(atoms: seq<Atom>): nat {
    if atoms == [] then 0 else (if atoms[0].cls == Digit then atoms[0].max else 0) + MaxDigits(atoms[1..])
  }

  /** Every class is either the digit class or matches no digit. */
  predicate DigitsSeparated(atoms: seq<Atom>) {
    forall j :: 0 <= j < |atoms| ==> atoms[j].cls == Digit || DigitFree(atoms[j].cls)
  }

  lemma {:induction false} DigitBounds(atoms: seq<Atom>, s: string)
    requires DigitsSeparated(atoms) && InLanguage(atoms, s)
    ensures MinDigits(atoms) <= DigitCount(s) <= MaxDigits(atoms)
    decreases |atoms|
  {
    if atoms != [] {
      var n: nat :| IsRun(atoms[0], s, n) && InLanguage(atoms[1..], s[n..]);
      assert DigitsSeparated(atoms[1..]) by {
        forall j | 0 <= j < |atoms[1..]| ensures atoms[1..][j].cls == Digit || DigitFree(atoms[1..][j].cls) {
          assert atoms[1..][j] == atoms[j + 1];
        }
      }
      DigitBounds(atoms[1..], s[n..]);
      assert s == s[..n] + s[n..];
      DigitCountAppend(s[..n], s[n..]);
      assert atoms[0].cls == Digit || DigitFree(atoms[0].cls) by {
        assert 0 < |atoms|;
      }
      DigitCountOfRun(s[..n], atoms[0].cls);
    }
  }

  lemma PatternShape()
    ensures DigitsSeparated(Pattern)
    ensures MinDigits(Pattern) == 3 && MaxDigits(Pattern) == 17
  {
    forall j | 0 <= j < |Pattern| ensures Pattern[j].cls == Digit || DigitFree(Pattern[j].cls) {
      PatternAtomSeparated(j);
    }
  }

  lemma PatternAtomSeparated(j: nat)
    requires j < |Pattern|
    ensures Pattern[j].cls == Digit || DigitFree(Pattern[j].cls)
  {
    var k := Pattern[j].cls;
    assert k == Exactly('+') || k == Exactly('(') || k == Digit || k == Exactly(')') || k == Separator;
    assert DigitFree(Exactly('+')) && DigitFree(Exactly('(')) && DigitFree(Exactly(')'));
    assert DigitFree(Separator);
  }

  /** Every accepted mobile number has between 3 and 17 digits. */
  lemma AcceptedDigitCount(mobile: string)
    requires InLanguage(Pattern, mobile)
    ensures 3 <= DigitCount(mobile) <= 17
  {
    PatternShape();
    DigitBounds(Pattern, mobile);
  }

  /** Some atom's class matches `c`. */
  predicate AnyClass(atoms: seq<Atom>, c: char) {
    atoms != [] && (InClass(c, atoms[0].cls) || AnyClass(atoms[1..], c))
  }

  lemma {:induction false} CharsFromClasses(atoms: seq<Atom>, s: string, i: nat)
    requires InLanguage(atoms, s) && i < |s|
    ensures AnyClass(atoms, s[i])
    decreases |atoms|
  {
    var n: nat :| IsRun(atoms[0], s, n) && InLanguage(atoms[1..], s[n..]);
    if i < n {
      assert s[..n][i] == s[i];
    } else {
      CharsFromClasses(atoms[1..], s[n..], i - n);
    }
  }

  /** The characters a mobile number may contain. */
  predicate MobileChar(c: char) {
    IsDigit(c) || c == '+' || c == '(' || c == ')' || c == '-' || c == '.' || IsWhitespace(c)
  }

  lemma {:induction false} AnyClassAt(atoms: seq<Atom>, c: char)
    requires AnyClass(atoms, c)
    ensures exists j :: 0 <= j < |atoms| && InClass(c, atoms[j].cls)
    decreases |atoms|
  {
    if !InClass(c, atoms[0].cls) {
      AnyClassAt(atoms[1..], c);
      var j :| 0 <= j < |atoms[1..]| && InClass(c, atoms[1..][j].cls);
      assert atoms[1..][j] == atoms[j + 1];
    }
  }

  /** The class of the pattern's atom `j`: a mobile character, and '+' only for the first atom. */
  lemma AtomClass(j: nat, c: char)
    requires j < |Pattern| && InClass(c, Pattern[j].cls)
    ensures MobileChar(c)
    ensures 0 < j ==> c != '+'
  {
    var k := Pattern[j].cls;
    assert k == Exactly('+') || k == Exactly('(') || k == Digit || k == Exactly(')') || k == Separator;
    assert 0 < j ==> k != Exactly('+');
  }

  /** A character of some atom from `from` on is a mobile character, and not '+' past the first atom. */
  lemma SuffixClasses(from: nat, c: char)
    requires from < |Pattern| && AnyClass(Pattern[from..], c)
    ensures MobileChar(c)
    ensures 0 < from ==> c != '+'
  {
    AnyClassAt(Pattern[from..], c);
    var j :| 0 <= j < |Pattern[from..]| && InClass(c, Pattern[from..][j].cls);
    AtomClass(from + j, c);
  }

  /**
   * An accepted number uses only digits, '+', '(', ')', '-', '.' and
   * whitespace, and has '+' at most as its first character.
   */
  lemma AcceptedAlphabet(mobile: string)
    requires InLanguage(Pattern, mobile)
    ensures forall i :: 0 <= i < |mobile| ==> MobileChar(mobile[i])
    ensures forall i :: 0 < i < |mobile| ==> mobile[i] != '+'
  {
    forall i | 0 <= i < |mobile| ensures MobileChar(mobile[i]) {
      CharsFromClasses(Pattern, mobile, i);
      assert Pattern[0..] == Pattern;
      SuffixClasses(0, mobile[i]);
    }
    var n: nat :| IsRun(Pattern[0], mobile, n) && InLanguage(Pattern[1..], mobile[n..]);
    forall i | 0 < i < |mobile| ensures mobile[i] != '+' {
      if i >= n {
        CharsFromClasses(Pattern[1..], mobile[n..], i - n);
        assert mobile[n..][i - n] == mobile[i];
        SuffixClasses(1, mobile[i]);
      }
    }
  }

  /** The characters an accepted string can start with: the first atom's, or a later one's past optional atoms. */
  predicate CanStart(atoms: seq<Atom>, c: char) {
    atoms != [] && (InClass(c, atoms[0].cls) || (atoms[0].min == 0 && CanStart(atoms[1..], c)))
  }

  lemma {:induction false} FirstCharCanStart(atoms: seq<Atom>, s: string)
    requires InLanguage(atoms, s) && s != []
    ensures CanStart(atoms, s[0])
    decreases |atoms|
  {
    var n: nat :| IsRun(atoms[0], s, n) && InLanguage(atoms[1..], s[n..]);
    if n > 0 {
      assert s[..n][0] == s[0];
    } else {
      FirstCharCanStart(atoms[1..], s);
    }
  }

  lemma {:induction false} LastCharInLastClass(atoms: seq<Atom>, s: string)
    requires atoms != [] && atoms[|atoms| - 1].min >= 1 && InLanguage(atoms, s)
    ensures s != [] && InClass(s[|s| - 1], atoms[|atoms| - 1].cls)
    decreases |atoms|
  {
    var n: nat :| IsRun(atoms[0], s, n) && InLanguage(atoms[1..], s[n..]);
    if |atoms| == 1 {
      assert s[n..] == [];
      assert s[..n][n - 1] == s[|s| - 1];
    } else {
      LastCharInLastClass(atoms[1..], s[n..]);
    }
  }

  lemma PatternStarts(c: char)
    ensures CanStart(Pattern, c) ==> c == '+' || c == '(' || IsDigit(c)
  {
    var rest := Pattern[1..];
    assert rest[0] == Atom(Exactly('('), 0, 1);
    assert rest[1..][0] == Atom(Digit, 1, 4);
    if CanStart(Pattern, c) && c != '+' {
      assert CanStart(rest, c);
      if c != '(' {
        assert CanStart(rest[1..], c);
      }
    }
  }

  /** An accepted number ends with a digit. */
  lemma AcceptedEnd(mobile: string)
    requires InLanguage(Pattern, mobile)
    ensures mobile != [] && IsDigit(mobile[|mobile| - 1])
  {
    var last := Pattern[|Pattern| - 1];
    assert last == Atom(Digit, 1, 9);
    LastCharInLastClass(Pattern, mobile);
    assert InClass(mobile[|mobile| - 1], last.cls);
  }

  /** An accepted number starts with '+', '(' or a digit. */
  lemma AcceptedStart(mobile: string)
    requires InLanguage(Pattern, mobile)
    ensures mobile != [] && (mobile[0] == '+' || mobile[0] == '(' || IsDigit(mobile[0]))
  {
    AcceptedEnd(mobile);
    var c := mobile[0];
    FirstCharCanStart(Pattern, mobile);
    PatternStarts(c);
  }

  /** A number padded with whitespace on either side is rejected, even when the unpadded one is accepted. */
  lemma PaddedRejected(mobile: string, c: char)
    requires IsWhitespace(c)
    ensures !InLanguage(Pattern, [c] + mobile)
    ensures !InLanguage(Pattern, mobile + [c])
  {
    if InLanguage(Pattern, [c] + mobile) {
      AcceptedStart([c] + mobile);
    }
    if InLanguage(Pattern, mobile + [c]) {
      AcceptedEnd(mobile + [c]);
    }
  }

  /** A blank mobile string never matches, so the pattern test alone already rejects it. */
  lemma BlankRejected(mobile: string)
    requires IsBlank(mobile)
    ensures !InLanguage(Pattern, mobile)
  {
    if mobile != [] {
      var last := mobile[|mobile| - 1];
      assert IsWhitespace(last) && !IsDigit(last);
    }
    if InLanguage(Pattern, mobile) {
      AcceptedEnd(mobile);
    }
  }
}
