/**
 * The e-mail rule of `User.validate_email`: `re.match(r"[^@]+@[^@]+\.[^@]+", email)`.
 *
 * The pattern is written down as a list of pieces and matched by a small backtracking
 * matcher with the semantics of `re.match`: the match is anchored at the start of the
 * string only, so any text may follow the matched prefix. `EmailShape` is an independent,
 * position-based description of the same language, and `MatchIffShape` proves the two agree.
 */
module EmailPattern {

  /** A one-character class: a literal character, or every character but one (`[^c]`). */
  datatype CharClass = Literal(c: char) | NoneOf(c: char)

  /** A pattern piece: one character of a class, or one or more (`+`). */
  datatype Piece = One(cls: CharClass) | OneOrMore(cls: CharClass)

  predicate InClass(cls: CharClass, ch: char) {
    match cls
    case Literal(c) => ch == c
    case NoneOf(c) => ch != c
  }

  /** `[^@]+@[^@]+\.[^@]+` */
  const Pattern: seq<Piece> :=
    [OneOrMore(NoneOf('@')), One(Literal('@')), OneOrMore(NoneOf('@')), One(Literal('.')), OneOrMore(NoneOf('@'))]

  /** Every character of s[lo..hi] is in the class. */
  predicate AllIn(cls: CharClass, s: string, lo: nat, hi: nat)
    requires lo <= hi <= |s|
  {
    forall k | lo <= k < hi :: InClass(cls, s[k])
  }

  /**
   * Does some prefix of s[i..] match the pieces p? With no pieces left the match succeeds
   * whatever follows, which is what makes `re.match` a prefix match.
   */
  function MatchAt(p: seq<Piece>, s: string, i: nat): bool
    requires i <= |s|
    decreases |p|, |s| - i
  {
    if p == [] then true
    else
      match p[0]
      case One(cls) => i < |s| && InClass(cls, s[i]) && MatchAt(p[1..], s, i + 1)
      case OneOrMore(cls) => i < |s| && InClass(cls, s[i]) && MatchMore(cls, p[1..], s, i + 1)
  }

  /** After at least one character of cls: either the rest matches here, or cls takes one more. */
  function MatchMore(cls: CharClass, rest: seq<Piece>, s: string, j: nat): bool
    requires j <= |s|
    decreases |rest| + 1, |s| - j
  {
    MatchAt(rest, s, j) || (j < |s| && InClass(cls, s[j]) && MatchMore(cls, rest, s, j + 1))
  }

  /**
   * The validator's test: `re.match(pattern, email)` is not None. An accepted string has at
   * least five characters and does not start with '@'; `MatchIffShape` characterises it fully.
   */
  predicate Matches(s: string): (r: bool)
    ensures r ==> |s| >= 5 && s[0] != '@'
  {
    MatchIffShape(s);
    MatchAt(Pattern, s, 0)
  }

  /** No '@' in s[lo..hi]. */
  predicate NoAtIn(s: string, lo: nat, hi: nat)
    requires lo <= hi <= |s|
  {
    forall k | lo <= k < hi :: s[k] != '@'
  }

  /**
   * Reference description: s starts with one or more non-'@' characters, then '@' at
   * position i, then one or more non-'@' characters, then '.' at position j, then one
   * more non-'@' character; anything may follow.
   */
  predicate ShapeAt(s: string, i: nat, j: nat) {
    && 0 < i && i + 1 < j && j + 1 < |s|
    && NoAtIn(s, 0, i) && s[i] == '@'
    && NoAtIn(s, i + 1, j) && s[j] == '.'
    && s[j + 1] != '@'
  }

  predicate EmailShape(s: string) {
    exists i: nat, j: nat | i < j < |s| :: ShapeAt(s, i, j)
  }

  /** Walking forward: a run of cls followed by a match of rest makes MatchMore succeed. */
  lemma {:induction false} MatchMoreFrom(cls: CharClass, rest: seq<Piece>, s: string, j: nat, k: nat)
    requires j <= k <= |s|
    requires AllIn(cls, s, j, k) && MatchAt(rest, s, k)
    ensures MatchMore(cls, rest, s, j)
    decreases k - j
  {
    if j < k {
      MatchMoreFrom(cls, rest, s, j + 1, k);
    }
  }

  /** Conversely, a successful MatchMore splits into a run of cls and a match of rest. */
  lemma {:induction false} MatchMoreSplit(cls: CharClass, rest: seq<Piece>, s: string, j: nat) returns (k: nat)
    requires j <= |s|
    requires MatchMore(cls, rest, s, j)
    ensures j <= k <= |s| && AllIn(cls, s, j, k) && MatchAt(rest, s, k)
    decreases |s| - j
  {
    if MatchAt(rest, s, j) {
      k := j;
    } else {
      k := MatchMoreSplit(cls, rest, s, j + 1);
    }
  }

  /** The matcher, run on the whole pattern from the start, accepts exactly the strings of the reference shape. */
  lemma MatchIffShape(s: string)
    ensures MatchAt(Pattern, s, 0) <==> EmailShape(s)
  {
    var at, dot := One(Literal('@')), One(Literal('.'));
    var plus := OneOrMore(NoneOf('@'));
    var notAt := NoneOf('@');
    assert Pattern[1..] == [at, plus, dot, plus];
    assert Pattern[1..][1..] == [plus, dot, plus];
    assert Pattern[1..][1..][1..] == [dot, plus];
    assert Pattern[1..][1..][1..][1..] == [plus];
    if MatchAt(Pattern, s, 0) {
      var i := MatchMoreSplit(notAt, Pattern[1..], s, 1);
      var j := MatchMoreSplit(notAt, [dot, plus], s, i + 2);
      assert ShapeAt(s, i, j);
    }
    if EmailShape(s) {
      var i: nat, j: nat :| ShapeAt(s, i, j);
      assert ShapeAt(s, i, j);
      assert MatchAt([plus], s, j + 1) by {
        MatchMoreFrom(notAt, [], s, j + 2, j + 2);
      }
      MatchMoreFrom(notAt, [dot, plus], s, i + 2, j);
      MatchMoreFrom(notAt, Pattern[1..], s, 1, i);
    }
  }

  /** A string with no '@' is rejected. */
  lemma NoAtRejected(s: string)
    requires '@' !in s
    ensures !Matches(s)
  {
    MatchIffShape(s);
  }

  /** `re.match` is not anchored at the end: whatever follows an accepted address is accepted too. */
  lemma TrailingTextAccepted(s: string, t: string)
    requires Matches(s)
    ensures Matches(s + t)
  {
    MatchIffShape(s);
    MatchIffShape(s + t);
    var i: nat, j: nat :| ShapeAt(s, i, j);
    assert ShapeAt(s, i, j);
    assert (s + t)[..|s|] == s;
    assert ShapeAt(s + t, i, j);
  }

  /** The local part is the text before the first '@'; a leading '@' is rejected. */
  lemma LeadingAtRejected(s: string)
    requires |s| > 0 && s[0] == '@'
    ensures !Matches(s)
  {
    MatchIffShape(s);
  }

  /** A second '@' before the dot is rejected: the domain may not contain '@'. */
  lemma AtInDomainRejected(s: string, i: nat)
    requires i < |s| && s[i] == '@' && NoAtIn(s, 0, i)
    requires forall k | i < k < |s| :: s[k] == '.' ==> !NoAtIn(s, i + 1, k)
    ensures !Matches(s)
  {
    MatchIffShape(s);
  }

  lemma Examples()
    ensures Matches("ann@x.co")
    ensures Matches("a@b.c and more")
    ensures Matches("a@..c")
    ensures !Matches("ann@x")
    ensures !Matches("ann@x.")
    ensures !Matches("@x.co")
    ensures !Matches("ann@x.@")
  {
    MatchIffShape("ann@x.co");
    assert ShapeAt("ann@x.co", 3, 5);
    MatchIffShape("a@b.c and more");
    assert ShapeAt("a@b.c and more", 1, 3);
    MatchIffShape("a@..c");
    assert ShapeAt("a@..c", 1, 3);
    MatchIffShape("ann@x");
    MatchIffShape("ann@x.");
    MatchIffShape("@x.co");
    MatchIffShape("ann@x.@");
  }
}
