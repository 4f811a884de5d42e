/** Precedence of versions, section 11 of Semantic Versioning 2.0.0. Build metadata does not take part. */
module SemVer {
  datatype Identifier = Numeric(n: nat) | Alphanumeric(s: string)

  datatype Version = Version(major: nat, minor: nat, patch: nat, pre: seq<Identifier>)

  datatype Order = Less | Equal | Greater

  function CompareNat(a: nat, b: nat): Order {
    if a < b then Less else if a == b then Equal else Greater
  }

  /** Lexical order in ASCII. */
  function CompareText(a: string, b: string): Order {
    if a == [] && b == [] then Equal
    else if a == [] then Less
    else if b == [] then Greater
    else if a[0] != b[0] then CompareNat(a[0] as nat, b[0] as nat)
    else CompareText(a[1..], b[1..])
  }

  /** Numeric identifiers are lower than others. */
  function CompareIdentifier(a: Identifier, b: Identifier): Order {
    match (a, b)
    case (Numeric(n), Numeric(m)) => CompareNat(n, m)
    case (Numeric(_), Alphanumeric(_)) => Less
    case (Alphanumeric(_), Numeric(_)) => Greater
    case (Alphanumeric(s), Alphanumeric(t)) => CompareText(s, t)
  }

  /** Field by field; of two lists where one continues the other the longer is higher. */
  function CompareFields(a: seq<Identifier>, b: seq<Identifier>): Order {
    if a == [] && b == [] then Equal
    else if a == [] then Less
    else if b == [] then Greater
    else if CompareIdentifier(a[0], b[0]) != Equal then CompareIdentifier(a[0], b[0])
    else CompareFields(a[1..], b[1..])
  }

  /** A pre-release is lower than the release. */
  function ComparePre(a: seq<Identifier>, b: seq<Identifier>): Order {
    if a == [] && b == [] then Equal
    else if a == [] then Greater
    else if b == [] then Less
    else CompareFields(a, b)
  }

  function Compare(a: Version, b: Version): Order {
    if a.major != b.major then CompareNat(a.major, b.major)
    else if a.minor != b.minor then CompareNat(a.minor, b.minor)
    else if a.patch != b.patch then CompareNat(a.patch, b.patch)
    else ComparePre(a.pre, b.pre)
  }

  predicate AtMost(a: Version, b: Version) {
    Compare(a, b) != Greater
  }

  // --- Compare is a total order ---

  function Reverse(o: Order): Order {
    match o case Less => Greater case Equal => Equal case Greater => Less
  }

  lemma {:induction false} TextAntisymmetric(a: string, b: string)
    ensures CompareText(b, a) == Reverse(CompareText(a, b)) && (CompareText(a, b) == Equal <==> a == b)
  {
    if a != [] && b != [] {
      TextAntisymmetric(a[1..], b[1..]);
      assert a == [a[0]] + a[1..] && b == [b[0]] + b[1..];
    }
  }

  lemma {:induction false} TextTransitive(a: string, b: string, c: string)
    requires CompareText(a, b) != Greater && CompareText(b, c) != Greater
    ensures CompareText(a, c) != Greater
  {
    if a != [] && b != [] && c != [] {
      if a[0] == b[0] == c[0] {
        TextTransitive(a[1..], b[1..], c[1..]);
      }
    }
  }

  lemma IdentifierAntisymmetric(a: Identifier, b: Identifier)
    ensures CompareIdentifier(b, a) == Reverse(CompareIdentifier(a, b)) && (CompareIdentifier(a, b) == Equal <==> a == b)
  {
    if a.Alphanumeric? && b.Alphanumeric? {
      TextAntisymmetric(a.s, b.s);
    }
  }

  lemma IdentifierTransitive(a: Identifier, b: Identifier, c: Identifier)
    requires CompareIdentifier(a, b) != Greater && CompareIdentifier(b, c) != Greater
    ensures CompareIdentifier(a, c) != Greater
  {
    if a.Alphanumeric? && b.Alphanumeric? && c.Alphanumeric? {
      TextTransitive(a.s, b.s, c.s);
    }
  }

  lemma {:induction false} FieldsAntisymmetric(a: seq<Identifier>, b: seq<Identifier>)
    ensures CompareFields(b, a) == Reverse(CompareFields(a, b)) && (CompareFields(a, b) == Equal <==> a == b)
  {
    if a != [] && b != [] {
      IdentifierAntisymmetric(a[0], b[0]);
      FieldsAntisymmetric(a[1..], b[1..]);
      assert a == [a[0]] + a[1..] && b == [b[0]] + b[1..];
    }
  }

  lemma {:induction false} FieldsTransitive(a: seq<Identifier>, b: seq<Identifier>, c: seq<Identifier>)
    requires CompareFields(a, b) != Greater && CompareFields(b, c) != Greater
    ensures CompareFields(a, c) != Greater
  {
    if a != [] && b != [] && c != [] {
      IdentifierTransitive(a[0], b[0], c[0]);
      IdentifierAntisymmetric(a[0], b[0]);
      IdentifierAntisymmetric(b[0], c[0]);
      IdentifierAntisymmetric(a[0], c[0]);
      if a[0] == b[0] == c[0] {
        FieldsTransitive(a[1..], b[1..], c[1..]);
      }
    }
  }

  lemma PrecedenceTotal(a: Version, b: Version)
    ensures AtMost(a, b) || AtMost(b, a)
    ensures AtMost(a, b) && AtMost(b, a) <==> a == b
  {
    FieldsAntisymmetric(a.pre, b.pre);
  }

  lemma PrecedenceTransitive(a: Version, b: Version, c: Version)
    requires AtMost(a, b) && AtMost(b, c)
    ensures AtMost(a, c)
  {
    if a.pre != [] && b.pre != [] && c.pre != [] && CompareFields(a.pre, b.pre) != Greater && CompareFields(b.pre, c.pre) != Greater {
      FieldsTransitive(a.pre, b.pre, c.pre);
    }
  }

  /** Two lists first differ at `i`, or the shorter ends there. */
  ghost predicate LessAt(a: seq<Identifier>, b: seq<Identifier>, i: int) {
    && 0 <= i <= |a| && i < |b| && a[..i] == b[..i]
    && (i < |a| ==> LowerIdentifier(a[i], b[i]))
  }

  /** Numbers by value, numbers before texts, texts by the first character in which they differ. */
  ghost predicate LowerIdentifier(a: Identifier, b: Identifier) {
    match (a, b)
    case (Numeric(n), Numeric(m)) => n < m
    case (Numeric(_), Alphanumeric(_)) => true
    case (Alphanumeric(_), Numeric(_)) => false
    case (Alphanumeric(s), Alphanumeric(t)) => exists i :: LowerTextAt(s, t, i)
  }

  ghost predicate LowerTextAt(s: string, t: string, i: int) {
    0 <= i <= |s| && i < |t| && s[..i] == t[..i] && (i < |s| ==> s[i] < t[i])
  }

  lemma SamePrefix<T>(a: seq<T>, b: seq<T>)
    ensures forall i | 0 < i <= |a| && i <= |b| && a[..i] == b[..i] :: a[0] == b[0]
  {
    forall i | 0 < i <= |a| && i <= |b| && a[..i] == b[..i]
      ensures a[0] == b[0]
    {
      assert a[..i][0] == a[0] && b[..i][0] == b[0];
    }
  }

  lemma {:induction false} TextLess(s: string, t: string)
    ensures CompareText(s, t) == Less <==> exists i :: LowerTextAt(s, t, i)
  {
    if s == [] && t != [] {
      assert LowerTextAt(s, t, 0);
    } else if s != [] && t != [] && s[0] < t[0] {
      assert LowerTextAt(s, t, 0);
    } else if s != [] && t != [] && s[0] == t[0] {
      TextLess(s[1..], t[1..]);
      assert s == [s[0]] + s[1..] && t == [t[0]] + t[1..];
      if i :| LowerTextAt(s[1..], t[1..], i) {
        assert s[..i + 1] == [s[0]] + s[1..][..i] && t[..i + 1] == [t[0]] + t[1..][..i];
        assert LowerTextAt(s, t, i + 1);
      }
      if i :| LowerTextAt(s, t, i) {
        assert s[1..][..i - 1] == s[..i][1..] && t[1..][..i - 1] == t[..i][1..];
        assert LowerTextAt(s[1..], t[1..], i - 1);
      }
    } else {
      SamePrefix(s, t);
    }
  }

  lemma IdentifierLess(a: Identifier, b: Identifier)
    ensures CompareIdentifier(a, b) == Less <==> LowerIdentifier(a, b)
  {
    if a.Alphanumeric? && b.Alphanumeric? {
      TextLess(a.s, b.s);
    }
  }

  lemma {:induction false} FieldsLess(a: seq<Identifier>, b: seq<Identifier>)
    ensures CompareFields(a, b) == Less <==> exists i :: LessAt(a, b, i)
  {
    if a == [] && b != [] {
      assert LessAt(a, b, 0);
    } else if a != [] && b != [] {
      IdentifierLess(a[0], b[0]);
      IdentifierAntisymmetric(a[0], b[0]);
      if a[0] == b[0] {
        FieldsLess(a[1..], b[1..]);
        if i :| LessAt(a[1..], b[1..], i) {
          assert a[..i + 1] == [a[0]] + a[1..][..i] && b[..i + 1] == [b[0]] + b[1..][..i];
          assert LessAt(a, b, i + 1);
        }
        if i :| LessAt(a, b, i) {
          NotLowerItself(a[0]);
          assert a[1..][..i - 1] == a[..i][1..] && b[1..][..i - 1] == b[..i][1..];
          assert LessAt(a[1..], b[1..], i - 1);
        }
      } else {
        if LowerIdentifier(a[0], b[0]) {
          assert LessAt(a, b, 0);
        }
        SamePrefix(a, b);
      }
    }
  }

  lemma NotLowerItself(a: Identifier)
    ensures !LowerIdentifier(a, a)
  {
    IdentifierLess(a, a);
    IdentifierAntisymmetric(a, a);
  }

  /** Precedence as section 11 words it: major, minor, patch in turn, a pre-release below its release, and
      pre-releases by their first difference. */
  lemma PrecedenceExactly(a: Version, b: Version)
    ensures Compare(a, b) == Less <==>
      || a.major < b.major
      || (a.major == b.major && a.minor < b.minor)
      || (a.major == b.major && a.minor == b.minor && a.patch < b.patch)
      || (a.major == b.major && a.minor == b.minor && a.patch == b.patch
          && a.pre != [] && (b.pre == [] || exists i :: LessAt(a.pre, b.pre, i)))
  {
    FieldsLess(a.pre, b.pre);
  }
}
