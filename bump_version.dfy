/** next_version of bump_version.py: the version that follows a parsed
    version when its major, minor or patch part is incremented, following
    items 6 to 8 of Semantic Versioning 2.0.0 (a bump resets every part to
    its right). */
module BumpVersion {
  import opened Results
  import opened Decimal

  const PART_MESSAGE := "Specify 'major', 'minor', or 'patch'."

  /** A version as the packaging library parses it: an epoch, the release
      numbers, and the pre-, post-, dev- and local segments, kept as text. */
  datatype ParsedVersion = ParsedVersion(epoch: nat, release: seq<nat>, suffix: string) {
    /** A release number, 0 when the release has fewer components. */
    function Component(i: nat): nat {
      if i < |release| then release[i] else 0
    }
    function Major(): nat { Component(0) }
    function Minor(): nat { Component(1) }
    function Micro(): nat { Component(2) }
    function Parts(): Triple { Triple(Major(), Minor(), Micro()) }
  }

  datatype Triple = Triple(major: nat, minor: nat, patch: nat)

  /** Triples in lexicographic order. */
  predicate Less(a: Triple, b: Triple) {
    a.major < b.major
    || (a.major == b.major && a.minor < b.minor)
    || (a.major == b.major && a.minor == b.minor && a.patch < b.patch)
  }

  /** "major.minor.patch" in decimal: the text splits on "." into exactly the
      three numbers' decimal renderings. */
  function Format(t: Triple): (s: string)
    ensures Split(s, '.') == [NatToString(t.major), NatToString(t.minor), NatToString(t.patch)]
  {
    var a, b, c := NatToString(t.major), NatToString(t.minor), NatToString(t.patch);
    NoDotInDigits(a);
    NoDotInDigits(b);
    NoDotInDigits(c);
    SplitAtFirst(b, '.', c);
    SplitAtFirst(a, '.', b + ['.'] + c);
    a + ['.'] + (b + ['.'] + c)
  }

  /** A string of exactly three dot-separated decimal numbers, read back. */
  function ParseTriple(s: string): (r: Option<Triple>)
    ensures r.Some? ==> |Split(s, '.')| == 3
  {
    var parts := Split(s, '.');
    if |parts| != 3 then None
    else match (ParseNat(parts[0]), ParseNat(parts[1]), ParseNat(parts[2]))
      case (Some(a), Some(b), Some(c)) => Some(Triple(a, b, c))
      case _ => None
  }

  lemma NoDotInDigits(s: string)
    requires AllDigits(s)
    ensures '.' !in s
  {
  }

  /** A decimal number as str() of an integer writes it: digits only, with a
      leading zero only for "0". */
  predicate IsDecimalComponent(p: string) {
    p != [] && AllDigits(p) && (p[0] == '0' ==> p == "0")
  }

  /** Exactly three dot-separated decimal numbers. */
  predicate ThreeComponents(s: string) {
    var parts := Split(s, '.');
    |parts| == 3 && IsDecimalComponent(parts[0]) && IsDecimalComponent(parts[1]) && IsDecimalComponent(parts[2])
  }

  /** A formatted triple is three dot-separated decimal numbers. */
  lemma FormatShape(t: Triple)
    ensures ThreeComponents(Format(t))
  {
    NatToStringNoLeadingZero(t.major);
    NatToStringNoLeadingZero(t.minor);
    NatToStringNoLeadingZero(t.patch);
  }

  /** Formatting then parsing gives the triple back. */
  lemma ParseFormat(t: Triple)
    ensures ParseTriple(Format(t)) == Some(t)
  {
    ParseNatToString(t.major);
    ParseNatToString(t.minor);
    ParseNatToString(t.patch);
  }

  /** next_version: "major", "minor" or "patch" give the bumped version as
      three components; any other part is refused. The source reads only
      v.major, v.minor and v.micro of the parsed version, so the input is
      that triple, ParsedVersion.Parts(): epoch and the pre-, post-, dev-
      and local segments cannot affect the result. */
  function NextVersion(current: Triple, part: string): (r: Result<string, string>)
    ensures r.Success? <==> part == "major" || part == "minor" || part == "patch"
    ensures r.Failure? ==> r.error == PART_MESSAGE
  {
    if part == "major" then Success(Format(Triple(current.major + 1, 0, 0)))
    else if part == "minor" then Success(Format(Triple(current.major, current.minor + 1, 0)))
    else if part == "patch" then Success(Format(Triple(current.major, current.minor, current.patch + 1)))
    else Failure(PART_MESSAGE)
  }

  /** A major bump increments the major number and resets the others. */
  lemma NextMajor(current: Triple)
    ensures NextVersion(current, "major").Success?
    ensures ParseTriple(NextVersion(current, "major").value) == Some(Triple(current.major + 1, 0, 0))
  {
    ParseFormat(Triple(current.major + 1, 0, 0));
  }

  /** A minor bump keeps the major number, increments the minor and resets the patch. */
  lemma NextMinor(current: Triple)
    ensures NextVersion(current, "minor").Success?
    ensures ParseTriple(NextVersion(current, "minor").value) == Some(Triple(current.major, current.minor + 1, 0))
  {
    ParseFormat(Triple(current.major, current.minor + 1, 0));
  }

  /** A patch bump keeps major and minor and increments the patch number. */
  lemma NextPatch(current: Triple)
    ensures NextVersion(current, "patch").Success?
    ensures ParseTriple(NextVersion(current, "patch").value) == Some(Triple(current.major, current.minor, current.patch + 1))
  {
    ParseFormat(Triple(current.major, current.minor, current.patch + 1));
  }

  /** A successful result is three dot-separated decimal numbers. */
  lemma NextVersionShape(current: Triple, part: string)
    requires NextVersion(current, part).Success?
    ensures ThreeComponents(NextVersion(current, part).value)
  {
    var next := if part == "major" then Triple(current.major + 1, 0, 0)
      else if part == "minor" then Triple(current.major, current.minor + 1, 0)
      else Triple(current.major, current.minor, current.patch + 1);
    assert NextVersion(current, part).value == Format(next);
    FormatShape(next);
  }

  /** Every successful bump reads back as a triple above the input. */
  lemma NextVersionIncreases(current: Triple, part: string)
    requires NextVersion(current, part).Success?
    ensures var next := ParseTriple(NextVersion(current, part).value);
      next.Some? && Less(current, next.value)
  {
    if part == "major" {
      NextMajor(current);
    } else if part == "minor" {
      NextMinor(current);
    } else {
      NextPatch(current);
    }
  }
}
