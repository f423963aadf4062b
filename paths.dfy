/** The part of `pathlib.Path` the core uses: `/`, `parent`, `name`, `stem`,
    `suffix`, `with_name`, `is_absolute` and the "resolve a relative path
    under a base directory" idiom.  A path is a flag for absoluteness and
    its list of components. */
module Paths {
  import opened Outcomes
  import opened Text

  datatype Path = Path(absolute: bool, parts: seq<string>)

  /** `p / name` for a single component `name`. */
  function Join(p: Path, name: string): Path {
    Path(p.absolute, p.parts + [name])
  }

  /** `p.parent` (the parent of a root or of the empty path is itself). */
  function Parent(p: Path): Path {
    if p.parts == [] then p else Path(p.absolute, p.parts[..|p.parts| - 1])
  }

  /** `p.name`: the last component, '' for a root or an empty path. */
  function Name(p: Path): string {
    if p.parts == [] then "" else p.parts[|p.parts| - 1]
  }

  /** Joining a component and taking it apart again: `(p / n).parent == p`
      and `(p / n).name == n`. */
  lemma JoinParentName(p: Path, n: string)
    ensures Parent(Join(p, n)) == p && Name(Join(p, n)) == n
  {
    assert Join(p, n).parts[..|p.parts|] == p.parts;
  }

  /** `if not path.is_absolute(): path = base / path`. */
  function ResolveUnder(base: Path, p: Path): (r: Path)
    ensures p.absolute ==> r == p
    ensures !p.absolute ==> r.absolute == base.absolute && r.parts == base.parts + p.parts
  {
    if p.absolute then p else Path(base.absolute, base.parts + p.parts)
  }

  /** `name.rfind(c)`. */
  function LastIndexOf(s: string, c: char): (r: Option<nat>)
    ensures r.Some? ==> r.value < |s| && s[r.value] == c && c !in s[r.value + 1..]
    ensures r.None? ==> c !in s
  {
    if s == [] then None
    else if s[|s| - 1] == c then Some(|s| - 1)
    else
      var r := LastIndexOf(s[..|s| - 1], c);
      assert s == s[..|s| - 1] + [s[|s| - 1]];
      r
  }

  /** Where pathlib cuts a file name into stem and suffix: at the last dot,
      provided that dot is neither the first nor the last character. */
  function SuffixStart(name: string): (r: nat)
    ensures r <= |name|
  {
    match LastIndexOf(name, '.')
    case Some(i) => if 0 < i < |name| - 1 then i else |name|
    case None => |name|
  }

  /** `Path(name).suffix`. */
  function Suffix(name: string): string {
    name[SuffixStart(name)..]
  }

  /** `Path(name).stem`. */
  function Stem(name: string): string {
    name[..SuffixStart(name)]
  }

  /** A file name is its stem followed by its suffix; a suffix is either
      empty or a dot followed by at least one character and no other dot. */
  lemma StemSuffix(name: string)
    ensures Stem(name) + Suffix(name) == name
    ensures Suffix(name) == [] || (|Suffix(name)| >= 2 && Suffix(name)[0] == '.' && '.' !in Suffix(name)[1..])
  {
    var i := SuffixStart(name);
    assert name == name[..i] + name[i..];
    if i < |name| {
      assert Suffix(name)[1..] == name[i + 1..];
    }
  }

  /** A name whose last dot sits strictly inside it has the part before
      that dot as its stem. */
  lemma StemAtLastDot(name: string, i: nat)
    requires 0 < i < |name| - 1 && name[i] == '.' && '.' !in name[i + 1..]
    ensures Stem(name) == name[..i]
  {
    assert name[i] in name;
    var r := LastIndexOf(name, '.').value;
    assert forall k :: i < k < |name| ==> name[k] == name[i + 1..][k - i - 1];
    assert forall k :: r < k < |name| ==> name[k] == name[r + 1..][k - r - 1];
  }

  /** The stem of a one-character base name with a dot-free extension is
      that character. */
  lemma StemOfShortName(c: char, ext: string)
    requires ext != [] && '.' !in ext
    ensures Stem([c, '.'] + ext) == [c]
  {
    var name := [c, '.'] + ext;
    assert name[2..] == ext;
    StemAtLastDot(name, 1);
  }

  /** `p.with_name(n)`: the sibling of `p` called `n`. */
  function WithName(p: Path, n: string): (r: Path)
    requires p.parts != []
    ensures Parent(r) == Parent(p) && Name(r) == n
  {
    Join(Parent(p), n)
  }

  function PathStem(p: Path): string { Stem(Name(p)) }

  function PathSuffix(p: Path): string { Suffix(Name(p)) }

  /** The proper ancestors of `p` and `p` itself: every prefix of its
      components, the root (or the empty path) included. */
  function Ancestors(p: Path): (r: set<Path>)
    ensures p in r
  {
    assert p.parts[..|p.parts|] == p.parts;
    set k | 0 <= k <= |p.parts| :: Path(p.absolute, p.parts[..k])
  }

  function StrictAncestors(p: Path): set<Path> {
    set k | 0 <= k < |p.parts| :: Path(p.absolute, p.parts[..k])
  }
}
