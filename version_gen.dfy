/**
 * utils/version_gen.py: the project metadata read from `pyproject.toml`
 * with its defaults, and the Windows file version built from the version
 * string: split at dots, padded with "0" to at least four parts, the first
 * four converted with `int()`.
 *
 * The parsed TOML is an input; reading and writing files are not modelled.
 */
module VersionGen {
  import opened Wrappers
  import Strings

  /** One entry of `project.authors`: a table that may have a `name`. */
  datatype Author = Author(name: Option<string>)

  /** The `[project]` table: each entry may be absent. */
  datatype Project = Project(
    version: Option<string>,
    name: Option<string>,
    description: Option<string>,
    authors: Option<seq<Author>>)

  /** The values the version resource is made of. */
  datatype Metadata = Metadata(version: string, name: string, description: string, company: string)

  /** Why the script raises: `authors[0]` of an empty list, or `int()` of a part that is not a number. */
  datatype VersionError = NoAuthors | NotAnInteger(part: string)

  /** The generated version information: `filevers`, `prodvers` and the strings. */
  datatype VersionInfo = VersionInfo(filevers: seq<int>, prodvers: seq<int>, metadata: Metadata)

  const DefaultVersion := "0.0.1"
  const DefaultName := "MyApp"
  const DefaultDescription := "MyApp description"
  const DefaultCompany := "MyCompany"

  /**
   * `pyproject.get("project", {})` and the `get` calls with their defaults;
   * the company is the first author's name, and a missing `authors` stands
   * for one author named "MyCompany".
   */
  function ReadMetadata(p: Option<Project>): Result<Metadata, VersionError>
  {
    var project := p.GetOr(Project(None, None, None, None));
    var authors := project.authors.GetOr([Author(Some(DefaultCompany))]);
    if authors == [] then Failure(NoAuthors)
    else
      Success(Metadata(
        project.version.GetOr(DefaultVersion),
        project.name.GetOr(DefaultName),
        project.description.GetOr(DefaultDescription),
        authors[0].name.GetOr(DefaultCompany)))
  }

  /** The parts after padding: the given ones, then "0" until there are four. */
  function Padded(parts: seq<string>): (r: seq<string>)
    ensures |r| >= 4 && |r| >= |parts|
    decreases 4 - |parts|
  {
    if |parts| >= 4 then parts else Padded(parts + ["0"])
  }

  /** Padding keeps the given parts in front and adds only "0" parts, and only up to four. */
  lemma {:induction false} PaddedShape(parts: seq<string>)
    ensures |Padded(parts)| == if |parts| >= 4 then |parts| else 4
    ensures Padded(parts)[..|parts|] == parts
    ensures forall k :: |parts| <= k < |Padded(parts)| ==> Padded(parts)[k] == "0"
    decreases 4 - |parts|
  {
    if |parts| < 4 {
      PaddedShape(parts + ["0"]);
      assert (parts + ["0"])[..|parts|] == parts;
      assert Padded(parts)[..|parts| + 1][..|parts|] == Padded(parts)[..|parts|];
    }
  }

  /** `while len(parts) < 4: parts.append("0")`. */
  method PadToFour(parts: seq<string>) returns (r: seq<string>)
    ensures r == Padded(parts)
  {
    r := parts;
    while |r| < 4
      invariant Padded(r) == Padded(parts)
      decreases 4 - |r|
    {
      r := r + ["0"];
    }
  }

  /** `int()` of every part, in order; the first part that is not a number raises. */
  function ParseAll(parts: seq<string>): (r: Result<seq<int>, VersionError>)
    ensures r.Success? ==> |r.value| == |parts| && forall k :: 0 <= k < |parts| ==> Strings.ParseInt(parts[k]) == Some(r.value[k])
    ensures r.Failure? <==> exists k :: 0 <= k < |parts| && Strings.ParseInt(parts[k]).None?
  {
    if parts == [] then Success([])
    else
      match Strings.ParseInt(parts[0])
      case None => Failure(NotAnInteger(parts[0]))
      case Some(v) =>
        match ParseAll(parts[1..])
        case Failure(e) => Failure(e)
        case Success(vs) =>
          assert forall k :: 1 <= k < |parts| ==> parts[k] == parts[1..][k - 1];
          Success([v] + vs)
  }

  /** `filevers`: the first four padded parts of the version as integers. */
  function FileVers(version: string): Result<seq<int>, VersionError>
  {
    ParseAll(Padded(Strings.Split(version, '.'))[..4])
  }

  /** The whole script on a parsed `pyproject.toml`; `prodvers` is `filevers`. */
  method Generate(p: Option<Project>) returns (r: Result<VersionInfo, VersionError>)
    ensures r == match ReadMetadata(p)
      case Failure(e) => Failure(e)
      case Success(m) =>
        match FileVers(m.version)
        case Failure(e) => Failure(e)
        case Success(fv) => Success(VersionInfo(fv, fv, m))
  {
    var meta := ReadMetadata(p);
    if meta.Failure? {
      return Failure(meta.error);
    }
    var parts := Strings.Split(meta.value.version, '.');
    parts := PadToFour(parts);
    var filevers := ParseAll(parts[..4]);
    if filevers.Failure? {
      return Failure(filevers.error);
    }
    r := Success(VersionInfo(filevers.value, filevers.value, meta.value));
  }

  /** The number texts of a version, in order. */
  function Texts(vs: seq<int>): (r: seq<string>)
    ensures |r| == |vs| && forall k :: 0 <= k < |vs| ==> r[k] == Strings.IntToString(vs[k])
  {
    if vs == [] then [] else [Strings.IntToString(vs[0])] + Texts(vs[1..])
  }

  /**
   * A version written as dotted integers gives those integers back as
   * `filevers`: the first four, with 0 for each missing one.
   */
  lemma VersionRoundTrip(vs: seq<int>)
    requires |vs| >= 1
    ensures var fv := FileVers(Strings.Join(Texts(vs), '.'));
      && fv.Success? && |fv.value| == 4
      && forall k :: 0 <= k < 4 ==> fv.value[k] == if k < |vs| then vs[k] else 0
  {
    var texts := Texts(vs);
    SplitTexts(vs);
    assert FileVers(Strings.Join(texts, '.')) == ParseAll(Padded(texts)[..4]);
    ParsePadded(vs);
  }

  /** Number texts contain no dot, so splitting their dotted join gives them back. */
  lemma SplitTexts(vs: seq<int>)
    requires |vs| >= 1
    ensures Strings.Split(Strings.Join(Texts(vs), '.'), '.') == Texts(vs)
  {
    var texts := Texts(vs);
    forall k | 0 <= k < |texts|
      ensures '.' !in texts[k]
    {
      IntToStringHasNoDot(vs[k]);
    }
    Strings.SplitJoin(texts, '.');
  }

  /** Each of the first four padded number texts reads back as its number, or as 0 for a padding part. */
  lemma ParsePadded(vs: seq<int>)
    ensures var first := Padded(Texts(vs))[..4];
      forall k :: 0 <= k < 4 ==> Strings.ParseInt(first[k]) == Some(if k < |vs| then vs[k] else 0)
  {
    var texts := Texts(vs);
    PaddedShape(texts);
    var first := Padded(texts)[..4];
    forall k | 0 <= k < 4
      ensures Strings.ParseInt(first[k]) == Some(if k < |vs| then vs[k] else 0)
    {
      if k < |vs| {
        assert first[k] == Padded(texts)[..|texts|][k];
        Strings.ParseIntOfIntToString(vs[k]);
      } else {
        Strings.ParseIntOfIntToString(0);
      }
    }
  }

  lemma IntToStringHasNoDot(i: int)
    ensures '.' !in Strings.IntToString(i)
  {
    var t := Strings.IntToString(i);
    if i >= 0 {
      assert Strings.AllDigits(t);
    } else {
      assert t == "-" + Strings.NatToString(-i);
      assert Strings.AllDigits(Strings.NatToString(-i));
      assert forall k :: 1 <= k < |t| ==> t[k] == Strings.NatToString(-i)[k - 1];
    }
  }

  /** Without `[project]` every default applies. */
  lemma DefaultProject()
    ensures ReadMetadata(None) == Success(Metadata("0.0.1", "MyApp", "MyApp description", "MyCompany"))
  {
  }

  /** An empty `authors` list makes `authors[0]` raise. */
  lemma EmptyAuthorsFail(p: Project)
    requires p.authors == Some([])
    ensures ReadMetadata(Some(p)) == Failure(NoAuthors)
  {
  }

  /**
   * `filevers` is `int()` of the first four dot-separated parts, a missing
   * part counting as "0": parts beyond the fourth are dropped.
   */
  lemma FirstFourParts(version: string)
    ensures FileVers(version) == ParseAll((Strings.Split(version, '.') + ["0", "0", "0"])[..4])
  {
    var parts := Strings.Split(version, '.');
    PaddedShape(parts);
    var first := Padded(parts)[..4];
    assert first == (parts + ["0", "0", "0"])[..4] by {
      forall k | 0 <= k < 4
        ensures first[k] == (parts + ["0", "0", "0"])[k]
      {
        if k < |parts| {
          assert first[k] == Padded(parts)[..|parts|][k];
        }
      }
    }
  }

  /** A version with a part among its first four that is not a number makes `int()` raise. */
  lemma NonIntegerPartFails(parts: seq<string>, k: nat)
    requires |parts| >= 1 && forall j :: 0 <= j < |parts| ==> '.' !in parts[j]
    requires k < 4 && k < |parts| && Strings.ParseInt(parts[k]).None?
    ensures FileVers(Strings.Join(parts, '.')).Failure?
  {
    Strings.SplitJoin(parts, '.');
    PaddedShape(parts);
    var first := Padded(parts)[..4];
    assert first[k] == Padded(parts)[..|parts|][k];
  }

  /** `int("0-beta")` raises: the dash is not a digit. */
  lemma PreReleasePartNotInteger()
    ensures Strings.ParseInt("0-beta").None?
  {
    assert !Strings.AllDigits("0-beta") by { assert !Strings.IsDigit("0-beta"[1]); }
    Strings.TrimmedText("0-beta");
  }

  /** A pre-release suffix is not a number: the version 1.0.0-beta makes `int()` raise. */
  lemma PreReleaseFails()
    ensures FileVers(Strings.Join(["1", "0", "0-beta"], '.')).Failure?
  {
    var parts := ["1", "0", "0-beta"];
    assert forall j :: 0 <= j < |parts| ==> '.' !in parts[j];
    PreReleasePartNotInteger();
    NonIntegerPartFails(parts, 2);
  }
}
