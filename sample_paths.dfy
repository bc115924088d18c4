/**
 * The file paths the generators load features from, built by string
 * concatenation around Python's str() of an integer sample ID, and parsers
 * that recover the parts again. The round trips show that distinct samples
 * (and, for the multi-feature generator, distinct features) are read from
 * distinct files.
 */
module SamplePaths {
  import opened Outcomes

  predicate IsDigit(c: char) {
    '0' <= c <= '9'
  }

  function DigitChar(d: nat): (c: char)
    requires d < 10
    ensures IsDigit(c) && c as int - '0' as int == d
  {
    ('0' as int + d) as char
  }

  /** Decimal digits of n, most significant first, with no leading zero. */
  function NatToString(n: nat): (s: string)
    ensures |s| >= 1
    ensures forall i :: 0 <= i < |s| ==> IsDigit(s[i])
    ensures s[0] == '0' <==> n == 0
  {
    if n < 10 then [DigitChar(n)] else NatToString(n / 10) + [DigitChar(n % 10)]
  }

  /** Python's str() of an int: its decimal digits, after a '-' when negative. */
  function IntToString(n: int): (s: string)
    ensures |s| >= 1 && '/' !in s
  {
    if n < 0 then "-" + NatToString(-n) else NatToString(n)
  }

  /** The value of a nonempty string of decimal digits; None for anything else. */
  function ParseNat(s: string): Option<nat> {
    if |s| == 0 || !IsDigit(s[|s| - 1]) then None
    else
      var d := s[|s| - 1] as int - '0' as int;
      if |s| == 1 then Some(d)
      else match ParseNat(s[..|s| - 1])
        case None => None
        case Some(v) => Some(10 * v + d)
  }

  /** The value of an optional '-' followed by decimal digits; None for anything else. */
  function ParseInt(s: string): Option<int> {
    if |s| > 0 && s[0] == '-' then
      match ParseNat(s[1..])
      case None => None
      case Some(v) => Some(-(v as int))
    else
      match ParseNat(s)
      case None => None
      case Some(v) => Some(v as int)
  }

  lemma {:induction false} NatRoundTrip(n: nat)
    ensures ParseNat(NatToString(n)) == Some(n)
  {
    if n >= 10 {
      var s := NatToString(n);
      NatRoundTrip(n / 10);
      assert s[..|s| - 1] == NatToString(n / 10);
    }
  }

  /** str() is inverted by ParseInt, so it is injective. */
  lemma IntRoundTrip(n: int)
    ensures ParseInt(IntToString(n)) == Some(n)
  {
    var s := IntToString(n);
    if n < 0 {
      NatRoundTrip(-n);
      assert s[0] == '-' && s[1..] == NatToString(-n);
    } else {
      NatRoundTrip(n);
      assert IsDigit(s[0]);
    }
  }

  /**
   * DataGenerator's sample file: gen_dir, then str(ID), then ".npy". No
   * separator is added, so no '/' follows gen_dir.
   */
  function SamplePath(genDir: string, id: int): (path: string)
    ensures Stem(genDir, path) == Some(IntToString(id))
    ensures '/' !in path[|genDir|..]
  {
    var digits := IntToString(id);
    StemOf(genDir, digits);
    assert (genDir + digits + ".npy")[|genDir|..] == digits + ".npy";
    genDir + digits + ".npy"
  }

  /**
   * MultiDataGenerator's file for feature `feat` of sample `id`: gen_dir,
   * feat, "/", str(ID), ".npy". The '/' added after the feature name is the
   * last one of the path.
   */
  function FeaturePath(genDir: string, feat: string, id: int): (path: string)
    ensures Stem(genDir, path) == Some(feat + "/" + IntToString(id))
    ensures |genDir| + |feat| < |path| && path[|genDir| + |feat|] == '/'
    ensures '/' !in path[|genDir| + |feat| + 1..]
  {
    var digits := IntToString(id);
    StemOf(genDir, feat + "/" + digits);
    var a := genDir + feat;
    assert genDir + feat + "/" + digits + ".npy" == genDir + (feat + "/" + digits) + ".npy";
    assert (a + "/" + digits + ".npy")[|a| + 1..] == digits + ".npy";
    genDir + feat + "/" + digits + ".npy"
  }

  /** The file MultiDataGenerator's constructor probes: that of sample ID 0 of feature `feat`. */
  function ProbePath(genDir: string, feat: string): (path: string)
    ensures path == FeaturePath(genDir, feat, 0)
  {
    assert IntToString(0) == "0";
    genDir + feat + "/0.npy"
  }

  /** The text between genDir and the ".npy" extension, if `path` has both. */
  function Stem(genDir: string, path: string): Option<string> {
    if |path| >= |genDir| + 4 && path[..|genDir|] == genDir && path[|path| - 4..] == ".npy"
    then Some(path[|genDir|..|path| - 4])
    else None
  }

  lemma StemOf(genDir: string, middle: string)
    ensures Stem(genDir, genDir + middle + ".npy") == Some(middle)
  {
    var path := genDir + middle + ".npy";
    assert path[..|genDir|] == genDir;
    assert path[|path| - 4..] == ".npy";
    assert path[|genDir|..|path| - 4] == middle;
  }

  /** The ID of a DataGenerator sample file under genDir. */
  function ParseSamplePath(genDir: string, path: string): Option<int> {
    match Stem(genDir, path)
    case None => None
    case Some(m) => ParseInt(m)
  }

  /** The position of the last '/' in s, or None when s has none. */
  function LastSlash(s: string): (r: Option<nat>)
    ensures r.None? ==> '/' !in s
    ensures r.Some? ==> r.value < |s| && s[r.value] == '/' && '/' !in s[r.value + 1..]
  {
    if |s| == 0 then None
    else if s[|s| - 1] == '/' then Some(|s| - 1)
    else
      var r := LastSlash(s[..|s| - 1]);
      assert s == s[..|s| - 1] + [s[|s| - 1]];
      assert r.Some? ==> s[r.value + 1..] == s[..|s| - 1][r.value + 1..] + [s[|s| - 1]];
      r
  }

  lemma {:induction false} LastSlashBefore(a: string, b: string)
    requires '/' !in b
    ensures LastSlash(a + "/" + b) == Some(|a|)
  {
    if |b| > 0 {
      var s := a + "/" + b;
      assert s[|s| - 1] == b[|b| - 1];
      assert s[..|s| - 1] == a + "/" + b[..|b| - 1];
      LastSlashBefore(a, b[..|b| - 1]);
    }
  }

  /** The feature name and ID of a MultiDataGenerator feature file under genDir. */
  function ParseFeaturePath(genDir: string, path: string): Option<(string, int)> {
    match Stem(genDir, path)
    case None => None
    case Some(m) =>
      match LastSlash(m)
      case None => None
      case Some(k) =>
        match ParseInt(m[k + 1..])
        case None => None
        case Some(id) => Some((m[..k], id))
  }

  /** A sample file names its ID: ParseSamplePath inverts SamplePath. */
  lemma SamplePathRoundTrip(genDir: string, id: int)
    ensures ParseSamplePath(genDir, SamplePath(genDir, id)) == Some(id)
  {
    StemOf(genDir, IntToString(id));
    IntRoundTrip(id);
  }

  /** Distinct IDs are loaded from distinct DataGenerator files. */
  lemma SamplePathInjective(genDir: string, id1: int, id2: int)
    requires SamplePath(genDir, id1) == SamplePath(genDir, id2)
    ensures id1 == id2
  {
    SamplePathRoundTrip(genDir, id1);
    SamplePathRoundTrip(genDir, id2);
  }

  /**
   * A feature file names its feature and its ID: ParseFeaturePath inverts
   * FeaturePath, whatever the feature name contains (the ID text has no '/').
   */
  lemma FeaturePathRoundTrip(genDir: string, feat: string, id: int)
    ensures ParseFeaturePath(genDir, FeaturePath(genDir, feat, id)) == Some((feat, id))
  {
    var digits := IntToString(id);
    var m := feat + "/" + digits;
    assert FeaturePath(genDir, feat, id) == genDir + m + ".npy";
    StemOf(genDir, m);
    LastSlashBefore(feat, digits);
    assert m[|feat| + 1..] == digits;
    assert m[..|feat|] == feat;
    IntRoundTrip(id);
  }

  /** Distinct (feature, ID) pairs are loaded from distinct files. */
  lemma FeaturePathInjective(genDir: string, feat1: string, id1: int, feat2: string, id2: int)
    requires FeaturePath(genDir, feat1, id1) == FeaturePath(genDir, feat2, id2)
    ensures feat1 == feat2 && id1 == id2
  {
    FeaturePathRoundTrip(genDir, feat1, id1);
    FeaturePathRoundTrip(genDir, feat2, id2);
  }
}
