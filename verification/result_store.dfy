/** Where results are kept: a file path derived from the key, and a file
    system that maps paths to saved bundles. */
module ResultStore {
  import opened Results
  import opened Solvers
  import opened SimulatePax

  /** The parameterisation a result is filed under. */
  datatype Key = Key(exponent: int, rixs: string, photoemission: string)

  function DigitChar(d: int): char
    requires 0 <= d < 10
  {
    "0123456789"[d]
  }

  predicate IsDigit(c: char)
  {
    '0' <= c <= '9'
  }

  /** Decimal digits of `n`, most significant first, without leading zeros. */
  function Digits(n: nat): (s: string)
    ensures |s| > 0
    ensures forall i :: 0 <= i < |s| ==> IsDigit(s[i])
    decreases n
  {
    if n < 10 then [DigitChar(n)] else Digits(n / 10) + [DigitChar(n % 10)]
  }

  function ParseDigits(s: string): int
    requires |s| > 0
    decreases |s|
  {
    var last := s[|s| - 1] as int - '0' as int;
    if |s| == 1 then last else 10 * ParseDigits(s[..|s| - 1]) + last
  }

  lemma {:induction false} ParseDigitsInverts(n: nat)
    ensures ParseDigits(Digits(n)) == n
    decreases n
  {
    if n >= 10 {
      var s := Digits(n);
      assert s[..|s| - 1] == Digits(n / 10);
      ParseDigitsInverts(n / 10);
    }
  }

  /** `str` of a Python integer. */
  function IntText(e: int): string
  {
    if e < 0 then "-" + Digits(-e) else Digits(e)
  }

  /** The text of a negative number, and only of one, starts with a minus. */
  lemma IntTextSign(e: int)
    ensures |IntText(e)| > 0
    ensures IntText(e)[0] == '-' <==> e < 0
  {
    if e >= 0 {
      assert IsDigit(Digits(e)[0]);
    }
  }

  lemma DigitsInjective(m: nat, n: nat)
    requires Digits(m) == Digits(n)
    ensures m == n
  {
    ParseDigitsInverts(m);
    ParseDigitsInverts(n);
  }

  /** Distinct exponents are written differently. */
  lemma IntTextInjective(a: int, b: int)
    requires IntText(a) == IntText(b)
    ensures a == b
  {
    IntTextSign(a);
    IntTextSign(b);
    if a < 0 {
      DropPrefix("-", Digits(-a), Digits(-b));
      DigitsInjective(-a, -b);
    } else {
      DigitsInjective(a, b);
    }
  }

  /** `{dir}/{photoemission}_{rixs}_rixs_1E{exponent}.pickle`: the photoemission
      preset comes first, though the key lists it last. */
  function ResultPath(dir: string, key: Key): string
  {
    dir + "/" + key.photoemission + "_" + key.rixs + "_rixs_1E" + IntText(key.exponent) + ".pickle"
  }

  /** Where each field of the key sits in its path: the directory and a slash,
      the photoemission name, an underscore, the RIXS name, then the fixed
      `_rixs_1E`, the exponent's decimal text and the `.pickle` extension. */
  lemma ResultPathFields(dir: string, key: Key)
    ensures var p := ResultPath(dir, key);
            var pe := |dir| + 1;
            var rixs := pe + |key.photoemission| + 1;
            var tail := rixs + |key.rixs|;
            |p| == tail + 8 + |IntText(key.exponent)| + 7 &&
            p[..pe] == dir + "/" &&
            p[pe..rixs - 1] == key.photoemission &&
            p[rixs - 1] == '_' &&
            p[rixs..tail] == key.rixs &&
            p[tail..tail + 8] == "_rixs_1E" &&
            p[tail + 8..|p| - 7] == IntText(key.exponent) &&
            p[|p| - 7..] == ".pickle"
  {
    var p := ResultPath(dir, key);
    var head := dir + "/" + key.photoemission + "_";
    var tail := "_rixs_1E" + IntText(key.exponent) + ".pickle";
    assert p == head + key.rixs + tail;
    assert p[|head|..|head| + |key.rixs|] == key.rixs;
    assert p[|head| + |key.rixs|..] == tail;
  }

  /** The same path, grouped from the right, with every underscore split off. */
  lemma ResultPathShape(dir: string, key: Key)
    ensures ResultPath(dir, key) ==
            (dir + "/") + (key.photoemission + ("_" + (key.rixs + ("_" + ("rixs_1E" + (IntText(key.exponent) + ".pickle"))))))
  {
    assert "_rixs_1E" == "_" + "rixs_1E";
  }

  lemma DropPrefix(p: string, a: string, b: string)
    requires p + a == p + b
    ensures a == b
  {
    assert a == (p + a)[|p|..];
    assert b == (p + b)[|p|..];
  }

  lemma DropSuffix(a: string, b: string, q: string)
    requires a + q == b + q
    ensures a == b
  {
    assert a == (a + q)[..|a|];
    assert b == (b + q)[..|b|];
  }

  /** In `x + [c] + y` with no `c` in `x`, the first `c` is at index `|x|`. */
  lemma FirstOccurrence(x: string, y: string, c: char)
    requires c !in x
    ensures (x + ([c] + y))[|x|] == c
    ensures forall i :: 0 <= i < |x| ==> (x + ([c] + y))[i] != c
  {
  }

  /** Two strings cut at their first occurrence of `c` agree on both parts. */
  lemma SplitAtFirst(x1: string, y1: string, x2: string, y2: string, c: char)
    requires c !in x1 && c !in x2
    requires x1 + ([c] + y1) == x2 + ([c] + y2)
    ensures x1 == x2 && y1 == y2
  {
    var s := x1 + ([c] + y1);
    FirstOccurrence(x1, y1, c);
    FirstOccurrence(x2, y2, c);
    assert |x1| == |x2|;
    assert x1 == s[..|x1|] && x2 == s[..|x2|];
    assert y1 == s[|x1| + 1..] && y2 == s[|x2| + 1..];
  }

  /** Preset names without underscores give distinct keys distinct paths. */
  lemma ResultPathInjective(dir: string, k1: Key, k2: Key)
    requires '_' !in k1.photoemission && '_' !in k1.rixs
    requires '_' !in k2.photoemission && '_' !in k2.rixs
    requires ResultPath(dir, k1) == ResultPath(dir, k2)
    ensures k1 == k2
  {
    ResultPathShape(dir, k1);
    ResultPathShape(dir, k2);
    var tail1 := "rixs_1E" + (IntText(k1.exponent) + ".pickle");
    var tail2 := "rixs_1E" + (IntText(k2.exponent) + ".pickle");
    DropPrefix(dir + "/", k1.photoemission + ("_" + (k1.rixs + ("_" + tail1))),
                          k2.photoemission + ("_" + (k2.rixs + ("_" + tail2))));
    SplitAtFirst(k1.photoemission, k1.rixs + ("_" + tail1), k2.photoemission, k2.rixs + ("_" + tail2), '_');
    SplitAtFirst(k1.rixs, tail1, k2.rixs, tail2, '_');
    DropPrefix("rixs_1E", IntText(k1.exponent) + ".pickle", IntText(k2.exponent) + ".pickle");
    DropSuffix(IntText(k1.exponent), IntText(k2.exponent), ".pickle");
    IntTextInjective(k1.exponent, k2.exponent);
  }

  /** With an underscore in a preset name two different keys share a path. */
  lemma UnderscoreNamesCollide(dir: string)
    ensures Key(4, "c", "a_b") != Key(4, "b_c", "a")
    ensures ResultPath(dir, Key(4, "c", "a_b")) == ResultPath(dir, Key(4, "b_c", "a"))
  {
    var tail := "rixs_1E" + (IntText(4) + ".pickle");
    ResultPathShape(dir, Key(4, "c", "a_b"));
    ResultPathShape(dir, Key(4, "b_c", "a"));
    assert "a_b" + ("_" + ("c" + ("_" + tail))) == "a" + ("_" + ("b_c" + ("_" + tail)));
  }

  /** What `run` saves: the fitted solver and the simulated measurement. */
  datatype Bundle = Bundle(deconvolver: GridDeconvolver, paxSpectra: PaxSpectra)

  /** The files under the results directory, by path. */
  type FileSystem = map<string, Bundle>

  datatype StoreError = FileNotFound(path: string)

  /** Writes the bundle at the key's path, replacing whatever was there. */
  function Save(fs: FileSystem, dir: string, key: Key, bundle: Bundle): (fs': FileSystem)
    ensures fs'.Keys == fs.Keys + {ResultPath(dir, key)}
    ensures fs'[ResultPath(dir, key)] == bundle
    ensures forall p :: p in fs && p != ResultPath(dir, key) ==> fs'[p] == fs[p]
  {
    fs[ResultPath(dir, key) := bundle]
  }

  /** Reads the bundle at the key's path; a missing file is an error. */
  function Load(fs: FileSystem, dir: string, key: Key): (r: Result<Bundle, StoreError>)
    ensures r.Success? <==> ResultPath(dir, key) in fs
    ensures r.Failure? ==> r.error == FileNotFound(ResultPath(dir, key))
    ensures r.Success? ==> r.value == fs[ResultPath(dir, key)]
  {
    var path := ResultPath(dir, key);
    if path in fs then Success(fs[path]) else Failure(FileNotFound(path))
  }

  /** Loading a key returns what was last saved under it. */
  lemma LoadAfterSave(fs: FileSystem, dir: string, key: Key, bundle: Bundle)
    ensures Load(Save(fs, dir, key, bundle), dir, key) == Success(bundle)
  {
  }

  /** Saving under one key does not disturb another, when preset names have no
      underscores. */
  lemma SaveKeepsOtherKeys(fs: FileSystem, dir: string, saved: Key, other: Key, bundle: Bundle)
    requires saved != other
    requires '_' !in saved.photoemission && '_' !in saved.rixs
    requires '_' !in other.photoemission && '_' !in other.rixs
    ensures Load(Save(fs, dir, saved, bundle), dir, other) == Load(fs, dir, other)
  {
    if ResultPath(dir, saved) == ResultPath(dir, other) {
      ResultPathInjective(dir, saved, other);
    }
  }
}
