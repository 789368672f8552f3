/** Shader variants: the keyword hash, the `#define` prefix added to a
    fragment shader's text, and the Material that memoises one linked
    program per keyword set.  Compiling and linking are device calls that
    return fresh handles. */
module Shaders {

  import opened Wrappers
  import opened Gpu

  const TwoTo31: int := 0x8000_0000
  const TwoTo32: int := 0x1_0000_0000

  predicate IsInt32(x: int)
  {
    -TwoTo31 <= x < TwoTo31
  }

  /** JavaScript's ToInt32 on an integer-valued number: the representative of
      `x` modulo 2^32 in the signed 32-bit range (what `x | 0` yields). */
  function ToInt32(x: int): (r: int)
    ensures IsInt32(r)
    ensures (x - r) % TwoTo32 == 0
  {
    (x + TwoTo31) % TwoTo32 - TwoTo31
  }

  /** JavaScript's `x << 5` on an integer-valued number: the operand is
      converted to 32 bits, shifted, and the result wrapped to 32 bits. */
  function ShiftLeft5(x: int): (r: int)
    ensures IsInt32(r)
    ensures (32 * x - r) % TwoTo32 == 0
  {
    var y := ToInt32(x);
    MultipleScaled(x - y, 32);
    MultiplesAdd(32 * (x - y), 32 * y - ToInt32(32 * y));
    assert 32 * x - ToInt32(32 * y) == 32 * (x - y) + (32 * y - ToInt32(32 * y));
    ToInt32(32 * y)
  }

  /** A multiple of 2^32 times any integer is a multiple of 2^32. */
  lemma MultipleScaled(a: int, k: int)
    requires a % TwoTo32 == 0
    ensures (k * a) % TwoTo32 == 0
  {
    var q := a / TwoTo32;
    assert a == q * TwoTo32;
    assert k * a == (k * q) * TwoTo32;
  }

  /** The sum of two multiples of 2^32 is a multiple of 2^32. */
  lemma MultiplesAdd(a: int, b: int)
    requires a % TwoTo32 == 0 && b % TwoTo32 == 0
    ensures (a + b) % TwoTo32 == 0
  {
    var p, q := a / TwoTo32, b / TwoTo32;
    assert a == p * TwoTo32 && b == q * TwoTo32;
    assert a + b == (p + q) * TwoTo32;
  }

  /** `charCodeAt`: the code of one character. */
  function CharCode(c: char): nat
  {
    c as nat
  }

  /** The string hash as a left fold: h := (31 * h + code) wrapped to 32 bits. */
  function StringHash(s: string): int
  {
    if s == [] then 0
    else ToInt32(31 * StringHash(s[..|s| - 1]) + CharCode(s[|s| - 1]))
  }

  /** The same hash without wrapping: the polynomial sum of code * 31^k. */
  function HashPolynomial(s: string): int
  {
    if s == [] then 0
    else 31 * HashPolynomial(s[..|s| - 1]) + CharCode(s[|s| - 1])
  }

  lemma ModOfMultiple(x: int, q: int)
    ensures (x + q * TwoTo32) % TwoTo32 == x % TwoTo32
  {
    var r := x % TwoTo32;
    var d := x / TwoTo32;
    assert x == d * TwoTo32 + r;
    assert x + q * TwoTo32 == (d + q) * TwoTo32 + r;
  }

  /** Numbers congruent modulo 2^32 have the same ToInt32. */
  lemma Congruent(a: int, b: int)
    requires (a - b) % TwoTo32 == 0
    ensures ToInt32(a) == ToInt32(b)
  {
    var q := (a - b) / TwoTo32;
    assert a == b + q * TwoTo32;
    ModOfMultiple(b + TwoTo31, q);
    assert a + TwoTo31 == (b + TwoTo31) + q * TwoTo32;
  }

  /** One step of the loop as the source writes it, `(h << 5) - h + c` and
      then `| 0`, is one step of the fold. */
  lemma ShiftStepIsFoldStep(h: int, c: int)
    ensures ToInt32(ShiftLeft5(h) - h + c) == ToInt32(31 * h + c)
  {
    var s := ShiftLeft5(h);
    assert (32 * h - s) % TwoTo32 == 0;
    assert (31 * h + c) - (s - h + c) == 32 * h - s;
    Congruent(31 * h + c, s - h + c);
  }

  /** Wrapping at every step gives the same result as wrapping once, at the
      end, the exact polynomial hash. */
  lemma {:induction false} StringHashIsWrappedPolynomial(s: string)
    ensures StringHash(s) == ToInt32(HashPolynomial(s))
  {
    if s != [] {
      var init, c := s[..|s| - 1], CharCode(s[|s| - 1]);
      StringHashIsWrappedPolynomial(init);
      var h, p := StringHash(init), HashPolynomial(init);
      assert (p - h) % TwoTo32 == 0;
      var q := (p - h) / TwoTo32;
      assert p == h + q * TwoTo32;
      assert (31 * p + c) - (31 * h + c) == (31 * q) * TwoTo32;
      ModOfMultiple(0, 31 * q);
      Congruent(31 * p + c, 31 * h + c);
    }
  }

  /** hashCode: the empty string hashes to 0; otherwise the 31x hash, with the
      running value wrapped to 32 bits after every character. */
  method HashCode(s: string) returns (hash: int)
    ensures hash == StringHash(s)
    ensures IsInt32(hash)
    ensures |s| == 0 ==> hash == 0
  {
    if |s| == 0 {
      return 0;
    }
    hash := 0;
    var i := 0;
    while i < |s|
      invariant 0 <= i <= |s|
      invariant hash == StringHash(s[..i])
    {
      assert s[..i + 1][..i] == s[..i];
      ShiftStepIsFoldStep(hash, CharCode(s[i]));
      hash := ShiftLeft5(hash) - hash + CharCode(s[i]);
      hash := ToInt32(hash);
      i := i + 1;
    }
    assert s[..i] == s;
  }

  /** Appending one character is one step of the fold. */
  lemma HashStep(s: string, c: char, h: int, r: int)
    requires StringHash(s) == h
    requires ToInt32(31 * h + CharCode(c)) == r
    ensures StringHash(s + [c]) == r
  {
    assert (s + [c])[..|s|] == s;
  }

  lemma ShadPrefixHash()
    ensures StringHash("SHAD") == 2543928
  {
    HashStep("", 'S', 0, 83);
    assert "" + ['S'] == "S";
    HashStep("S", 'H', 83, 2645);
    assert "S" + ['H'] == "SH";
    HashStep("SH", 'A', 2645, 82060);
    assert "SH" + ['A'] == "SHA";
    HashStep("SHA", 'D', 82060, 2543928);
    assert "SHA" + ['D'] == "SHAD";
  }

  /** "SHADING", the one keyword the driver uses, hashes to -1523179638. */
  lemma ShadingHash()
    ensures StringHash("SHADING") == -1523179638
  {
    ShadPrefixHash();
    HashStep("SHAD", 'I', 2543928, 78861841);
    assert "SHAD" + ['I'] == "SHADI";
    HashStep("SHADI", 'N', 78861841, -1850250147);
    assert "SHADI" + ['N'] == "SHADIN";
    HashStep("SHADIN", 'G', -1850250147, -1523179638);
    assert "SHADIN" + ['G'] == "SHADING";
  }

  /** "Aa" and "BB" hash alike. */
  lemma CollidingHashes()
    ensures StringHash("Aa") == StringHash("BB") == 2112
  {
    HashStep("", 'A', 0, 65);
    assert "" + ['A'] == "A";
    HashStep("A", 'a', 65, 2112);
    assert "A" + ['a'] == "Aa";
    HashStep("", 'B', 0, 66);
    assert "" + ['B'] == "B";
    HashStep("B", 'B', 66, 2112);
    assert "B" + ['B'] == "BB";
  }

  /** The hashes the driver's keys are built from. */
  lemma KnownHashes()
    ensures StringHash("SHADING") == -1523179638
    ensures StringHash("Aa") == StringHash("BB") == 2112
  {
    ShadingHash();
    CollidingHashes();
  }

  /** One `#define` line. */
  function DefineLine(keyword: string): string
  {
    "#define " + keyword + "\n"
  }

  /** The `#define` lines for `keywords`, in order. */
  function KeywordLines(keywords: seq<string>): string
  {
    if keywords == [] then "" else DefineLine(keywords[0]) + KeywordLines(keywords[1..])
  }

  lemma {:induction false} KeywordLinesAppend(keywords: seq<string>, k: string)
    ensures KeywordLines(keywords + [k]) == KeywordLines(keywords) + DefineLine(k)
  {
    if keywords == [] {
      assert keywords + [k] == [k];
    } else {
      assert (keywords + [k])[1..] == keywords[1..] + [k];
      KeywordLinesAppend(keywords[1..], k);
    }
  }

  /** addKeywords: a null list leaves the source as it is; otherwise one
      `#define` line per keyword, in order, is put before the source. */
  method AddKeywords(source: string, keywords: Option<seq<string>>) returns (r: string)
    ensures keywords.None? ==> r == source
    ensures keywords.Some? ==> r == KeywordLines(keywords.value) + source
    ensures |r| >= |source| && r[|r| - |source|..] == source
    ensures keywords == Some([]) ==> r == source
  {
    if keywords.None? {
      return source;
    }
    var ks := keywords.value;
    var keywordsString := "";
    var i := 0;
    while i < |ks|
      invariant 0 <= i <= |ks|
      invariant keywordsString == KeywordLines(ks[..i])
    {
      KeywordLinesAppend(ks[..i], ks[i]);
      assert ks[..i + 1] == ks[..i] + [ks[i]];
      keywordsString := keywordsString + "#define " + ks[i] + "\n";
      i := i + 1;
    }
    assert ks[..i] == ks;
    r := keywordsString + source;
  }

  /** The memo key of a keyword list: the plain sum of the keyword hashes. */
  function KeywordsKey(keywords: seq<string>): int
  {
    if keywords == [] then 0
    else KeywordsKey(keywords[..|keywords| - 1]) + StringHash(keywords[|keywords| - 1])
  }

  /** The key of a concatenation is the sum of the keys. */
  lemma {:induction false} KeywordsKeyAppend(a: seq<string>, b: seq<string>)
    ensures KeywordsKey(a + b) == KeywordsKey(a) + KeywordsKey(b)
    decreases |b|
  {
    if b == [] {
      assert a + b == a;
    } else {
      var n := |b| - 1;
      assert (a + b)[..|a| + n] == a + b[..n];
      assert (a + b)[|a| + n] == b[n];
      KeywordsKeyAppend(a, b[..n]);
    }
  }

  /** Taking one element out of a list takes it out of the list's multiset. */
  lemma MultisetWithout(b: seq<string>, j: nat)
    requires j < |b|
    ensures multiset(b[..j] + b[j + 1..]) == multiset(b) - multiset{b[j]}
  {
    assert b == b[..j] + [b[j]] + b[j + 1..];
  }

  /** The last keyword of `a` occurs in any reordering `b`, and taking it
      out of both leaves reorderings of each other. */
  lemma MatchLast(a: seq<string>, b: seq<string>) returns (j: nat)
    requires a != [] && multiset(a) == multiset(b)
    ensures j < |b| && b[j] == a[|a| - 1]
    ensures multiset(a[..|a| - 1]) == multiset(b[..j] + b[j + 1..])
  {
    var n := |a| - 1;
    assert a[n] in multiset(b);
    j :| 0 <= j < |b| && b[j] == a[n];
    MultisetWithout(a, n);
    MultisetWithout(b, j);
    assert a[..n] + a[n + 1..] == a[..n];
  }

  /** Taking one keyword out of a list takes its hash out of the key. */
  lemma KeywordsKeyWithout(front: seq<string>, x: string, back: seq<string>)
    ensures KeywordsKey(front + [x] + back) == KeywordsKey(front + back) + StringHash(x)
  {
    assert [x][..0] == [];
    KeywordsKeyAppend(front + [x], back);
    KeywordsKeyAppend(front, [x]);
    KeywordsKeyAppend(front, back);
  }

  /** The key does not depend on the order of the keywords: lists with the
      same keywords, counted with repetition, share a key. */
  lemma {:induction false} KeywordsKeyIgnoresOrder(a: seq<string>, b: seq<string>)
    requires multiset(a) == multiset(b)
    ensures KeywordsKey(a) == KeywordsKey(b)
    decreases |a|
  {
    if a != [] {
      var n := |a| - 1;
      var j := MatchLast(a, b);
      KeywordsKeyIgnoresOrder(a[..n], b[..j] + b[j + 1..]);
      assert b == b[..j] + [b[j]] + b[j + 1..];
      KeywordsKeyWithout(b[..j], b[j], b[j + 1..]);
    }
  }

  /** Different keyword lists, even ones that are not reorderings of each
      other, can share a key. */
  lemma KeywordsKeyCollisions()
    ensures KeywordsKey(["Aa"]) == KeywordsKey(["BB"])
    ensures KeywordsKey(["Aa", "Aa"]) == KeywordsKey(["BB", "Aa"])
  {
    assert ["Aa"][..0] == [] && ["BB"][..0] == [];
    assert ["Aa", "Aa"][..1] == ["Aa"] && ["BB", "Aa"][..1] == ["BB"];
    KnownHashes();
  }

  /** The two display variants (no keyword, and SHADING) have different keys. */
  lemma DisplayVariantKeysDiffer()
    ensures KeywordsKey([]) == 0
    ensures KeywordsKey(["SHADING"]) == -1523179638
  {
    assert ["SHADING"][..0] == [];
    KnownHashes();
  }

  /** The key loop of setKeywords: the keyword hashes summed in order. */
  method KeywordsHash(keywords: seq<string>) returns (hash: int)
    ensures hash == KeywordsKey(keywords)
  {
    hash := 0;
    var i := 0;
    while i < |keywords|
      invariant 0 <= i <= |keywords|
      invariant hash == KeywordsKey(keywords[..i])
    {
      assert keywords[..i + 1][..i] == keywords[..i];
      var h := HashCode(keywords[i]);
      hash := hash + h;
      i := i + 1;
    }
    assert keywords[..i] == keywords;
  }

  /** Compile the fragment variant for `keywords` and link it with the
      vertex shader. */
  method CompileVariant(device: Device, vertexShader: Handle, fragmentShaderSource: string,
                        keywords: seq<string>) returns (program: Handle)
    modifies device
    ensures program == old(device.next) + 1 && device.next == old(device.next) + 2
    ensures device.log == old(device.log) +
      [Call.CompileShader(old(device.next), KeywordLines(keywords) + fragmentShaderSource),
       Call.LinkProgram(old(device.next) + 1, vertexShader, old(device.next))]
  {
    var source := AddKeywords(fragmentShaderSource, Some(keywords));
    var fragmentShader := device.CompileShader(source);
    program := device.CreateProgram(vertexShader, fragmentShader);
  }

  /** A shader whose fragment program exists in several keyword variants. */
  class Material {
    const device: Device
    const vertexShader: Handle
    const fragmentShaderSource: string
    /** Linked programs, by keyword key. */
    var programs: map<int, Handle>
    var activeProgram: Option<Handle>
    var uniforms: UniformTable
    /** The keys compiled so far, in order. */
    ghost var compiled: seq<int>

    ghost predicate Valid()
      reads this
    {
      && (forall i, j :: 0 <= i < j < |compiled| ==> compiled[i] != compiled[j])
      && (forall key :: key in programs <==> key in compiled)
      && (activeProgram.Some? ==> activeProgram.value in programs.Values)
      && uniforms == (if activeProgram.None? then NoUniforms else UniformsOf(activeProgram.value))
    }

    constructor (device: Device, vertexShader: Handle, fragmentShaderSource: string)
      ensures Valid()
      ensures this.device == device && this.vertexShader == vertexShader
      ensures this.fragmentShaderSource == fragmentShaderSource
      ensures programs == map[] && activeProgram == None && uniforms == NoUniforms && compiled == []
    {
      this.device := device;
      this.vertexShader := vertexShader;
      this.fragmentShaderSource := fragmentShaderSource;
      programs := map[];
      activeProgram := None;
      uniforms := NoUniforms;
      compiled := [];
    }

    /** setKeywords: compile and link the variant for `keywords` unless its
        key is already in the table, make it the active program, and fetch
        its uniforms only if the active program changes. */
    method SetKeywords(keywords: seq<string>)
      requires Valid()
      modifies this, device
      ensures Valid()
      ensures |device.log| >= |old(device.log)| && device.log[..|old(device.log)|] == old(device.log)
      ensures NoDraws(device.log[|old(device.log)|..])
      ensures var key := KeywordsKey(keywords);
        && key in programs
        && activeProgram == Some(programs[key])
        && uniforms == UniformsOf(programs[key])
        && programs.Keys == old(programs.Keys) + {key}
        && (forall k :: k in old(programs) ==> programs[k] == old(programs[k]))
        && (key in old(programs) ==>
              compiled == old(compiled) && device.next == old(device.next) &&
              device.log == old(device.log) + UniformFetch(programs[key], old(activeProgram)))
        && (key !in old(programs) ==>
              compiled == old(compiled) + [key] &&
              programs[key] == old(device.next) + 1 && device.next == old(device.next) + 2 &&
              device.log == old(device.log) +
                [Call.CompileShader(old(device.next), KeywordLines(keywords) + fragmentShaderSource),
                 Call.LinkProgram(old(device.next) + 1, vertexShader, old(device.next))] +
                UniformFetch(programs[key], old(activeProgram)))
    {
      var hash := KeywordsHash(keywords);
      var program: Handle;
      if hash in programs {
        program := programs[hash];
      } else {
        assert hash !in compiled;
        program := CompileVariant(device, vertexShader, fragmentShaderSource, keywords);
        programs := programs[hash := program];
        compiled := compiled + [hash];
      }
      if activeProgram != Some(program) {
        uniforms := device.GetUniforms(program);
        activeProgram := Some(program);
      }
      assert programs[hash] == program;
    }
  }

  /** The uniform lookup setKeywords makes: none when `program` is already active. */
  function UniformFetch(program: Handle, active: Option<Handle>): seq<Call>
  {
    if active == Some(program) then [] else [Call.GetUniforms(program)]
  }
}
