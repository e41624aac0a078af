/** The benchmark driver: `doTest` sweeps the test matrix and `doSingleTest`
    builds one program and measures it with blending off, then on. */
module Driver {
  import ShaderGen
  import Textures

  /** The arguments of one `doSingleTest` call. */
  datatype TestConfig = TestConfig(
    useVarColor: bool,
    texCount: int,
    modulateFirstTex: bool,
    extraMath: int,
    tex0: int,
    tex1: int)

  /** What one measured loop or one failed test leaves in the output. */
  datatype Step =
    | Measure(config: TestConfig, blend: bool)
    | ErrorRunningTest(config: TestConfig)

  // ---------------------------------------------------------------------
  // The labels `doSingleTest` formats with `sprintf`.

  function DigitChar(d: nat): char
    requires d < 10
  {
    ('0' as int + d) as char
  }

  /** `%i` of a non-negative value. */
  function Digits(n: nat): (s: string)
    ensures |s| >= 1
    ensures n < 10 ==> s == [DigitChar(n)]
  {
    if n < 10 then [DigitChar(n)] else Digits(n / 10) + [DigitChar(n % 10)]
  }

  /** `%i` of an `int`. */
  function Decimal(n: int): string
  {
    if n < 0 then "-" + Digits(-n) else Digits(n)
  }

  /** A `bool` passed to `%i` prints as 0 or 1. */
  function BoolInt(b: bool): int
  {
    if b then 1 else 0
  }

  /** The label of one measured loop; `tex1` is not part of it. */
  function Label(c: TestConfig, blend: bool): (l: string)
    ensures |l| >= 14 + 9
    ensures l[..14] == "Test varColor="
    ensures l[|l| - 9..] == (if blend then ", blend=1" else ", blend=0")
  {
    "Test varColor=" + Decimal(BoolInt(c.useVarColor))
    + ", texCount=" + Decimal(c.texCount)
    + ", modulate=" + Decimal(BoolInt(c.modulateFirstTex))
    + ", extraMath=" + Decimal(c.extraMath)
    + ", texSize=" + Decimal(c.tex0)
    + (if blend then ", blend=1" else ", blend=0")
  }

  /** Every field the label prints is one digit. */
  predicate SingleDigits(c: TestConfig)
  {
    0 <= c.texCount < 10 && 0 <= c.extraMath < 10 && 0 <= c.tex0 < 10
  }

  /** With one-digit fields each parameter sits at a fixed column of the label. */
  lemma LabelColumns(c: TestConfig, blend: bool)
    requires SingleDigits(c)
    ensures var l := Label(c, blend);
      && |l| == 72
      && l[14] == DigitChar(BoolInt(c.useVarColor))
      && l[26] == DigitChar(c.texCount)
      && l[38] == DigitChar(BoolInt(c.modulateFirstTex))
      && l[51] == DigitChar(c.extraMath)
      && l[62] == DigitChar(c.tex0)
      && l[71] == (if blend then '1' else '0')
  {
  }

  /** Two labels with one-digit fields are equal only when every parameter
      they print is. */
  lemma LabelDetermines(c: TestConfig, b: bool, c': TestConfig, b': bool)
    requires SingleDigits(c) && SingleDigits(c')
    requires Label(c, b) == Label(c', b')
    ensures c.useVarColor == c'.useVarColor && c.texCount == c'.texCount
    ensures c.modulateFirstTex == c'.modulateFirstTex && c.extraMath == c'.extraMath
    ensures c.tex0 == c'.tex0 && b == b'
  {
    LabelColumns(c, b);
    LabelColumns(c', b');
  }

  // ---------------------------------------------------------------------
  // The test matrix.

  /** Two consecutive `doSingleTest` calls, vertex colour off then on. */
  function VarColorPair(texCount: int, modulateFirstTex: bool, extraMath: int, tex: int): seq<TestConfig>
  {
    [ TestConfig(false, texCount, modulateFirstTex, extraMath, tex, tex),
      TestConfig(true, texCount, modulateFirstTex, extraMath, tex, tex) ]
  }

  /** The `doSingleTest` calls for one `(texCount, extraMath)` pair, in order:
      two plain ones on texture 1, then, when a texture is in use, two
      modulated ones on texture 1 and the same four on texture 2. */
  function PairConfigs(texCount: int, extraMath: int): (cs: seq<TestConfig>)
    ensures |cs| == (if texCount == 0 then 2 else 8)
    ensures forall i :: 0 <= i < |cs| ==>
      cs[i].texCount == texCount && cs[i].extraMath == extraMath && cs[i].tex0 == cs[i].tex1
  {
    VarColorPair(texCount, false, extraMath, 1)
    + if texCount != 0 then
        VarColorPair(texCount, true, extraMath, 1)
        + VarColorPair(texCount, false, extraMath, 2)
        + VarColorPair(texCount, true, extraMath, 2)
      else []
  }

  /** The inner loop: `extraMath` from 0 up to `n - 1`. */
  function MathSweep(texCount: int, n: nat): seq<TestConfig>
  {
    if n == 0 then [] else MathSweep(texCount, n - 1) + PairConfigs(texCount, n - 1)
  }

  /** The outer loop: `texCount` from 0 up to `n - 1`, each with `extraMath` 0 .. 4. */
  function Sweep(n: nat): seq<TestConfig>
  {
    if n == 0 then [] else Sweep(n - 1) + MathSweep(n - 1, 5)
  }

  /** Every `doSingleTest` call of `doTest`, in order. */
  function AllConfigs(): seq<TestConfig>
  {
    Sweep(3)
  }

  /** The fragment source `doSingleTest` compiles for `c`. */
  function ShaderFor(c: TestConfig): string
  {
    ShaderGen.ShaderText(c.useVarColor, c.texCount, c.modulateFirstTex, c.extraMath)
  }

  /** The output of one test: two measured loops, blend off then on, or one
      error when the program does not build. Whether it builds is decided by
      the GL implementation, given here as `links`. */
  function SingleTestSteps(c: TestConfig, links: string -> bool): seq<Step>
  {
    if links(ShaderFor(c)) then [Measure(c, false), Measure(c, true)] else [ErrorRunningTest(c)]
  }

  /** The output of running the tests `cs` one after another. */
  function SweepSteps(cs: seq<TestConfig>, links: string -> bool): seq<Step>
  {
    if cs == [] then [] else SweepSteps(cs[..|cs| - 1], links) + SingleTestSteps(cs[|cs| - 1], links)
  }

  // ---------------------------------------------------------------------
  // Properties of the test matrix.

  /** Each `(texCount, extraMath)` pair makes 2 calls without a texture, 8 with. */
  lemma {:induction false} MathSweepLength(texCount: int, n: nat)
    ensures |MathSweep(texCount, n)| == n * (if texCount == 0 then 2 else 8)
  {
    if n > 0 {
      MathSweepLength(texCount, n - 1);
    }
  }

  /** `doTest` makes 10 + 40 + 40 = 90 `doSingleTest` calls. */
  lemma ConfigCount()
    ensures |AllConfigs()| == 90
  {
    MathSweepLength(0, 5);
    MathSweepLength(1, 5);
    MathSweepLength(2, 5);
  }

  /** The parameters `doTest` passes (`SweepMembers`: exactly these). */
  predicate InMatrix(c: TestConfig)
  {
    && 0 <= c.texCount <= 2
    && 0 <= c.extraMath <= 4
    && (c.modulateFirstTex ==> c.texCount > 0)
    && c.tex0 == c.tex1
    && (c.tex0 == 1 || c.tex0 == 2)
    && (c.texCount == 0 ==> c.tex0 == 1)
  }

  lemma PairInMatrix(texCount: int, extraMath: int)
    requires 0 <= texCount <= 2 && 0 <= extraMath <= 4
    ensures forall c :: c in PairConfigs(texCount, extraMath) ==> InMatrix(c) && c.texCount == texCount
  {
  }

  lemma {:induction false} MathSweepInMatrix(texCount: int, n: nat)
    requires 0 <= texCount <= 2 && n <= 5
    ensures forall c :: c in MathSweep(texCount, n) ==> InMatrix(c) && c.texCount == texCount
  {
    if n > 0 {
      var prev := MathSweep(texCount, n - 1);
      var pair := PairConfigs(texCount, n - 1);
      MathSweepInMatrix(texCount, n - 1);
      PairInMatrix(texCount, n - 1);
      assert forall c :: c in prev + pair ==> c in prev || c in pair;
    }
  }

  /** Every call has `texCount` in 0..2, `extraMath` in 0..4, modulation only
      with a texture, and `tex0 == tex1` naming one of the two textures, the
      first one when no texture is in use. */
  lemma {:induction false} SweepInMatrix(n: nat)
    requires n <= 3
    ensures forall c :: c in Sweep(n) ==> InMatrix(c)
  {
    if n > 0 {
      SweepInMatrix(n - 1);
      MathSweepInMatrix(n - 1, 5);
    }
  }

  /** A configuration of the matrix is one of its pair's calls. */
  lemma PairMembers(c: TestConfig)
    requires InMatrix(c)
    ensures c in PairConfigs(c.texCount, c.extraMath)
  {
  }

  /** The inner loop run up to `n` makes every call of each earlier pair. */
  lemma {:induction false} MathSweepHas(texCount: int, extraMath: int, n: nat)
    requires 0 <= extraMath < n
    ensures forall c :: c in PairConfigs(texCount, extraMath) ==> c in MathSweep(texCount, n)
    decreases n
  {
    if extraMath < n - 1 {
      MathSweepHas(texCount, extraMath, n - 1);
    }
  }

  /** The outer loop run up to `n` makes every call of each earlier `texCount`. */
  lemma {:induction false} SweepHas(texCount: nat, n: nat)
    requires texCount < n
    ensures forall c :: c in MathSweep(texCount, 5) ==> c in Sweep(n)
    decreases n
  {
    if texCount < n - 1 {
      SweepHas(texCount, n - 1);
    }
  }

  /** `doTest` runs exactly the configurations of the matrix: every
      `(texCount, extraMath)` in 0..2 x 0..4, and texture 2 or modulation only
      with a texture. */
  lemma SweepMembers(c: TestConfig)
    ensures c in AllConfigs() <==> InMatrix(c)
  {
    SweepInMatrix(3);
    if InMatrix(c) {
      PairMembers(c);
      MathSweepHas(c.texCount, c.extraMath, 5);
      SweepHas(c.texCount, 3);
    }
  }

  /** The position of a configuration's `(texCount, extraMath)` pair in the sweep. */
  function Key(c: TestConfig): int
  {
    c.texCount * 5 + c.extraMath
  }

  /** Pairs never go backwards and no configuration repeats. */
  predicate Ordered(cs: seq<TestConfig>)
  {
    forall i, j :: 0 <= i < j < |cs| ==> Key(cs[i]) <= Key(cs[j]) && cs[i] != cs[j]
  }

  /** Two ordered runs separated by the key `m` join into an ordered run. */
  lemma OrderedAppend(a: seq<TestConfig>, b: seq<TestConfig>, m: int)
    requires Ordered(a) && Ordered(b)
    requires forall x :: x in a ==> Key(x) < m
    requires forall y :: y in b ==> m <= Key(y)
    ensures Ordered(a + b)
  {
    var ab := a + b;
    forall i, j | 0 <= i < j < |ab| ensures Key(ab[i]) <= Key(ab[j]) && ab[i] != ab[j] {
      if i < |a| && j >= |a| {
        assert ab[i] in a && ab[j] in b;
      }
    }
  }

  /** Where a configuration stands within its pair's calls. */
  function PairPos(c: TestConfig): int
  {
    BoolInt(c.useVarColor) + 2 * BoolInt(c.modulateFirstTex) + 4 * (c.tex0 - 1)
  }

  lemma PairOrdered(texCount: int, extraMath: int)
    ensures Ordered(PairConfigs(texCount, extraMath))
    ensures forall c :: c in PairConfigs(texCount, extraMath) ==> Key(c) == Key(TestConfig(false, texCount, false, extraMath, 1, 1))
  {
    var pair := PairConfigs(texCount, extraMath);
    assert forall i :: 0 <= i < |pair| ==> PairPos(pair[i]) == i;
  }

  /** One more pass of the inner loop, from `extraMath` to `n == extraMath + 1`
      pairs, keeps its calls ordered: the new pair's key follows every key before it. */
  lemma {:induction false} MathSweepStepOrdered(texCount: int, extraMath: nat, n: nat)
    requires n == extraMath + 1 && n <= 5
    ensures Ordered(MathSweep(texCount, n))
    decreases n, 0
  {
    var a := MathSweep(texCount, extraMath);
    var b := PairConfigs(texCount, extraMath);
    MathSweepOrdered(texCount, extraMath);
    PairOrdered(texCount, extraMath);
    var ab := MathSweep(texCount, n);
    assert ab == a + b;
    forall i, j | 0 <= i < j < |ab| ensures Key(ab[i]) <= Key(ab[j]) && ab[i] != ab[j] {
      if j < |a| {
        assert ab[i] == a[i] && ab[j] == a[j];
      } else if i < |a| {
        assert ab[i] in a && ab[j] in b;
      } else {
        assert ab[i] == b[i - |a|] && ab[j] == b[j - |a|];
      }
    }
  }

  /** The inner loop run up to `n` has keys `texCount * 5` .. `texCount * 5 + n - 1`. */
  lemma {:induction false} MathSweepKeys(texCount: int, n: nat)
    ensures forall c :: c in MathSweep(texCount, n) ==> texCount * 5 <= Key(c) < texCount * 5 + n
  {
    if n > 0 {
      var prev := MathSweep(texCount, n - 1);
      var pair := PairConfigs(texCount, n - 1);
      MathSweepKeys(texCount, n - 1);
      PairOrdered(texCount, n - 1);
      assert forall c :: c in prev + pair ==> c in prev || c in pair;
    }
  }

  lemma {:induction false} MathSweepOrdered(texCount: int, n: nat)
    requires n <= 5
    ensures Ordered(MathSweep(texCount, n))
    ensures forall c :: c in MathSweep(texCount, n) ==> texCount * 5 <= Key(c) < texCount * 5 + n
    decreases n, 1
  {
    MathSweepKeys(texCount, n);
    if n > 0 {
      MathSweepStepOrdered(texCount, n - 1, n);
    }
  }

  /** `doTest` visits the `(texCount, extraMath)` pairs in ascending order,
      `texCount` outer, and never runs the same configuration twice. */
  lemma {:induction false} SweepOrdered(n: nat)
    requires n <= 3
    ensures Ordered(Sweep(n))
    ensures forall c :: c in Sweep(n) ==> 0 <= Key(c) < 5 * n
  {
    if n > 0 {
      SweepOrdered(n - 1);
      MathSweepOrdered(n - 1, 5);
      OrderedAppend(Sweep(n - 1), MathSweep(n - 1, 5), 5 * (n - 1));
    }
  }

  /** The labels printed by the sweep tell every measured loop apart (every
      configuration of the sweep is `InMatrix`, by `SweepInMatrix(3)`). */
  lemma LabelsDistinct(c: TestConfig, b: bool, c': TestConfig, b': bool)
    requires InMatrix(c) && InMatrix(c')
    requires Label(c, b) == Label(c', b')
    ensures c == c' && b == b'
  {
    LabelDetermines(c, b, c', b');
  }

  lemma SweepStepsSnoc(cs: seq<TestConfig>, c: TestConfig, links: string -> bool)
    ensures SweepSteps(cs + [c], links) == SweepSteps(cs, links) + SingleTestSteps(c, links)
  {
    assert (cs + [c])[..|cs|] == cs;
  }

  lemma {:induction false} SweepStepsAppend(a: seq<TestConfig>, b: seq<TestConfig>, links: string -> bool)
    ensures SweepSteps(a + b, links) == SweepSteps(a, links) + SweepSteps(b, links)
    decreases |b|
  {
    if b == [] {
      assert a + b == a;
    } else {
      var b' := b[..|b| - 1];
      assert a + b == (a + b') + [b[|b| - 1]];
      SweepStepsAppend(a, b', links);
      SweepStepsSnoc(a + b', b[|b| - 1], links);
    }
  }

  /** `steps` holds a blend-off and a blend-on measurement for each of `cs`, in order. */
  ghost predicate MeasuredInPairs(steps: seq<Step>, cs: seq<TestConfig>)
  {
    && |steps| == 2 * |cs|
    && forall k :: 0 <= k < |cs| ==> steps[2 * k] == Measure(cs[k], false) && steps[2 * k + 1] == Measure(cs[k], true)
  }

  lemma MeasuredInPairsSnoc(prev: seq<Step>, init: seq<TestConfig>, c: TestConfig)
    requires MeasuredInPairs(prev, init)
    ensures MeasuredInPairs(prev + [Measure(c, false), Measure(c, true)], init + [c])
  {
    var steps := prev + [Measure(c, false), Measure(c, true)];
    var cs := init + [c];
    forall k | 0 <= k < |cs|
      ensures steps[2 * k] == Measure(cs[k], false) && steps[2 * k + 1] == Measure(cs[k], true)
    {
      if k < |init| {
        assert cs[k] == init[k];
        assert steps[2 * k] == prev[2 * k] && steps[2 * k + 1] == prev[2 * k + 1];
      }
    }
  }

  lemma {:induction false} MeasuredAll(cs: seq<TestConfig>, links: string -> bool)
    requires forall c :: c in cs ==> links(ShaderFor(c))
    ensures MeasuredInPairs(SweepSteps(cs, links), cs)
    decreases |cs|
  {
    if cs != [] {
      var n := |cs| - 1;
      var init := cs[..n];
      assert forall c :: c in init ==> c in cs;
      MeasuredAll(init, links);
      assert cs == init + [cs[n]];
      MeasuredInPairsSnoc(SweepSteps(init, links), init, cs[n]);
    }
  }

  /** When every program builds, test `k` owns output steps `2k` (blend off)
      and `2k + 1` (blend on). */
  lemma BlendOffThenOn(cs: seq<TestConfig>, links: string -> bool)
    requires forall c :: c in cs ==> links(ShaderFor(c))
    ensures |SweepSteps(cs, links)| == 2 * |cs|
    ensures forall k :: 0 <= k < |cs| ==>
      SweepSteps(cs, links)[2 * k] == Measure(cs[k], false)
      && SweepSteps(cs, links)[2 * k + 1] == Measure(cs[k], true)
  {
    MeasuredAll(cs, links);
  }

  /** A test whose program does not build costs only its own two measurements:
      it leaves its error step and no measurement, and every other test still runs. */
  lemma {:induction false} SweepContinues(cs: seq<TestConfig>, links: string -> bool)
    ensures forall c :: c in cs && links(ShaderFor(c)) ==>
      Measure(c, false) in SweepSteps(cs, links) && Measure(c, true) in SweepSteps(cs, links)
    ensures forall c :: c in cs && !links(ShaderFor(c)) ==> ErrorRunningTest(c) in SweepSteps(cs, links)
    ensures forall s :: s in SweepSteps(cs, links) ==> s.config in cs
    ensures forall s :: s in SweepSteps(cs, links) ==> (s.Measure? <==> links(ShaderFor(s.config)))
    decreases |cs|
  {
    if cs != [] {
      var init := cs[..|cs| - 1];
      SweepContinues(init, links);
      assert cs == init + [cs[|cs| - 1]];
    }
  }

  /** With every program building, the sweep prints 180 measurements. */
  lemma MeasurementCount(links: string -> bool)
    requires forall c :: c in AllConfigs() ==> links(ShaderFor(c))
    ensures |SweepSteps(AllConfigs(), links)| == 180
  {
    ConfigCount();
    MeasuredAll(AllConfigs(), links);
  }

  // ---------------------------------------------------------------------
  // The driver itself.

  /** `doSingleTest`: generate the shader, hand its C string to the GL, stop with
      an error if the program does not build, else measure with blending off
      and then on. */
  method DoSingleTest(c: TestConfig, links: string -> bool) returns (steps: seq<Step>)
    ensures steps == SingleTestSteps(c, links)
  {
    var pgmTxt := ShaderGen.GenShader(c.useVarColor, c.texCount, c.modulateFirstTex, c.extraMath);
    var len := ShaderGen.CStrLen(pgmTxt[..]);
    var source := pgmTxt[..len];
    ShaderGen.ShaderFitsBuffer(c.useVarColor, c.texCount, c.modulateFirstTex, c.extraMath);
    ghost var text := ShaderFor(c);
    assert forall i :: 0 <= i < |text| ==> pgmTxt[..][i] == text[i] by {
      assert pgmTxt[..|text|] == text;
    }
    ShaderGen.CStrLenFirstNul(pgmTxt[..], |text|);
    assert source == text;
    if !links(source) {
      steps := [ErrorRunningTest(c)];
      return;
    }
    steps := [Measure(c, false)];
    steps := steps + [Measure(c, true)];
  }

  /** The body of `doTest`'s inner loop: the `doSingleTest` calls for one
      `(texCount, extraMath)` pair. */
  method RunPair(texCount: int, extraMath: int, links: string -> bool) returns (steps: seq<Step>)
    ensures steps == SweepSteps(PairConfigs(texCount, extraMath), links)
  {
    steps := [];
    ghost var done: seq<TestConfig> := [];
    var c := TestConfig(false, texCount, false, extraMath, 1, 1);
    var single := DoSingleTest(c, links);
    SweepStepsSnoc(done, c, links);
    steps, done := steps + single, done + [c];
    c := TestConfig(true, texCount, false, extraMath, 1, 1);
    single := DoSingleTest(c, links);
    SweepStepsSnoc(done, c, links);
    steps, done := steps + single, done + [c];
    if texCount != 0 {
      c := TestConfig(false, texCount, true, extraMath, 1, 1);
      single := DoSingleTest(c, links);
      SweepStepsSnoc(done, c, links);
      steps, done := steps + single, done + [c];
      c := TestConfig(true, texCount, true, extraMath, 1, 1);
      single := DoSingleTest(c, links);
      SweepStepsSnoc(done, c, links);
      steps, done := steps + single, done + [c];
      c := TestConfig(false, texCount, false, extraMath, 2, 2);
      single := DoSingleTest(c, links);
      SweepStepsSnoc(done, c, links);
      steps, done := steps + single, done + [c];
      c := TestConfig(true, texCount, false, extraMath, 2, 2);
      single := DoSingleTest(c, links);
      SweepStepsSnoc(done, c, links);
      steps, done := steps + single, done + [c];
      c := TestConfig(false, texCount, true, extraMath, 2, 2);
      single := DoSingleTest(c, links);
      SweepStepsSnoc(done, c, links);
      steps, done := steps + single, done + [c];
      c := TestConfig(true, texCount, true, extraMath, 2, 2);
      single := DoSingleTest(c, links);
      SweepStepsSnoc(done, c, links);
      steps, done := steps + single, done + [c];
    }
    assert done == PairConfigs(texCount, extraMath);
  }

  /** One more pass of the inner loop extends the sweep by one pair. */
  lemma SweepGrows(texCount: nat, extraMath: nat)
    ensures Sweep(texCount) + MathSweep(texCount, extraMath + 1)
      == Sweep(texCount) + MathSweep(texCount, extraMath) + PairConfigs(texCount, extraMath)
  {
  }

  /** `doTest`: the textures, then the nested loops over `texCount` and `extraMath`. */
  method DoTest(links: string -> bool) returns (log: seq<Step>)
    ensures log == SweepSteps(AllConfigs(), links)
  {
    var m, large, small := Textures.GenTextures();
    log := [];
    ghost var done: seq<TestConfig> := [];
    for texCount := 0 to 3
      invariant done == Sweep(texCount)
      invariant log == SweepSteps(done, links)
    {
      for extraMath := 0 to 5
        invariant done == Sweep(texCount) + MathSweep(texCount, extraMath)
        invariant log == SweepSteps(done, links)
      {
        var steps := RunPair(texCount, extraMath, links);
        ghost var pair := PairConfigs(texCount, extraMath);
        assert log + steps == SweepSteps(done + pair, links)
            && done + pair == Sweep(texCount) + MathSweep(texCount, extraMath + 1) by {
          SweepStepsAppend(done, pair, links);
          SweepGrows(texCount, extraMath);
        }
        log, done := log + steps, done + pair;
      }
      assert done == Sweep(texCount + 1);
    }
  }
}
