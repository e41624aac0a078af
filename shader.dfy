/** The fragment-shader source generator of the fill-rate benchmark: `append`
    copies a C string through a cursor into a buffer, and `genShader` builds the
    GLSL ES source of one test configuration out of fixed text fragments. */
module ShaderGen {

  /** Size of the zero-filled buffer `genShader` allocates (16 KiB). */
  const BufferSize: nat := 16 * 1024

  /** A bound on the length of every line the generator emits. */
  const LineMax: nat := 40

  /** The lines of `gShaderPrefix`, in order. */
  const PrefixLines: seq<string> := [
    "precision mediump float;\n",
    "uniform vec4 u_color;\n",
    "uniform vec4 u_0;\n",
    "uniform vec4 u_1;\n",
    "uniform vec4 u_2;\n",
    "uniform vec4 u_3;\n",
    "varying vec4 v_color;\n",
    "varying vec2 v_tex0;\n",
    "varying vec2 v_tex1;\n",
    "uniform sampler2D u_tex0;\n",
    "uniform sampler2D u_tex1;\n",
    "void main() {\n"
  ]

  /** The one statement that writes the fragment colour. */
  const FragColorLine: string := "  gl_FragColor = c;\n"
  const CloseLine: string := "}\n"

  /** The lines of `gShaderPostfix`, in order. */
  const PostfixLines: seq<string> := [FragColorLine, CloseLine]

  /** `gShaderPrefix` and `gShaderPostfix`: their lines joined. */
  const Prefix: string := Concat(PrefixLines)
  const Postfix: string := Concat(PostfixLines)

  // The fragments `genShader` appends between prefix and postfix.
  const VarColorInit: string := "  vec4 c = v_color;\n"
  const UniformColorInit: string := "  vec4 c = u_color;\n"
  const Tex0Init: string := "  vec4 c = texture2D(u_tex0, v_tex0);\n"
  const Tex0Modulate: string := "  c *= texture2D(u_tex0, v_tex0);\n"
  const Tex1Modulate: string := "  c *= texture2D(u_tex1, v_tex1);\n"
  const Math0: string := "  c *= u_0;\n"
  const Math1: string := "  c *= u_1;\n"
  const Math2: string := "  c *= u_2;\n"
  const Math3: string := "  c *= u_3;\n"

  /** The strings of `parts` joined in order. */
  function Concat(parts: seq<string>): string
  {
    if parts == [] then [] else Concat(parts[..|parts| - 1]) + parts[|parts| - 1]
  }

  /** `strlen`: the number of characters before the first NUL, or all of them. */
  function CStrLen(s: seq<char>): (n: nat)
    ensures n <= |s|
    ensures forall i :: 0 <= i < n ==> s[i] != '\0'
    ensures n < |s| ==> s[n] == '\0'
  {
    if s == [] || s[0] == '\0' then 0 else 1 + CStrLen(s[1..])
  }

  // ---------------------------------------------------------------------
  // The generator as written: one function per group of `if`s.

  /** The statement that initialises `c`, chosen as the code chooses it. */
  function BaseLine(useVarColor: bool, texCount: int, modulateFirstTex: bool): string
  {
    if modulateFirstTex || texCount == 0 then
      (if useVarColor then VarColorInit else UniformColorInit)
    else
      Tex0Init
  }

  /** The texture-modulation statements. */
  function ModulateLines(texCount: int, modulateFirstTex: bool): seq<string>
  {
    (if modulateFirstTex && texCount != 0 then [Tex0Modulate] else [])
    + (if texCount > 1 then [Tex1Modulate] else [])
  }

  /** The extra-math statements, one `if` per uniform. */
  function ExtraMathLines(extraMath: int): seq<string>
  {
    (if extraMath > 0 then [Math0] else [])
    + (if extraMath > 1 then [Math1] else [])
    + (if extraMath > 2 then [Math2] else [])
    + (if extraMath > 3 then [Math3] else [])
  }

  /** Everything between prefix and postfix, in emission order. */
  function BodyLines(useVarColor: bool, texCount: int, modulateFirstTex: bool, extraMath: int): seq<string>
  {
    [BaseLine(useVarColor, texCount, modulateFirstTex)]
    + ModulateLines(texCount, modulateFirstTex)
    + ExtraMathLines(extraMath)
  }

  /** The strings `genShader` hands to `append`, in call order. */
  function Fragments(useVarColor: bool, texCount: int, modulateFirstTex: bool, extraMath: int): seq<string>
  {
    [Prefix] + BodyLines(useVarColor, texCount, modulateFirstTex, extraMath) + [Postfix]
  }

  /** The fragments grouped as the stages of `GenShader` append them. */
  lemma FragmentsInCallOrder(useVarColor: bool, texCount: int, modulateFirstTex: bool, extraMath: int)
    ensures Fragments(useVarColor, texCount, modulateFirstTex, extraMath)
      == [Prefix] + [BaseLine(useVarColor, texCount, modulateFirstTex)]
         + ModulateLines(texCount, modulateFirstTex) + ExtraMathLines(extraMath) + [Postfix]
  {
  }

  /** The generated source, line by line: the specification of `GenShader`. */
  function ShaderLines(useVarColor: bool, texCount: int, modulateFirstTex: bool, extraMath: int): seq<string>
  {
    PrefixLines + BodyLines(useVarColor, texCount, modulateFirstTex, extraMath) + PostfixLines
  }

  /** The generated source as one string (without its NUL terminator). */
  function ShaderText(useVarColor: bool, texCount: int, modulateFirstTex: bool, extraMath: int): string
  {
    Concat(ShaderLines(useVarColor, texCount, modulateFirstTex, extraMath))
  }

  // ---------------------------------------------------------------------
  // An independent statement of the rules the generator follows.

  /** `c` starts from texture unit 0 exactly when a texture is bound and it is
      not the one to modulate with; otherwise from the vertex or uniform colour. */
  function SpecBase(useVarColor: bool, texCount: int, modulateFirstTex: bool): string
  {
    if texCount != 0 && !modulateFirstTex then Tex0Init
    else if useVarColor then VarColorInit
    else UniformColorInit
  }

  /** `extraMath` clamped to the four uniforms `u_0` .. `u_3`. */
  function MathCount(extraMath: int): (k: nat)
    ensures k <= 4
    ensures extraMath <= 0 ==> k == 0
    ensures 0 <= extraMath <= 4 ==> k == extraMath
    ensures extraMath >= 4 ==> k == 4
  {
    if extraMath < 0 then 0 else if extraMath > 4 then 4 else extraMath
  }

  /** `  c *= u_i;` for a single-digit index `i`. */
  function MathLine(i: nat): string
    requires i < 10
  {
    "  c *= u_" + [('0' as int + i) as char] + ";\n"
  }

  /** `c *= u_0;` .. `c *= u_{k-1};`, in ascending index order. */
  function MathLines(k: nat): (lines: seq<string>)
    requires k <= 4
    ensures |lines| == k
    ensures forall i :: 0 <= i < k ==> lines[i] == MathLine(i)
  {
    seq(k, i requires 0 <= i < k => MathLine(i))
  }

  // ---------------------------------------------------------------------
  // Lemmas about joining strings.

  lemma {:induction false} ConcatAppend(a: seq<string>, b: seq<string>)
    ensures Concat(a + b) == Concat(a) + Concat(b)
    decreases |b|
  {
    if b == [] {
      assert a + b == a;
    } else {
      var b' := b[..|b| - 1];
      assert (a + b)[..|a + b| - 1] == a + b';
      ConcatAppend(a, b');
    }
  }

  lemma ConcatSingle(s: string)
    ensures Concat([s]) == s
  {
    assert [s][..0] == [];
  }

  /** A join of NUL-free strings is NUL-free. */
  lemma {:induction false} ConcatNoNul(parts: seq<string>)
    requires forall p :: p in parts ==> '\0' !in p
    ensures '\0' !in Concat(parts)
    decreases |parts|
  {
    if parts != [] {
      var init := parts[..|parts| - 1];
      assert forall p :: p in init ==> p in parts;
      ConcatNoNul(init);
    }
  }

  /** A join of `n` strings of at most `LineMax` characters has at most `LineMax * n`. */
  lemma {:induction false} ConcatLength(parts: seq<string>)
    requires forall p :: p in parts ==> |p| <= LineMax
    ensures |Concat(parts)| <= LineMax * |parts|
    decreases |parts|
  {
    if parts != [] {
      var init := parts[..|parts| - 1];
      assert forall p :: p in init ==> p in parts;
      ConcatLength(init);
    }
  }

  /** `strlen` stops at the first NUL. */
  lemma CStrLenFirstNul(s: seq<char>, n: nat)
    requires n < |s| && s[n] == '\0'
    requires forall i :: 0 <= i < n ==> s[i] != '\0'
    ensures CStrLen(s) == n
  {
  }

  /** A string without NUL is read by `strlen` in full. */
  lemma CStrLenNoNul(s: seq<char>)
    requires '\0' !in s
    ensures CStrLen(s) == |s|
  {
  }

  // ---------------------------------------------------------------------
  // Properties of the generated source.

  /** The source is the prefix, the base colour, texture modulation, then
      `u_0` .. `u_{k-1}` with `k` the clamped `extraMath`, then the postfix. */
  lemma LinesFollowRules(useVarColor: bool, texCount: int, modulateFirstTex: bool, extraMath: int)
    ensures ShaderLines(useVarColor, texCount, modulateFirstTex, extraMath)
      == PrefixLines
         + [SpecBase(useVarColor, texCount, modulateFirstTex)]
         + ModulateLines(texCount, modulateFirstTex)
         + MathLines(MathCount(extraMath))
         + PostfixLines
  {
    var k := MathCount(extraMath);
    assert ExtraMathLines(extraMath) == MathLines(k) by {
      assert MathLine(0) == Math0 && MathLine(1) == Math1;
      assert MathLine(2) == Math2 && MathLine(3) == Math3;
    }
  }

  /** The line after the prefix initialises `c`: from texture unit 0 exactly when
      `texCount != 0 && !modulateFirstTex`, else from `v_color` or `u_color`. */
  lemma BaseColourRule(useVarColor: bool, texCount: int, modulateFirstTex: bool, extraMath: int)
    ensures var lines := ShaderLines(useVarColor, texCount, modulateFirstTex, extraMath);
      && |lines| > |PrefixLines|
      && (lines[|PrefixLines|] == Tex0Init <==> texCount != 0 && !modulateFirstTex)
      && (lines[|PrefixLines|] == VarColorInit <==> (modulateFirstTex || texCount == 0) && useVarColor)
      && (lines[|PrefixLines|] == UniformColorInit <==> (modulateFirstTex || texCount == 0) && !useVarColor)
  {
  }

  /** Every line other than the three texture-sampling statements is shorter
      than any of them, so none of them can be mistaken for a texture sample. */
  lemma ShortLines(k: nat)
    requires k <= 4
    ensures forall l :: l in PrefixLines ==> |l| < 30
    ensures forall l :: l in MathLines(k) ==> |l| < 30
    ensures forall l :: l in PostfixLines ==> |l| < 30
    ensures |VarColorInit| < 30 && |UniformColorInit| < 30
    ensures |Tex0Init| >= 30 && |Tex0Modulate| >= 30 && |Tex1Modulate| >= 30
  {
  }

  /** A line of 30 or more characters is in the source exactly when it is the
      base-colour line or one of the modulation lines. */
  lemma LongLineIn(t: string, useVarColor: bool, texCount: int, modulateFirstTex: bool, extraMath: int)
    requires |t| >= 30
    ensures t in ShaderLines(useVarColor, texCount, modulateFirstTex, extraMath)
      <==> t == SpecBase(useVarColor, texCount, modulateFirstTex) || t in ModulateLines(texCount, modulateFirstTex)
  {
    LinesFollowRules(useVarColor, texCount, modulateFirstTex, extraMath);
    ShortLines(MathCount(extraMath));
  }

  /** Which texture samples the source takes: unit 0 as base or as modulation
      never both, unit 1 only with two textures, none with no texture. */
  lemma TextureSampling(useVarColor: bool, texCount: int, modulateFirstTex: bool, extraMath: int)
    ensures var lines := ShaderLines(useVarColor, texCount, modulateFirstTex, extraMath);
      && (Tex0Init in lines <==> texCount != 0 && !modulateFirstTex)
      && (Tex0Modulate in lines <==> texCount != 0 && modulateFirstTex)
      && (Tex1Modulate in lines <==> texCount > 1)
      && (texCount == 0 ==> Tex0Init !in lines && Tex0Modulate !in lines && Tex1Modulate !in lines)
  {
    var lines := ShaderLines(useVarColor, texCount, modulateFirstTex, extraMath);
    assert Tex0Init != Tex0Modulate && Tex0Init != Tex1Modulate by {
      assert |Tex0Init| != |Tex0Modulate| && |Tex0Init| != |Tex1Modulate|;
    }
    assert Tex0Modulate != Tex1Modulate by {
      assert Tex0Modulate[22] == '0' && Tex1Modulate[22] == '1';
    }
    assert Tex0Init in lines <==> texCount != 0 && !modulateFirstTex by {
      LongLineIn(Tex0Init, useVarColor, texCount, modulateFirstTex, extraMath);
    }
    assert Tex0Modulate in lines <==> texCount != 0 && modulateFirstTex by {
      LongLineIn(Tex0Modulate, useVarColor, texCount, modulateFirstTex, extraMath);
    }
    assert Tex1Modulate in lines <==> texCount > 1 by {
      LongLineIn(Tex1Modulate, useVarColor, texCount, modulateFirstTex, extraMath);
    }
  }

  /** Exactly one line assigns `gl_FragColor`, and only the closing brace follows it. */
  lemma FragColorOnceAndLast(useVarColor: bool, texCount: int, modulateFirstTex: bool, extraMath: int)
    ensures var lines := ShaderLines(useVarColor, texCount, modulateFirstTex, extraMath);
      && |lines| >= 2
      && lines[|lines| - 2] == FragColorLine
      && lines[|lines| - 1] == CloseLine
      && forall i :: 0 <= i < |lines| && lines[i] == FragColorLine ==> i == |lines| - 2
  {
    LinesFollowRules(useVarColor, texCount, modulateFirstTex, extraMath);
  }

  /** The source is the prefix, the body lines, then the postfix. */
  lemma TextIsFramed(useVarColor: bool, texCount: int, modulateFirstTex: bool, extraMath: int)
    ensures var text := ShaderText(useVarColor, texCount, modulateFirstTex, extraMath);
      && text == Concat(Fragments(useVarColor, texCount, modulateFirstTex, extraMath))
      && |Prefix| + |Postfix| <= |text|
      && text[..|Prefix|] == Prefix
      && text[|text| - |Postfix|..] == Postfix
  {
    var body := BodyLines(useVarColor, texCount, modulateFirstTex, extraMath);
    ConcatAppend(PrefixLines + body, PostfixLines);
    ConcatAppend(PrefixLines, body);
    ConcatAppend([Prefix] + body, [Postfix]);
    ConcatAppend([Prefix], body);
    ConcatSingle(Prefix);
    ConcatSingle(Postfix);
  }

  /** No fragment the generator can emit contains a NUL. */
  lemma LinesNoNul(k: nat)
    requires k <= 4
    ensures forall l :: l in PrefixLines ==> '\0' !in l
    ensures forall l :: l in MathLines(k) ==> '\0' !in l
    ensures forall l :: l in PostfixLines ==> '\0' !in l
    ensures '\0' !in VarColorInit && '\0' !in UniformColorInit && '\0' !in Tex0Init
    ensures '\0' !in Tex0Modulate && '\0' !in Tex1Modulate
    ensures '\0' !in Math0 && '\0' !in Math1 && '\0' !in Math2 && '\0' !in Math3
  {
    PrefixNoNul();
    FragmentsNoNul();
    MathLinesNoNul(k);
  }

  // The NUL checks on the literals. Each check on a literal unfolds the whole
  // string, so they are made a few literals at a time to keep every proof small.
  lemma PrefixNoNul()
    ensures forall l :: l in PrefixLines ==> '\0' !in l
    ensures forall l :: l in PostfixLines ==> '\0' !in l
  {
    PrefixGroupNoNul(0);
    PrefixGroupNoNul(4);
    PrefixGroupNoNul(8);
    assert '\0' !in FragColorLine && '\0' !in CloseLine;
  }

  lemma PrefixGroupNoNul(from: nat)
    requires from == 0 || from == 4 || from == 8
    ensures forall j :: from <= j < from + 4 ==> '\0' !in PrefixLines[j]
  {
    if from == 0 {
      assert forall j :: 0 <= j < 4 ==> '\0' !in PrefixLines[j];
    } else if from == 4 {
      assert forall j :: 4 <= j < 8 ==> '\0' !in PrefixLines[j];
    } else {
      assert forall j :: 8 <= j < 12 ==> '\0' !in PrefixLines[j];
    }
  }

  lemma FragmentsNoNul()
    ensures '\0' !in VarColorInit && '\0' !in UniformColorInit && '\0' !in Tex0Init
    ensures '\0' !in Tex0Modulate && '\0' !in Tex1Modulate
    ensures '\0' !in Math0 && '\0' !in Math1 && '\0' !in Math2 && '\0' !in Math3
  {
    assert '\0' !in VarColorInit && '\0' !in UniformColorInit && '\0' !in Tex0Init by {}
    assert '\0' !in Tex0Modulate && '\0' !in Tex1Modulate by {}
    assert '\0' !in Math0 && '\0' !in Math1 by {}
    assert '\0' !in Math2 && '\0' !in Math3 by {}
  }

  lemma MathLinesNoNul(k: nat)
    requires k <= 4
    ensures forall l :: l in MathLines(k) ==> '\0' !in l
  {
  }

  /** Every line of the source is at most `LineMax` characters long and NUL-free. */
  lemma LinesBounded(useVarColor: bool, texCount: int, modulateFirstTex: bool, extraMath: int)
    ensures var lines := ShaderLines(useVarColor, texCount, modulateFirstTex, extraMath);
      && |lines| <= 21
      && forall l :: l in lines ==> |l| <= LineMax && '\0' !in l
  {
    var k := MathCount(extraMath);
    LinesFollowRules(useVarColor, texCount, modulateFirstTex, extraMath);
    var front := PrefixLines + [SpecBase(useVarColor, texCount, modulateFirstTex)];
    var back := ModulateLines(texCount, modulateFirstTex) + MathLines(k) + PostfixLines;
    assert ShaderLines(useVarColor, texCount, modulateFirstTex, extraMath) == front + back;
    ShortLines(k);
    LinesNoNul(k);
    assert forall l :: l in front ==> |l| <= LineMax && '\0' !in l;
    assert forall l :: l in back ==> |l| <= LineMax && '\0' !in l;
  }

  /** No line of the source contains a NUL, and the whole source with its
      terminator fits the 16 KiB buffer. */
  lemma ShaderFitsBuffer(useVarColor: bool, texCount: int, modulateFirstTex: bool, extraMath: int)
    ensures var text := ShaderText(useVarColor, texCount, modulateFirstTex, extraMath);
      && '\0' !in text
      && |text| + 1 <= BufferSize
  {
    var lines := ShaderLines(useVarColor, texCount, modulateFirstTex, extraMath);
    LinesBounded(useVarColor, texCount, modulateFirstTex, extraMath);
    ConcatNoNul(lines);
    ConcatLength(lines);
  }

  /** `gShaderPrefix` and `gShaderPostfix` contain no NUL, so `append` copies them whole. */
  lemma FixedTextsNoNul()
    ensures '\0' !in Prefix && '\0' !in Postfix
    ensures |Prefix| <= 12 * LineMax && |Postfix| <= 2 * LineMax
  {
    ShortLines(0);
    PrefixNoNul();
    ConcatNoNul(PrefixLines);
    ConcatNoNul(PostfixLines);
    ConcatLength(PrefixLines);
    ConcatLength(PostfixLines);
  }

  /** The fully loaded configuration starts from `v_color`, not from a
      texture sample, and multiplies five times before the postfix. */
  lemma ModulateEverything()
    ensures ShaderLines(true, 2, true, 4)
      == PrefixLines + [VarColorInit, Tex0Modulate, Tex1Modulate, Math0, Math1, Math2, Math3] + PostfixLines
  {
  }

  /** The plainest configuration starts from `u_color` and multiplies nothing. */
  lemma UniformColourOnly()
    ensures ShaderLines(false, 0, false, 0) == PrefixLines + [UniformColorInit] + PostfixLines
  {
  }

  // ---------------------------------------------------------------------
  // The imperative generator.

  /** `append(d, s)`: copies the `strlen(s)` characters of `s` to the buffer
      at cursor `d` and returns the cursor just past them. */
  method Append(buf: array<char>, d: nat, s: string) returns (next: nat)
    requires d + CStrLen(s) <= buf.Length
    modifies buf
    ensures next == d + CStrLen(s)
    ensures buf[..d] == old(buf[..d])
    ensures buf[d..next] == s[..CStrLen(s)]
    ensures buf[next..] == old(buf[next..])
  {
    var len := CStrLen(s);
    var i := 0;
    while i < len
      invariant 0 <= i <= len
      invariant forall j :: 0 <= j < d ==> buf[j] == old(buf[j])
      invariant forall j :: 0 <= j < i ==> buf[d + j] == s[j]
      invariant forall j :: d + i <= j < buf.Length ==> buf[j] == old(buf[j])
    {
      buf[d + i] := s[i];
      i := i + 1;
    }
    next := d + len;
    assert buf[d..next] == s[..len] by {
      forall j | 0 <= j < len ensures buf[d..next][j] == s[..len][j] {
        assert buf[d + j] == s[j];
      }
    }
  }

  /** The buffer holds the join of the fragments `done` up to the cursor `tmp`
      and NULs from the cursor on. */
  ghost predicate Holds(buf: array<char>, tmp: nat, done: seq<string>)
    reads buf
  {
    && tmp == |Concat(done)| <= buf.Length
    && buf[..tmp] == Concat(done)
    && forall j :: tmp <= j < buf.Length ==> buf[j] == '\0'
  }

  /** Appends one NUL-free fragment at the cursor, keeping `Holds`. */
  method AppendFragment(buf: array<char>, tmp: nat, s: string, ghost done: seq<string>)
    returns (next: nat)
    requires '\0' !in s
    requires Holds(buf, tmp, done) && tmp + |s| <= buf.Length
    modifies buf
    ensures next == tmp + |s|
    ensures Holds(buf, next, done + [s])
  {
    CStrLenNoNul(s);
    next := Append(buf, tmp, s);
    assert (done + [s])[..|done|] == done;
    assert buf[..next] == buf[..tmp] + buf[tmp..next];
    forall j | next <= j < buf.Length ensures buf[j] == '\0' {
      assert buf[j] == buf[next..][j - next];
    }
  }

  /** The `if`/`else` that initialises `c`. */
  method AppendBaseColour(buf: array<char>, tmp: nat, useVarColor: bool, texCount: int,
                          modulateFirstTex: bool, ghost done: seq<string>)
    returns (next: nat)
    requires Holds(buf, tmp, done) && tmp + LineMax <= buf.Length
    modifies buf
    ensures next <= tmp + LineMax
    ensures Holds(buf, next, done + [BaseLine(useVarColor, texCount, modulateFirstTex)])
  {
    FragmentsNoNul();
    if modulateFirstTex || texCount == 0 {
      if useVarColor {
        next := AppendFragment(buf, tmp, VarColorInit, done);
      } else {
        next := AppendFragment(buf, tmp, UniformColorInit, done);
      }
    } else {
      next := AppendFragment(buf, tmp, Tex0Init, done);
    }
  }

  /** The two `if`s that modulate `c` by texture samples. */
  method AppendModulation(buf: array<char>, tmp: nat, texCount: int, modulateFirstTex: bool,
                          ghost done: seq<string>)
    returns (next: nat)
    requires Holds(buf, tmp, done) && tmp + 2 * LineMax <= buf.Length
    modifies buf
    ensures next <= tmp + 2 * LineMax
    ensures Holds(buf, next, done + ModulateLines(texCount, modulateFirstTex))
  {
    FragmentsNoNul();
    next := tmp;
    ghost var cur := done;
    if modulateFirstTex && texCount != 0 {
      next := AppendFragment(buf, next, Tex0Modulate, cur);
      cur := cur + [Tex0Modulate];
    }
    if texCount > 1 {
      next := AppendFragment(buf, next, Tex1Modulate, cur);
      cur := cur + [Tex1Modulate];
    }
    assert cur == done + ModulateLines(texCount, modulateFirstTex);
  }

  /** The four `if`s that multiply `c` by `u_0` .. `u_3`. */
  method AppendExtraMath(buf: array<char>, tmp: nat, extraMath: int, ghost done: seq<string>)
    returns (next: nat)
    requires Holds(buf, tmp, done) && tmp + 4 * 12 <= buf.Length
    modifies buf
    ensures next <= tmp + 4 * 12
    ensures Holds(buf, next, done + ExtraMathLines(extraMath))
  {
    FragmentsNoNul();
    next := tmp;
    ghost var cur := done;
    if extraMath > 0 {
      next := AppendFragment(buf, next, Math0, cur);
      cur := cur + [Math0];
    }
    if extraMath > 1 {
      next := AppendFragment(buf, next, Math1, cur);
      cur := cur + [Math1];
    }
    if extraMath > 2 {
      next := AppendFragment(buf, next, Math2, cur);
      cur := cur + [Math2];
    }
    if extraMath > 3 {
      next := AppendFragment(buf, next, Math3, cur);
      cur := cur + [Math3];
    }
    assert cur == done + ExtraMathLines(extraMath);
  }

  /** `genShader`: a fresh 16 KiB buffer holding the generated source followed
      by NULs (the explicit terminator included). */
  method GenShader(useVarColor: bool, texCount: int, modulateFirstTex: bool, extraMath: int)
    returns (str: array<char>)
    ensures fresh(str)
    ensures str.Length == BufferSize
    ensures var text := ShaderText(useVarColor, texCount, modulateFirstTex, extraMath);
      && |text| < BufferSize
      && str[..|text|] == text
      && forall j :: |text| <= j < BufferSize ==> str[j] == '\0'
  {
    str := new char[BufferSize](_ => '\0');
    FixedTextsNoNul();
    assert Holds(str, 0, []);
    var tmp := AppendFragment(str, 0, Prefix, []);
    ghost var done := [Prefix];
    tmp := AppendBaseColour(str, tmp, useVarColor, texCount, modulateFirstTex, done);
    done := done + [BaseLine(useVarColor, texCount, modulateFirstTex)];
    tmp := AppendModulation(str, tmp, texCount, modulateFirstTex, done);
    done := done + ModulateLines(texCount, modulateFirstTex);
    tmp := AppendExtraMath(str, tmp, extraMath, done);
    done := done + ExtraMathLines(extraMath);
    tmp := AppendFragment(str, tmp, Postfix, done);
    done := done + [Postfix];

    FragmentsInCallOrder(useVarColor, texCount, modulateFirstTex, extraMath);
    TextIsFramed(useVarColor, texCount, modulateFirstTex, extraMath);
    Terminate(str, tmp, done);
  }

  /** The closing `tmp[0] = 0`: the cursor's cell was already NUL, so the
      buffer keeps its contents. */
  method Terminate(buf: array<char>, tmp: nat, ghost done: seq<string>)
    requires Holds(buf, tmp, done) && tmp < buf.Length
    modifies buf
    ensures Holds(buf, tmp, done)
  {
    buf[tmp] := '\0';
  }
}
