# filltest: a verified model of the GL ES fill-rate benchmark's own logic

`opengl/tests/gl_perf/filltest.cpp` measures how fast a GL ES 2.0 device fills
pixels. It builds a fragment shader for each test configuration, draws
full-screen quads with blending off and then on, and prints the measured rates.
Most of the file is GL and EGL plumbing. This project models the three pieces of
it that are deterministic logic.

- **Shader generator** (`shader.dfy`, module `ShaderGen`).
  - `append` copies the `strlen(s)` characters of a C string through a moving
    cursor. `genShader` uses it to fill a zero-initialised 16 KiB buffer with
    `gShaderPrefix`, then the colour and modulation statements its four
    arguments select, then `gShaderPostfix` and a NUL.
  - The buffer is an `array<char>`. `Append` copies with an explicit loop, and
    `GenShader` is proved against the pure line-by-line specification
    `ShaderLines` and its join `ShaderText`.
  - `SpecBase`, `MathCount` and `MathLines` restate the gating rules
    independently. `LinesFollowRules` proves that the code's nested `if`s
    produce exactly them.
- **Texel fill** (`textures.dfy`, module `Textures`).
  - Two pairs of nested loops write 32-bit RGBA words into one `malloc`'d
    array: a 1024x1024 gradient, then a 16x16 pattern over the first 256
    words.
  - The array is an `array<bv32>`, so the `uint32_t` arithmetic is exact.
- **Driver** (`driver.dfy`, module `Driver`).
  - `doTest` sweeps `texCount` 0..2 and `extraMath` 0..4. For each pair it
    calls `doSingleTest` 2 times without a texture and 8 times with one.
  - `doSingleTest` builds the program. If that fails it prints one error line
    and returns. Otherwise it runs a measured loop with blending off, then one
    with blending on, each labelled with the test's parameters.
  - Both methods are proved against the pure lists `AllConfigs` and
    `SweepSteps`.
  - Whether the GL implementation accepts a generated program cannot be seen
    from this file. It is the parameter `links: string -> bool`, applied to
    the exact text the buffer holds up to its first NUL.
  - A measured loop appears in the output as `Measure(config, blend)`, whose
    printed label is `Label(config, blend)`.

`genShader(true, 2, true, 4)` starts from `v_color`, not from a texture
sample. Line 188 of filltest.cpp takes the colour branch whenever
`modulateFirstTex` is set, and `useVarColor` then picks `v_color` over
`u_color`. `ShaderGen.ModulateEverything` states that source line by line.

## Model

| member | source | states |
|---|---|---|
| ShaderGen.CStrLen | opengl/tests/gl_perf/filltest.cpp:174 | `strlen`: the result is at most the length, no character before it is NUL, and the character at it (if any) is NUL |
| ShaderGen.CStrLenNoNul | opengl/tests/gl_perf/filltest.cpp:174 | a string without NUL is measured in full, so `append` copies it whole |
| ShaderGen.Append | opengl/tests/gl_perf/filltest.cpp:173-177 | copies exactly `strlen(s)` characters of `s` to the cursor, returns the cursor plus `strlen(s)`, and leaves everything before the cursor and after the copy unchanged |
| ShaderGen.AppendFragment | opengl/tests/gl_perf/filltest.cpp:173-177 | appending a NUL-free fragment extends the text before the cursor by exactly that fragment and keeps NULs after the cursor |
| ShaderGen.AppendBaseColour | opengl/tests/gl_perf/filltest.cpp:188-196 | the `if`/`else` appends exactly `BaseLine`, in at most 40 characters |
| ShaderGen.AppendModulation | opengl/tests/gl_perf/filltest.cpp:198-203 | the two `if`s append exactly `ModulateLines`, in at most 80 characters |
| ShaderGen.AppendExtraMath | opengl/tests/gl_perf/filltest.cpp:205-216 | the four `if`s append exactly `ExtraMathLines`, in at most 48 characters |
| ShaderGen.Terminate | opengl/tests/gl_perf/filltest.cpp:220 | writing the terminator at the cursor keeps the text before it and the NULs from it on |
| ShaderGen.GenShader | opengl/tests/gl_perf/filltest.cpp:179-224 | the newly allocated 16 KiB buffer holds the generated source, which is shorter than the buffer, followed only by NULs |
| ShaderGen.MathCount | opengl/tests/gl_perf/filltest.cpp:205-216 | the number of extra-math lines is `extraMath` clamped to 0..4 |
| ShaderGen.MathLines | opengl/tests/gl_perf/filltest.cpp:205-216 | `k` lines, line `i` being `c *= u_i;`, in ascending order |
| ShaderGen.LinesFollowRules | opengl/tests/gl_perf/filltest.cpp:186-219 | the source is the prefix lines, then the base line of `SpecBase`, then the modulation lines, then `c *= u_0;` .. `c *= u_{k-1};` for the clamped `k`, then the postfix lines |
| ShaderGen.BaseColourRule | opengl/tests/gl_perf/filltest.cpp:188-196 | the line after the prefix is the `u_tex0` sample exactly when `texCount != 0 && !modulateFirstTex`, `v_color` exactly when not that and `useVarColor`, and `u_color` exactly otherwise |
| ShaderGen.TextureSampling | opengl/tests/gl_perf/filltest.cpp:188-203 | the `u_tex0` base sample appears iff `texCount != 0 && !modulateFirstTex`, the `u_tex0` modulation iff `texCount != 0 && modulateFirstTex`, the `u_tex1` modulation iff `texCount > 1`, and none with `texCount == 0` |
| ShaderGen.FragColorOnceAndLast | opengl/tests/gl_perf/filltest.cpp:168-170 | `gl_FragColor = c;` is the second-to-last line, no other line is it, and the closing brace is last |
| ShaderGen.TextIsFramed | opengl/tests/gl_perf/filltest.cpp:186-219 | the source is the join of the appended fragments in call order, it starts with `gShaderPrefix` and it ends with `gShaderPostfix` |
| ShaderGen.FixedTextsNoNul | opengl/tests/gl_perf/filltest.cpp:154-170 | `gShaderPrefix` and `gShaderPostfix` contain no NUL and are at most 480 and 80 characters long |
| ShaderGen.LinesBounded | opengl/tests/gl_perf/filltest.cpp:154-216 | the source has at most 21 lines, each of at most 40 characters and without NUL |
| ShaderGen.ShaderFitsBuffer | opengl/tests/gl_perf/filltest.cpp:185-220 | for every input the source has no NUL, and the source plus its terminator fits in the 16 KiB buffer, so no write passes its end |
| ShaderGen.ModulateEverything | opengl/tests/gl_perf/filltest.cpp:188-216 | `genShader(true, 2, true, 4)` starts from `v_color`, modulates by both textures and multiplies by `u_0` .. `u_3` |
| ShaderGen.UniformColourOnly | opengl/tests/gl_perf/filltest.cpp:188-196 | `genShader(false, 0, false, 0)` only sets `c` from `u_color` between prefix and postfix |
| Textures.LargeTexel | opengl/tests/gl_perf/filltest.cpp:336 | the word stored for any `(x, y)` has 0xff in byte 0 and in byte 3 |
| Textures.SmallTexel | opengl/tests/gl_perf/filltest.cpp:348 | the word stored for any `(x, y)` has 0xff in byte 0 and in byte 3 |
| Textures.LargeTexelFields | opengl/tests/gl_perf/filltest.cpp:336 | for `x, y < 1024` byte 0 is 0xff, byte 1 is `x mod 256`, byte 2 is `y mod 256`, and byte 3 is 0xff because the high bits of `y << 16` fall into it |
| Textures.SmallTexelFields | opengl/tests/gl_perf/filltest.cpp:348 | for `x, y < 16` bytes 0 and 3 are 0xff, byte 1 is `16 * x` and byte 2 is `16 * y` |
| Textures.FillLarge | opengl/tests/gl_perf/filltest.cpp:334-338 | every word `y * 1024 + x` of the array holds the large texel of `(x, y)` |
| Textures.FillSmall | opengl/tests/gl_perf/filltest.cpp:346-350 | words 0..255 hold the small texels in row-major order and every later word keeps its value |
| Textures.GenTextures | opengl/tests/gl_perf/filltest.cpp:332-358 | the image uploaded as texture 1 is the full large pattern, the image uploaded as texture 2 is the small pattern, and words 256 and on still hold the large pattern |
| Driver.Label | opengl/tests/gl_perf/filltest.cpp:322-328 | the label starts with `Test varColor=` and ends with `, blend=0` for the blend-off loop and `, blend=1` for the blend-on loop |
| Driver.LabelColumns | opengl/tests/gl_perf/filltest.cpp:322-328 | with one-digit fields the label is 72 characters long, with each parameter and the blend flag at a fixed column |
| Driver.LabelDetermines | opengl/tests/gl_perf/filltest.cpp:322-328 | equal labels with one-digit fields have equal printed parameters and equal blend flags |
| Driver.LabelsDistinct | opengl/tests/gl_perf/filltest.cpp:322-328 | two measured loops of the sweep with equal labels are the same test with the same blend flag |
| Driver.DoSingleTest | opengl/tests/gl_perf/filltest.cpp:279-330 | a program that does not build gives one error step. Otherwise the result is a blend-off measurement, then a blend-on one, of the same configuration |
| Driver.RunPair | opengl/tests/gl_perf/filltest.cpp:367-377 | the inner-loop body produces the steps of its pair's `doSingleTest` calls in order |
| Driver.DoTest | opengl/tests/gl_perf/filltest.cpp:360-379 | the output is the steps of all 90 configurations of `AllConfigs`, in order |
| Driver.PairConfigs | opengl/tests/gl_perf/filltest.cpp:367-376 | one pair makes 2 calls without a texture and 8 with one, and all of them have that pair's `texCount` and `extraMath` and `tex0 == tex1` |
| Driver.MathSweepLength | opengl/tests/gl_perf/filltest.cpp:365-377 | each `(texCount, extraMath)` pair makes 2 calls when `texCount == 0` and 8 otherwise |
| Driver.ConfigCount | opengl/tests/gl_perf/filltest.cpp:364-379 | `doTest` makes 90 `doSingleTest` calls |
| Driver.PairInMatrix | opengl/tests/gl_perf/filltest.cpp:367-376 | every call of one pair has that pair's `texCount`, modulates only with a texture, and has `tex0 == tex1` in {1, 2}, texture 1 when `texCount == 0` |
| Driver.MathSweepInMatrix | opengl/tests/gl_perf/filltest.cpp:365-377 | every call of the inner loop has the outer `texCount` and lies in the test matrix |
| Driver.SweepInMatrix | opengl/tests/gl_perf/filltest.cpp:364-379 | every call has `texCount` in 0..2 and `extraMath` in 0..4, modulates only when `texCount > 0`, and has `tex0 == tex1` in {1, 2}, texture 1 when `texCount == 0` |
| Driver.SweepMembers | opengl/tests/gl_perf/filltest.cpp:364-379 | a configuration is run by `doTest` if and only if it lies in that matrix, so every `(texCount, extraMath)` in 0..2 x 0..4 is visited |
| Driver.PairOrdered | opengl/tests/gl_perf/filltest.cpp:367-376 | the calls of one pair are pairwise distinct and share its `(texCount, extraMath)` |
| Driver.MathSweepOrdered | opengl/tests/gl_perf/filltest.cpp:365-377 | the inner loop visits `extraMath` in ascending order and repeats no configuration |
| Driver.SweepOrdered | opengl/tests/gl_perf/filltest.cpp:364-379 | the sweep visits `(texCount, extraMath)` in ascending order, `texCount` outer, and repeats no configuration |
| Driver.BlendOffThenOn | opengl/tests/gl_perf/filltest.cpp:320-329 | when every program builds, test `k` owns output steps `2k` (blend off) and `2k + 1` (blend on) |
| Driver.SweepContinues | opengl/tests/gl_perf/filltest.cpp:285-290 | a test that builds is measured with both blend settings, a test that does not build gives its error step and no measurement, the sweep goes on either way, and every step belongs to a test of the sweep |
| Driver.MeasurementCount | opengl/tests/gl_perf/filltest.cpp:364-379 | with every program building, the sweep runs 180 measured loops |

## Left out

- GL and EGL calls are not modelled: `loadShader`, `createProgram`, `setupVA`, the uniform and texture-binding calls in `doSingleTest`, `glTexImage2D` and `glTexParameteri` in `genTextures`, and `glBlendFunc`/`glEnable`/`glDisable`.
  - Their behaviour lives in the GL implementation.
  - The only outcome of theirs that changes what the benchmark does is whether the program builds. That is the parameter `links`.
  - A texture upload is modelled as the image the array holds at that moment.
- `doLoop` is not modelled: drawing, `ptSwap`, `glFinish` and the timers (`getTime`, `startTimer`, `endTimer`). It is GPU submission, a clock, and rates in floating point. A measured loop is the step `Measure(config, blend)`.
- `printf` output other than the labels and the error line is not modelled. `exit(0)` at the end of `doTest` is not modelled.
- The `w` and `h` arguments of `doTest` and `doSingleTest` are not modelled. They only reach `doLoop`.
- `calloc` or `malloc` returning NULL is not modelled. The model's allocations always succeed.
- The leak of the shader buffer and of the texel array is not modelled.
- The initial contents of the `malloc`'d texel array are not modelled. The first loop overwrites every word before anything reads it.
- ShaderGen.TextureSampling: states the texture-sampling rules on whole lines of the source, not on substrings of the joined text.
- ShaderGen.FragColorOnceAndLast: states the uniqueness of `gl_FragColor = c;` on whole lines of the source, not on substrings of the joined text.
- Driver.LabelColumns: holds only when every printed field is one digit. Every configuration of the sweep meets that, by `Driver.SweepInMatrix`.
- Driver.LabelDetermines: holds only when every printed field is one digit. Every configuration of the sweep meets that, by `Driver.SweepInMatrix`.
- Driver.LabelsDistinct: holds only for configurations in the test matrix, which are all the configurations the sweep runs.
