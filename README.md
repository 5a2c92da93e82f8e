# ICA cocktail solver: the numeric core of `fast_ica`

This project models the numeric middle of `fast_ica` in `ica_cocktail_solver.py`,
the Streamlit page that mixes two recordings and separates them again with
FastICA. The model covers the steps the page itself computes:

- **Preprocessing** (module `Preprocessing`). A decoded WAV payload is either
  mono (one sample per frame) or multi-channel (one array per frame). The
  mono/stereo check looks at frame 0 and keeps channel 0 of a multi-channel
  payload. Both signals are then cut to `min(len1, len2)` samples.
- **Mixing** (module `Mixing`). The two signals are stacked into a 2 x N
  matrix `s` and mixed as `x = A @ s`. `A` is the standard matrix
  `[[0.8, 0.3], [0.2, 0.7]]` or the one built from four sliders in [0, 1].
- **Rescale** (module `Rescaling`). Each mixture row and each estimated source
  becomes `(v + v.min()) * 2 ** 15 / v.ptp()` before the int16 cast.
- **The run** (module `Pipeline`). `FastIca` chains the stages in the page's
  order. The separator is a function parameter.

All arithmetic is exact, over `real`. Errors the page raises are values of
`Signals.Error`:
- `EmptySignal`: indexing frame 0 of an empty payload.
- `MissingColumn`: taking column j of frames that have no entry j.
- `EmptyReduction`: `min()` of an empty vector.

Rescaling a flat vector divides by a zero peak-to-peak. numpy only warns in
that case, so the model gives the artifact the value `NonFinite`; it is not an
error.

What the code does, and does not do, at the points where one might expect
otherwise:
- The rescale adds the minimum instead of subtracting it. `RescaleExtremes`
  proves that the output spread is exactly `2 ** 15`, but the output starts at
  `2 * min * 2 ** 15 / ptp`, not at 0. `RescaleLeavesInt16Range` shows the
  vector [1, 2] becoming [65536, 98304].
- The code has no check for mismatched sample rates. It keeps the first file's
  rate (`FastIcaIgnoresSecondRate`).
- The code does not reject a singular mixing matrix. `MixSingular` states what
  such a matrix does to the captures.
- The code does not reject a flat signal in the rescale.
- Whitening and the fixed-point iteration are not in this code: they happen
  inside the separator library.

## Model

| member | source | states |
|---|---|---|
| `Preprocessing.Column` | ica_cocktail_solver.py:264 | `frames[:, j]` succeeds exactly when every frame has an entry j; the result has one sample per frame, and sample i is entry j of frame i; otherwise the error is MissingColumn |
| `Preprocessing.FirstChannel` | ica_cocktail_solver.py:263-267 | a payload without frames fails with EmptySignal, and only such a payload does; a non-empty mono payload comes back unchanged; a multi-channel payload gives, frame by frame, that frame's first value, with its length preserved, and it fails with MissingColumn when some frame has no channel 0; a result is never empty |
| `Preprocessing.FirstChannelOfStereo` | ica_cocktail_solver.py:263-264 | for the frames of a two-channel recording, the selection returns exactly the left channel |
| `Preprocessing.Truncate` | ica_cocktail_solver.py:275-277 | both results have the same length, which is the smaller of the two input lengths; each result is a prefix of its input; the shorter input comes through unchanged |
| `Preprocessing.Prepare` | ica_cocktail_solver.py:262-277 | an empty first payload fails with EmptySignal; so does an empty second payload after a good first one; the first payload's error wins, and after a good first payload the second payload's error is passed on; success exactly when both selections succeed; the two signals have length `min(len1, len2) > 0` and are prefixes of the selected channels |
| `Preprocessing.PrepareUsesShorterLength` | ica_cocktail_solver.py:275-277 | recordings of 500 and 800 frames give the first recording whole and the first 500 samples of the second |
| `Mixing.DefaultMixing` | ica_cocktail_solver.py:187 | the standard matrix has every entry in [0, 1], determinant 0.5 (so it is invertible), and columns that each sum to 1 |
| `Mixing.SliderMixing` | ica_cocktail_solver.py:200-217 | the slider matrix is in slider range, and entry (i, j) is slider a(i+1)(j+1), laid out as `[[a11, a12], [a21, a22]]` |
| `Mixing.Mix` | ica_cocktail_solver.py:284-285 | `A @ s` on a 2 x N source matrix has exactly two rows, each of length N |
| `Mixing.MixSample` | ica_cocktail_solver.py:285 | every mixture sample is `x[i][t] == A[i][0] * s[0][t] + A[i][1] * s[1][t]` |
| `Mixing.MixIdentity` | ica_cocktail_solver.py:285 | mixing with the identity matrix returns the sources |
| `Mixing.MixColumnLocal` | ica_cocktail_solver.py:285 | column t of the mixture depends only on column t of the sources |
| `Mixing.MixCompose` | ica_cocktail_solver.py:285 | mixing with a and then with b is mixing once with `b @ a` |
| `Mixing.MixUndone` | ica_cocktail_solver.py:285 | for a matrix with non-parallel columns, the inverse matrix applied to the mixture gives back the sources exactly |
| `Mixing.DefaultMixingUndone` | ica_cocktail_solver.py:187 | the mixture made with the standard matrix determines the sources |
| `Mixing.MixSingular` | ica_cocktail_solver.py:198 | when the columns are parallel (determinant 0), the two captures are proportional at every sample, so there is in effect one capture |
| `Mixing.Transpose` | ica_cocktail_solver.py:294 | `x.T` has one frame per sample, and frame t is `[x[0][t], x[1][t]]` |
| `Rescaling.ArgMin` | ica_cocktail_solver.py:289 | the position of `v.min()`: a valid index whose sample no sample undercuts, and every earlier sample is strictly larger |
| `Rescaling.ArgMax` | ica_cocktail_solver.py:289 | the position of the maximum behind `v.ptp()`: a valid index whose sample no sample exceeds, and every earlier sample is strictly smaller |
| `Rescaling.Min` | ica_cocktail_solver.py:289 | `v.min()` is one of the samples of v and is no larger than any of them |
| `Rescaling.Max` | ica_cocktail_solver.py:289 | the maximum behind `ptp` is one of the samples of v and is no smaller than any of them |
| `Rescaling.Ptp` | ica_cocktail_solver.py:289 | `ptp` is never negative, and it is 0 exactly when all samples are equal |
| `Rescaling.Rescale` | ica_cocktail_solver.py:289-290 | for `ptp > 0`: same length as v, and sample t is `(v[t] + min(v)) * 2 ** 15 / ptp(v)` |
| `Rescaling.Normalize` | ica_cocktail_solver.py:298-299 | an empty vector fails with EmptyReduction, and only an empty one does; a flat non-empty vector gives NonFinite, and only a flat one does; every other vector gives its rescale |
| `Rescaling.RescaleKeepsOrder` | ica_cocktail_solver.py:289 | before the cast, `v[t] <= v[u]` holds exactly when `out[t] <= out[u]` |
| `Rescaling.RescaleMin` | ica_cocktail_solver.py:289 | the minimum of the rescaled vector is the rescale of `min(v)`, that is `2 * min * 2 ** 15 / ptp` |
| `Rescaling.RescaleMax` | ica_cocktail_solver.py:289 | the maximum of the rescaled vector is the rescale of `max(v)`, that is `(max + min) * 2 ** 15 / ptp` |
| `Rescaling.RescaleExtremes` | ica_cocktail_solver.py:289 | the output minimum is `2 * min * 2 ** 15 / ptp`, the output maximum is `(max + min) * 2 ** 15 / ptp`, and the output spread is exactly `2 ** 15` |
| `Rescaling.RescaleScaleFree` | ica_cocktail_solver.py:298-299 | scaling a vector by any c > 0 leaves its rescale unchanged, so the unknown positive scale of an estimated source never reaches the written file |
| `Rescaling.RescaleLeavesInt16Range` | ica_cocktail_solver.py:289 | the vector [1, 2] rescales to [65536, 98304], which is outside the int16 range |
| `Pipeline.Stack` | ica_cocktail_solver.py:284 | `np.array([audio1, audio2])` is a 2 x N matrix whose rows are the two signals |
| `Pipeline.FastIca` | ica_cocktail_solver.py:254-259 | a run on two files is the run `Separate` on their two payloads at the first file's sample rate; it fails when either file has no frames, and its outputs carry the first file's rate |
| `Pipeline.Separate` | ica_cocktail_solver.py:262-299 | an empty first payload fails with EmptySignal; an empty second payload after a good first one does too; a failing channel selection passes its error on, the first file's error first; when both payloads pass, the run succeeds exactly when the separator returns at least one frame and every frame has entries 0 and 1, and otherwise fails with EmptyReduction when the estimate has no frames and with MissingColumn when some frame lacks entry 0 or 1; the outputs carry the given rate; the two mixture artifacts are the rescale of the rows of `A @ s`; the two source artifacts are the rescale of columns 0 and 1 of the separator's estimate; a finite mixture artifact has `min(len1, len2)` samples |
| `Pipeline.FastIcaIgnoresSecondRate` | ica_cocktail_solver.py:255-259 | changing the second file's sample rate never changes a run |
| `Pipeline.SeparateMixtureOrder` | ica_cocktail_solver.py:285-290 | each written mixture orders its samples exactly as its row `A[i][0] * s0 + A[i][1] * s1` of the mixture orders them |
| `Pipeline.SeparateSourceOrder` | ica_cocktail_solver.py:294-299 | each written source orders its samples exactly as its column of the separator's estimate orders them |
| `Pipeline.ColumnOfTranspose` | ica_cocktail_solver.py:294 | column j of the frames `x.T` handed to the separator is exactly row j of the mixture |
| `Pipeline.SeparateIdentityMixing` | ica_cocktail_solver.py:284-290 | with the identity matrix, each written mixture is the rescale of one preprocessed signal |

## Left out

- Reading and writing WAV files (lines 254, 258 and 302-305) is file I/O. The decoded payloads are inputs, and the four artifacts are returned.
- The `.astype(np.int16)` cast (lines 289-290 and 298-299) truncates to an integer and wraps around. The artifacts hold the real values before the cast.
- The separator `FastICA(...).fit_transform` (lines 293-294) is foreign library code with iterative floating-point numerics and a seeded random start. It is the parameter `separator`. The model does not capture whitening, the fixed-point iteration, the cube contrast, convergence or the separator's parameters.
- Exceptions and warnings the separator itself raises (for instance on too few samples or on non-convergence) are not modelled: `separator` is a total function, so a run fails only on the errors listed above.
- IEEE floating point: arithmetic is exact over `real`. A division by a zero peak-to-peak is the value `NonFinite` and carries no samples.
- Decoded samples are taken as reals. The integer PCM sample types of WAV files are not modelled.
- The Streamlit page is not modelled: the menu, the intro and example pages, the contact page, the upload widgets, the selectbox, the button and its "both files present" check (lines 10-247), and the plots and audio players (lines 307-332). The mixing matrix is a parameter.
- Multi-channel payloads are numpy 2-D arrays, so their frames all have the same width. The model accepts frames of any widths and checks every frame for the column it takes.
