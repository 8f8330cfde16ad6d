# German Tank Problem simulation — a Dafny model

The repository's one routine, `notes/german.py`, simulates the German Tank
Problem. It draws a true number of tanks `N` from `[0, 50000)` and a sample
size `k` from `[1, N)`. It numbers the tanks `0..N-1` with `np.arange` and
shuffles them in place with `np.random.shuffle`. It takes the first `k` tanks
as a sample drawn without replacement and finds their largest serial `kmax`.
It then prints the estimate `-1 + kmax + kmax/k` next to the true `N`.

The model lives in one module, `GermanTank` (`german_tank.dfy`):

- The random draws are parameters. `DrawInRange(low, high, choice)` stands
  for `randint(low, high)`. It yields a value of `[low, high)` picked by
  `choice`, or the error `EmptyRange` when the range is empty, as numpy
  raises then. A lemma shows every value of the range can be drawn.
- `Arange` fills a fresh `array<int>` with the serials. `Shuffle` permutes it
  in place with numpy's Fisher-Yates pass: position `i` runs from the last
  down to 1 and is swapped with a drawn position in `[0, i]`. `Arange` is
  specified against the function `Serials(n)`; `Shuffle` keeps the multiset
  of its input; `ShuffledSerials` combines the two.
- The slice, the maximum and the estimator are functions: `Prefix`, `Max`
  and `Estimate`. Lemmas prove the sample facts and the estimator facts.
- `Simulate` runs the five steps and returns a `Report` or the error.

The script is Python 2, so `kmax/k` on line 19 is floor division of two
non-negative integers. Dafny's `/` agrees with it there. Under real
division `kmax=9, k=5` would give 9.8; the Python 2 code gives 9, and the
model follows the code (`EstimateExamples`).

## Model

| member | source | states |
|---|---|---|
| `GermanTank.DrawInRange` | notes/german.py:4-6 | `randint(low, high)` succeeds exactly when `low < high`, and its value then lies in `[low, high)`; otherwise it is the empty-range error |
| `GermanTank.DrawInRangeReachesAll` | notes/german.py:4-6 | every value of a non-empty range is the outcome of some draw, so injecting the draw loses no outcome |
| `GermanTank.SampleSizeDraw` | notes/german.py:6 | `randint(1, N)` succeeds exactly when `N >= 2`, and then `1 <= k <= N - 1` |
| `GermanTank.Serials` | notes/german.py:9 | `arange(n)` has length `n` and holds `i` at position `i` |
| `GermanTank.SerialsMultiplicity` | notes/german.py:9 | each of `0..n-1` occurs exactly once in `arange(n)`, and no other value occurs |
| `GermanTank.Arange` | notes/german.py:9 | the method returns a new array whose contents are `Serials(n)` |
| `GermanTank.Shuffle` | notes/german.py:11 | the in-place shuffle keeps the multiset of the array's contents |
| `GermanTank.ShuffledSerials` | notes/german.py:9-11 | after arange and shuffle, `tanks` has length `n` and is a permutation of `0..n-1` |
| `GermanTank.PermutationOfSerials` | notes/german.py:9-11 | a permutation of `0..n-1` has length `n`, no duplicates, and only values in `[0, n)` |
| `GermanTank.Prefix` | notes/german.py:13 | `s[:k]` has length `min(k, len(s))` and agrees with `s` on every position it keeps |
| `GermanTank.SampleWithoutReplacement` | notes/german.py:9-13 | the first `k < n` shuffled tanks are exactly `k` distinct serials from `[0, n)` |
| `GermanTank.Max` | notes/german.py:14 | `np.max` of a non-empty sample is one of its elements and no element exceeds it |
| `GermanTank.Pigeonhole` | notes/german.py:9-14 | distinct naturals all at most `top` number at most `top + 1` |
| `GermanTank.SampleMaxBounds` | notes/german.py:9-14 | a sample of `k` distinct serials below `n` has `k - 1 <= kmax <= n - 1` |
| `GermanTank.SampleMaxTight` | notes/german.py:14 | the lower bound is reached: the sample `0..k-1` has maximum `k - 1` |
| `GermanTank.Estimate` | notes/german.py:19 | the estimate lies between `kmax - 1` and `2 * kmax - 1` |
| `GermanTank.EstimateMonotoneInMax` | notes/german.py:19 | for a fixed `k`, a larger `kmax` never gives a smaller estimate |
| `GermanTank.EstimateAntitoneInSize` | notes/german.py:19 | for a fixed `kmax`, a larger `k` never gives a larger estimate |
| `GermanTank.EstimateExamples` | notes/german.py:19 | `kmax=9, k=5` estimates 9 under floor division; `kmax=2, k=1` estimates 3 |
| `GermanTank.EstimateFullSample` | notes/german.py:19 | a sample of all `n` tanks (`kmax = n - 1`) estimates `n - 2`; a boundary case of the formula only, since the script draws `k < N` and nothing in the model uses it |
| `GermanTank.EstimateOfSampleBounds` | notes/german.py:13-19 | for a sample drawn without replacement, the estimate lies between `kmax - 1` and `2n - 3` |
| `GermanTank.Simulate` | notes/german.py:4-19 | a run fails exactly when `N <= 1`; otherwise it reports the drawn `k` with `1 <= k <= N-1`, a sample that is the first `k` elements of some permutation of `0..N-1` and so `k` distinct serials below `N`, its maximum `kmax` with `k-1 <= kmax <= N-1`, and the estimate `Estimate(kmax, k) >= kmax - 1` |

## Left out

- Printing (notes/german.py:17-20): the text output is presentation. `Simulate` returns the reported values in a `Report` instead.
- The distribution of the random draws. `np.random.randint` and the random choices inside `np.random.shuffle` are foreign and nondeterministic. They become parameters: `nChoice`, `kChoice` and `draw`.
- `Shuffle`: proves only that the result is a permutation of its input. It does not prove that every permutation can be reached or that they are equally likely.
- Statistical claims about the estimator, such as unbiasedness or minimum variance. They are statements about a distribution, not about one run.
- numpy's exception type and message for `randint(1, N)` with `N <= 1`. The model returns the error `EmptyRange(1, N)`.
- numpy's 64-bit integer width. Every value here stays below 100000, so no wrap-around can occur, and the model uses unbounded integers.
