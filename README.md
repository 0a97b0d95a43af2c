# Strava leaderboards: a Dafny model of the modelling core

The repository trains a matrix-factorization model on Strava segment efforts.
It turns the model's latent factors into per-feature "rating" columns for
athletes and for segments, and then publishes leaderboards. This project
models the table logic around the factorization:

- **Leaderboard engine** (`Leaderboards` in `modeling/ranking.py`). For every
  rating column it decides the orientation of the scale by comparing the
  best-rated entity's mean speed with the mean over all entities. It then
  flips the column if needed, rescales it linearly into [0, 100] and builds a
  ranked leaderboard of the top `board_size` entities, each with its mean
  effort speed.
- **Train/test split** (`split_efforts` in `modeling/validate_model.py`):
  - training efforts are those up to a cutoff date;
  - testing efforts are those after it, restricted to athletes who ride on
    both sides of the cutoff.
- **Table reshaping** (`modeling/create_model.py`):
  - `get_agg_sf` aggregates the mean speed per (athlete, segment) pair;
  - `make_cleaner_dfs` splits each coefficient table's `factors` lists into
    `rating_1 .. rating_k` columns;
  - `drop_useless_columns` removes `factors` and `linear_terms` in place.

Files and modules:

- `frames.dfy` (`Frames`): effort rows, `query` as `Filter`, and the pandas
  group-by mean.
  - `GroupAcc` is a one-pass accumulator. It is proved equal to the
    reference definition `SpeedsOf`, which lists each key's speeds.
- `series.dfy` (`Series`): labelled series and the pandas/numpy primitives.
  - `dropna`, `min`, `max`, `idxmax`, and label alignment on assignment.
  - `np.argsort`: a concrete stable argsort, plus the predicate `IsArgsort`,
    which accepts any ascending argsort.
  - CPython's negative-step slice.
- `ranking.dfy` (`Ranking`): the class `Leaderboards`.
  - Its fields are the attributes `get` sets, and its methods are `get`,
    `scale_column_ratings` and `get_n_leaders`.
  - Each method is proved against a specification function: `GetSpec`,
    `ScaleColumnSpec` and `NLeadersSpec`.
  - `get_orientation` is the function `Orientation`.
  - A Python exception is an `Err` value. A loop or comprehension that stops
    at the first exception is `FirstError`.
- `ranking_properties.dfy`, `board_properties.dfy`, `get_properties.dfy`:
  what those specifications guarantee.
  - Scores lie in [0, 100], both ends are reached, and order is kept or
    reversed.
  - The orientation's meaning and its errors.
  - The shape and ordering of a leaderboard, and when it raises.
  - The keys and contents of the dictionary `get` returns.
- `validate_model.dfy` (`ValidateModel`): `split_efforts` and its
  properties.
- `create_model.dfy` (`CreateModel`): the three reshaping functions.
  - `drop_useless_columns` is a method over `DataFrame` objects whose
    `columns` field `drop(..., inplace=True)` replaces.

Conventions:

- Entity ids are integers.
- Dates are seconds since the Unix epoch. The default cutoff '2015-08-01' is
  1438387200.
- Speeds and ratings are mathematical reals.
- A missing rating (NaN) is `None`.

## Model

| member | source | states |
|---|---|---|
| Frames.FilterCount | modeling/validate_model.py:55-56 | `query` keeps an effort exactly as often as the table holds it when the predicate accepts it, and drops it otherwise |
| Frames.FilterPositions | modeling/validate_model.py:55-56 | the rows `query` keeps sit at strictly increasing positions of the table, so the table order is kept |
| Frames.FilterMembers | modeling/ranking.py:117 | an effort is in the subset exactly when it is in the table and satisfies the query |
| Frames.GroupAccIsSumAndCount | modeling/ranking.py:63 | the one-pass group-by has a key exactly when that key has efforts, and then holds their speed sum and count |
| Frames.MeanSpeedOfIsMean | modeling/ranking.py:120-121 | a group mean is missing exactly when the key has no efforts, and otherwise is the arithmetic mean of that key's speeds |
| Frames.SpeedsOfNonEmpty | modeling/ranking.py:120-121 | a key has speeds exactly when some effort carries it |
| Frames.DistinctKeysSpec | modeling/ranking.py:120-121 | the group keys are exactly the keys that occur, each listed once |
| Frames.MeanOfMeansDefined | modeling/ranking.py:126 | the mean of the group means exists exactly when the subset is non-empty |
| Frames.OccurringKeyHasMean | modeling/ranking.py:126 | a key that occurs has a group mean, and that mean is one of the means averaged by `type_mean_speed.mean()` |
| Series.PresentPositionOf | modeling/ranking.py:85 | every non-missing cell appears among the positions `notnull` selects |
| Series.DropNa | modeling/ranking.py:51 | `dropna` keeps exactly the non-missing cells, labelled, in index order |
| Series.Min | modeling/ranking.py:97 | `min()` is a value of the series that no other value is below |
| Series.Max | modeling/ranking.py:100 | `max()` is a value of the series that no other value exceeds |
| Series.IdxMax | modeling/ranking.py:124 | `idxmax` points at a largest value, and at the first one when several tie |
| Series.Lookup | modeling/ranking.py:103 | label lookup is missing exactly when no entry carries the label, and otherwise returns an entry's value |
| Series.LookupDistinct | modeling/ranking.py:103 | with distinct labels, looking an entry's label up returns that entry's value |
| Series.Argsort | modeling/ranking.py:52 | the argsort is a permutation of the positions that lists them by non-decreasing value |
| Series.ArgsortBijective | modeling/ranking.py:52 | any ascending argsort lists every position exactly once |
| Series.AdjustForNegativeStep | modeling/ranking.py:55 | a slice bound for a negative step is normalised into -1 .. n-1, as CPython does |
| Series.TopSlice | modeling/ranking.py:55 | `sorted[-1:-size-1:-1]` takes positions n-1, n-2, ...: `size` of them for a count within range, all but one for -1 ('all'), and n+size of them for a size below -1 |
| Series.SpreadWidth | modeling/ranking.py:97-100 | a column with two different ratings has its maximum above its minimum, so the division by the maximum after the shift is defined |
| Ranking.BoardDirection | modeling/ranking.py:31 | the direction is -1 exactly for athlete boards, and +1 for every other board type |
| Ranking.SubsetName | modeling/ranking.py:111 | `rating_column[:-7]` strips the seven-character suffix, and gives the empty string for a shorter name |
| Ranking.Orientation | modeling/ranking.py:105-126 | the orientation, when no exception is raised, is +1 or -1 |
| Ranking.ShiftedMaxPositive | modeling/ranking.py:94-100 | after the flip and the shift by the minimum, the maximum is positive |
| Ranking.NonDegenerateSpread | modeling/ranking.py:85-88 | a column with two different non-missing ratings still has two different values after selecting the rated entities |
| Ranking.ScaleSign | modeling/ranking.py:91-94 | the factor a column is multiplied by is +1 or -1 |
| Ranking.ScaleColumnSpec | modeling/ranking.py:77-103 | rescaling keeps the column's name and its length on the table's index |
| Ranking.Leaders | modeling/ranking.py:55-58 | row i of the selected leaders is the entity at position n-1-i of the ascending order, with its score, and there are as many rows as the slice selects |
| Ranking.FirstError | modeling/ranking.py:37-41 | a run of steps without an exception has one result per step |
| Ranking.FirstErrorOk | modeling/ranking.py:37-41 | a run without an exception succeeded at every step, with the listed results |
| Ranking.FirstErrorErr | modeling/ranking.py:37-41 | a run that raised did so at some step whose exception is the run's, after steps that all succeeded |
| Ranking.FirstErrorSticks | modeling/ranking.py:37-38 | once a prefix of the steps has raised, the later steps do not change the outcome |
| Ranking.FirstErrorStep | modeling/ranking.py:37-38 | one more step extends a successful prefix by its result, or ends the run with its exception |
| Ranking.FirstErrorAt | modeling/ranking.py:37-38 | a step that raises after a successful prefix decides the whole run |
| Ranking.FirstErrorAllOk | modeling/ranking.py:37-38 | a run whose every step succeeds returns every step's result, in order |
| Ranking.BoardMapStep | modeling/ranking.py:41 | adding one column's board to the dictionary built so far gives the dictionary of one more column |
| Ranking.ScaledColumns | modeling/ranking.py:37-38 | there is one rescaling outcome per column |
| Ranking.ScaleAll | modeling/ranking.py:36-38 | a successful rescaling keeps the index, the number of columns and each column's name |
| Ranking.BoardResults | modeling/ranking.py:41 | there is one leaderboard outcome per column |
| Ranking.RescaleInPlace | modeling/ranking.py:94-100 | the three in-place steps (`*= sign`, `-= min()`, `*= 100. / max()`) compute `ScaleSeries` |
| Ranking.Leaderboards.constructor | modeling/ranking.py:6-10 | the engine stores the effort table (and the subset-query registry) |
| Ranking.Leaderboards.Get | modeling/ranking.py:23-43 | `get` records the board type, direction, ratings and encoded board size (20 when none is given), and returns exactly `GetSpec`. When every column rescales, the scaled table is every column rescaled, whatever the boards then raise. When column j raises, the columns before j are rescaled, the rest are as copied, and j's exception is returned |
| Ranking.RescaledNext | modeling/ranking.py:37-38 | rescaling column i successfully extends the rescaled prefix to column i+1 and leaves the later columns as copied |
| Ranking.RescaledStop | modeling/ranking.py:36-38 | when the loop raises at column i, the whole rescaling raises that exception, and the copy it leaves holds the columns before i rescaled and i onwards as copied |
| Ranking.RescaledAll | modeling/ranking.py:36-38 | a loop that has rescaled every column leaves exactly the table that rescaling every column gives |
| Ranking.Leaderboards.ScaleColumns | modeling/ranking.py:36-38 | the loop over the columns leaves the scaled table equal to every column rescaled, or returns the first column's exception. In that case the columns before the failing one are rescaled and it and the later ones are as copied |
| Ranking.Leaderboards.MakeLeaderboards | modeling/ranking.py:41 | the dictionary comprehension returns exactly one board per column under its name, or the first exception |
| Ranking.Leaderboards.ScaleColumnRatings | modeling/ranking.py:77-103 | column j alone is replaced by its rescaling, or the orientation's exception is returned and nothing changes |
| Ranking.Leaderboards.GetNLeaders | modeling/ranking.py:45-75 | returns exactly `get_n_leaders` of scaled column j |
| RankingProperties.RescaleRange | modeling/ranking.py:97-100 | the affine map from [lo, hi] sends every value between the extremes into [0, 100] |
| RankingProperties.RescaleEnds | modeling/ranking.py:97-100 | the smallest value goes to 0 and the largest to 100 |
| RankingProperties.RescaleMonotone | modeling/ranking.py:97-100 | the rescaling keeps the order of any two values, in both directions |
| RankingProperties.FlippedWidth | modeling/ranking.py:94 | flipping a column with two different ratings keeps them different |
| RankingProperties.ScaleSeriesClosedForm | modeling/ranking.py:94-100 | the three in-place steps send each rating v to 100·(sign·v − min)/(max − min), where min and max are taken over the flipped ratings, and keep the labels |
| RankingProperties.ScaleSeriesAt | modeling/ranking.py:94-100 | the same closed form, entry by entry |
| RankingProperties.StretchAt | modeling/ranking.py:97-100 | shifting by the minimum and multiplying by 100 over the new maximum is the affine map from [min, max] to [0, 100] |
| RankingProperties.ShiftAndStretch | modeling/ranking.py:97-100 | subtracting lo and multiplying by 100/(hi − lo) applies the affine map to each entry |
| RankingProperties.FlippedAt | modeling/ranking.py:94 | a flip by +1 keeps a rating, and a flip by −1 negates it |
| RankingProperties.DropNaDistinct | modeling/ranking.py:51 | with a distinct index, the rated entities keep distinct labels |
| RankingProperties.AlignedMissing | modeling/ranking.py:103 | assigning the rescaled ratings back leaves a missing rating missing |
| RankingProperties.AlignedPresent | modeling/ranking.py:103 | assigning the rescaled ratings back puts each rated entity's new value at its own row |
| RankingProperties.ScaledCell | modeling/ranking.py:77-103 | cell by cell, a missing rating stays missing and a rating v becomes the rescaling of sign·v between the column's smallest and largest flipped ratings |
| RankingProperties.AlignedScaledCell | modeling/ranking.py:94-103 | the same, for the rescaled series aligned back on the index |
| RankingProperties.FlippedCellBounds | modeling/ranking.py:94-97 | every flipped rating lies between the column's flipped minimum and maximum |
| RankingProperties.FlippedExtremesReached | modeling/ranking.py:97-100 | the flipped minimum and maximum are each the flipped value of some rated entity |
| RankingProperties.ScaledColumnRange | modeling/ranking.py:77-103 | after rescaling the same entities are rated, every score lies in [0, 100], some score is 0 and some score is 100 |
| RankingProperties.ScaledColumnOrder | modeling/ranking.py:77-103 | the rescaled order of any two rated entities is the order of their ratings times the sign, so −1 reverses the ranking |
| RankingProperties.OrientationErrors | modeling/ranking.py:105-126 | `get_orientation` raises exactly in three cases: the registry lacks the base name; the board type has no `_id` column; or the top-rated entity has no efforts in the subset. The first two raise the registry and column errors |
| RankingProperties.OrientationMeaning | modeling/ranking.py:117-126 | see the paragraph below the table |
| BoardProperties.RankBoardErrors | modeling/ranking.py:69-70 | numbering the rows raises exactly when a numeric size exceeds the number of rated entities and there is at least one, or a size below −1 still selects rows. The error reports both lengths |
| BoardProperties.RankBoardBlank | modeling/ranking.py:69-70 | with no rated entity, a numeric size n > 0 gives n blank rows ranked 1..n (pandas gives an empty frame the new column's rows), and any other size an empty board |
| BoardProperties.RankBoardShape | modeling/ranking.py:45-75 | for a column with a rated entity, a board has as many rows as the slice selects (`size` for a numeric size). Row i has rank i+1 and the entity at position n−1−i of the ascending order, with its score. Its mean speed is missing exactly when the entity has no efforts, and otherwise is the mean of that entity's speeds |
| BoardProperties.RankBoardDescending | modeling/ranking.py:52-58 | for a column with a rated entity, scores never increase down the board, for any ascending argsort |
| BoardProperties.RankBoardHoldsTop | modeling/ranking.py:52-58 | every rated entity is either on the board with its score, or scores at most every entity on it |
| BoardProperties.RankBoardDistinct | modeling/ranking.py:51-58 | with distinct labels and a rated entity, no entity appears twice on a board |
| BoardProperties.AllBoardOmitsLowest | modeling/ranking.py:33 | an 'all' board (size −1) succeeds and has n−1 rows. The entity first in the ascending order has the lowest rating and is not on it |
| GetProperties.BoardMapKeys | modeling/ranking.py:41 | the dictionary's keys are exactly the column names |
| GetProperties.BoardMapAt | modeling/ranking.py:41 | with distinct column names, each name maps to its own column's board |
| GetProperties.SameNames | modeling/ranking.py:36-41 | rescaled columns have the same name set as the original columns |
| GetProperties.ScaleAllColumns | modeling/ranking.py:36-38 | a successful rescaling of the table rescaled every column on its own |
| GetProperties.ScaleAllError | modeling/ranking.py:36-38 | a failed rescaling raised the exception of the first failing column, and every earlier column succeeded |
| GetProperties.GetBoards | modeling/ranking.py:23-43 | a successful `get` maps exactly the column names. Each name holds `get_n_leaders` of that column after rescaling |
| GetProperties.GetBoardAt | modeling/ranking.py:23-43 | the same, for one column |
| GetProperties.GetError | modeling/ranking.py:23-43 | a failed `get` raised the exception of some column's rescaling, or of some rescaled column's leaderboard |
| GetProperties.GetUnknownBoardType | modeling/ranking.py:62-63 | a board type other than athlete or segment makes `get` raise on any non-empty table |
| GetProperties.SamePresence | modeling/ranking.py:51 | two columns with the same missing cells keep the same positions under `dropna` |
| GetProperties.GetIndexName | modeling/ranking.py:59-66 | a successful `get` of a table with a column had its index named `'{board_type}_id'`, the key the merge joins on |
| GetProperties.GetIndexMismatch | modeling/ranking.py:59-66 | once every column rescales, a table whose index has another name makes `get` raise the merge's KeyError |
| GetProperties.GetSizeBound | modeling/ranking.py:69-70 | a numeric board size that `get` accepts is at most the number of rated entities of every column |
| ValidateModel.SplitEfforts | modeling/validate_model.py:46-68 | training efforts are table efforts on or before the cutoff (by default '2015-08-01'); testing efforts are table efforts after it |
| ValidateModel.TrainingIsUpToCutoff | modeling/validate_model.py:55 | the training set holds every effort on or before the cutoff, as often as the table holds it, and nothing else |
| ValidateModel.TestingIsLaterEffortsOfTrainedAthletes | modeling/validate_model.py:56-66 | the testing set holds every effort after the cutoff whose athlete also has an effort on or before it, as often as the table holds it, and nothing else |
| ValidateModel.SplitDisjoint | modeling/validate_model.py:55-56 | no effort is in both sets |
| ValidateModel.TestingAthletesAreTrained | modeling/validate_model.py:59-66 | every testing athlete is a training athlete |
| ValidateModel.SplitKeepsOrder | modeling/validate_model.py:55-66 | both sets keep the table order: their efforts sit at strictly increasing table positions |
| CreateModel.GetAgg | modeling/create_model.py:13 | there is one aggregated row per distinct (athlete, segment) pair |
| CreateModel.GetAggPairs | modeling/create_model.py:10-16 | the aggregated rows' pairs are exactly the pairs that occur in the effort table, with no pair twice |
| CreateModel.GetAggMean | modeling/create_model.py:13 | each row's speed is the mean of the speeds of that pair's efforts, and the pair has at least one effort |
| CreateModel.FindColumn | modeling/create_model.py:24 | attribute access finds the first column of that name, and is missing exactly when no column has it |
| CreateModel.Decimal | modeling/create_model.py:25 | a column number is written as a non-empty string of decimal digits |
| CreateModel.DecimalRoundTrip | modeling/create_model.py:25 | reading the digits back gives the number |
| CreateModel.RatingNamesDistinct | modeling/create_model.py:25 | different features get different `rating_{i+1}` names |
| CreateModel.FactorAt | modeling/create_model.py:24 | `x[i]` succeeds exactly on a list with more than i items, and gives item i |
| CreateModel.FactorColumn | modeling/create_model.py:24 | `apply` yields one cell per row |
| CreateModel.RatingColumns | modeling/create_model.py:24-25 | k features give k rating columns |
| CreateModel.FactorColumnSpec | modeling/create_model.py:24 | extracting factor i succeeds exactly when every row's list has more than i items, and then holds item i of each row |
| CreateModel.RatingColumnsSpec | modeling/create_model.py:24-25 | the first k rating columns exist exactly when k is 0 or every list has k items. Column i is then named `rating_{i+1}` and holds item i of each row's list |
| CreateModel.CleanerFrameSpec | modeling/create_model.py:24-26 | cleaning a frame succeeds exactly when no feature is asked for (the frame comes back unchanged, `factors` is never read) or it has a `factors` column whose lists are long enough. It then keeps the original columns and appends the rating columns. When features are asked for and `factors` is missing it raises the AttributeError |
| CreateModel.MakeCleanerFramesEach | modeling/create_model.py:24-26 | the list comprehension succeeds exactly when every frame's cleaning does, and its k-th result is frame k cleaned |
| CreateModel.MakeCleanerFramesSpec | modeling/create_model.py:18-26 | `make_cleaner_dfs` succeeds exactly when every frame can be cleaned (always, when `num_features` is at most 0), and then returns each frame with its rating columns appended, in order (each frame unchanged when no feature is asked for) |
| CreateModel.MissingLabels | modeling/create_model.py:36 | `drop` finds no missing label exactly when the frame has both `factors` and `linear_terms` |
| CreateModel.DroppedMembers | modeling/create_model.py:36 | the drop removes every `factors` and `linear_terms` column and keeps every other column |
| CreateModel.DroppedAppend | modeling/create_model.py:36 | the drop keeps the order of the remaining columns (it distributes over concatenation) |
| CreateModel.DroppedKeepsClean | modeling/create_model.py:36 | a frame without those columns is unchanged by the drop |
| CreateModel.DropTwiceRaises | modeling/create_model.py:35-36 | after the drop both labels are missing, so dropping again raises |
| CreateModel.DataFrame.constructor | modeling/create_model.py:47-48 | a frame holds the given columns |
| CreateModel.DataFrame.DropUseless | modeling/create_model.py:36 | the in-place drop succeeds exactly when both labels exist, and then leaves the dropped columns. Otherwise it raises the drop's error (ValueError before pandas 0.23, KeyError from 0.23) naming the missing labels and changes nothing. This holds for frames with distinct column names |
| CreateModel.DropUselessColumns | modeling/create_model.py:28-36 | see the paragraph below the table |

`RankingProperties.OrientationMeaning`: when the registry has the name and
the board type has an id column:

- The top-rated entity is the first largest rating.
- `get_orientation` raises for that entity when it has no efforts in the
  subset.
- Otherwise it returns −1 exactly when that entity's mean speed exceeds the
  mean of the group means, and +1 when it does not.

`CreateModel.DropUselessColumns`: the loop succeeds exactly when every frame
has both labels, and then every frame is dropped. Otherwise it raises the
first offending frame's drop error (ValueError before pandas 0.23, KeyError
from 0.23). The earlier frames are then already
dropped, and that frame and the later ones are unchanged.

The model follows the code wherever the code departs from what its
leaderboards are meant to do:

- Orientation lookup. `type_mean_speed.ix[best]` is a label lookup on
  integer-labelled group means. When the top-rated entity has no efforts in
  the subset, it raises a KeyError rather than yielding NaN. `Orientation`
  returns `NoEffortsFor` in that case.
- The 'all' board. `board_size` becomes −1, and the slice `[-1:0:-1]` stops
  before position 0 of the ascending order. The board therefore lists every
  rated entity except one with the lowest rating (`AllBoardOmitsLowest`), and
  `range(1, n)` numbers those n−1 rows.
- Oversized boards. A numeric `board_size` larger than the number of rated
  entities of a column with ratings does not give a shorter board: the slice is shorter than
  `range(1, board_size + 1)`, and assigning the rank column raises
  (`RankBoardErrors`, `GetSizeBound`).
- A board size of 0 gives an empty board.
- Boards of a column without ratings. Assigning `range(1, n + 1)` to a frame
  with no rows gives it n rows whose other columns are NaN; such a row is a
  `Blank` entry (`RankBoardBlank`). `get` never builds such a board, since
  every column it accepts has ratings.
- The merge key. `reset_index` names the id column after the ratings index,
  and the merge on `'{board_type}_id'` raises a KeyError when the two names
  differ (`GetIndexName`, `GetIndexMismatch`). Calling `get('segment', ...)`
  on a table indexed by `athlete_id` raises.

## Left out

- `Leaderboards.store`: CSV output to the application's data folder (file I/O).
- `gl.SFrame(...)` in `get_agg_sf`: the conversion to a GraphLab frame is a foreign library call. `GetAgg` returns the rows themselves.
- CreateModel.GetAgg: rows come in order of first occurrence of each (athlete, segment) pair. pandas sorts the groups by key; the set of rows, their pairs and their means are modelled, not the sorted row order.
- The other functions of `modeling/create_model.py`, `modeling/validate_model.py` and the application, eda and strava directories are not part of this model: model fitting, RMSE, correlations, database and web code.
- The subset-query registry `subset_querys_dict` is not in the modelled files. It is a parameter of the engine: each name maps to a predicate on efforts, or to no filter for a falsy query.
- Floating point: ratings and speeds are mathematical reals. Rounding in the rescaling, NaN beyond missing cells, and infinities are not modelled.
- Ranking.Leaderboards.Get: requires a ratings table with distinct index labels, distinct column names and two different ratings in every column. What happens otherwise is not modelled:
  - a constant column would divide by zero in pandas (NaN/inf results);
  - an all-missing column would make `idxmax` raise;
  - duplicate column names would let a later board overwrite an earlier one in the dictionary (`BoardMap` overwrites the same way, but `GetBoards` assumes distinct names).
- Series.Argsort: numpy's quicksort leaves ties in an unspecified order. The model's argsort is one stable order, and every leaderboard property is proved for any ascending argsort (`IsArgsort`).
- CreateModel.DropUselessColumns: requires the frames in the list to be distinct objects. Passing the same frame twice (aliasing) would raise on the second drop in Python.
- `.ix[athletes]` with repeated index labels is not modelled: the ratings index is required to be distinct.
- Only `athlete` and `segment` effort-id columns exist. Any other board type raises the KeyError `UnknownGroupColumn`.
- Cells of a coefficient table are integers, reals or lists of reals. Other Python objects inside `factors` are not modelled, and a non-list cell raises `NotSubscriptable`.
- CreateModel.DataFrame.DropUseless: frames with duplicate column names are not modelled. pandas drops such a frame's columns through its non-unique path, which raises nothing before 0.23 and, from 0.23, only when no label is found at all; the model treats every frame as having distinct names and raises whenever a label is missing. The frames the program passes come from coefficient tables with distinct column names.
- CreateModel.DropUselessColumns: inherits `DataFrame.DropUseless`'s limit; a frame with duplicate column names is not modelled.
- CreateModel.CleanerFrameSpec: when a frame has several columns named `factors`, the model reads the first one. pandas attribute access would return a frame there.
- The deep copy in `get` (`ratings_df.copy(deep=True)`) is a value copy. Ratings are immutable values, so the copy cannot alias the caller's table.
