# Data-mining exercises, modelled in Dafny

This project models the core of a small Python 2 repository of
data-mining exercises. It covers:
- a CSV clusterer with median-based column normalisation;
- an agglomerative (hierarchical) clusterer driven by a priority queue;
- k-means and k-means++;
- content-based, user-based and item-based (slope-one) recommenders;
- a nearest-neighbour classifier with min-max and median/deviation scaling;
- a stratified fold cross-validator with its confusion matrix;
- a naive Bayes classifier;
- a bag-of-words training corpus.

There is one Dafny module per source file. Each class of the source is a
Dafny `class` of the same name, holding the fields its methods update. The
loops of the source are `method`s with `while` loops. Each of these is
proved against a specification function, and the properties the source
promises are proved as lemmas about those functions. Shared foundations
live in their own modules:

- `Wrappers`: `Option`, and a `Result` carrying the Python exception an operation would raise.
- `Sums`: sums over sequences and order-free sums over finite sets.
- `Reals`: small facts about real quotients.
- `Lex`: lexicographic orders on strings and tuples, which Python's tuple comparison uses.
- `Sorting`: an insertion sort and the uniqueness of a sorted permutation.
- `Text`: `split`, `strip`, whitespace tokens and lower-casing.
- `Stats`: median, mean absolute deviation and the modified standard score.

Modelling conventions:

- Python floats are Dafny `real`s, so rounding is not modelled.
- Square roots and fractional powers are function parameters: `root` for the clusterers and the classifier, and a similarity function for the item recommender. Their results are used only through the properties stated about them.
- Randomness is passed in as data. In the k-means clusterer `random.shuffle` becomes a permutation `perm`. In `create_buckets` each shuffle is an arbitrary reordering of the group (any list with the same elements), so what is proved about the buckets holds for every shuffle. `random.random()` becomes a draw sequence `draw`, read at a counter that advances on every call.
- File contents are passed in as lines or rows that have already been read.
- Where the source iterates over a dictionary, the model either proves that the result does not depend on the order, or fixes an order (insertion order) and says so in the member's comment.
- `float()` is a parameter `parse: string -> Option<real>`.

## Model

| member | source | states |
|---|---|---|
| Clustering.Cell | clusterer.py:25-29 | a cell that does not parse as a number is kept as its text, as the `except ValueError` branch keeps `row[i]` |
| Clustering.Empties | clusterer.py:19-20 | the header gives one empty column per header field |
| Clustering.PushRow | clusterer.py:24-29 | appending a row succeeds exactly when it has no more cells than there are columns (otherwise `self.data[i]` raises IndexError), and the column count is unchanged |
| Clustering.PushFullRows | clusterer.py:23-29 | rows as wide as the header append cell j of every row, in row order, to column j |
| Clustering.Clusterer.constructor | clusterer.py:5-9 | a new clusterer has no columns and no data |
| Clustering.Clusterer.ImportData | clusterer.py:11-29 | an empty file raises IndexError and changes nothing; otherwise the header becomes the columns and the data is the old data plus one column per header field filled row by row, failing exactly when a row is too wide; on that failure the columns keep the empty header columns, every earlier row and the failing row's cells that had a column (`Reached`) |
| Clustering.Reached | clusterer.py:23-29 | the columns the import loop leaves; when the loop finishes they are its result |
| Clustering.NormalizeList | clusterer.py:64-68 | an empty column raises IndexError, text cells TypeError, a zero absolute standard deviation ZeroDivisionError; otherwise the scores keep the length and the order of the values |
| Clustering.NormalizedColumnIsStandard | clusterer.py:64-68 | a normalised column has median 0 and absolute standard deviation 1 |
| Clustering.Clusterer.Normalize | clusterer.py:44-47 | every column but the first is replaced by its normalised column; on the first failing column the error is returned, the columns before it are normalised and the rest untouched |
| Clustering.NormalizeColumns | clusterer.py:44-47 | for any column scorer standing for `normalize_list`: the identifier column is kept; the loop succeeds exactly when every later column scores, each then replaced by its scores; otherwise the first failing column's error is returned with the columns before it rescored and the rest untouched |
| Clustering.Euclidean | clusterer.py:32-35 | succeeds exactly on two pairs (unpacking anything else raises ValueError) |
| Clustering.SquaredDifferences | clusterer.py:38-40 | one non-negative squared difference per coordinate of the first vector |
| Clustering.Manhattan | clusterer.py:37-41 | succeeds exactly when the second vector is at least as long as the first (otherwise `vector2[i]` raises IndexError) |
| Clustering.ManhattanIsEuclidean | clusterer.py:32-41 | on two-dimensional points `manhattan` computes the same value as `euclidean`: both are the root of the summed squares |
| Clustering.EuclideanSymmetric | clusterer.py:32-35 | the distance does not depend on the order of the points |
| Clustering.ManhattanSymmetric | clusterer.py:37-41 | for vectors of one length the distance does not depend on their order |
| Clustering.ManhattanSelf | clusterer.py:37-41 | a vector is at distance 0 from itself when the root of 0 is 0 |
| Clustering.EuclideanSelf | clusterer.py:32-35 | a point is at distance 0 from itself when the root of 0 is 0 |
| Stats.MedianOfSorted | clusterer.py:52-59 | the median of a sorted list is its middle element for odd length and the mean of the two middle elements for even length |
| Stats.MedianOrderFree | clusterer.py:52-53 | the median sorts a copy, so it depends only on the multiset of values |
| Stats.SortedTwice | clusterer.py:53 | sorting a sorted list changes nothing |
| Stats.MedianBetweenMinAndMax | clusterer.py:52-59 | the median lies between the smallest and the largest value |
| Stats.AbsDeviations | clusterer.py:50 | one non-negative absolute deviation per value |
| Stats.AbsDeviationsPermutation | clusterer.py:50 | rearranging the values rearranges their deviations |
| Stats.AbsoluteStandardDeviationOrderFree | clusterer.py:49-50 | the absolute standard deviation does not depend on the order of the values |
| Stats.AbsoluteStandardDeviationNonNegative | clusterer.py:49-50 | the absolute standard deviation is never negative |
| Stats.AbsoluteStandardDeviationZero | clusterer.py:49-50 | it is zero exactly when every value equals the centre |
| Stats.ScoreOfMedianIsZero | clusterer.py:61-62 | the median scores 0 |
| Stats.ScoreStrictlyIncreasing | clusterer.py:61-62 | with a positive deviation the score is strictly increasing in the value |
| Stats.Scores | clusterer.py:68 | one modified standard score per value |
| Stats.ScoresSorted | clusterer.py:64-68 | scoring keeps the order, so sorting commutes with scoring |
| Stats.MedianOfScores | clusterer.py:64-68 | the median of the scores is the score of the median |
| Stats.AbsDeviationsOfScores | clusterer.py:64-68 | the absolute standard deviation of the scores about 0 is that of the values divided by asd |
| Stats.ScoredMedianIsZero | clusterer.py:64-68 | a normalised list has median 0 |
| Stats.ScoredDeviationIsOne | clusterer.py:64-68 | a normalised list has absolute standard deviation 1 |
| Stats.Max | classifier.py:72 | Python `max`: an element of the list, no smaller than any element |
| Stats.Min | classifier.py:73 | Python `min`: an element of the list, no larger than any element |
| Classifying.Positions | classifier.py:39-45 | the positions of the fields of one kind, ascending, and all of them |
| Classifying.ScanFieldsDefined | classifier.py:39-45 | a line parses exactly when the format has an entry for each of its fields and every 'num' field is a number (otherwise IndexError or ValueError) |
| Classifying.ScanFieldsNumbers | classifier.py:40-41 | the vector holds the parsed 'num' fields, in field order |
| Classifying.ScanFieldsComments | classifier.py:42-43 | the ignored list holds the 'comment' fields, in field order |
| Classifying.ScanFieldsClass | classifier.py:44-45 | the class is the last 'class' field of the line, or the class of the previous line when it has none |
| Classifying.ScanFieldsStops | classifier.py:39-45 | once a field fails the line fails with that error |
| Classifying.GatherFields | classifier.py:36-45 | the field loop computes the scan of the whole line |
| Classifying.LoadLinesRows | classifier.py:35-46 | the rows are the parsed lines in file order, each with the previous row's class as fallback; loading stops at the first line that fails, with its error |
| Classifying.LoadStops | classifier.py:35-46 | a failing line ends the load with the rows before it |
| Classifying.LoadGoesOn | classifier.py:35-46 | a line that parses appends its row and hands its class on |
| Classifying.Classifier.constructor | classifier.py:4-9 | the given rows, an empty format and no stored pairs |
| Classifying.Classifier.LoadData | classifier.py:26-46 | an empty file raises IndexError with no rows; otherwise the format is the header's cleaned fields and the rows and outcome are those of the line loop; the stored pairs are unchanged |
| Classifying.Column | classifier.py:71 | entry `col` of every row, in row order |
| Classifying.WithColumn | classifier.py:75-76 | replacing a column keeps the row count |
| Classifying.OtherColumns | classifier.py:75-76 | replacing one column leaves every other column as it was |
| Classifying.SameColumn | classifier.py:75-76 | replacing a column gives that column back |
| Classifying.Summary | classifier.py:72-73 | the pair of a column (min and max, or median and absolute standard deviation) fails exactly on an empty column (ValueError from `max`, IndexError from the median) |
| Classifying.ScaleAll | classifier.py:75-76 | one rescaled value per value of the column |
| Classifying.NormalizedBounds | classifier.py:70-76 | a normalised column lies in [0, 1], with minimum 0 and maximum 1 |
| Classifying.NormalizedInUnit | classifier.py:76 | values between min and max land in [0, 1] |
| Classifying.NormalizedEnds | classifier.py:76 | the minimum maps to 0 and the maximum to 1 |
| Classifying.ScaleNormalization | classifier.py:76 | normalising is (x - min) / (max - min) |
| Classifying.RescaledAgain | classifier.py:70-103 | rescaling a rescaled column again gives the pair (0, 1), which changes nothing |
| Classifying.StandardizedSummary | classifier.py:90-98 | a standardised column has median 0 and absolute standard deviation 1 |
| Classifying.ScaleByUnit | classifier.py:76 | the pair (0, 1) rescales nothing |
| Classifying.ColumnStepChanges | classifier.py:70-76 | one column step appends the column's pair and rescales that column of every row, leaving classes, comments, lengths and other columns alone |
| Classifying.ColumnStepOk | classifier.py:70-76 | once the pair is known, a zero spread raises ZeroDivisionError after the pair was appended, otherwise the column is rescaled |
| Classifying.ColumnsFromDefined | classifier.py:78-80 | rescaling the columns in turn succeeds exactly when each column exists, has a pair and a non-zero spread |
| Classifying.ColumnsFromRescales | classifier.py:78-80 | after success each column is rescaled by its own pair, appended in column order |
| Classifying.ColumnsFromKeeps | classifier.py:78-80 | columns before the first one rescaled are unchanged |
| Classifying.ColumnsFromShape | classifier.py:78-80 | rescaling keeps the row count, the classes, the comments and the vector lengths |
| Classifying.NormalizeRows | classifier.py:75-76 | the row loop replaces the column by its normalised values |
| Classifying.Classifier.NormalizeColumn | classifier.py:70-76 | the rows and the stored min/max pairs after one column step, other state unchanged |
| Classifying.Classifier.NormalizeColumns | classifier.py:78-80 | the rows and pairs after rescaling every column the first row has |
| Classifying.StandardizeTable | classifier.py:90-98 | the column's pair is its median and absolute standard deviation; a zero deviation raises ZeroDivisionError, otherwise the column is standardised |
| Classifying.StandardizeRows | classifier.py:95-98 | the row loop, recomputing the median on the sorted column each time, standardises the column and leaves the sorted copy as it was |
| Classifying.StandardScoreOf | classifier.py:96-98 | one `modified_standard_score` call on the sorted copy is the standardising rescale against the column's median and deviation, or ZeroDivisionError when the deviation is zero, and leaves the copy as it was |
| Classifying.SortedScores | content_recommender.py:36-49 | the median and deviation of the in-place sorted copy are those of the column, and the modified standard score is the standardising rescale |
| Classifying.Classifier.StandardizeColumn | classifier.py:90-98 | the rows and stored median/deviation pairs after one column step |
| Classifying.Classifier.StandardizeColumns | classifier.py:100-103 | the rows and pairs after standardising every column the first row has |
| Classifying.RescaleVector | classifier.py:82-88 | the loop rescales each entry by the stored pair of its column, IndexError when pairs run out |
| Classifying.Classifier.NormalizeVector | classifier.py:82-88 | the query vector rescaled by the stored min/max pairs |
| Classifying.Classifier.StandardizeVector | classifier.py:105-110 | the query vector rescaled by the stored median/deviation pairs |
| Classifying.TrainingRowRescaled | classifier.py:78-88 | a training row rescaled with the stored pairs is the stored rescaled row |
| Classifying.TrainingRowScaled | classifier.py:78-103 | the same for the whole rescaling of `standardize` |
| Classifying.Euclidean | classifier.py:22-24 | defined exactly on vectors of one length (Python 2 `map` pads the shorter one with None, and the subtraction raises TypeError) |
| Classifying.Manhattan | classifier.py:48-56 | defined exactly on vectors of one length, for the same reason |
| Classifying.DistancesSymmetric | classifier.py:22-56 | both distances are symmetric |
| Classifying.DistancesZero | classifier.py:22-56 | a vector is at distance 0 from itself; the Manhattan distance is 0 exactly between equal vectors |
| Classifying.KeyLeTotalOrder | classifier.py:68 | Python's tuple comparison on rows is a total order |
| Classifying.NeighborLeTotalOrder | classifier.py:68 | so is the comparison of (distance, row) pairs |
| Classifying.NearestNeighborsSorted | classifier.py:67-68 | the neighbour list is sorted, a permutation of the measured rows, one per row |
| Classifying.NearestNeighborIsLeast | classifier.py:58-65 | a nearest neighbour exists exactly when there are rows and all have the query's length; it is the unique least measured pair |
| Classifying.NearestToRow | classifier.py:58-68 | a training row's nearest neighbour is a row at distance 0 from it |
| Classifying.TrainingRowClassified | classifier.py:11-20 | classifying a training row after rescaling returns the class of a row identical to it after rescaling |
| Classifying.Classifier.Classify | classifier.py:11-20 | an unknown strategy makes `standardize` return None, and the distance's `map` over None raises TypeError (ValueError from `min` of no rows); 'normalize' and 'standardize' rescale the stored rows, store the pairs and classify the rescaled query by its nearest neighbour |
| Recommending.Manhattan | recommender.py:53-59 | the accumulated total is the Manhattan distance: the absolute rating gaps summed over the items both users rated, whatever order the dictionary yields |
| Recommending.DistanceOverShared | recommender.py:55-57 | only the items both users rated contribute to the distance |
| Recommending.DistanceSymmetric | recommender.py:53-59 | the distance does not depend on which user is passed first |
| Recommending.DistanceZero | recommender.py:53-59 | the distance is non-negative and is 0 exactly when the two users agree on every shared item |
| Recommending.PowerSum | recommender.py:62-65 | the loop of `minkowski` accumulates the r-th powers of the gaps over the shared items |
| Recommending.Minkowski | recommender.py:61-69 | a zero total returns 0; a positive total returns its r-th root, the root being a parameter; a positive total with r = 0 raises ZeroDivisionError from `1.0 / r` |
| Recommending.Euclidean | recommender.py:33-34 | `euclidean` is `minkowski` with r = 2: 0 for a zero total, else the square root of the total |
| Recommending.PowerNonNegative | recommender.py:65 | a power of an absolute gap is non-negative and, for r > 0, zero only for a zero gap |
| Recommending.PowerTotalZero | recommender.py:66-69 | the power total is non-negative and is 0 (so `minkowski` takes the `else` branch) exactly when the users agree on every shared item |
| Recommending.PowerTotalOneIsDistance | recommender.py:53-69 | with r = 1 the power total is the Manhattan distance |
| Recommending.MeasureAll | recommender.py:11-14 | the loop collects one (distance, name) pair for every user except the given key |
| Recommending.SortedRanked | recommender.py:15-17 | sorting the pairs gives the neighbour list: every other user exactly once, with their distance, closest first, ties by name as tuple order does |
| Recommending.RankedHead | recommender.py:94-95 | the head of a neighbour list is the nearest other user |
| Recommending.NearestUnique | recommender.py:94-95 | the nearest user is unique, because tuple order breaks ties by name |
| Recommending.RatingGeTotalPreorder | recommender.py:101-102 | ordering by rating, highest first, is a total preorder, as `sorted` needs |
| Recommending.Unrated | recommender.py:96-102 | the list holds each item the neighbour rated and the user did not, once, with the neighbour's rating, highest rating first |
| Recommending.SortedRecommendations | recommender.py:101-102 | sorting the collected pairs by rating gives exactly those recommendations |
| Recommending.Recommender.constructor | recommender.py:6-7 | the recommender holds the given ratings and no text rows |
| Recommending.Recommender.ComputeNearestNeighbor | recommender.py:9-17 | a key missing from non-empty data raises KeyError; missing from empty data gives []; otherwise the result is the full neighbour list of that user |
| Recommending.Recommender.Recommend | recommender.py:93-102 | fails exactly when the key is missing or is the only user: KeyError when the key is missing from non-empty data, IndexError on `[0]` when there is no other user (empty data included); otherwise the result is the recommendations taken from the nearest other user |
| Recommending.ParseRow | recommender.py:45-49 | a line with no more fields than columns raises IndexError at `line_array[i + 1]`; otherwise it maps column i to field i + 1, stripped |
| Recommending.Recommender.LoadText | recommender.py:41-51 | the ratings are dropped; the result is exactly the table the line-by-line definition gives, errors included; the stored rows are that table on success and, when a short line raises IndexError, the rows of the lines before it |
| Recommending.TableReached | recommender.py:44-50 | the table the loop leaves equals the loaded table whenever loading succeeds |
| Recommending.TableReachedAtFailure | recommender.py:44-50 | when line k is the first short line, loading raises IndexError and leaves the table of the lines before k |
| Recommending.TableKeys | recommender.py:44-50 | the table has a row for every line's first field and for nothing else |
| Recommending.TableFails | recommender.py:47-49 | loading fails, with IndexError, exactly when some line is short of fields |
| Recommending.TableRows | recommender.py:44-50 | each key holds the row of the last line that carries it, as later assignments overwrite earlier ones |
| Recommending.TableKeeps | recommender.py:50 | a key no later line carries keeps its row |
| Recommending.RowKeys | recommender.py:46-48 | a row has exactly the column names as keys |
| Recommending.RowField | recommender.py:47-49 | column i of a row holds field i + 1 with whitespace stripped |
| ItemRecommending.ItemRecommender.constructor | recommender.py:6-7 | the item recommender holds the given ratings |
| ItemRecommending.ItemRecommender.AverageDeviations | item_recommender.py:5-12 | the result is the mean of `rating[key1] - rating[key2]` over the users who rated both items, and ZeroDivisionError when nobody did |
| ItemRecommending.DeviationDefined | item_recommender.py:8-12 | the deviation fails exactly when no user rated both items |
| ItemRecommending.DeviationAntisymmetric | item_recommender.py:5-12 | swapping the two items negates the deviation, and one order fails exactly when the other does |
| ItemRecommending.DeviationSelf | item_recommender.py:5-12 | an item deviates from itself by 0 |
| ItemRecommending.Normalize | item_recommender.py:36-39 | normalizing fails, with ZeroDivisionError, exactly on an empty scale (min = max) |
| ItemRecommending.NormalizeEnds | item_recommender.py:36-39 | the ends of the scale go to -1 and 1 |
| ItemRecommending.NormalizeMonotone | item_recommender.py:36-39 | normalizing keeps the order of ratings and maps ratings on the scale into [-1, 1] |
| ItemRecommending.Denormalize | item_recommender.py:33-34 | -1 and 1 go back to the ends of the scale |
| ItemRecommending.NormalizeRoundTrip | item_recommender.py:33-39 | denormalizing a normalized rating gives the rating back |
| ItemRecommending.DenormalizeRoundTrip | item_recommender.py:33-39 | normalizing a denormalized value gives the value back |
| ItemRecommending.ItemRecommender.Predict | item_recommender.py:41-50 | an unknown user raises KeyError; otherwise the result is the similarity-weighted mean of the user's normalized ratings of the other items, the similarity being a parameter |
| ItemRecommending.PredictionDefined | item_recommender.py:44-50 | on a proper scale the prediction fails exactly when every other rated item has similarity 0 |
| ItemRecommending.PredictionInRange | item_recommender.py:41-50 | for ratings on the scale the prediction lies in [-1, 1] |
| ItemRecommending.CountOthers | item_recommender.py:59 | the count is the number of the user's items other than `j` |
| ItemRecommending.ItemRecommender.WeightedSlopeOne | item_recommender.py:52-62 | an unknown user raises KeyError; otherwise the result equals the plain mean over the user's other items of deviation plus rating, since every item carries the same weight |
| ItemRecommending.SlopedDone | item_recommender.py:55-62 | the weighted sums the loop accumulates divide to the plain mean, and a zero denominator is exactly the failing case |
| ItemRecommending.SlopeOneFails | item_recommender.py:57 | an item that shares no rater with `j` makes the prediction raise ZeroDivisionError |
| ContentRecommending.SortValues | content_recommender.py:37 | sorting in place leaves the caller's list holding its old values in ascending order |
| ContentRecommending.Median | content_recommender.py:36-44 | the list is left sorted; an empty list raises IndexError; otherwise the result is the median of the old values (middle element, or mean of the two middle ones) |
| ContentRecommending.AbsoluteStandardDeviation | content_recommender.py:5-9 | the list is left sorted; an empty list raises IndexError in `median`; otherwise the result is the mean absolute distance from the median |
| ContentRecommending.ModifiedStandardScore | content_recommender.py:46-49 | the list is left sorted; an empty list raises IndexError and a zero absolute standard deviation ZeroDivisionError; otherwise the result is the value's distance from the median over that deviation |
| ContentRecommending.Average | content_recommender.py:11-12 | an empty list raises ZeroDivisionError; otherwise the mean lies between the least and the greatest value |
| ContentRecommending.AbsDifferences | content_recommender.py:34 | one absolute difference per position of the first vector |
| ContentRecommending.Manhattan | content_recommender.py:33-34 | a second vector shorter than the first raises IndexError |
| ContentRecommending.ManhattanZero | content_recommender.py:33-34 | the positional distance is non-negative and is 0 exactly when the first vector is a prefix of the second |
| ContentRecommending.ManhattanSymmetric | content_recommender.py:33-34 | between vectors of one length the distance is symmetric |
| ContentRecommending.SharedVectors | content_recommender.py:22-29 | the two vectors built from the shared attributes have one length, and their positional distance is the dictionary Manhattan distance over the shared attributes |
| ContentRecommending.ComputeNearestNeighbor | content_recommender.py:18-31 | the result holds every item except `key` exactly once with its distance from the given attributes, closest first, ties by name |
| ContentRecommending.ContentRecommender.constructor | recommender.py:6-7 | the recommender holds the given ratings |
| ContentRecommending.ContentRecommender.Classify | content_recommender.py:14-16 | with no item other than `item` the `[0]` raises IndexError; otherwise the result is the user's rating of the nearest other item, KeyError when the user or that rating is missing |
| KMeans.VectorAtIndex | kmeans_clusterer.py:173-174 | the vector of row i is cell i of every feature column in column order; a column too short for row i raises IndexError (a text cell is reported here as TypeError, see Left out) |
| KMeans.ItemAtIndex | kmeans_clusterer.py:106-109 | an item is the identifier in column 0 with the row's feature vector; an empty table or an index past the identifiers raises IndexError |
| KMeans.ItemsUpTo | kmeans_clusterer.py:31 | the first n items are the items at indices 0 to n - 1, and exist exactly when each of them does |
| KMeans.Items | kmeans_clusterer.py:31 | an empty table raises IndexError; otherwise there is one item per identifier, all of the table's feature dimension |
| KMeans.Distance | kmeans_clusterer.py:177-181 | both routes compute the same root of summed squares, so the routing only decides which error vectors of different lengths raise; equal lengths always give a distance |
| KMeans.DistanceSymmetric | kmeans_clusterer.py:177-181 | the distance does not depend on the order of its arguments |
| KMeans.DistanceSeparates | kmeans_clusterer.py:177-181 | for a non-negative root that is 0 only at 0, the distance is defined, non-negative and 0 exactly between equal vectors |
| KMeans.PairOrder | kmeans_clusterer.py:40 | the (distance, vector) tuple order used by `min` is total and transitive |
| KMeans.ArgMin | kmeans_clusterer.py:40 | the chosen position holds the least (distance, vector) pair and is the first such position |
| KMeans.Dedup | kmeans_clusterer.py:29 | the keys of the fresh cluster dictionary are the seed points without repetition, none lost |
| KMeans.DedupCollapses | kmeans_clusterer.py:29 | repeated seed points give fewer clusters than seeds |
| KMeans.DedupDistinct | kmeans_clusterer.py:29 | distinct seed points are all kept, in order |
| KMeans.Distances | kmeans_clusterer.py:33-38 | one distance per centroid, from that centroid to the item |
| KMeans.Nearest | kmeans_clusterer.py:40-41 | the chosen centroid is one of the keys |
| KMeans.NearestIsLeast | kmeans_clusterer.py:40-41 | the chosen centroid has the least (distance, centroid) pair among all keys |
| KMeans.MembersAreNearest | kmeans_clusterer.py:32-41 | every member of a cluster is an item of the table and has that cluster's centroid as its nearest |
| KMeans.AssignedPartition | kmeans_clusterer.py:32-41 | the assignment places every item in exactly one cluster |
| KMeans.AssignItems | kmeans_clusterer.py:29-41 | with no keys the first item's `min` over an empty list raises ValueError; otherwise the clusters are the assignment of every item to its nearest key |
| KMeans.MeanOf | kmeans_clusterer.py:55-61 | an empty cluster raises IndexError at `tuples[0]`; otherwise the mean is coordinate-wise over the first member's coordinates |
| KMeans.ComputeClusterMean | kmeans_clusterer.py:55-61 | the loop computes exactly that mean, errors included |
| KMeans.MeanOfIdentical | kmeans_clusterer.py:55-61 | the mean of members that all sit at one point is that point |
| KMeans.MeanWithinMembers | kmeans_clusterer.py:59 | each coordinate of the mean lies between the least and the greatest member coordinate |
| KMeans.Means | kmeans_clusterer.py:50-52 | one mean per cluster, failing exactly when some cluster is empty |
| KMeans.ClusterMeans | kmeans_clusterer.py:50-52 | the loop over the clusters gives exactly those means |
| KMeans.Matching | kmeans_clusterer.py:73-83 | each old key takes the nearest new key still left; it fails exactly when there are more old keys than new ones; the matched keys are new keys |
| KMeans.MatchingInjective | kmeans_clusterer.py:82-83 | no new key is matched twice, because `keys2.remove` takes it out |
| KMeans.MatchingSelf | kmeans_clusterer.py:73-83 | an unchanged set of keys matches each key to itself |
| KMeans.Converged | kmeans_clusterer.py:63-65 | the first round, with no old clusters, never converges |
| KMeans.ConvergedThreshold | kmeans_clusterer.py:70-97 | otherwise convergence holds exactly when 100 times the one-directional set difference summed over matched pairs is below the number of items |
| KMeans.ThresholdArithmetic | kmeans_clusterer.py:95-97 | `total_changed / total_items < 0.01` is the same test as `100 * total_changed < total_items` |
| KMeans.Convergence | kmeans_clusterer.py:63-97 | the loop computes exactly that verdict, errors included |
| KMeans.CountChanged | kmeans_clusterer.py:70-92 | the loops raise ValueError exactly when the greedy matching runs out of new keys, and otherwise return `total_changed` summed over the matched pairs |
| KMeans.ConvergenceStuck | kmeans_clusterer.py:81 | an old key left with no new key raises ValueError from `min` of an empty list |
| KMeans.ConvergedWhenUnchanged | kmeans_clusterer.py:63-97 | a round that reproduces the previous clusters converges |
| KMeans.MemberDistances | kmeans_clusterer.py:165-169 | one distance per member, from the centroid to that member |
| KMeans.SumSquaredError | kmeans_clusterer.py:162-171 | the result is the scatter: the total distance of every member from its centroid |
| KMeans.ScatterTermsCount | kmeans_clusterer.py:163-169 | the scatter has one term per member |
| KMeans.ScatterNonNegative | kmeans_clusterer.py:162-171 | with a non-negative distance the scatter is never negative |
| KMeans.ScatterZero | kmeans_clusterer.py:162-171 | with a separating distance the scatter is 0 exactly when every member sits on its centroid |
| KMeans.Walk | kmeans_clusterer.py:145-148 | the walk stops inside the list, after one draw per step, or runs off its end with IndexError |
| KMeans.WeightedPick | kmeans_clusterer.py:141-148 | an empty list raises IndexError; a pick is a position of the list and uses one draw per position up to it |
| KMeans.PickIsFirstReached | kmeans_clusterer.py:141-148 | the pick is the first position whose cumulative weight reaches the draw made at that step, and it fails exactly when no position does |
| KMeans.PickInBounds | kmeans_clusterer.py:141-148 | with weights summing to 1 and draws below 1 the walk always picks a candidate |
| KMeans.WeightedProbability | kmeans_clusterer.py:141-148 | the loop returns the vector at that pick and the number of the next draw |
| KMeans.AddPairLookup | kmeans_clusterer.py:122 | appending under one key of the `defaultdict` extends that key's list and no other |
| KMeans.TableLoop | kmeans_clusterer.py:118-122 | the nested loops build the table of (distance, point) lists, one per centroid |
| KMeans.MinPair | kmeans_clusterer.py:129 | `min` picks a pair of the column no greater than any other |
| KMeans.Closest | kmeans_clusterer.py:126-129 | `closest` has one least pair per column of the first list, and fails with IndexError on no lists or a list shorter than the first |
| KMeans.ClosestLoop | kmeans_clusterer.py:126-129 | the loop builds exactly that list |
| KMeans.Normalized | kmeans_clusterer.py:133 | each distance is divided by the total, the point kept |
| KMeans.NormalizedSumsToOne | kmeans_clusterer.py:131-133 | with a positive total the weights sum to 1 |
| KMeans.WeighingSumsToOne | kmeans_clusterer.py:118-133 | the weights of a round sum to 1 |
| KMeans.WeighingFromPool | kmeans_clusterer.py:118-133 | every weight is paired with a point still in the pool |
| KMeans.RemoveFirst | kmeans_clusterer.py:136 | `list.remove` takes out one occurrence and raises ValueError when there is none |
| KMeans.Round | kmeans_clusterer.py:118-137 | a round adds one centroid |
| KMeans.NextCentroid | kmeans_clusterer.py:118-137 | the loop body computes exactly that round |
| KMeans.RoundMovesOne | kmeans_clusterer.py:135-137 | a round moves one point of the pool to the end of the centroids |
| KMeans.RoundFailures | kmeans_clusterer.py:135-136 | `points.remove` always finds the centroid, so a round fails only where its weighing or its walk does, and not at all with draws below 1 |
| KMeans.PlusPlusFromKeeps | kmeans_clusterer.py:117-137 | the rounds stop at k centroids, keep the earlier centroids, and neither lose nor create points |
| KMeans.Permute | kmeans_clusterer.py:113 | the shuffled list holds the vector at each position the permutation names |
| KMeans.PlusPlus | kmeans_clusterer.py:111-139 | the seeds all have the table's dimension |
| KMeans.PlusPlusCentroids | kmeans_clusterer.py:111-139 | there are max(k, 1) seeds, the first is the last shuffled point, and together they are drawn from the points without replacement |
| KMeans.PickRowsShape | kmeans_clusterer.py:155-158 | the picks are the vectors of the indices popped from the end, in popping order |
| KMeans.RandomPointsRows | kmeans_clusterer.py:150-160 | `random_points(k)` gives max(k, 0) vectors of distinct rows, the rows the shuffle leaves last |
| KMeans.NewClusters | kmeans_clusterer.py:28-41 | the clusters of one call have the table's dimension and one centroid per distinct seed point |
| KMeans.NewClustersOf | kmeans_clusterer.py:28-41 | the loops compute exactly those clusters |
| KMeans.NewClustersPartition | kmeans_clusterer.py:28-41 | the clusters of one call hold every item of the table exactly once |
| KMeans.Run | kmeans_clusterer.py:28-53 | every call of `cluster`, to the fuel bound, keeps centroids of the table's dimension |
| KMeans.KmeansClusterer.constructor | kmeans_clusterer.py:7-11 | an empty table, no clusters, scatter 0 and the given k |
| KMeans.KmeansClusterer.Cluster | kmeans_clusterer.py:28-53 | the new clusters and scatter are the outcome of the recursive rounds, and a successful run leaves every item in exactly one cluster with the scatter of those clusters |
| KMeans.KmeansClusterer.KmeansPlusPlus | kmeans_clusterer.py:111-139 | the method computes exactly the k-means++ seeds for the given shuffle and draws |
| KMeans.KmeansClusterer.RandomPoints | kmeans_clusterer.py:150-160 | the method computes exactly the random rows for the given shuffle |
| KMeans.KmeansClusterer.InitializeClusters | kmeans_clusterer.py:99-104 | seeding by either route then clustering gives the specified outcome, and success leaves a partition of the items |
| FoldCrossValidating.SplitLineFields | fold_cross_validator.py:72-73 | there is one field per comma-separated piece, the pieces rebuild the line, and no field holds a comma or a newline or starts or ends with whitespace |
| FoldCrossValidating.LinesItemsOutcome | fold_cross_validator.py:21-43 | loading fails exactly when some line fails (a field past the format, or a 'num' field that is not a number), and keeps at most one row per line |
| FoldCrossValidating.LinesItemsKept | fold_cross_validator.py:38-43 | every kept row has a non-empty class and is the row of one of the lines |
| FoldCrossValidating.LinesItemsAppend | fold_cross_validator.py:21-43 | loading two runs of lines is loading the first and then, unless it raised, the second |
| FoldCrossValidating.ReadItems | fold_cross_validator.py:21-43 | the loop over the lines gives exactly those rows and that outcome |
| FoldCrossValidating.FoldCrossValidator.constructor | fold_cross_validator.py:6-14 | a new validator has an empty classifier, no rows, no test rows, an empty confusion matrix, and the given name, format and bucket count |
| FoldCrossValidating.FoldCrossValidator.ResetData | fold_cross_validator.py:68-70 | both row lists are emptied |
| FoldCrossValidating.FoldCrossValidator.LoadDataFromLines | fold_cross_validator.py:21-43 | the lines' rows are appended to the training rows or to the test rows, as `training` says, and the other list is unchanged |
| FoldCrossValidating.TrainingBuckets | fold_cross_validator.py:47-50 | the training buckets are every bucket number below n except the excluded one, ascending |
| FoldCrossValidating.ReadBuckets | fold_cross_validator.py:52-56 | the lines of the chosen buckets, one file after the other; a missing file raises IOError |
| FoldCrossValidating.TrainingAndTest | fold_cross_validator.py:45-66 | for every fold the training lines and the test bucket's lines together are all the lines of all buckets |
| FoldCrossValidating.FoldCrossValidator.LoadTrainingBuckets | fold_cross_validator.py:45-58 | the rows of every bucket but the excluded one are appended to the training rows; a missing file raises IOError and loads nothing |
| FoldCrossValidating.FoldCrossValidator.LoadTestBuckets | fold_cross_validator.py:60-66 | the rows of the given bucket are appended to the test rows; a missing file raises IOError |
| FoldCrossValidating.GroupLines | fold_cross_validator.py:84-90 | the lines are grouped by the whitespace-separated field at the class column, in line order, and a line too short for that column raises IndexError |
| FoldCrossValidating.DealGroup | fold_cross_validator.py:99-103 | dealing one category's shuffled lines round-robin from bucket 0 adds to each bucket exactly the lines dealt to it |
| FoldCrossValidating.DealGroups | fold_cross_validator.py:96-103 | after every category is dealt, in any key order and any shuffle, the buckets are stratified |
| FoldCrossValidating.DealtSize | fold_cross_validator.py:99-103 | bucket b receives `m / n` lines of a category of m lines, plus one when b < m % n |
| FoldCrossValidating.ShareBalanced | fold_cross_validator.py:99-103 | two buckets differ by at most one line of a category, the lower-numbered never holding fewer |
| FoldCrossValidating.SharesAll | fold_cross_validator.py:99-103 | the shares of all buckets add up to the category's lines |
| FoldCrossValidating.AllDealt | fold_cross_validator.py:96-103 | once every category is dealt, the buckets hold exactly the lines and each category is spread by its share |
| FoldCrossValidating.FoldCrossValidator.CreateBuckets | fold_cross_validator.py:77-103 | fails with IndexError exactly when a line is short of the class column, or when there are lines and no buckets (indexing the empty bucket list `buckets[0]` on line 101); otherwise there are n buckets holding exactly the lines, each category spread round-robin |
| FoldCrossValidating.Installed | fold_cross_validator.py:153-156 | `setdefault` adds a zero row for each new category and keeps existing rows |
| FoldCrossValidating.FreshMatrix | fold_cross_validator.py:152-156 | installed into an empty matrix, the cells are exactly the pairs of categories, all 0 |
| FoldCrossValidating.FoldCrossValidator.InstallCategories | fold_cross_validator.py:153-156 | the matrix becomes exactly that installation |
| FoldCrossValidating.TallyDefined | fold_cross_validator.py:163 | counting fails, with KeyError, exactly when some (class, answer) pair names no cell |
| FoldCrossValidating.TallyCounts | fold_cross_validator.py:163 | counting keeps the matrix's rows and columns, and each cell grows by the number of pairs that name it |
| FoldCrossValidating.CorrectCounts | fold_cross_validator.py:165-166 | the correct count is at most the number of tests, and equals it exactly when every answer is the test's class |
| FoldCrossValidating.TestAllCounts | fold_cross_validator.py:158-166 | a test run that raises nothing answers every test and its matrix is the old one with each test counted in its (class, answer) cell |
| FoldCrossValidating.TestNext | fold_cross_validator.py:158-162 | one test row: a failing `classify` or a missing matrix cell ends the run with that error; otherwise the answer's cell is counted and the run goes on with the next row |
| FoldCrossValidating.TestItems | fold_cross_validator.py:158-166 | the loop classifies each test row, counts it in the matrix and counts the correct answers, as the specification of the run states |
| FoldCrossValidating.FoldCrossValidator.TestBucket | fold_cross_validator.py:158-166 | the classifier state, matrix and outcome are those of the test run, and the correct count is the number of answers equal to their class |
| FoldCrossValidating.FirstFoldMatrix | fold_cross_validator.py:151-156 | the first fold installs a row and a column, all 0, for every class of its training and test rows |
| FoldCrossValidating.TestFoldCounts | fold_cross_validator.py:151-166 | a fold whose tests raise nothing counts each test row once in its cell and adds its correct answers to the count |
| FoldCrossValidating.FoldCrossValidator.LoadFold | fold_cross_validator.py:147-149 | the rows are reset, then the training and test rows of the fold are loaded, stopping at the first error |
| FoldCrossValidating.FoldCrossValidator.TestLoaded | fold_cross_validator.py:151-166 | the testing part of one fold gives exactly the specified validation state |
| FoldCrossValidating.FoldCrossValidator.RunFold | fold_cross_validator.py:144-166 | one fold gives exactly the specified validation state |
| FoldCrossValidating.FoldCrossValidator.TestTrainingBucket | fold_cross_validator.py:140-169 | the folds run in order until one raises; the final state is theirs, and the accuracy is the correct count over the rows of the last fold, ZeroDivisionError when there are none |
| NaiveBayesian.NaiveBayes.constructor | naive_bayes.py:6-7 | a new classifier has no values, test rows, tables, priors or means, and the given name and format |
| NaiveBayesian.Scan | naive_bayes.py:42-54 | the column loop over the first i columns records exactly the attribute columns among them |
| NaiveBayesian.LineRow | naive_bayes.py:36-54 | a line with fewer fields than the format has columns raises IndexError |
| NaiveBayesian.ScanFields | naive_bayes.py:42-54 | the loop over one line's fields raises IndexError exactly at a line short of fields, and otherwise gives the scanned row |
| NaiveBayesian.AbsorbKeys | naive_bayes.py:57-61 | absorbing a row adds its class, gives the class its old columns plus the row's, and leaves the other classes alone |
| NaiveBayesian.AbsorbCell | naive_bayes.py:59-61 | absorbing appends the row's value to its class's column and to no other cell |
| NaiveBayesian.AbsorbRectangular | naive_bayes.py:57-61 | a row with every attribute column keeps all columns of a class the same length |
| NaiveBayesian.NaiveBayes.AbsorbRow | naive_bayes.py:57-61 | `setdefault` of the class and then of each column, with the value appended, gives exactly the absorbed values |
| NaiveBayesian.LoadOutcome | naive_bayes.py:35-63 | a load raises exactly when some line has fewer fields than the format has columns |
| NaiveBayesian.LoadTrainingAppends | naive_bayes.py:56-61 | loading for training appends to each class's column the values of the kept lines of that class, in line order |
| NaiveBayesian.LoadTestAppends | naive_bayes.py:62-63 | loading for testing appends the class and numbers of each kept line, in line order, and leaves the training values alone |
| NaiveBayesian.LoadRectangular | naive_bayes.py:35-63 | loading keeps the training values rectangular |
| NaiveBayesian.NaiveBayes.LoadDataFromLines | naive_bayes.py:35-63 | the lines before the first short one are loaded, as the line-by-line definition states, and the error is that line's |
| NaiveBayesian.CountValues | naive_bayes.py:100-103 | the count dictionary holds exactly the column's values, each with its number of occurrences |
| NaiveBayesian.CountsTotal | naive_bayes.py:100-107 | the counts of the distinct values add up to the column's length |
| NaiveBayesian.ColumnFrequencies | naive_bayes.py:100-109 | the loop gives each value's count over the column's length |
| NaiveBayesian.FrequenciesSumToOne | naive_bayes.py:105-107 | the frequencies of a non-empty column are positive, at most 1, and add up to 1 |
| NaiveBayesian.ClassTables | naive_bayes.py:95-111 | one frequency table per column of the class |
| NaiveBayesian.BuildTables | naive_bayes.py:92-115 | every class's columns become frequency tables, and the occurrence of a class is the length of a column it has values in |
| NaiveBayesian.OccurrencesAreHeights | naive_bayes.py:109 | on rectangular values a class's occurrence is its number of rows, whatever order the columns are visited in |
| NaiveBayesian.SumOccurrences | naive_bayes.py:118 | the loop sums the occurrences |
| NaiveBayesian.TotalZero | naive_bayes.py:117-119 | the total is 0 exactly when every class occurred zero times |
| NaiveBayesian.PriorsSumToOne | naive_bayes.py:117-119 | with a non-zero total the priors lie in [0, 1] and add up to 1 |
| NaiveBayesian.ComputePriors | naive_bayes.py:117-119 | a zero total raises ZeroDivisionError at the first class, before any prior is set; otherwise each class's prior is its occurrence over the total |
| NaiveBayesian.NaiveBayes.ProbabilitiesFromData | naive_bayes.py:88-119 | the frequency tables are computed from the values into `tables` and the priors are set from the occurrences; an all-zero total raises ZeroDivisionError and sets no prior |
| NaiveBayesian.Likelihood | naive_bayes.py:21-29 | a failing lookup raises IndexError or KeyError |
| NaiveBayesian.LikelihoodPositional | naive_bayes.py:20-29 | the class column is skipped and the input is read positionally over the attribute columns: the likelihood is defined exactly when every value is in the class's table, and is then the product of the frequencies; otherwise the first failing position raises, IndexError past the input's end and KeyError before it |
| NaiveBayesian.NaiveBayes.ClassLikelihood | naive_bayes.py:17-29 | the column loop computes exactly that likelihood |
| NaiveBayesian.MaxPair | naive_bayes.py:33 | `max` of an empty list raises ValueError; otherwise the result is a pair of the list no smaller than any other |
| NaiveBayesian.BestUnique | naive_bayes.py:31-33 | at most one class is the best, since ties in score go to the greater class label |
| NaiveBayesian.NaiveBayes.Classify | naive_bayes.py:9-33 | no class raises ValueError; the call succeeds exactly when every class scores, and then returns the class whose (likelihood times prior, class) pair is greatest; otherwise it raises the error of a class that fails |
| NaiveBayesian.ColumnMeanCases | naive_bayes.py:78-86 | a column has a mean exactly when every value is a number and there are at least two of them (the sample deviation divides by n - 1); a non-number raises ValueError first |
| NaiveBayesian.ColumnMeans | naive_bayes.py:77-86 | the column loop succeeds exactly when every column has a mean; on a failure the columns handled before the failing one have their means and a one-value column's mean is already stored |
| NaiveBayesian.StoredBeforeRaise | naive_bayes.py:78-85 | a failing one-value column of numbers leaves its value as its mean, because line 82 runs before line 85 divides by zero; any other failing column leaves the row as it was |
| NaiveBayesian.UpdateMeans | naive_bayes.py:70-86 | the class loop succeeds exactly when every column of every class has a mean; on a failure the earlier classes have their rows and the failing class keeps its `setdefault` row with the means stored before the error |
| NaiveBayesian.NaiveBayes.CalculateMeans | naive_bayes.py:65-86 | succeeds exactly when every column of every class has a mean, then stores each class's default zeros overlaid with its means; an error is that of a failing column and leaves the earlier classes' rows and the failing class's partly written row |
| HierarchicalClustering.Len | hierarchical_clusterer.py:25-27 | Python `len` of a cluster is the character count of a text identifier, 2 for a merged pair, and TypeError for a numeric identifier |
| HierarchicalClustering.CombineClusters | hierarchical_clusterer.py:24-30 | the pair holds both clusters, the larger `len` first; two clusters of `len` 1 keep their order and any other tie puts the second first; the leaves are those of both clusters |
| HierarchicalClustering.LenIsNotClusterSize | hierarchical_clusterer.py:24-30 | `len` counts characters, not rows: a two-character leaf ties with a pair of three rows, and the pair goes first |
| HierarchicalClustering.CombineDistances | hierarchical_clusterer.py:32-42 | the combined map holds the rows both maps know, each at the smaller of its two distances |
| HierarchicalClustering.NearestNeighbor | hierarchical_clusterer.py:96-97 | an empty map raises IndexError; otherwise the result is the least (distance, row) pair, so of equal distances the smaller row wins |
| HierarchicalClustering.NearestUnique | hierarchical_clusterer.py:96-97 | there is only one least pair |
| HierarchicalClustering.CombineItems | hierarchical_clusterer.py:44-60 | the merge fails exactly when the nearest row is not an identifier index or a cluster's `len` fails; the new record has the intersected map, a neighbour describing that map (distance 0 and none when it is empty), and one of the two indices |
| HierarchicalClustering.Seed | hierarchical_clusterer.py:63-74 | a row without a distance map raises KeyError; a record for row i has index i, its identifier as a leaf, and row i's distance map |
| HierarchicalClustering.SeedDefined | hierarchical_clusterer.py:63-74 | a seed exists exactly when row i has a non-empty distance map whose nearest row is an identifier index, and its neighbour fields then describe that map |
| HierarchicalClustering.Seeds | hierarchical_clusterer.py:63 | the records for rows 0 to n - 1, in row order |
| HierarchicalClustering.PairDistanceIsManhattan | hierarchical_clusterer.py:83-94 | both branches compute the root of the summed squared feature differences, so the choice does not matter |
| HierarchicalClustering.PairDistanceSymmetric | hierarchical_clusterer.py:77-94 | the distance from row i to row j is the distance from row j to row i |
| HierarchicalClustering.PairDistanceSelf | hierarchical_clusterer.py:77-94 | a row is at distance 0 from itself |
| HierarchicalClustering.DistanceRowContents | hierarchical_clusterer.py:80-94 | a row's map holds every other row with its distance |
| HierarchicalClustering.DistanceTableContents | hierarchical_clusterer.py:78-94 | the table holds exactly the visited rows, each with its row map |
| HierarchicalClustering.DistanceTableSymmetric | hierarchical_clusterer.py:77-94 | the stored distances are symmetric |
| HierarchicalClustering.HierarchicalClusterer.FillRow | hierarchical_clusterer.py:80-94 | row i's map is stored empty first and each other row's distance is stored in it as computed; the call succeeds exactly when every distance of the row can be computed, and the stored map is what the loop reached |
| HierarchicalClustering.RowReachedComplete | hierarchical_clusterer.py:80-94 | when every distance of the row can be computed, the map the inner loop leaves is the whole row map |
| HierarchicalClustering.RowReachedAtFailure | hierarchical_clusterer.py:80-94 | when the distance to row j is the first that fails, the row map holds exactly the distances to the rows before j, and the row cannot be completed |
| HierarchicalClustering.RowReachedStep | hierarchical_clusterer.py:81-94 | one more visited row adds its distance to the map unless it is row i itself |
| HierarchicalClustering.TableReachedComplete | hierarchical_clusterer.py:78-94 | when every row can be completed, the table the loops leave is the full distance table |
| HierarchicalClustering.TableReachedAtFailure | hierarchical_clusterer.py:78-94 | when row i is the first that cannot be completed, rows before i hold their complete maps and row i the distances computed before the failing one; no later row is stored |
| HierarchicalClustering.HierarchicalClusterer.constructor | clusterer.py:5-9 | a new clusterer has no data, no distances and an empty queue |
| HierarchicalClustering.HierarchicalClusterer.FillDistances | hierarchical_clusterer.py:78-94 | the loops store the full table of distances over n rows when every distance can be computed; otherwise they stop at the first that cannot, leaving the earlier rows complete and the failing row partly filled |
| HierarchicalClustering.HierarchicalClusterer.CalculateDistances | hierarchical_clusterer.py:77-94 | an empty table raises IndexError; otherwise the distance table is stored when every distance can be computed, and then covers every row with every other row; a failing distance leaves the rows stored up to it |
| HierarchicalClustering.InsertAllSorted | hierarchical_clusterer.py:72-74 | putting records into a sorted queue keeps it sorted |
| HierarchicalClustering.InsertAllMultiset | hierarchical_clusterer.py:72-74 | the queue gains exactly the records put in |
| HierarchicalClustering.InitialQueueFits | hierarchical_clusterer.py:62-74 | the seeds put into an empty queue over a complete distance map satisfy the queue invariant for all rows: distinct indices, disjoint rows covering every row, and each record's map keyed by exactly the rows outside it |
| HierarchicalClustering.SeedQueue | hierarchical_clusterer.py:63-74 | the loop succeeds exactly when every row has a seed and then puts all seeds in row order; otherwise the error is the first failing row's and the queue holds the seeds of the rows before it |
| HierarchicalClustering.HierarchicalClusterer.InitializeCluster | hierarchical_clusterer.py:62-74 | an empty table raises IndexError; otherwise the call succeeds exactly when every row has a seed, puts the seeds in row order, and from an empty queue over a complete map leaves the invariant holding; a failing row leaves the earlier rows' seeds in the queue |
| HierarchicalClustering.QueueOrderStrict | hierarchical_clusterer.py:16-20 | indices in the queue are distinct, so the order is strict on (distance, index) and never compares dendrograms |
| HierarchicalClustering.MergeRound | hierarchical_clusterer.py:16-20 | on a queue that satisfies the invariant, a merge succeeds when every identifier is text, and a successful merge put back leaves a queue that satisfies it again |
| HierarchicalClustering.MergeSucceeds | hierarchical_clusterer.py:44-60 | with text identifiers every merge of two records for disjoint rows succeeds |
| HierarchicalClustering.LastRecord | hierarchical_clusterer.py:22 | the last record holds every row once, has an empty map, distance 0 and no neighbour |
| HierarchicalClustering.Agglomerate | hierarchical_clusterer.py:15-22 | `cluster` on a queue, as a function of the queue: taking the last record leaves the queue empty, and a failed merge leaves it at least two records shorter, the two it took off being gone |
| HierarchicalClustering.AgglomerateTree | hierarchical_clusterer.py:15-22 | from a queue that satisfies the invariant, the record taken holds every identifier once in its leaves, with an empty map, distance 0 and no neighbour; with text identifiers no merge fails |
| HierarchicalClustering.HierarchicalClusterer.Cluster | hierarchical_clusterer.py:15-22 | the record returned and the queue left are those of repeatedly popping the two front records, combining them and putting the result back; n records take n - 1 merges; the record returned holds every identifier once in its leaves, with an empty map, distance 0 and no neighbour; with text identifiers the call succeeds |
| TrainingCorpora.AlnumRun | training_corpus.py:121 | the run is the longest prefix of ASCII letters and digits: every character of it is one, and the next character is not |
| TrainingCorpora.FirstAlnum | training_corpus.py:121 | the position of the first ASCII letter or digit, every character before it being neither |
| TrainingCorpora.MatchFromTextFirstRun | training_corpus.py:120-121 | `re.search(r'[A-Za-z0-9]+')` finds a match exactly when the text has a letter or digit, and the match is the maximal run starting at the first one |
| TrainingCorpora.MatchIsRun | training_corpus.py:120-121 | a match is non-empty and made only of ASCII letters and digits |
| TrainingCorpora.DocumentsWordsClean | training_corpus.py:159-170 | every word counted is a non-empty lower-case run of letters and digits that is not a stop word |
| TrainingCorpora.BucketsWordsClean | training_corpus.py:261-281 | the same holds for the words counted over a category's buckets |
| TrainingCorpora.BucketsWordsIgnoreOthers | training_corpus.py:261-264 | only the listed buckets of the given category affect the words counted |
| TrainingCorpora.TallyStep | training_corpus.py:166-169 | counting one more word is `setdefault(word, 0)` followed by `+= 1` |
| TrainingCorpora.TallyAppend | training_corpus.py:155-171 | counting two runs of words one after the other is counting them together |
| TrainingCorpora.TallyCounts | training_corpus.py:166-169 | the counted keys are the old keys plus the words, and each word's count grows by its number of occurrences |
| TrainingCorpora.CountsAddUp | training_corpus.py:168-170 | the counts of a category add up to its total |
| TrainingCorpora.TallyKeysClean | training_corpus.py:165-169 | counting clean words into clean counts keeps every key clean |
| TrainingCorpora.CountTokens | training_corpus.py:161-170 | the token loop adds the counted words to the vocabulary and the counts, and their number to the total |
| TrainingCorpora.CountLines | training_corpus.py:159-170 | the line loop splits each line on whitespace and counts its tokens the same way |
| TrainingCorpora.CountDocuments | training_corpus.py:155-171 | the file loop counts every line of every document the same way |
| TrainingCorpora.CountBuckets | training_corpus.py:261-282 | the bucket loop counts every document of every listed bucket the same way |
| TrainingCorpora.TrainingCorpus.constructor | training_corpus.py:13-20 | a new corpus has no categories, probabilities, stop words, totals, vocabulary or word counts, and the inherited bucket count of 10 |
| TrainingCorpora.TrainingCorpus.ReadStopWords | training_corpus.py:123-129 | the stop list maps to 0 the stripped form of every non-empty line of the text |
| TrainingCorpora.StopWordsExact | training_corpus.py:127-129 | a word is a stop word exactly when it is the stripped form of a non-empty line, and it maps to 0 |
| TrainingCorpora.TrainingCorpus.TrainDirectory | training_corpus.py:145-173 | the vocabulary gains the words of the category's documents; the result is their counts and their number |
| TrainingCorpora.TrainedCounts | training_corpus.py:145-173 | the counts returned are all of clean words and add up to the total returned |
| TrainingCorpora.TrainingCorpus.SetUpFolds | training_corpus.py:191-192 | the bucket count and the category list are replaced |
| TrainingCorpora.TrainingCorpus.TrainCategory | training_corpus.py:250-284 | the vocabulary gains the words of the category's documents in every bucket except the excluded one, ascending; the result is their counts and their number |
| TrainingCorpora.HeldOutIgnored | training_corpus.py:250-254 | the documents of the excluded bucket never reach the counts |
| TrainingCorpora.TrimmedExact | training_corpus.py:175-181 | a word survives trimming exactly when it was counted at least 3 times, and keeps its count |
| TrainingCorpora.TrimmedIdempotent | training_corpus.py:175-181 | trimming twice is trimming once |
| TrainingCorpora.RareWords | training_corpus.py:176-179 | the delete list holds each word counted fewer than 3 times, once |
| TrainingCorpora.DeleteWords | training_corpus.py:180-181 | deleting the listed words removes exactly those words |
| TrainingCorpora.TrainingCorpus.TrimVocabulary | training_corpus.py:175-181 | the vocabulary becomes its trimmed form |
| TrainingCorpora.CategoryProbabilitiesValues | training_corpus.py:93-110 | a category's probabilities cover exactly the vocabulary, each is (count + 1) / (total + vocabulary size) with count 1 for an unseen word, each is positive, and each is at most 1 when the count stays below the denominator |
| TrainingCorpora.ProbabilitiesOrdered | training_corpus.py:98-106 | a word counted no more often gets no higher probability, and an unseen word gets the probability of a word counted once |
| TrainingCorpora.CategoryRow | training_corpus.py:98-110 | the word loop builds exactly that category's probabilities |
| TrainingCorpora.EmptyTable | training_corpus.py:89-91 | every category starts with an empty row |
| TrainingCorpora.TableIsProbabilities | training_corpus.py:89-110 | the table built category by category is the specified probability table |
| TrainingCorpora.ProbabilityTable | training_corpus.py:84-116 | the loops succeed exactly when every category has a total and, with a non-empty vocabulary, word counts; otherwise KeyError |
| TrainingCorpora.TrainingCorpus.ComputeProbabilities | training_corpus.py:84-118 | the probabilities are replaced by the table on success; on a KeyError they stay as they were |

## Left out

- Square roots, fractional powers, `exp` and `log` are not computed. They appear in `Clusterer.euclidean` and `manhattan`, `Classifier.euclidean`, the root in `minkowski`, `pearson` (recommender.py:71-91), both `cosine_similarity` (recommender.py:19-31, item_recommender.py:15-31), `standard_deviation` and `standard_score` (content_recommender.py:51-57), the sample standard deviation part of `calculate_means_and_sample_standard_deviation`, `probability_density_function` (naive_bayes.py:121-151) and the log-sum of `TrainingCorpus.classify` (training_corpus.py:28-49). Roots are parameters; similarity is a parameter of `predict`.
- File, directory and JSON I/O is not modelled: `open`, `readlines`, `write`, `csv.reader`, `json.loads` in `load_data` (recommender.py:36-39), `os.listdir`, the writing of bucket files in `create_buckets` (fold_cross_validator.py:104-109), `__bucket_filename`, `__test_directory_name`, `__training_directory_name` and `read_training_documents` (training_corpus.py:131-143). The parsing of the lines these read is modelled.
- Printing and drivers are not modelled: `print_cluster`, `print_clusters`, `print_confusion_matrix`, `TrainingCorpus.process` and `test` (training_corpus.py:51-82), `unit_test`, `test_training_set`, `test_all_training_sets`, `dogs`, `cereal`, `ihealth`, `house_votes`, `pima`, `mpg` and the statements that run on import.
- `fold_cross_validation` in training_corpus.py (lines 183-248) is modelled up to its set-up (bucket count and category list); its test loop calls the log-sum `classify` and prints, so it is not.
- `NaiveBayes.reset_data` and `NaiveBayes.test_training_bucket` call methods that do not exist under Python's name mangling (`__reset_data`, `__load_training_buckets`). Their evident intent (clear the state; load the other buckets; test one bucket) is modelled through the fold cross-validator's own members. `random_classifier_accuracy` and `kappa_statistic` are not part of this model.
- NaiveBayesian.NaiveBayes.LoadDataFromLines: naive_bayes.py:39 calls `self.split_line`, which no class defines (the validator's `__split_line` is renamed `_FoldCrossValidator__split_line`), so in the source any non-empty `lines` raises AttributeError. The model splits with the validator's comma split, as evidently intended.
- NaiveBayesian.NaiveBayes.constructor: in the source a fresh object has `data = []` (fold_cross_validator.py:68-70), a list, on which the `setdefault` of naive_bayes.py:58 fails, and no `prior_probabilities`, `means` or `sample_standard_deviations` attribute, so `classify` (line 13), `probabilities_from_data` (line 119) and `calculate_means_and_sample_standard_deviation` (line 72) raise AttributeError on it. The model starts from empty maps for all of them.
- NaiveBayesian.NaiveBayes.ProbabilitiesFromData: the source replaces `self.data` by the frequency tables (naive_bayes.py:115); the model keeps the raw values in `data` and stores the tables in the separate field `tables`. What the source does on a later call is not modelled: a second `probabilities_from_data` would count the keys of the frequency dictionaries (every value then gets 1 over the number of distinct values), and a later training `load_data_from_lines` would fail on the dictionaries.
- Recommending.Recommender.LoadText: the source stores the text rows in `data` itself (recommender.py:42, 50), replacing the numeric ratings, and returns that attribute. The model empties `data` and keeps the text rows in the separate field `rows`, because its ratings are typed as numbers. What later calls would do on string-valued rows (a `manhattan` subtraction raising TypeError) is not modelled.
- `Queue.PriorityQueue`'s locking and its blocking `get()` are not modelled; the queue is a sequence ordered by `(distance, index)`.
- HierarchicalClustering.HierarchicalClusterer.Cluster: requires `Valid()` (a non-empty table whose queue covers its rows); an empty queue would block in `get()`, which this model does not represent.
- KMeans.VectorAtIndex: the source builds the vector without looking at its cells and raises TypeError only at the first subtraction or `sum` that touches a text cell (clusterer.py:32-41, kmeans_clusterer.py:59). The model raises that TypeError as soon as the row's vector is built, so where the source meets another error first the model reports TypeError instead: a short column in a later row (IndexError at kmeans_clusterer.py:31 or 112), `kmeans_plus_plus` on a one-row table with k of 2 or more (IndexError at line 127), `random_points` with k above the row count (IndexError at line 156) and `cluster` with no centroids (ValueError from `min([])` at line 40). Wherever the source finishes without error, the model agrees, because every feature cell of every row meets a distance.
- KMeans.KmeansClusterer.Cluster: the recursion of `cluster` has no bound in the source; the model takes an explicit `fuel` and reports `NotConverged` when it runs out, so non-termination is not modelled.
- KMeans.KmeansClusterer.InitializeClusters: inherits the same `fuel` bound.
- ContentRecommending.Median: values are reals, so the `(left + right) / 2` of content_recommender.py:42 is a true mean. Python 2 would floor it for a list of integers of even length; the classifier only calls it on columns of floats. The index arithmetic `len / 2` is modelled as floor division.
- Threads, `random.seed()` and wall-clock time do not occur in the model.
