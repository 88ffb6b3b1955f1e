# City-Mood: headline classification core

City-Mood fetches recent news headlines about a city and scores each
headline's sentiment polarity. It labels the headline `Optimism`, `Neutral`
or `Fear/Anger`, and appends `(headline, emotion)` records to a document
store. This project models the decision logic of that pipeline:

- **Headline extraction.** The decoded news-search response becomes a list of titles.
  A response without an `articles` key gives an empty list.
- **The threshold classifier.** A polarity strictly above 0.1 is `Optimism`.
  A polarity strictly below -0.1 is `Fear/Anger`. Anything else is `Neutral`.
- **Row assembly.** Each headline, in order, becomes one `(headline, emotion)` row.
  Each row is submitted to the write as a record with exactly the two schema fields
  `headline` and `emotion`.

Modules: `Wrappers` (Option/Result), `Classifier` (cutoffs, `Emotion`,
`Classify`), `Headlines` (response shape and extraction), `Rows` (row
assembly and the record schema), `MoodOfCity` (one run, end to end).

The sentiment scorer is an external NLP library. It appears as a parameter
`polarity: string -> real` of `BuildRows` and `Run`. Nothing is assumed about
its range, so every property holds for any scorer. Polarity is a `real`
because the code only compares it with the two constants.

Behaviour of the code that the model keeps:

- The code does not check the HTTP status. It decodes the body and reads
  `articles` with a default of `[]`, so an error body without that key
  yields zero rows. `NoArticlesNoDocuments` states this.
- The code computes no per-label summary of a run. It only shows the rows
  and appends them.
- The title lookup `article['title']` raises when an article has no
  `title` key. `Titles`, `ExtractHeadlines` and `Run` model that error path
  as `Failure(MissingTitle(i))`, where `i` is the first untitled article.

## Model

| member | source | states |
|---|---|---|
| Classifier.Classify | project/mood_of_city.py:42-47 | The label is Optimism exactly when polarity > 0.1, Fear/Anger exactly when polarity < -0.1, and Neutral exactly when -0.1 <= polarity <= 0.1. |
| Classifier.StrictTestsExclusive | project/mood_of_city.py:42-45 | -0.1 < 0.1, so no polarity passes both the Optimism test and the Fear/Anger test. |
| Classifier.BoundariesAreNeutral | project/mood_of_city.py:46-47 | Exactly 0.1, exactly -0.1 and 0.0 are all classified Neutral. |
| Classifier.ClassifyMonotone | project/mood_of_city.py:42-47 | If p <= q, the label of q is not below the label of p in the order Fear/Anger < Neutral < Optimism. |
| Classifier.Emotion.Label | project/mood_of_city.py:43-47 | Optimism is written as "Optimism", Fear/Anger as "Fear/Anger" and Neutral as "Neutral", and each of these strings belongs to no other label. |
| Classifier.LabelOfPolarity | project/mood_of_city.py:42-47 | For every polarity, the `emotion` string is "Optimism" exactly when polarity > 0.1, "Fear/Anger" exactly when polarity < -0.1, and "Neutral" exactly when -0.1 <= polarity <= 0.1. |
| Classifier.CutoffsReached | project/mood_of_city.py:42-46 | The count of cutoffs reached is 0 exactly when polarity < -0.1 and 2 exactly when polarity > 0.1, and never more than 2. |
| Classifier.RankCountsCutoffs | project/mood_of_city.py:42-47 | The label's rank equals the number of cutoffs reached: -0.1 counts inclusively, 0.1 counts strictly. |
| Classifier.LabelInjective | project/mood_of_city.py:43-47 | The three label strings written to the `emotion` field are pairwise distinct. |
| Classifier.LabelsAreTheThree | project/mood_of_city.py:43-47 | Every emotion string written is "Optimism", "Fear/Anger" or "Neutral". |
| Headlines.Titles | project/mood_of_city.py:24 | Succeeds exactly when every article has a title, and then returns one title per article in article order. Otherwise it fails at the first untitled article. |
| Headlines.ExtractHeadlines | project/mood_of_city.py:24 | A missing `articles` key gives an empty headline list. Otherwise the result is the articles' titles in order, or a failure at the first untitled article. |
| Rows.RowFor | project/mood_of_city.py:40-48 | A headline's row keeps the headline unchanged. Its label's rank (Fear/Anger 0, Neutral 1, Optimism 2) is the number of cutoffs the headline's polarity reaches: -0.1 counts inclusively, 0.1 strictly. |
| Rows.BuildRows | project/mood_of_city.py:39-48 | Exactly one row per headline. Row i holds headline i unchanged, and its emotion is Classify(polarity(headline i)). |
| Rows.AssembleRows | project/mood_of_city.py:39-48 | The accumulating loop returns exactly the rows BuildRows defines. |
| Rows.HeadlinesPreserved | project/mood_of_city.py:39-48 | The rows' headline column is the input headline sequence itself: same length, same order, same text. |
| Rows.BuildRowsAppend | project/mood_of_city.py:39-48 | Rows are built per headline independently: the rows of a + b are the rows of a followed by the rows of b. |
| Rows.SameHeadlineSameEmotion | project/mood_of_city.py:40-47 | Two equal headlines anywhere in the input receive equal labels. |
| Rows.ToDocument | project/mood_of_city.py:33-36 | The record written under the schema has exactly the fields `headline` and `emotion`. They hold the row's headline and its label string. |
| Rows.ToDocumentInjective | project/mood_of_city.py:33-36 | Two rows give the same schema record exactly when they are the same row, so the record loses nothing. |
| Rows.Documents | project/mood_of_city.py:33-51 | The rows become one schema record each, in row order, as `createDataFrame(data, schema)` builds them. |
| MoodOfCity.Run | project/mood_of_city.py:24-48 | A missing `articles` key gives no records. Otherwise the run succeeds exactly when every article has a title. Then record i has exactly the two schema fields, holding title i and the label of its polarity. A failure names the first untitled article. |
| MoodOfCity.NoArticlesNoDocuments | project/mood_of_city.py:24 | A response without `articles`, or with an empty `articles` array, yields zero records. |
| MoodOfCity.NoHeadlinesNoRows | project/mood_of_city.py:39-40 | An empty headline list produces an empty row list. |
| MoodOfCity.MixedHeadlines | project/mood_of_city.py:24-48 | Headlines scoring 0.6, -0.4 and 0.0 yield Optimism, Fear/Anger and Neutral, in that order. |
| MoodOfCity.MissingTitleStopsRun | project/mood_of_city.py:24 | If any article has no title, the run fails. The failure names an untitled article no later than that one. |

## Left out

- The `.env` loading, the request URL (city "New York", page size 3), the HTTP fetch and JSON decoding (lines 10-21): network I/O and configuration. The model starts from the decoded response.
- TextBlob's polarity computation (line 41): a foreign NLP library. It is the parameter `polarity`, and no range is assumed.
- A JSON `null` as the `articles` value or as a title, and a non-object article: the model gives titles and the articles array as present or absent only.
- The Spark session, the DataFrame object itself, `show`, the MongoDB append write and `spark.stop()` (lines 27-30, 51-64): distributed runtime, console output and external persistence. The record contents that `createDataFrame(data, schema)` at line 51 builds are modelled by `ToDocument` and `Documents`. Because the store write is in append mode, a rerun duplicates documents. That belongs to the store, not to this core.
- The `_id` field: the MongoDB append (lines 57-62) submits rows without an `_id` column, so the store adds its own `_id` to every document. The model describes the two-field record submitted to the write, not the stored document.
- The schema's nullable flags (lines 34-35): the code never writes a null field, so the model has none.
- IEEE floating point: polarity and the cutoffs are exact reals. The float nearest 0.1 is not exactly 1/10, and a polarity within one rounding step of a cutoff is not modelled. A NaN polarity fails both comparisons and falls to `Neutral` in the code. Reals have no NaN, so this case is not modelled.
- project/check_systems.py: the cluster health probe (HDFS, YARN and MongoDB connectivity checks). It is operational plumbing whose results are only printed.
