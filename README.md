# Extraction-quality scorer, modelled in Dafny

This project models `evaluate_result_for_openai` in `src/analysis.py`. The
function takes one page-extraction record and returns two things:

- a quality score from 4 to 110;
- a report holding `completeness`, the six category scores (`detail_scores`),
  and the ordered `strengths` and `weaknesses` label lists.

The record is a dictionary. Each of its keys may be missing: `title`,
`meta_description`, `headings`, `content`, `word_count`, `link_count`,
`image_count`, `images_with_alt`, `execution_time` and `error`. A failed
extraction carries an `error` key. It scores 0 and its report holds only the
error.

Files:

- `wrappers.dfy`: `Option`, with `GetOr` for Python's `d.get(key, default)`.
- `pytext.dfy`: Python's `str.split()` with no separator (`Split`) and its
  whitespace test (`IsSpace`, the characters `str.isspace` accepts). Lemmas
  relate it to `" ".join` and to the non-whitespace characters of the text.
- `analysis.dfy`: the record, the six category scorers, the total, the
  completeness and the report.
  - `Evaluation` is the pure specification of the scorer.
  - `Evaluate` is the scorer step by step, as the source writes it. It is
    proved equal to `Evaluation`.
  - The lemmas state what the report promises.

Modelling choices:

- A record field is an `Option`. `None` stands for a missing key or a key
  holding Python's `None`; both score like the default. `Some("")` is a
  present, empty value, and it is falsy like a missing one.
- `error` is the exception. It is checked by key presence
  (src/analysis.py:5), so for `error` alone `None` means the key is missing,
  and any present value, Python's `None` included, is `Some` of its text.
  `Some("")` is still a failed extraction.
- Counts are unbounded `int`, because the scorer never validates them. A
  negative `word_count` is truthy and takes the lowest content band (10). A
  negative link or image count earns nothing.
- `execution_time` is an exact `real`. It defaults to 10 when absent, which
  scores 6.
- `completeness` is the exact real `min(100, total / 1.1)` of
  src/analysis.py:89, that is `total * 10 / 11` capped at 100.
- The six `if`/`elif` label blocks have one shape. `Judge` is that shape, with
  each category's thresholds read from `StrongAt` and `WeakAt`.
  - The headings block ends in `else` instead of an `elif`. It is modelled
    as the weakness threshold 9. On integer scores that is the same test.
- Labels are strings, and the report lists are `seq<string>`. Title and meta
  description lengths count characters (Unicode scalar values), as Python's
  `len` does.

Behaviour worth noting:

- Zero headings score 0 (src/analysis.py:37-46). An empty list is falsy and
  never reaches the banded comparison, so its `else: 5` branch is dead.
  `HeadingsScore` proves it unreachable.
- A missing `execution_time` defaults to 10 seconds (src/analysis.py:75),
  which scores 6 (src/analysis.py:80-81).
- The smallest total without an error is 4, because performance never scores
  below 4 (src/analysis.py:76-83).
- Content that is present but has no words still scores 10
  (src/analysis.py:51-60). Whitespace-only text with no `word_count` is an
  example.

## Model

| member | source | states |
|---|---|---|
| PyText.Split | src/analysis.py:52 | every token `content.split()` returns is non-empty and contains no whitespace |
| PyText.SplitWordThen | src/analysis.py:52 | a word followed by any one whitespace character splits into that word, then the split of the rest: tokens end exactly at whitespace |
| PyText.SplitSkipsSpace | src/analysis.py:52 | any run of leading whitespace yields no token; with `SplitWord` and `SplitWordThen` this fixes the tokens as the maximal non-whitespace runs of every string |
| PyText.SplitJoin | src/analysis.py:52 | round trip: splitting words joined by single spaces gives back exactly those words |
| PyText.SplitKeepsNonSpace | src/analysis.py:52 | the tokens, concatenated, are exactly the non-whitespace characters of the text in order (splitting drops only whitespace) |
| PyText.SplitEmptyIff | src/analysis.py:52 | the split is empty if and only if the text is empty or all whitespace |
| Analysis.TitleScore | src/analysis.py:10-21 | the title score is one of 0, 10, 15, 20, and it is 0 exactly when the title is missing, empty or the "No title found" placeholder |
| Analysis.MetaDescriptionScore | src/analysis.py:23-34 | the meta score is one of 0, 5, 10, 15, and it is 0 exactly when the description is missing, empty or the "No meta description found" placeholder |
| Analysis.HeadingsScore | src/analysis.py:36-46 | the headings score is one of 0, 10, 15 (the 5-point branch is never taken); 0 exactly when there are no headings, 15 exactly when there are at least 3 |
| Analysis.ContentBand | src/analysis.py:53-60 | once content exists, its score is one of 10, 15, 25, 30 |
| Analysis.ContentScore | src/analysis.py:48-62 | the content score is one of 0, 10, 15, 25, 30; 0 exactly when `word_count` is falsy and `content` is empty; a non-zero `word_count` decides the band whatever `content` holds |
| Analysis.AdditionalScore | src/analysis.py:64-72 | the additional-elements score is one of 0, 5, 10, 15, 20; any link guarantees at least 10; 0 exactly when no count is positive, 20 exactly when all three are |
| Analysis.PerformanceScore | src/analysis.py:74-83 | the performance score is one of 4, 6, 8, 10; a missing time scores 6; it is 8 or more exactly when the time is at most 5 seconds |
| Analysis.ScoresOf | src/analysis.py:8-83 | the six category scores of any record each lie in their category's value set |
| Analysis.Total | src/analysis.py:85 | for valid category scores the total lies in 4..110, and it is 110 exactly when every category is at its maximum |
| Analysis.Completeness | src/analysis.py:89 | completeness never exceeds 100, is non-negative for a non-negative total, and is exactly 100 when the total is 110 or more |
| Analysis.Evaluation | src/analysis.py:3-126 | a record with an `error` key gives exactly `(0, error report)`, whatever its other fields hold; otherwise the report's category scores are the six scorers' results, the total is their sum (in 4..110) and the completeness is computed from that total (in 0..100) |
| Analysis.Judge | src/analysis.py:96-124 | one category's label block appends that category's strength label, its weakness label, or nothing, according to its verdict |
| Analysis.StrengthsAndWeaknesses | src/analysis.py:95-124 | the strengths and weaknesses the label blocks build are the verdict labels of the six categories, in the order title, meta description, content, headings, additional elements, performance |
| Analysis.Evaluate | src/analysis.py:3-126 | the step-by-step scorer (error check, the six scores with the additional score accumulated one check at a time, the sum, the labels appended in place) returns exactly `Evaluation` |
| Analysis.LabelInjective | src/analysis.py:96-124 | two categories never share a strength label, and never share a weakness label |
| Analysis.LabelsMembership | src/analysis.py:95-124 | a category's label is in a list if and only if the category was judged and its verdict is that list's kind |
| Analysis.LabelCount | src/analysis.py:95-124 | each judged category adds at most one label: the strengths, weaknesses and unlabelled categories together account for every category |
| Analysis.LabelsOrdered | src/analysis.py:95-124 | labels keep the order of their categories: a category judged earlier has its label earlier in the list |
| Analysis.ReportVerdicts | src/analysis.py:96-124 | in a report, a category is a strength if and only if its score reaches the strength threshold, and a weakness if and only if it is at or below the weakness threshold; no category is both; headings always give exactly one label |
| Analysis.ReportLabelCount | src/analysis.py:95-124 | a report holds 6 labels, minus one if the additional elements score 10, minus one if performance scores 6, so from 4 to 6 |
| Analysis.WhitespaceContentScoresTen | src/analysis.py:49-62 | whitespace-only content with a zero or missing `word_count` still scores 10 |
| Analysis.ContentFromWords | src/analysis.py:49-62 | content of n space-separated words with no `word_count` is scored by the band of n |
| Analysis.TitleBandEdges | src/analysis.py:13-19 | title lengths 10 and 60 score 20; 5, 9, 61 and 80 score 15; 1 to 4 and from 81 score 10 |
| Analysis.MetaDescriptionBandEdges | src/analysis.py:26-32 | description lengths 50 and 160 score 15; 30, 49, 161 and 200 score 10; 1 to 29 and from 201 score 5 |
| Analysis.ContentBandMonotone | src/analysis.py:53-60 | more words never give a lower content band |
| Analysis.PerformanceMonotone | src/analysis.py:75-83 | a longer execution time never gives a higher performance score |
| Analysis.AdditionalIsSumOfChecks | src/analysis.py:65-72 | the three additional-element checks are independent: the score is the sum of what each count earns alone |
| Analysis.CompletenessMonotone | src/analysis.py:89 | a higher total never gives a lower completeness |
| Analysis.FullMarksExample | src/analysis.py:3-126 | a well-extracted page (41-character title, 80-character description, 3 headings, 620 words, links, images with alt text, 1.4 s) scores 110 with completeness 100 and all six strengths |
| Analysis.PlaceholderExample | src/analysis.py:3-126 | a page of placeholders and zero counts taking 12 s scores 4, with completeness 40/11, no strengths and six weaknesses in report order |

## Left out

- `run_test_analysis` and `generate_seo_analysis` (src/analysis.py:128-252) are left out. They format prompts and call the OpenAI API, whose free-text answers cannot be modelled.
- src/crawlers.py is left out: HTTP fetching, HTML parsing, the managed-crawler SDK and its retry loop. The model takes the records they produce as input.
- src/app.py (the Streamlit UI and its recommendation messages), src/visualization.py (charts), src/utils.py (wall-clock timing, HTTP session set-up, environment loading), src/config.py and src/__init__.py are left out. They are I/O or glue.
- Floating point is not modelled. `total_score / 1.1` and measured execution times are exact reals, so rounding in the last bit of `completeness` is not captured. In IEEE doubles `110 / 1.1` is 99.99999999999999, so the program's `min(100, …)` never clamps and a full-marks page reports 99.99999999999999. `Completeness` and `FullMarksExample`, which give exactly 100 at a total of 110, hold only in exact arithmetic.
- Dynamic typing is not modelled. A key that holds `None` where a number is compared (`link_count`, `image_count`, `images_with_alt`, `execution_time`) makes Python raise `TypeError`. The model reads `None` as a missing key there. A present `error` key holding `None`, or any other non-text value, is modelled as `Some` of its text; Python would return that value itself in the error report.
- A Python string with lone surrogate code points has no Dafny `string` counterpart. Lengths are otherwise counted the same way.
